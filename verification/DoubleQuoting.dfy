/** What the emitter writes between double quotes, with lines split or not, and when that is read back. */
module DoubleQuoting {
  import opened Chars
  import opened FlowScalars
  import opened QuotedReading
  import opened Escapes

  /** The text between double quotes when no line is split. */
  function EscapeAll(allowUnicode: bool, text: Text): Text {
    if text == [] then []
    else
      var c := text[|text| - 1];
      EscapeAll(allowUnicode, text[..|text| - 1]) + if MustEscape(allowUnicode, c) then EscapeText(c) else [c]
  }

  /** A simple key between double quotes. */
  function QuotedKey(allowUnicode: bool, text: Text): Text { [DQUOTE] + EscapeAll(allowUnicode, text) + [DQUOTE] }

  lemma {:induction false} EscapeAllRun(allowUnicode: bool, text: Text, a: nat, b: nat)
    requires a <= b <= |text|
    requires forall i :: a <= i < b ==> !MustEscape(allowUnicode, text[i])
    ensures EscapeAll(allowUnicode, text[..b]) == EscapeAll(allowUnicode, text[..a]) + text[a..b]
  {
    if a < b {
      EscapeAllRun(allowUnicode, text, a, b - 1);
      assert text[..b][..b - 1] == text[..b - 1];
      assert text[a..b] == text[a..b - 1] + [text[b - 1]];
    }
  }

  lemma EscapeAllEmpty(allowUnicode: bool, text: Text)
    ensures EscapeAll(allowUnicode, text[..0]) == []
  {
  }

  lemma EscapeAllStep(allowUnicode: bool, text: Text, i: nat)
    requires i < |text| && MustEscape(allowUnicode, text[i])
    ensures EscapeAll(allowUnicode, text[..i + 1]) == EscapeAll(allowUnicode, text[..i]) + EscapeText(text[i])
  {
    assert text[..i + 1][..i] == text[..i];
  }

  predicate AllPrintable(t: Text) {
    forall i :: 0 <= i < |t| ==> IsPrintable(t[i])
  }

  lemma RawUnescaped(allowUnicode: bool, r: Text)
    requires forall i :: 0 <= i < |r| ==> !MustEscape(allowUnicode, r[i])
    ensures AllRaw(true, r) && AllPrintable(r)
  {
  }

  /** How far a double-quoted text has been written: `w` stands for its first `start` characters;
      `guard` if a backslash was written for the space that comes next, `tight` if no white space may
      follow. */
  datatype Progress = Progress(w: Text, start: nat, guard: bool, tight: bool) {
    function Written(): Text {
      w + if guard then [BACKSLASH] else []
    }

    ghost predicate Good(allowUnicode: bool, text: Text, split: bool, ok: bool) {
      && start <= |text|
      && (guard ==> start < |text| && text[start] == SPACE && split)
      && AllPrintable(w)
      && (ok ==> Reads(true, w, text[..start], tight))
      && (!split ==> w == EscapeAll(allowUnicode, text[..start]))
    }

    /** No white space may be written next unless it is escaped. */
    predicate Ready(text: Text) {
      tight && !guard && start < |text| ==> text[start] != SPACE
    }

    /** The pending run text[start..end] is written. */
    function Flush(text: Text, end: nat): Progress
      requires start <= end <= |text|
    {
      Progress(Written() + text[start..end], end, false, true)
    }

    function Escaped(c: Char): Progress {
      Progress(w + EscapeText(c), start + 1, false, false)
    }

    function Continued(lb: Text, n: nat): Progress {
      Progress(w + ([BACKSLASH] + lb + Spaces(n)), start, false, true)
    }

    /** The pending run may be written: it is read as it is. */
    lemma FlushGood(allowUnicode: bool, text: Text, split: bool, ok: bool, end: nat)
      requires Good(allowUnicode, text, split, ok) && Ready(text)
      requires start < end <= |text| && forall i :: start <= i < end ==> !MustEscape(allowUnicode, text[i])
      ensures Flush(text, end).Good(allowUnicode, text, split, ok)
    {
      hide Reads, EscapeAll;
      var r := text[start..end];
      RawUnescaped(allowUnicode, r);
      assert text[..start] + r == text[..end];
      EscapeAllRun(allowUnicode, text, start, end);
      if guard {
        assert Written() + r == w + ([BACKSLASH] + r);
        ReadsGuarded(r);
        if ok { ReadsThen(true, w, text[..start], tight, [BACKSLASH] + r, r, true); }
      } else {
        assert Written() == w;
        ReadsRaw(true, r);
        if ok { ReadsThen(true, w, text[..start], tight, r, r, true); }
      }
    }

    lemma EscapedGood(allowUnicode: bool, text: Text, split: bool, ok: bool)
      requires Good(allowUnicode, text, split, ok) && !guard
      requires start < |text| && MustEscape(allowUnicode, text[start])
      ensures Escaped(text[start]).Good(allowUnicode, text, split, ok)
    {
      hide Reads, EscapeAll, MustEscape;
      var c := text[start];
      assert text[..start] + [c] == text[..start + 1];
      ReadsEscape(c);
      EscapePrintable(c);
      EscapeAllStep(allowUnicode, text, start);
      if ok { ReadsThen(true, w, text[..start], tight, EscapeText(c), [c], false); }
    }

    lemma ContinuedGood(allowUnicode: bool, text: Text, split: bool, ok: bool, lb: Text, n: nat)
      requires Good(allowUnicode, text, split, ok) && !guard && split
      requires IsLineBreak(lb) && (ok ==> n > 0)
      ensures Continued(lb, n).Good(allowUnicode, text, split, ok)
    {
      hide Reads;
      if ok {
        ReadsContinuation(lb, n);
        ReadsThen(true, w, text[..start], tight, [BACKSLASH] + lb + Spaces(n), [], true);
        assert text[..start] + [] == text[..start];
      }
    }
  }

  // The text between the quotes, as write_double_quoted puts it together.

  /** How the emitter is set up, and the indentation it is at. */
  datatype Layout = Layout(allowUnicode: bool, lb: Text, indent: nat, width: int, split: bool)

  /** What is written, and the start of the pending run and the column then. */
  datatype Stepped = Stepped(piece: Text, start: nat, column: nat)

  /** The pending run and an escape, in front of a character that must be escaped and at the end. */
  function RunStep(o: Layout, text: Text, start: nat, end: nat, column: nat): (r: Stepped)
    requires start <= end <= |text|
    ensures r.start <= end + 1 && r.start <= |text|
  {
    if end == |text| then Stepped(text[start..end], end, column + end - start)
    else if MustEscape(o.allowUnicode, text[end]) then
      var e := EscapeText(text[end]);
      Stepped(text[start..end] + e, end + 1, column + (end - start) + |e|)
    else Stepped([], start, column)
  }

  /** Whether the line is continued on the next one here. */
  predicate SplitsAt(o: Layout, text: Text, start: nat, end: nat, column: nat) {
    o.split && 0 < end < |text| - 1 && (text[end] == SPACE || start >= end) && column + end - start > o.width
  }

  /** The pending run, a backslash, the next line with its indentation, and one more backslash in front of a
      space. */
  function ContinueStep(o: Layout, text: Text, start: nat, end: nat, column: nat): (r: Stepped)
    requires start <= end + 1 && start <= |text|
    ensures r.start <= end + 1 && r.start <= |text|
  {
    if SplitsAt(o, text, start, end, column) then
      var run := if start < end then text[start..end] else [];
      var next := if start < end then end else start;
      var guard: Text := if text[next] == SPACE then [BACKSLASH] else [];
      Stepped(run + ([BACKSLASH] + o.lb + Spaces(o.indent)) + guard, next, o.indent + |guard|)
    else Stepped([], start, column)
  }

  /** What is still to be written when the loop is at `end`, with text[start..end] pending. */
  function RestOf(o: Layout, text: Text, start: nat, end: nat, column: nat): Text
    requires start <= end <= |text| + 1 && start <= |text|
    decreases |text| + 1 - end
  {
    if end > |text| then []
    else
      var r := RunStep(o, text, start, end, column);
      var c := ContinueStep(o, text, r.start, end, r.column);
      r.piece + c.piece + RestOf(o, text, c.start, end + 1, c.column)
  }

  /** The text between the quotes; `column` is that behind the opening quote. */
  function Body(o: Layout, text: Text, column: nat): Text { RestOf(o, text, 0, 0, column) }

  // Below the width it is read back.

  function AfterRun(o: Layout, text: Text, end: nat, p: Progress): Progress
    requires p.start <= end <= |text|
  {
    var q := if p.start < end then p.Flush(text, end) else p;
    if end == |text| then q
    else if MustEscape(o.allowUnicode, text[end]) then q.Escaped(text[end])
    else p
  }

  function AfterContinuing(o: Layout, text: Text, end: nat, p: Progress): Progress
    requires p.start <= end + 1 && end + 1 < |text|
  {
    var q := if p.start < end then p.Flush(text, end) else Progress(p.Written(), p.start, false, p.tight);
    var c := q.Continued(o.lb, o.indent);
    if text[c.start] == SPACE then c.(guard := true) else c
  }

  lemma RunGood(o: Layout, text: Text, end: nat, column: nat, p: Progress, ok: bool)
    requires p.Good(o.allowUnicode, text, o.split, ok) && p.Ready(text) && p.start <= end <= |text|
    requires Unescaped(o, text, p.start, end)
    ensures var r, q := RunStep(o, text, p.start, end, column), AfterRun(o, text, end, p);
            && q.Good(o.allowUnicode, text, o.split, ok) && q.Ready(text) && q.start == r.start
            && q.Written() == p.Written() + r.piece
            && (end == |text| ==> q.start == |text| && !q.guard)
            && Unescaped(o, text, q.start, end + 1)
            && (q.guard ==> q == p && r.column == column)
  {
    hide Reads, EscapeAll, EscapeText;
    assert p.Written() + [] == p.Written();
    if end == |text| || MustEscape(o.allowUnicode, text[end]) {
      var q := if p.start < end then p.Flush(text, end) else p;
      if p.start < end {
        p.FlushGood(o.allowUnicode, text, o.split, ok, end);
      } else {
        assert text[p.start..end] == [];
      }
      assert q.Written() == p.Written() + text[p.start..end];
      if end < |text| {
        q.EscapedGood(o.allowUnicode, text, o.split, ok);
        assert p.Written() + text[p.start..end] + EscapeText(text[end])
               == p.Written() + (text[p.start..end] + EscapeText(text[end]));
      }
    }
  }

  lemma ContinuingGood(o: Layout, text: Text, end: nat, column: nat, p: Progress, ok: bool)
    requires p.Good(o.allowUnicode, text, o.split, ok) && p.Ready(text) && p.start <= end + 1 && IsLineBreak(o.lb)
    requires Unescaped(o, text, p.start, end + 1)
    requires SplitsAt(o, text, p.start, end, column) && (ok && p.guard ==> p.start < end) && (ok ==> o.indent > 0)
    ensures var c, q := ContinueStep(o, text, p.start, end, column), AfterContinuing(o, text, end, p);
            && q.Good(o.allowUnicode, text, o.split, ok) && q.Ready(text) && q.start == c.start
            && q.Written() == p.Written() + c.piece && (q.guard ==> c.column == o.indent + 1)
            && Unescaped(o, text, q.start, end + 1)
  {
    hide Reads, EscapeAll, MustEscape;
    var run := if p.start < end then text[p.start..end] else [];
    var q := if p.start < end then p.Flush(text, end) else Progress(p.Written(), p.start, false, p.tight);
    if p.start < end {
      p.FlushGood(o.allowUnicode, text, o.split, ok, end);
    } else {
      assert p.guard || p.Written() == p.w;
    }
    var line := [BACKSLASH] + o.lb + Spaces(o.indent);
    var guard: Text := if text[q.start] == SPACE then [BACKSLASH] else [];
    q.ContinuedGood(o.allowUnicode, text, o.split, ok, o.lb, o.indent);
    assert p.Written() + [] == p.Written() && q.w == p.Written() + run;
    assert p.Written() + run + line + guard == p.Written() + (run + line + guard);
    assert p.Written() + run + line + [] == p.Written() + run + line;
  }

  ghost predicate Done(o: Layout, text: Text, w: Text, ok: bool) {
    && (ok ==> ReadsBack(true, w, text))
    && AllPrintable(w)
    && (!o.split ==> w == EscapeAll(o.allowUnicode, text))
  }

  /** What holds between two rounds of the loop. */
  ghost predicate Between(o: Layout, text: Text, end: nat, column: nat, p: Progress, ok: bool) {
    && p.Good(o.allowUnicode, text, o.split, ok) && p.Ready(text) && p.start <= end <= |text| + 1
    && (end == |text| + 1 ==> p.start == |text| && !p.guard)
    && Unescaped(o, text, p.start, end)
    && (ok && p.guard && p.start == end ==> column == o.indent + 1)
  }

  predicate Unescaped(o: Layout, text: Text, start: nat, end: nat) {
    forall i :: start <= i < end && i < |text| ==> !MustEscape(o.allowUnicode, text[i])
  }

  lemma OneRound(o: Layout, text: Text, end: nat, column: nat, p: Progress, ok: bool)
      returns (q: Progress, column': nat)
    requires Between(o, text, end, column, p, ok) && end <= |text| && IsLineBreak(o.lb)
    requires ok ==> !o.split || 0 < o.indent < o.width
    ensures p.start <= end && p.start <= |text| && q.start <= end + 1 && q.start <= |text|
    ensures Between(o, text, end + 1, column', q, ok)
    ensures p.Written() + RestOf(o, text, p.start, end, column)
            == q.Written() + RestOf(o, text, q.start, end + 1, column')
  {
    hide Reads, EscapeAll, MustEscape, Progress.Good, Unescaped, Progress.Written, RestOf, RunStep, AfterRun,
         ContinueStep, AfterContinuing;
    var r := RunStep(o, text, p.start, end, column);
    RunGood(o, text, end, column, p, ok);
    q, column' := AfterRun(o, text, end, p), r.column;
    var c := ContinueStep(o, text, r.start, end, r.column);
    Round(o, text, p.start, end, column, r, c, RestOf(o, text, c.start, end + 1, c.column));
    Joins(p.Written(), r.piece, c.piece, RestOf(o, text, c.start, end + 1, c.column));
    if SplitsAt(o, text, r.start, end, r.column) {
      ContinuingGood(o, text, end, r.column, q, ok);
      q, column' := AfterContinuing(o, text, end, q), c.column;
    } else {
      NotContinued(o, text, r.start, end, r.column);
    }
  }

  lemma Joins(a: Text, b: Text, c: Text, d: Text)
    ensures a + b + c + d == a + (b + c + d) && a + b + [] == a + b
  {
  }

  lemma NotContinued(o: Layout, text: Text, start: nat, end: nat, column: nat)
    requires start <= end + 1 && start <= |text| && !SplitsAt(o, text, start, end, column)
    ensures ContinueStep(o, text, start, end, column) == Stepped([], start, column)
  {
  }

  /** One round of the loop, when its parts are known. */
  lemma Round(o: Layout, text: Text, start: nat, end: nat, column: nat, r: Stepped, c: Stepped, rest: Text)
    requires start <= end <= |text| && start <= |text| && r == RunStep(o, text, start, end, column)
    requires c == ContinueStep(o, text, r.start, end, r.column) && rest == RestOf(o, text, c.start, end + 1, c.column)
    ensures RestOf(o, text, start, end, column) == r.piece + c.piece + rest
  {
  }

  lemma {:induction false} RestReads(o: Layout, text: Text, end: nat, column: nat, p: Progress, ok: bool)
    requires Between(o, text, end, column, p, ok) && IsLineBreak(o.lb)
    requires ok ==> !o.split || 0 < o.indent < o.width
    ensures p.start <= end <= |text| + 1 && p.start <= |text|
    ensures Done(o, text, p.Written() + RestOf(o, text, p.start, end, column), ok)
    decreases |text| + 1 - end
  {
    if end > |text| {
      NothingLeft(o, text, p, ok);
      assert p.Written() + [] == p.w;
    } else {
      hide RestOf, Done, Between, Progress.Written;
      var q, column' := OneRound(o, text, end, column, p, ok);
      RestReads(o, text, end + 1, column', q, ok);
    }
  }

  lemma NothingLeft(o: Layout, text: Text, p: Progress, ok: bool)
    requires p.Good(o.allowUnicode, text, o.split, ok) && p.start == |text| && !p.guard
    ensures Done(o, text, p.w, ok)
  {
    hide Reads, ReadsBack, EscapeAll;
    assert text[..p.start] == text;
    if ok { ReadsToTheQuote(true, p.w, text, p.tight); }
  }

  lemma BodyReads(o: Layout, text: Text, column: nat)
    requires IsLineBreak(o.lb)
    ensures Done(o, text, Body(o, text, column), !o.split || 0 < o.indent < o.width)
  {
    hide Reads, EscapeAll, RestOf;
    var p := Progress([], 0, false, false);
    ReadsNothing(true);
    EscapeAllEmpty(o.allowUnicode, text);
    assert text[..0] == [] && p.Written() + Body(o, text, column) == Body(o, text, column);
    RestReads(o, text, 0, column, p, !o.split || 0 < o.indent < o.width);
  }

  // From the width on it is not.

  /** Ordinary characters up to the width, one that must be escaped, and a space in front of two more. */
  function Witness(width: nat): Text { seq(width, i => 0x78) + [0x07, SPACE, 0x79, 0x79] }

  /** Ordinary characters are only counted. */
  lemma {:induction false} RunPends(o: Layout, width: nat, end: nat, column: nat)
    requires end <= width
    ensures Body(o, Witness(width), column) == RestOf(o, Witness(width), 0, end, column)
    decreases end
  {
    if end > 0 {
      var text := Witness(width);
      RunPends(o, width, end - 1, column);
      assert text[end - 1] == 0x78;
      assert RunStep(o, text, 0, end - 1, column) == Stepped([], 0, column);
      assert ContinueStep(o, text, 0, end - 1, column) == Stepped([], 0, column);
      assert [] + [] + RestOf(o, text, 0, end, column) == RestOf(o, text, 0, end, column);
    }
  }

  lemma FirstSplit(o: Layout, width: nat, column: nat, rest: Text)
    requires o.split && 0 < width == o.width <= o.indent
    requires rest == RestOf(o, Witness(width), width + 1, width + 1, o.indent + 1)
    ensures var line := [BACKSLASH] + o.lb + Spaces(o.indent);
            RestOf(o, Witness(width), 0, width, column)
                == seq(width, i => 0x78) + [BACKSLASH, 0x61] + (line + [BACKSLASH]) + rest
  {
    hide RestOf;
    var text, x := Witness(width), seq(width, i => 0x78);
    assert text[width] == 0x07 && text[width + 1] == SPACE && text[0..width] == x;
    var e: Text := [BACKSLASH, 0x61];
    assert EscapeText(0x07) == e;
    var r := Stepped(x + e, width + 1, column + width + 2);
    assert RunStep(o, text, 0, width, column) == r;
    var line := [BACKSLASH] + o.lb + Spaces(o.indent);
    assert [] + line + [BACKSLASH] == line + [BACKSLASH];
    var c := Stepped(line + [BACKSLASH], width + 1, o.indent + 1);
    assert ContinueStep(o, text, width + 1, width, column + width + 2) == c;
    Round(o, text, 0, width, column, r, c, rest);
  }

  lemma SecondSplit(o: Layout, width: nat, rest: Text)
    requires o.split && 0 < width == o.width <= o.indent
    requires rest == RestOf(o, Witness(width), width + 1, width + 2, o.indent + 1)
    ensures var line := [BACKSLASH] + o.lb + Spaces(o.indent);
            RestOf(o, Witness(width), width + 1, width + 1, o.indent + 1) == line + [BACKSLASH] + rest
  {
    hide RestOf;
    var text := Witness(width);
    assert text[width + 1] == SPACE;
    var r := Stepped([], width + 1, o.indent + 1);
    assert RunStep(o, text, width + 1, width + 1, o.indent + 1) == r;
    var line := [BACKSLASH] + o.lb + Spaces(o.indent);
    assert [] + line + [BACKSLASH] == line + [BACKSLASH] && [] + (line + [BACKSLASH]) == line + [BACKSLASH];
    var c := Stepped(line + [BACKSLASH], width + 1, o.indent + 1);
    assert ContinueStep(o, text, width + 1, width + 1, o.indent + 1) == c;
    Round(o, text, width + 1, width + 1, o.indent + 1, r, c, rest);
  }

  /** The guard written behind the first split stands in front of the backslash of the second one. */
  lemma WitnessBody(o: Layout, width: nat, column: nat)
    requires o.split && 0 < width == o.width <= o.indent
    ensures var line := o.lb + Spaces(o.indent);
            Body(o, Witness(width), column)
            == seq(width, i => 0x78) + [BACKSLASH, 0x61] + ([BACKSLASH] + line) + ([BACKSLASH, BACKSLASH] + line)
               + ([BACKSLASH] + [SPACE, 0x79, 0x79])
  {
    hide RestOf, Body, Witness;
    var last: Text := [SPACE, 0x79, 0x79];
    RunPends(o, width, width, column);
    LastRun(o, width);
    SecondSplit(o, width, last);
    var line := o.lb + Spaces(o.indent);
    FirstSplit(o, width, column, [BACKSLASH] + o.lb + Spaces(o.indent) + [BACKSLASH] + last);
    Splits(seq(width, i => 0x78) + [BACKSLASH, 0x61], o.lb, Spaces(o.indent), last);
  }

  lemma Splits(x: Text, lb: Text, indent: Text, last: Text)
    ensures var line := [BACKSLASH] + lb + indent;
            x + (line + [BACKSLASH]) + (line + [BACKSLASH] + last)
            == x + ([BACKSLASH] + (lb + indent)) + ([BACKSLASH, BACKSLASH] + (lb + indent)) + ([BACKSLASH] + last)
  {
  }

  lemma LastRun(o: Layout, width: nat)
    requires o.split && 0 < width == o.width <= o.indent
    ensures RestOf(o, Witness(width), width + 1, width + 2, o.indent + 1) == [SPACE, 0x79, 0x79]
  {
    var text := Witness(width);
    assert text[width + 1..width + 4] == [SPACE, 0x79, 0x79];
    var c := o.indent + 1;
    assert RunStep(o, text, width + 1, width + 2, c) == Stepped([], width + 1, c);
    assert ContinueStep(o, text, width + 1, width + 2, c) == Stepped([], width + 1, c);
    assert RunStep(o, text, width + 1, width + 3, c) == Stepped([], width + 1, c);
    assert ContinueStep(o, text, width + 1, width + 3, c) == Stepped([], width + 1, c);
    assert RunStep(o, text, width + 1, width + 4, c).piece == [SPACE, 0x79, 0x79];
    assert RestOf(o, text, width + 4, width + 5, c + 3) == [];
    assert RestOf(o, text, width + 1, width + 4, c) == [SPACE, 0x79, 0x79] + [] + [];
    assert RestOf(o, text, width + 1, width + 3, c) == [] + [] + RestOf(o, text, width + 1, width + 4, c);
    assert RestOf(o, text, width + 1, width + 2, c) == [] + [] + RestOf(o, text, width + 1, width + 3, c);
  }

  /** The scanner reads the two backslashes as one, and the line break behind them as a space. */
  lemma WitnessReads(o: Layout, width: nat, column: nat)
    requires o.split && 0 < width == o.width <= o.indent && IsLineBreak(o.lb)
    ensures ReadsBack(true, Body(o, Witness(width), column),
                      seq(width, i => 0x78) + [0x07, BACKSLASH, SPACE, SPACE, 0x79, 0x79])
  {
    hide Reads, ReadsBack;
    var x: Text := seq(width, i => 0x78);
    var line := o.lb + Spaces(o.indent);
    ReadsRaw(true, x);
    ReadsEscape(0x07);
    assert EscapeText(0x07) == [BACKSLASH, 0x61];
    ReadsThen(true, x, x, true, [BACKSLASH, 0x61], [0x07], false);
    ReadsContinuation(o.lb, o.indent);
    assert [BACKSLASH] + o.lb + Spaces(o.indent) == [BACKSLASH] + line;
    ReadsThen(true, x + [BACKSLASH, 0x61], x + [0x07], false, [BACKSLASH] + line, [], true);
    ReadsEscape(BACKSLASH);
    assert EscapeText(BACKSLASH) == [BACKSLASH, BACKSLASH];
    ReadsFold(true, o.lb, o.indent);
    ReadsThen(true, [BACKSLASH, BACKSLASH], [BACKSLASH], false, line, [SPACE], true);
    var w := x + [BACKSLASH, 0x61] + ([BACKSLASH] + line);
    ReadsThen(true, w, x + [0x07] + [], true, [BACKSLASH, BACKSLASH] + line, [BACKSLASH] + [SPACE], true);
    ReadsGuarded([SPACE, 0x79, 0x79]);
    ReadsThen(true, w + ([BACKSLASH, BACKSLASH] + line), x + [0x07] + [] + ([BACKSLASH] + [SPACE]), true,
              [BACKSLASH] + [SPACE, 0x79, 0x79], [SPACE, 0x79, 0x79], true);
    WitnessBody(o, width, column);
    ReadsToTheQuote(true, w + ([BACKSLASH, BACKSLASH] + line) + ([BACKSLASH] + [SPACE, 0x79, 0x79]),
                    x + [0x07] + [] + ([BACKSLASH] + [SPACE]) + [SPACE, 0x79, 0x79], true);
    assert x + [0x07] + [] + ([BACKSLASH] + [SPACE]) + [SPACE, 0x79, 0x79]
           == x + [0x07, BACKSLASH, SPACE, SPACE, 0x79, 0x79];
  }

  lemma ReadsBackOnce(double: bool, w: Text, u: Text, v: Text)
    requires ReadsBack(double, w, u) && ReadsBack(double, w, v)
    ensures u == v
  {
    hide FlowScalar;
    assert ClosesAt(double, w, u, [NUL]) && ClosesAt(double, w, v, [NUL]);
  }

  /** With splitting, whatever the column behind the quote, every text is read back exactly when the indentation
      is below the width. */
  lemma SplitTextsReadBack(o: Layout, column: nat)
    requires o.split && IsLineBreak(o.lb) && 0 < o.indent && 0 < o.width
    ensures (forall text: Text :: ReadsBack(true, Body(o, text, column), text)) <==> o.indent < o.width
  {
    hide ReadsBack, Body;
    if o.indent < o.width {
      forall text: Text ensures ReadsBack(true, Body(o, text, column), text) {
        BodyReads(o, text, column);
      }
    } else {
      var text := Witness(o.width);
      var changed := seq(o.width, i => 0x78) + [0x07, BACKSLASH, SPACE, SPACE, 0x79, 0x79];
      assert |text| == o.width + 4 != |changed|;
      WitnessReads(o, o.width, column);
      if ReadsBack(true, Body(o, text, column), text) {
        ReadsBackOnce(true, Body(o, text, column), text, changed);
      }
    }
  }
}
