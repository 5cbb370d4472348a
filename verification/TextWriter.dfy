/** The emitter's scalar writers (yaml/emitter.py), with the output position they keep. */
module TextWriter {
  import opened Options
  import opened Chars
  import opened QuotedReading
  import opened DoubleQuoting
  import opened EmitterOutput
  import opened Escapes
  import opened ScalarAnalysis
  import opened PlainReading
  import opened BlockScalars
  import opened BlockReading
  import opened FoldedReading
  import opened ScalarReading
  import F = FlowWriting
  import EmitterPlaces
  import ScalarPlaces

  lemma Assoc(a: Text, b: Text, c: Text)
    ensures a + (b + c) == a + b + c
  {
  }

  lemma NothingAdded(a: Text)
    ensures a + [] == a
  {
  }

  /** How far a single-quoted text has been written. */
  datatype Quoted = Quoted(w: Text, start: nat, tight: bool) {
    ghost predicate Good(text: Text, ok: bool) {
      && start <= |text|
      && (ok ==> Reads(false, w, text[..start], tight))
      && (ok && tight && start < |text| ==> !IsSeparation(text[start]))
    }

    /** The characters up to `end` are written as `piece`. */
    function Then(piece: Text, end: nat, tight': bool): Quoted {
      Quoted(w + piece, end, tight')
    }

    lemma ThenGood(text: Text, ok: bool, piece: Text, end: nat, tight': bool)
      requires Good(text, ok) && start < end <= |text| && piece != []
      requires ok ==> Reads(false, piece, text[start..end], tight') && (tight ==> !IsSeparation(piece[0]))
      requires ok && tight' && end < |text| ==> !IsSeparation(text[end])
      ensures Then(piece, end, tight').Good(text, ok)
    {
      hide Reads;
      if ok {
        assert text[..start] + text[start..end] == text[..end];
        ReadsThen(false, w, text[..start], tight, piece, text[start..end], tight');
      }
    }
  }

  /** The first word stands as it is, with white space behind it if more was written. */
  ghost predicate FirstWordKept(w: Text, upto: nat, first: nat, text: Text) {
    && 0 < first <= upto <= |text| && first <= |w| && w[..first] == text[..first]
    && (if |w| == first then first == upto else first < upto && IsSeparation(w[first]))
    && (first < |text| ==> text[first] == SPACE)
  }

  /** How far a plain scalar has been written: `w` is read as the first `upto` characters, `gap` stands
      for the spaces behind them. */
  datatype Words = Words(w: Text, upto: nat, gap: Text, start: nat, first: nat) {
    function Written(): Text {
      w + gap
    }

    ghost predicate Good(flow: bool, column: nat, text: Text, ok: bool) {
      && upto <= start <= |text|
      && (ok && upto == 0 ==> start == 0 && w == [])
      && (upto == start ==> gap == []) && (start > 0 ==> Written() != [])
      && (ok && upto > 0 ==> ReadsPlain(flow, column, w, text[..upto]))
      && (ok && upto < start ==> WrittenGap(column, gap, text[upto..start]))
      && (ok && upto > 0 ==> FirstWordKept(w, upto, first, text))
    }

    function Word(text: Text, end: nat): Words
      requires start <= end <= |text|
    {
      Words(w + (gap + text[start..end]), end, [], end, if upto == 0 then end else first)
    }

    function Gapped(g: Text, end: nat): Words {
      Words(w, upto, g, end, first)
    }

    lemma WordGood(flow: bool, column: nat, text: Text, ok: bool, end: nat)
      requires Good(flow, column, text, ok) && start < end <= |text|
      requires ok ==> PlainWritable(flow, text) && (end == |text| || text[end] == SPACE)
      requires ok && start > 0 ==> upto < start && text[start - 1] == SPACE
      requires ok ==> forall i :: start <= i < end ==> text[i] != SPACE
      ensures Word(text, end).Good(flow, column, text, ok)
    {
      hide ReadsPlain, WrittenGap, PlainWritable, FirstWordKept;
      var a := text[start..end];
      if ok {
        WordOf(flow, text, start, end);
        WordKept(column, text, end);
        if upto == 0 {
          FirstWord(flow, column, a);
          assert [] + ([] + a) == a && text[..end] == a;
        } else {
          NextWord(flow, column, w, text[..upto], gap, text[upto..start], a);
          assert text[..upto] + (text[upto..start] + a) == text[..end];
        }
      }
    }

    lemma GappedGood(flow: bool, column: nat, text: Text, ok: bool, g: Text, end: nat, base: Text)
      requires Good(flow, column, text, ok) && upto == start < end <= |text| && (ok ==> start > 0) && g != []
      requires ok ==> WrittenGap(column, g, text[start..end])
      ensures Gapped(g, end).Good(flow, column, text, ok) && base + Gapped(g, end).Written() == base + Written() + g
    {
      hide ReadsPlain, FirstWordKept, WrittenGap;
      NothingAdded(w);
      Assoc(base, w, g);
    }

    lemma WordWritten(flow: bool, column: nat, text: Text, ok: bool, end: nat, base: Text)
      requires Good(flow, column, text, ok) && start <= end <= |text|
      ensures base + Written() + text[start..end] == base + Word(text, end).Written()
    {
      var data := text[start..end];
      Assoc(base, w + gap, data);
      Assoc(w, gap, data);
    }

    lemma WordKept(column: nat, text: Text, end: nat)
      requires upto <= start < end <= |text| && (end == |text| || text[end] == SPACE)
      requires if upto == 0 then start == 0 && w == [] && gap == []
               else FirstWordKept(w, upto, first, text) && upto < start && WrittenGap(column, gap, text[upto..start])
      ensures var p := Word(text, end); FirstWordKept(p.w, p.upto, p.first, text)
    {
      if upto == 0 {
        assert [] + ([] + text[0..end]) == text[..end];
      } else {
        GapSeparates(column, gap, text[upto..start]);
        var w' := w + (gap + text[start..end]);
        assert w'[..first] == w[..first];
      }
    }
  }

  lemma SpacesGap(column: nat, g: Text)
    requires g != [] && forall i :: 0 <= i < |g| ==> g[i] == SPACE
    ensures WrittenGap(column, g, g)
  {
  }

  lemma LineGap(column: nat, lb: Text, n: nat)
    requires IsLineBreak(lb) && 0 < n && column <= n
    ensures WrittenGap(column, lb + Spaces(n), [SPACE])
  {
  }

  lemma WordOf(flow: bool, text: Text, start: nat, end: nat)
    requires PlainWritable(flow, text) && start < end <= |text| && (end == |text| || text[end] == SPACE)
    requires start > 0 ==> text[start - 1] == SPACE
    requires forall i :: start <= i < end ==> text[i] != SPACE
    ensures PlainReading.Word(flow, text[start..end]) && text[start] != HASH
  {
    var a := text[start..end];
    assert a[|a| - 1] == text[end - 1];
  }

  lemma GapSeparates(column: nat, g: Text, text: Text)
    requires WrittenGap(column, g, text)
    ensures g != [] && IsSeparation(g[0])
  {
  }

  class Writer {
    const bestIndent: nat
    const bestWidth: nat
    const bestLineBreak: Text
    const allowUnicode: bool
    var stream: Text
    var column: nat
    var whitespace: bool
    var indention: bool
    var openEnded: bool
    var indent: Option<nat>
    var indents: seq<Option<nat>>

    ghost predicate Valid()
      reads this
    {
      2 <= bestIndent <= 9 && bestIndent * 2 < bestWidth && IsLineBreak(bestLineBreak)
    }

    constructor (indent: Option<int>, width: Option<int>, allowUnicode: bool, lineBreak: Option<Text>)
      ensures Valid() && stream == [] && column == 0 && whitespace && indention && !openEnded
      ensures this.indent == None && indents == [] && this.allowUnicode == allowUnicode
      ensures bestIndent == if indent.Some? && 2 <= indent.value <= 9 then indent.value else 2
      ensures bestWidth == if width.Some? && width.value > bestIndent * 2 then width.value else 80
      ensures bestLineBreak == if lineBreak.Some? && IsLineBreak(lineBreak.value) then lineBreak.value else [LF]
    {
      stream, column, whitespace, indention, openEnded := [], 0, true, true, false;
      this.indent := None;
      indents := [];
      this.allowUnicode := allowUnicode;
      var best := if indent.Some? && 1 < indent.value < 10 then indent.value else 2;
      bestIndent := best;
      bestWidth := if width.Some? && width.value > best * 2 then width.value else 80;
      bestLineBreak := if lineBreak.Some? && IsLineBreak(lineBreak.value) then lineBreak.value else [LF];
    }

    function Output(): Out
      reads this
    {
      Out(stream, column, whitespace, indention, openEnded)
    }

    /** self.indent or 0 */
    function Indent(): nat
      reads this
    {
      if indent.Some? then indent.value else 0
    }

    /** The space write_indicator puts in front. */
    function Lead(needWhitespace: bool): Text
      reads this
    {
      if whitespace || !needWhitespace then [] else [SPACE]
    }

    method Write(data: Text)
      requires Valid()
      modifies `stream
      ensures stream == old(stream) + data
    {
      stream := stream + data;
    }

    method WriteIndicator(indicator: Text, needWhitespace: bool, whitespace': bool, indention': bool)
      requires Valid()
      modifies `stream, `column, `whitespace, `indention, `openEnded
      ensures stream == old(stream) + old(Lead(needWhitespace)) + indicator
      ensures column == old(column) + |old(Lead(needWhitespace))| + |indicator|
      ensures whitespace == whitespace' && indention == (old(indention) && indention') && !openEnded
      ensures Output() == old(Indicator(Output(), indicator, needWhitespace, whitespace', indention'))
    {
      var data := Lead(needWhitespace) + indicator;
      whitespace := whitespace';
      indention := indention && indention';
      column := column + |data|;
      openEnded := false;
      Write(data);
      assert stream == old(stream) + old(Lead(needWhitespace)) + indicator;
    }

    method WriteLineBreak(data: Option<Text>)
      requires Valid()
      modifies `stream, `column, `whitespace, `indention
      ensures stream == old(stream) + if data.Some? then data.value else bestLineBreak
      ensures column == 0 && whitespace && indention
      ensures Output() == old(NextLine(Output(), if data.Some? then data.value else bestLineBreak))
    {
      whitespace := true;
      indention := true;
      column := 0;
      Write(if data.Some? then data.value else bestLineBreak);
    }

    /** Whether write_indent starts a new line. */
    predicate IndentBreaks()
      reads this
    {
      !indention || column > Indent() || (column == Indent() && !whitespace)
    }

    /** What write_indent writes. */
    function IndentText(): Text
      reads this
    {
      if IndentBreaks() then bestLineBreak + Spaces(Indent()) else Spaces(Indent() - column)
    }

    method WriteIndent()
      requires Valid()
      modifies `stream, `column, `whitespace, `indention
      ensures stream == old(stream) + old(IndentText())
      ensures column == Indent()
      ensures whitespace == (old(IndentBreaks()) || old(column) < Indent() || old(whitespace))
      ensures indention
      ensures Output() == old(Indented(Output(), bestLineBreak, Indent()))
    {
      if IndentBreaks() {
        WriteLineBreak(None);
      }
      if column < Indent() {
        whitespace := true;
        var data := Spaces(Indent() - column);
        column := Indent();
        Write(data);
      }
      assert stream == old(stream) + old(IndentText());
    }

    /** self.column += len(data); self.stream.write(data) */
    method WriteData(data: Text)
      requires Valid()
      modifies `stream, `column
      ensures stream == old(stream) + data && column == old(column) + |data|
    {
      column := column + |data|;
      Write(data);
    }

    /** What decides how a double-quoted scalar is written here. */
    function Layout(split: bool): Layout
      reads this
    {
      DoubleQuoting.Layout.Layout(allowUnicode, bestLineBreak, Indent(), bestWidth, split)
    }

    /** The first half of the loop body of write_double_quoted: the pending run and an escape. */
    method WriteRunAndEscape(text: Text, start: nat, end: nat, ghost split: bool) returns (start': nat)
      requires Valid() && start <= end <= |text|
      modifies `stream, `column
      ensures var r := old(RunStep(Layout(split), text, start, end, column));
              stream == old(stream) + r.piece && start' == r.start && column == r.column
    {
      hide MustEscape, EscapeText;
      start' := start;
      if end == |text| || MustEscape(allowUnicode, text[end]) {
        if start < end {
          WriteData(text[start..end]);
          start' := end;
        } else {
          NothingAdded(stream);
        }
        if end < |text| {
          Assoc(old(stream), text[start..end], EscapeText(text[end]));
          WriteData(EscapeText(text[end]));
          start' := end + 1;
        }
      } else {
        NothingAdded(stream);
      }
    }

    /** The second half: the line is continued on the next one, after a backslash. */
    method ContinueLine(text: Text, start: nat, end: nat) returns (start': nat)
      requires Valid() && start <= end + 1 && start <= |text| && SplitsAt(Layout(true), text, start, end, column)
      requires !whitespace && !indention
      modifies `stream, `column, `whitespace, `indention
      ensures var c := old(ContinueStep(Layout(true), text, start, end, column));
              stream == old(stream) + c.piece && start' == c.start && column == c.column
      ensures !whitespace && !indention
    {
      var run := if start < end then text[start..end] else [];
      start' := if start < end then end else start;
      BreakAfter(run);
      ghost var next := [BACKSLASH] + bestLineBreak + Spaces(Indent());
      Assoc(old(stream), run, next);
      Assoc(old(stream), run + next, if text[start'] == SPACE then [BACKSLASH] else []);
      if text[start'] == SPACE {
        WriteData([BACKSLASH]);
      } else {
        NothingAdded(stream);
      }
    }

    method BreakAfter(run: Text)
      requires Valid() && !indention
      modifies `stream, `column, `whitespace, `indention
      ensures stream == old(stream) + run + ([BACKSLASH] + bestLineBreak + Spaces(Indent()))
      ensures !whitespace && !indention && column == Indent()
    {
      WriteData(run + [BACKSLASH]);
      WriteIndent();
      whitespace := false;
      indention := false;
      Assoc(old(stream), run, [BACKSLASH]);
      Assoc(old(stream) + run, [BACKSLASH], bestLineBreak + Spaces(Indent()));
      Assoc([BACKSLASH], bestLineBreak, Spaces(Indent()));
    }

    /** write_double_quoted: what is written between the quotes is read back as the text. */
    method WriteDoubleQuoted(text: Text, split: bool) returns (ghost body: Text)
      requires Valid()
      modifies `stream, `column, `whitespace, `indention, `openEnded
      ensures stream == old(stream) + old(Lead(true)) + [DQUOTE] + body + [DQUOTE]
      ensures body == old(Body(Layout(split), text, column + |Lead(true)| + 1))
      ensures !split || 0 < Indent() < bestWidth ==> ReadsBack(true, body, text)
      ensures !split ==> body == EscapeAll(allowUnicode, text)
      ensures AllPrintable(body)
      ensures !whitespace && !indention
    {
      hide ReadsBack, EscapeAll, RestOf, RunStep, ContinueStep, AllPrintable;
      WriteIndicator([DQUOTE], true, false, false);
      ghost var o, base := Layout(split), stream;
      body := Body(o, text, column);
      DoubleQuoting.BodyReads(o, text, column);
      var start, end := 0, 0;
      while end <= |text|
        invariant 0 <= start <= end <= |text| + 1 && start <= |text|
        invariant !whitespace && !indention && unchanged(`indent)
        invariant stream + RestOf(o, text, start, end, column) == base + body
      {
        ghost var before, from, at := stream, start, column;
        start := WriteRunAndEscape(text, start, end, split);
        if 0 < end < |text| - 1 && (text[end] == SPACE || start >= end) && column + end - start > bestWidth && split {
          start := ContinueLine(text, start, end);
        } else {
          NoSplit(o, text, start, end, column, stream);
        }
        RoundWritten(o, text, from, end, at, before);
        end := end + 1;
      }
      AllWritten(o, text, start, column, stream);
      WriteIndicator([DQUOTE], false, false, false);
    }

    static lemma AllWritten(o: Layout, text: Text, start: nat, column: nat, stream: Text)
      requires start <= |text|
      ensures stream + RestOf(o, text, start, |text| + 1, column) == stream
    {
    }

    static lemma NoSplit(o: Layout, text: Text, start: nat, end: nat, column: nat, stream: Text)
      requires start <= end + 1 && start <= |text| && !SplitsAt(o, text, start, end, column)
      ensures ContinueStep(o, text, start, end, column) == Stepped([], start, column) && stream + [] == stream
    {
    }

    static lemma RoundWritten(o: Layout, text: Text, start: nat, end: nat, column: nat, stream: Text)
      requires start <= end <= |text|
      ensures var r := RunStep(o, text, start, end, column);
              var c := ContinueStep(o, text, r.start, end, r.column);
              stream + RestOf(o, text, start, end, column)
              == stream + r.piece + c.piece + RestOf(o, text, c.start, end + 1, c.column)
    {
      hide RunStep, ContinueStep;
    }

    /** What decides how a single-quoted or plain scalar is written here. */
    function Setting(single: bool, split: bool): F.Setting
      reads this
    {
      F.Setting.Setting(single, bestLineBreak, Indent(), bestWidth, split)
    }

    /** What has been written, with what is still to be written of the text. */
    ghost function Ahead(single: bool, split: bool, text: Text, start: nat): Text
      requires start <= |text|
      reads this
    {
      stream + F.BodyFrom(Setting(single, split), text, start, column)
    }

    /** A run starts here: what is in front is no part of it. */
    static predicate Boundary(text: Text, start: nat) {
      0 < start < |text| ==>
        && !(text[start - 1] == SPACE && text[start] == SPACE)
        && !(F.BehindBreak(text, start) && IsEmittedBreak(text[start]))
    }

    /** Within quotes the flags know of the new line behind a break until something is written on it. */
    ghost predicate FlagsOk(text: Text, start: nat)
      requires start <= |text|
      reads this
    {
      if F.BehindBreak(text, start) then indention && whitespace && column == Indent()
      else indention ==> start > 0 && column >= Indent() && (text[start - 1] != SPACE ==> column > Indent())
    }

    /** What is known between two rounds of write_single_quoted. */
    ghost predicate SingleState(text: Text, ok: bool, p: Quoted, base: Text)
      reads this
    {
      && Valid() && p.Good(text, ok) && stream == base + p.w
      && (ok ==> SingleQuotable(text) && Indent() > 0)
      && FlagsOk(text, p.start)
    }

    /** A run of spaces is written as it is, or a single one is replaced by a new line. */
    method WriteSpaces(text: Text, start: nat, end: nat, split: bool, ghost p: Quoted, ghost base: Text, ghost ok: bool)
      returns (ghost p': Quoted)
      requires SingleState(text, ok, p, base)
      requires p.start == start < end <= |text| && forall i :: start <= i < end ==> text[i] == SPACE
      requires (end < |text| ==> text[end] != SPACE) && (start > 0 ==> text[start - 1] != SPACE)
      modifies `stream, `column, `whitespace, `indention
      ensures SingleState(text, ok, p', base) && p'.start == end
      ensures Ahead(true, split, text, end) == old(Ahead(true, split, text, start))
    {
      hide Reads, F.BodyFrom;
      F.SpacesWritten(Setting(true, split), text, start, end, column);
      if ok && end < |text| {
        assert !SpaceBreakAt(text, end);
      }
      if start + 1 == end && column > bestWidth && split && start != 0 && end != |text| {
        ReadsFold(false, bestLineBreak, if ok then Indent() else 1);
        ghost var piece := IndentText();
        assert ok ==> !BreakSpaceAt(text, start);
        assert ok ==> !p.tight && IndentBreaks();
        assert text[start..end] == [SPACE];
        WriteIndent();
        if ok {
          p.ThenGood(text, ok, piece, end, true);
        }
        p' := p.Then(piece, end, true);
      } else {
        var data := text[start..end];
        WriteData(data);
        ReadsRaw(false, data);
        p.ThenGood(text, ok, data, end, true);
        p' := p.Then(data, end, true);
      }
      Assoc(base, p.w, p'.w[|p.w|..]);
      Assoc(old(stream), p'.w[|p.w|..], F.BodyFrom(Setting(true, split), text, end, column));
    }

    /** One more line break than the run has (if it starts with '\n'), then the indentation. */
    method WriteBreaks(text: Text, start: nat, end: nat)
      requires Valid() && start < end <= |text|
      modifies `stream, `column, `whitespace, `indention
      ensures stream == old(stream) + (BreaksText(text[start..end], bestLineBreak) + Spaces(Indent()))
      ensures indention && whitespace && column == Indent()
    {
      hide AllBroken;
      ghost var first := if text[start] == LF then bestLineBreak else [];
      ghost var breaks := AllBroken(text[start..end], bestLineBreak);
      Assoc(stream, first, breaks);
      Assoc(stream, BreaksText(text[start..end], bestLineBreak), Spaces(Indent()));
      NothingAdded(stream);
      if text[start] == LF {
        WriteLineBreak(None);
      }
      WriteEachBreak(text, start, end);
      WriteIndent();
    }

    /** for br in text[start:end] */
    method WriteEachBreak(text: Text, start: nat, end: nat)
      requires Valid() && start <= end <= |text|
      modifies `stream, `column, `whitespace, `indention
      ensures stream == old(stream) + AllBroken(text[start..end], bestLineBreak)
      ensures if start < end then column == 0 && whitespace
              && indention else unchanged(`column, `whitespace, `indention)
    {
      hide AllBroken;
      var i := start;
      AllBrokenNone(stream, text, start, bestLineBreak);
      while i < end
        invariant start <= i <= end
        invariant stream == old(stream) + AllBroken(text[start..i], bestLineBreak)
        invariant if start < i then column == 0 && whitespace
                  && indention else unchanged(`column, `whitespace, `indention)
      {
        AllBrokenMore(old(stream), text, start, i, bestLineBreak);
        if text[i] == LF {
          WriteLineBreak(None);
        } else {
          WriteLineBreak(Some([text[i]]));
        }
        i := i + 1;
      }
    }

    static lemma AllBrokenNone(base: Text, text: Text, start: nat, lb: Text)
      requires start <= |text|
      ensures base + AllBroken(text[start..start], lb) == base
    {
    }

    static lemma AllBrokenMore(base: Text, text: Text, start: nat, i: nat, lb: Text)
      requires start <= i < |text|
      ensures base + AllBroken(text[start..i + 1], lb) == base + AllBroken(text[start..i], lb) + Broken(text[i], lb)
    {
      assert text[start..i + 1][..i - start] == text[start..i];
    }

    /** The end of a run, in the three branches of write_single_quoted. */
    method WriteSingleRun(text: Text, start: nat, end: nat, spaces: bool, breaks: bool, split: bool,
                          ghost p: Quoted, ghost base: Text, ghost ok: bool)
      returns (ghost p': Quoted)
      requires SingleState(text, ok, p, base) && p.start == start < end <= |text|
      requires spaces ==> forall i :: start <= i < end ==> text[i] == SPACE
      requires !spaces && breaks ==> forall i :: start <= i < end ==> IsEmittedBreak(text[i])
      requires !spaces && !breaks ==>
                 forall i :: start <= i < end ==> text[i] != SPACE && text[i] != SQUOTE && !IsEmittedBreak(text[i])
      requires end < |text| ==> (spaces ==> text[end] != SPACE) && (breaks ==> !IsEmittedBreak(text[end]))
      requires Boundary(text, start)
      modifies `stream, `column, `whitespace, `indention
      ensures SingleState(text, ok, p', base) && p'.start == end
      ensures Ahead(true, split, text, end) == old(Ahead(true, split, text, start))
    {
      hide Reads, AllBroken, F.BodyFrom;
      if spaces {
        p' := WriteSpaces(text, start, end, split, p, base, ok);
      } else if breaks {
        ghost var piece := BreaksText(text[start..end], bestLineBreak) + Spaces(Indent());
        BreaksStart(text[start..end], bestLineBreak, Indent());
        if ok {
          ReadsBreaks(false, bestLineBreak, text[start..end], Indent());
          assert end < |text| ==> !BreakSpaceAt(text, end);
          assert !p.tight;
        }
        F.BreaksWritten(Setting(true, split), text, start, end, column);
        WriteBreaks(text, start, end);
        Assoc(old(stream), piece, F.BodyFrom(Setting(true, split), text, end, column));
        if ok {
          p.ThenGood(text, ok, piece, end, true);
        }
        p' := p.Then(piece, end, true);
        Assoc(base, p.w, piece);
      } else {
        var data := text[start..end];
        F.SameRun(Setting(true, split), text, start, end, column);
        WriteData(data);
        Assoc(old(stream), data, F.BodyFrom(Setting(true, split), text, end, column));
        if ok {
          ReadsWord(false, data);
        }
        p.ThenGood(text, ok, data, end, false);
        p' := p.Then(data, end, false);
        Assoc(base, p.w, data);
      }
    }

    static lemma BreaksStart(u: Text, lb: Text, n: nat)
      requires IsLineBreak(lb) && u != [] && forall i :: 0 <= i < |u| ==> IsEmittedBreak(u[i])
      ensures BreaksText(u, lb) + Spaces(n) != []
    {
      AllBrokenFront(u, lb);
    }

    method WriteQuotePair(text: Text, end: nat, ghost split: bool, ghost p: Quoted, ghost base: Text, ghost ok: bool)
      returns (ghost p': Quoted)
      requires SingleState(text, ok, p, base) && p.start == end < |text| && text[end] == SQUOTE
      modifies `stream, `column
      ensures SingleState(text, ok, p', base) && p'.start == end + 1
      ensures Ahead(true, split, text, end + 1) == old(Ahead(true, split, text, end))
    {
      hide Reads;
      Assoc(stream, [SQUOTE, SQUOTE], F.BodyFrom(Setting(true, split), text, end + 1, column + 2));
      WriteData([SQUOTE, SQUOTE]);
      ReadsQuotePair();
      OneQuote(text, end);
      p.ThenGood(text, ok, [SQUOTE, SQUOTE], end + 1, false);
      p' := p.Then([SQUOTE, SQUOTE], end + 1, false);
      Assoc(base, p.w, [SQUOTE, SQUOTE]);
    }

    static lemma OneQuote(text: Text, end: nat)
      requires end < |text| && text[end] == SQUOTE
      ensures text[end..end + 1] == [SQUOTE]
    {
    }

    /** Whether the pending run ends before ch. */
    static predicate RunEnds(spaces: bool, breaks: bool, ch: Option<Char>) {
      || ch.None?
      || (if spaces then ch.value != SPACE
          else if breaks then !IsEmittedBreak(ch.value)
          else ch.value == SPACE || IsEmittedBreak(ch.value) || ch.value == SQUOTE)
    }

    /** write_single_quoted: what is written between the quotes is read back as the text, if the
        analysis permits the style. */
    method WriteSingleQuoted(text: Text, split: bool) returns (ghost body: Text)
      requires Valid()
      modifies `stream, `column, `whitespace, `indention, `openEnded
      ensures stream == old(stream) + old(Lead(true)) + [SQUOTE] + body + [SQUOTE]
      ensures body == F.BodyFrom(Setting(true, split), text, 0, old(column) + |old(Lead(true))| + 1)
      ensures SingleQuotable(text) && Indent() > 0 ==> ReadsBack(false, body, text)
      ensures !whitespace && !indention
    {
      hide Reads, ReadsBack, F.BodyFrom;
      ghost var ok := SingleQuotable(text) && Indent() > 0;
      WriteIndicator([SQUOTE], true, false, false);
      ghost var base, whole := stream, Ahead(true, split, text, 0);
      ghost var p := Quoted([], 0, false);
      ReadsNothing(false);
      assert text[..0] == [] && base + p.w == base;
      var spaces, breaks := false, false;
      var start, end := 0, 0;
      while end <= |text|
        invariant 0 <= start <= end <= |text| + 1 && start == p.start
        invariant end == |text| + 1 ==> start == |text|
        invariant SingleState(text, ok, p, base) && Boundary(text, start) && Ahead(true, split, text, start) == whole
        invariant !(spaces && breaks) && (spaces || breaks ==> start < end)
        invariant end <= |text| ==> forall i :: start <= i < end ==>
                    (spaces <==> text[i] == SPACE) && (breaks <==> IsEmittedBreak(text[i])) && text[i] != SQUOTE
      {
        var ch := if end < |text| then Some(text[end]) else None;
        if RunEnds(spaces, breaks, ch) && start < end {
          p := WriteSingleRun(text, start, end, spaces, breaks, split, p, base, ok);
          start := end;
        }
        if ch == Some(SQUOTE) {
          p := WriteQuotePair(text, end, split, p, base, ok);
          start := end + 1;
        }
        if ch.Some? {
          spaces := ch.value == SPACE;
          breaks := IsEmittedBreak(ch.value);
        }
        end := end + 1;
      }
      assert text[..start] == text;
      if ok { ReadsToTheQuote(false, p.w, text, p.tight); }
      body := p.w;
      WholeWritten(Setting(true, split), text, base, body, column, old(column) + |old(Lead(true))| + 1);
      WriteIndicator([SQUOTE], false, false, false);
    }

    static lemma WholeWritten(o: F.Setting, text: Text, base: Text, body: Text, column: nat, first: nat)
      requires base + body + F.BodyFrom(o, text, |text|, column) == base + F.BodyFrom(o, text, 0, first)
      ensures body == F.BodyFrom(o, text, 0, first)
    {
      assert F.BodyFrom(o, text, |text|, column) == [];
      var w := F.BodyFrom(o, text, 0, first);
      assert (base + body)[|base|..] == body && (base + w)[|base|..] == w;
    }

    ghost predicate PlainState(flow: bool, scanIndent: nat, text: Text, ok: bool, p: Words, base: Text)
      reads this
    {
      && Valid() && p.Good(flow, scanIndent, text, ok) && stream == base + p.Written()
      && (ok ==> PlainWritable(flow, text) && 0 < Indent() && scanIndent <= Indent())
      && !whitespace && !indention
    }

    /** The end of a run, in the three branches of write_plain. */
    method WritePlainRun(text: Text, start: nat, end: nat, spaces: bool, breaks: bool, split: bool,
                         ghost flow: bool, ghost scanIndent: nat, ghost p: Words, ghost base: Text, ghost ok: bool)
      returns (ghost p': Words)
      requires PlainState(flow, scanIndent, text, ok, p, base) && p.start == start < end <= |text|
      requires PlainRun(text, ok, p, end, spaces, breaks) && RunStops(text, end, spaces, breaks)
      requires Boundary(text, start)
      modifies `stream, `column, `whitespace, `indention
      ensures PlainState(flow, scanIndent, text, ok, p', base) && p'.start == end
      ensures Ahead(false, split, text, end) == old(Ahead(false, split, text, start))
      ensures p'.upto == if spaces then start else end
      ensures AsItIs(text, split, p) ==> AsItIs(text, split, p')
    {
      PlainBounds(flow, scanIndent, text, ok, p, base, end, spaces, breaks);
      assert breaks ==> IsEmittedBreak(text[start]);
      Appended(text, p.Written(), start, end);
      hide PlainState, F.BodyFrom;
      if spaces {
        p' := WritePlainSpaces(text, start, end, split, flow, scanIndent, p, base, ok);
      } else if breaks {
        p' := WritePlainBreaks(text, start, end, split, flow, scanIndent, p, base, ok);
      } else {
        p' := WritePlainWord(text, start, end, split, flow, scanIndent, p, base, ok);
      }
    }

    method WritePlainSpaces(text: Text, start: nat, end: nat, split: bool,
                            ghost flow: bool, ghost scanIndent: nat, ghost p: Words, ghost base: Text, ghost ok: bool)
      returns (ghost p': Words)
      requires PlainState(flow, scanIndent, text, ok, p, base) && p.upto == p.start == start < end <= |text|
      requires (ok ==> start > 0) && forall i :: start <= i < end ==> text[i] == SPACE
      requires (end < |text| ==> text[end] != SPACE) && (start > 0 ==> text[start - 1] != SPACE)
      modifies `stream, `column, `whitespace, `indention
      ensures PlainState(flow, scanIndent, text, ok, p', base) && p'.start == end && p'.upto == start
      ensures AsItIs(text, split, p) ==> AsItIs(text, split, p')
      ensures Ahead(false, split, text, end) == old(Ahead(false, split, text, start))
    {
      hide PlainWritable, WrittenGap, F.BodyFrom, ReadsPlain, FirstWordKept, Words.Good, Words.Written, AsItIs;
      hide HasBreak, IsEmittedBreak;
      F.SpacesWritten(Setting(false, split), text, start, end, column);
      var data := text[start..end];
      ghost var g := data;
      SpacesGap(scanIndent, data);
      if start + 1 == end && column > bestWidth && split {
        g := bestLineBreak + Spaces(Indent());
        WriteIndent();
        whitespace := false;
        indention := false;
        if ok { LineGap(scanIndent, bestLineBreak, Indent()); }
        assert data == [SPACE];
      } else {
        WriteData(data);
      }
      Assoc(old(stream), g, F.BodyFrom(Setting(false, split), text, end, column));
      p.GappedGood(flow, scanIndent, text, ok, g, end, base);
      AsItIsSpaces(text, split, p, g, end, base);
      p' := p.Gapped(g, end);
    }

    static lemma AsItIsSpaces(text: Text, split: bool, p: Words, g: Text, end: nat, base: Text)
      requires p.start < end <= |text| && text[p.start] == SPACE && (split || g == text[p.start..end])
      requires base + p.Gapped(g, end).Written() == base + p.Written() + g
      ensures AsItIs(text, split, p) ==> AsItIs(text, split, p.Gapped(g, end))
    {
      var w, v := p.Gapped(g, end).Written(), p.Written() + g;
      assert base + v == base + p.Written() + g;
      assert (base + w)[|base|..] == w && (base + v)[|base|..] == v;
      assert text[..p.start] + text[p.start..end] == text[..end];
    }

    /** The analysis lets no text with line breaks be written plain. */
    method WritePlainBreaks(text: Text, start: nat, end: nat, ghost split: bool,
                            ghost flow: bool, ghost scanIndent: nat, ghost p: Words, ghost base: Text, ghost ok: bool)
      returns (ghost p': Words)
      requires PlainState(flow, scanIndent, text, ok, p, base) && !ok && p.start == start < end <= |text|
      requires forall i :: start <= i < end ==> IsEmittedBreak(text[i])
      requires (end < |text| ==> !IsEmittedBreak(text[end])) && !F.BehindBreak(text, start)
      modifies `stream, `column, `whitespace, `indention
      ensures PlainState(flow, scanIndent, text, ok, p', base) && p'.start == p'.upto == end
      ensures Ahead(false, split, text, end) == old(Ahead(false, split, text, start))
    {
      hide F.BodyFrom;
      ghost var before, piece := stream, BreaksText(text[start..end], bestLineBreak) + Spaces(Indent());
      F.BreaksWritten(Setting(false, split), text, start, end, column);
      Assoc(stream, piece, F.BodyFrom(Setting(false, split), text, end, Indent()));
      WriteBreaks(text, start, end);
      whitespace := false;
      indention := false;
      p' := Words(p.Written() + stream[|before|..], end, [], end, 0);
      Assoc(base, p.Written(), stream[|before|..]);
      assert p'.w + [] == p'.w;
    }

    method WritePlainWord(text: Text, start: nat, end: nat, ghost split: bool,
                          ghost flow: bool, ghost scanIndent: nat, ghost p: Words, ghost base: Text, ghost ok: bool)
      returns (ghost p': Words)
      requires PlainState(flow, scanIndent, text, ok, p, base) && p.start == start < end <= |text|
      requires ok && start > 0 ==> p.upto < start && text[start - 1] == SPACE
      requires ok ==> (end == |text| || text[end] == SPACE) && forall i :: start <= i < end ==> text[i] != SPACE
      requires forall i :: start <= i < end ==> text[i] != SPACE && !IsEmittedBreak(text[i])
      modifies `stream, `column
      ensures PlainState(flow, scanIndent, text, ok, p', base) && p'.start == p'.upto == end
      ensures p'.Written() == p.Written() + text[start..end]
      ensures Ahead(false, split, text, end) == old(Ahead(false, split, text, start))
    {
      hide ReadsPlain, FirstWordKept, WrittenGap, Words.Good, F.BodyFrom;
      var data := text[start..end];
      F.SameRun(Setting(false, split), text, start, end, column);
      Assoc(stream, data, F.BodyFrom(Setting(false, split), text, end, column + |data|));
      p.WordWritten(flow, scanIndent, text, ok, end, base);
      WriteData(data);
      p.WordGood(flow, scanIndent, text, ok, end);
      p' := p.Word(text, end);
    }

    /** If no line is broken, what has been written is the text itself. */
    static ghost predicate AsItIs(text: Text, split: bool, p: Words) {
      p.start <= |text| && (!HasBreak(text) && (split ==> SPACE !in text) ==> p.Written() == text[..p.start])
    }

    static lemma Appended(text: Text, w: Text, start: nat, end: nat)
      requires start <= end <= |text|
      ensures w == text[..start] ==> w + text[start..end] == text[..end]
    {
    }

    /** The pending run of write_plain, from p.start to `end`. */
    static ghost predicate PlainRun(text: Text, ok: bool, p: Words, end: nat, spaces: bool, breaks: bool) {
      if end > |text| then p.start == |text| && (ok ==> p.upto == |text|)
      else
        && !(spaces && breaks) && (if end > 0 then p.start < end else p.start == 0 && !spaces && !breaks)
        && (forall i :: p.start <= i < end ==> (spaces <==> text[i] == SPACE) && (breaks <==> IsEmittedBreak(text[i])))
        && (spaces ==> p.upto == p.start && (ok ==> p.start > 0))
        && (ok && !spaces && p.start > 0 ==> p.upto < p.start && text[p.start - 1] == SPACE)
    }

    static lemma NothingWritten(flow: bool, scanIndent: nat, text: Text, ok: bool, base: Text)
      ensures var p := Words([], 0, [], 0, 0);
              p.Good(flow, scanIndent, text, ok) && PlainRun(text, ok, p, 0, false, false) && base + p.Written() == base
    {
    }

    static predicate RunStops(text: Text, end: nat, spaces: bool, breaks: bool)
      requires end <= |text|
    {
      || end == |text|
      || (if spaces then text[end] != SPACE
          else if breaks then !IsEmittedBreak(text[end])
          else text[end] == SPACE || IsEmittedBreak(text[end]))
    }

    lemma PlainBounds(flow: bool, scanIndent: nat, text: Text, ok: bool, p: Words, base: Text, end: nat, spaces: bool,
                      breaks: bool)
      requires PlainState(flow, scanIndent, text, ok, p, base) && p.start < end <= |text|
      requires PlainRun(text, ok, p, end, spaces, breaks) && RunStops(text, end, spaces, breaks)
      ensures ok ==> !breaks && (!spaces ==> end == |text| || text[end] == SPACE)
    {
      assert ok ==> !IsEmittedBreak(text[p.start]);
    }

    /** The run goes on, or the next one starts. */
    lemma PlainRunNext(flow: bool, scanIndent: nat, text: Text, ok: bool, before: Words, p: Words, base: Text, end: nat,
                       spaces: bool, breaks: bool)
      requires PlainState(flow, scanIndent, text, ok, p, base) && end <= |text|
      requires PlainRun(text, ok, before, end, spaces, breaks)
      requires if RunStops(text, end, spaces, breaks) && before.start < end
               then p.start == end && p.upto == if spaces then before.start else end
               else p == before
      ensures if end == |text| then PlainRun(text, ok, p, end + 1, spaces, breaks)
              else PlainRun(text, ok, p, end + 1, text[end] == SPACE, IsEmittedBreak(text[end]))
    {
      assert ok && end < |text| ==> !IsEmittedBreak(text[end]);
      assert ok && before.start < end ==> !IsEmittedBreak(text[before.start]);
      assert spaces && before.start < end ==> text[end - 1] == SPACE;
    }

    lemma WordsWritten(flow: bool, scanIndent: nat, text: Text, split: bool, ok: bool, p: Words, base: Text, end: nat,
                       spaces: bool, breaks: bool, first: nat)
      requires PlainState(flow, scanIndent, text, ok, p, base) && text != [] && AsItIs(text, split, p)
      requires end > |text| && PlainRun(text, ok, p, end, spaces, breaks)
      requires Ahead(false, split, text, p.start) == base + F.BodyFrom(Setting(false, split), text, 0, first)
      ensures p.Written() != [] && stream == base + p.Written() && !whitespace && !indention
      ensures p.Written() == F.BodyFrom(Setting(false, split), text, 0, first)
      ensures !HasBreak(text) && (split ==> SPACE !in text) ==> p.Written() == text
      ensures ok ==> ReadsPlain(flow, scanIndent, p.Written(), text) && KeepsFirstWord(p.Written(), text, p.first)
    {
      hide ReadsPlain, F.BodyFrom;
      assert text[..|text|] == text && (ok ==> p.w + [] == p.w);
      WholeWritten(Setting(false, split), text, base, p.Written(), column, first);
    }

    static lemma NothingToWrite(flow: bool, o: F.Setting, text: Text, column: nat)
      requires text == []
      ensures F.BodyFrom(o, text, 0, column) == [] && !PlainWritable(flow, text)
    {
    }

    lemma PlainStateAtStart(flow: bool, scanIndent: nat, text: Text, split: bool, ok: bool)
      requires Valid() && !whitespace && !indention
      requires ok ==> PlainWritable(flow, text) && 0 < Indent() && scanIndent <= Indent()
      ensures var p := Words([], 0, [], 0, 0);
              PlainState(flow, scanIndent, text, ok, p, stream) && PlainRun(text, ok, p, 0, false, false)
              && AsItIs(text, split, p)
    {
      NothingWritten(flow, scanIndent, text, ok, stream);
    }

    static lemma BoundaryAtStart(text: Text)
      ensures Boundary(text, 0)
    {
    }

    static lemma BoundaryAtEnd(text: Text, ok: bool, p: Words, end: nat, spaces: bool, breaks: bool)
      requires p.start < end <= |text| && PlainRun(text, ok, p, end, spaces, breaks)
      requires RunStops(text, end, spaces, breaks)
      ensures Boundary(text, end)
    {
    }

    /** write_plain: the scanner, indented no deeper than the writer, reads the words back. */
    method WritePlain(text: Text, split: bool, rootContext: bool, ghost flow: bool, ghost scanIndent: nat)
      returns (ghost body: Text)
      requires Valid()
      modifies `stream, `column, `whitespace, `indention, `openEnded
      ensures openEnded == (rootContext || old(openEnded))
      ensures text == [] ==> unchanged(`stream, `column, `whitespace, `indention) && body == []
      ensures text != [] ==> stream == old(stream) + old(Lead(true)) + body && body != [] && !whitespace && !indention
      ensures PlainWritable(flow, text) && 0 < Indent() && scanIndent <= Indent() ==>
                ReadsPlain(flow, scanIndent, body, text) && exists first :: KeepsFirstWord(body, text, first)
      ensures !HasBreak(text) && (split ==> SPACE !in text) ==> body == text
      ensures body == F.BodyFrom(Setting(false, split), text, 0, old(column) + |old(Lead(true))|)
    {
      hide ReadsPlain, PlainRun, Words.Good, RunStops, KeepsFirstWord, F.BodyFrom, Boundary, PlainState;
      hide AsItIs, HasBreak, PlainWritable;
      body := [];
      if rootContext {
        openEnded := true;
      }
      if text == [] {
        NothingToWrite(flow, Setting(false, split), text, old(column) + |old(Lead(true))|);
        return;
      }
      if !whitespace {
        WriteData([SPACE]);
      }
      whitespace := false;
      indention := false;
      ghost var ok := PlainWritable(flow, text) && 0 < Indent() && scanIndent <= Indent();
      ghost var base, whole := stream, Ahead(false, split, text, 0);
      assert base == old(stream) + old(Lead(true));
      ghost var p := Words([], 0, [], 0, 0);
      PlainStateAtStart(flow, scanIndent, text, split, ok);
      BoundaryAtStart(text);
      var spaces, breaks := false, false;
      var start, end := 0, 0;
      while end <= |text|
        invariant 0 <= start <= end <= |text| + 1 && start == p.start
        invariant PlainState(flow, scanIndent, text, ok, p, base)
        invariant PlainRun(text, ok, p, end, spaces, breaks) && AsItIs(text, split, p)
        invariant start <= |text| && Boundary(text, start) && Ahead(false, split, text, start) == whole
        invariant unchanged(`indent) && openEnded == (rootContext || old(openEnded))
      {
        ghost var before := p;
        if RunStops(text, end, spaces, breaks) && start < end {
          BoundaryAtEnd(text, ok, p, end, spaces, breaks);
          p := WritePlainRun(text, start, end, spaces, breaks, split, flow, scanIndent, p, base, ok);
          start := end;
        }
        PlainRunNext(flow, scanIndent, text, ok, before, p, base, end, spaces, breaks);
        if end < |text| {
          spaces := text[end] == SPACE;
          breaks := IsEmittedBreak(text[end]);
        }
        end := end + 1;
      }
      body := p.Written();
      WordsWritten(flow, scanIndent, text, split, ok, p, base, end, spaces, breaks,
                   old(column) + |old(Lead(true))|);
    }

    /** The line breaks of a literal scalar, and the indentation of the line behind them. */
    method WriteLiteralBreaks(text: Text, start: nat, end: nat)
      requires Valid() && start <= end <= |text| && (end < |text| ==> !IsEmittedBreak(text[end]))
      requires forall i :: start <= i < end ==> IsEmittedBreak(text[i])
      requires start == end ==> column == 0 && whitespace && indention
      modifies `stream, `column, `whitespace, `indention
      ensures stream + (if end < |text| then LiteralLines(text[end..], false, bestLineBreak, Indent()) else [])
              == old(stream) + LiteralLines(text[start..], true, bestLineBreak, Indent())
      ensures end == |text| ==> column == 0 && whitespace && indention
      ensures old(stream) <= stream
    {
      hide LiteralLines;
      var i := start;
      while i < end
        invariant start <= i <= end && (i > start || start == end ==> column == 0 && whitespace && indention)
        invariant stream + LiteralLines(text[i..], true, bestLineBreak, Indent())
                  == old(stream) + LiteralLines(text[start..], true, bestLineBreak, Indent())
        invariant old(stream) <= stream
      {
        LiteralBreak(stream, text, i, bestLineBreak, Indent());
        if text[i] == LF {
          WriteLineBreak(None);
        } else {
          WriteLineBreak(Some([text[i]]));
        }
        i := i + 1;
      }
      if end < |text| {
        assert text[end..][0] == text[end];
        LiteralIndent(text[end..], bestLineBreak, Indent());
        Assoc(stream, Spaces(Indent()), LiteralLines(text[end..], false, bestLineBreak, Indent()));
        WriteIndent();
      } else {
        LiteralEnd(text, bestLineBreak, Indent());
        assert stream + [] == stream;
      }
    }

    lemma LiteralBreak(stream: Text, text: Text, i: nat, lb: Text, n: nat)
      requires i < |text| && IsEmittedBreak(text[i])
      ensures stream + LiteralLines(text[i..], true, lb, n)
              == stream + Broken(text[i], lb) + LiteralLines(text[i + 1..], true, lb, n)
    {
      assert text[i..][1..] == text[i + 1..];
      Assoc(stream, Broken(text[i], lb), LiteralLines(text[i + 1..], true, lb, n));
    }

    lemma LiteralIndent(t: Text, lb: Text, n: nat)
      requires t != [] && !IsEmittedBreak(t[0])
      ensures LiteralLines(t, true, lb, n) == Spaces(n) + LiteralLines(t, false, lb, n)
    {
      var tail := LiteralLines(t[1..], false, lb, n);
      assert [] + [t[0]] + tail == [t[0]] + tail;
      assert Spaces(n) + [t[0]] + tail == Spaces(n) + ([t[0]] + tail);
    }

    lemma {:induction false} LiteralRun(text: Text, start: nat, end: nat, lb: Text, n: nat)
      requires start <= end <= |text| && forall i :: start <= i < end ==> !IsEmittedBreak(text[i])
      ensures LiteralLines(text[start..], false, lb, n) == text[start..end] + LiteralLines(text[end..], false, lb, n)
      decreases end - start
    {
      if start < end {
        LiteralRun(text, start + 1, end, lb, n);
        assert text[start..][1..] == text[start + 1..] && text[start..][0] == text[start];
        assert [] + [text[start]] + LiteralLines(text[start + 1..], false, lb, n)
            == [text[start]] + (text[start + 1..end] + LiteralLines(text[end..], false, lb, n));
        assert text[start..end] == [text[start]] + text[start + 1..end];
      }
    }

    /** write_literal */
    method WriteLiteral(text: Text)
      requires Valid()
      modifies `stream, `column, `whitespace, `indention, `openEnded
      ensures stream == old(stream) + old(Lead(true)) + [BAR] + BlockHints(text, bestIndent) + bestLineBreak
                        + LiteralLines(text, true, bestLineBreak, Indent())
      ensures var hints := BlockHints(text, bestIndent); openEnded == (hints != [] && hints[|hints| - 1] == PLUS)
      ensures column == 0 && whitespace && indention
      ensures old(stream) + old(Lead(true)) + [BAR] <= stream
    {
      hide LiteralLines, BlockHints;
      var hints := BlockHints(text, bestIndent);
      WriteIndicator([BAR] + hints, true, false, false);
      if hints != [] && hints[|hints| - 1] == PLUS {
        openEnded := true;
      }
      Assoc(old(stream) + old(Lead(true)), [BAR], hints);
      WriteLineBreak(None);
      ghost var done := stream + LiteralLines(text, true, bestLineBreak, Indent());
      assert text[0..] == text;
      var breaks := true;
      var start, end := 0, 0;
      while end <= |text|
        invariant old(stream) + old(Lead(true)) + [BAR] <= stream
        invariant 0 <= start <= end <= |text| + 1
        invariant end == |text| + 1 ==> start == |text| && column == 0 && whitespace && indention && stream == done
        invariant breaks && start == end ==> column == 0 && whitespace && indention
        invariant end <= |text| ==> forall i :: start <= i < end ==> (breaks <==> IsEmittedBreak(text[i]))
        invariant end <= |text| && !breaks ==> start < end
        invariant end <= |text| ==> stream + LiteralLines(text[start..], breaks, bestLineBreak, Indent()) == done
        invariant openEnded == (hints != [] && hints[|hints| - 1] == PLUS)
      {
        var ch := if end < |text| then Some(text[end]) else None;
        if breaks {
          if ch.None? || !IsEmittedBreak(ch.value) {
            WriteLiteralBreaks(text, start, end);
            assert end == |text| ==> stream + [] == stream;
            start := end;
          }
        } else if ch.None? || IsEmittedBreak(ch.value) {
          LiteralRun(text, start, end, bestLineBreak, Indent());
          Assoc(stream, text[start..end], LiteralLines(text[end..], false, bestLineBreak, Indent()));
          Write(text[start..end]);
          if ch.None? {
            LiteralEnd(text, bestLineBreak, Indent());
            WriteLineBreak(None);
          } else {
            BreakAnyway(text, end, bestLineBreak, Indent());
          }
          start := end;
        }
        if ch.Some? {
          breaks := IsEmittedBreak(ch.value);
        }
        end := end + 1;
      }
    }

    function Folds(): Folding
      reads this
    {
      Folding(bestLineBreak, Indent(), bestWidth)
    }

    /** The pending run of write_folded. */
    static ghost predicate FoldedRun(text: Text, start: nat, end: nat, spaces: bool, breaks: bool) {
      if end > |text| then start == |text|
      else if end == 0 then start == 0 && breaks && !spaces
      else
        start < end && !(spaces && breaks)
        && forall i :: start <= i < end ==> (spaces <==> text[i] == SPACE) && (breaks <==> IsEmittedBreak(text[i]))
    }

    /** What is still to be written when a run starts at `start`. */
    ghost function FoldedLeft(text: Text, start: nat, end: nat, breaks: bool, lead: bool): Text
      reads this
      requires start <= |text|
    {
      if end == 0 then FoldedText(Folds(), text)
      else FoldedRest(Folds(), text[start..], if breaks || column < Indent() then 0 else column - Indent(), lead)
    }

    /** The run of breaks in front of a line, or of the end, and the line's indentation. */
    method WriteFoldedBreaks(text: Text, start: nat, end: nat, leadingSpace: bool)
      requires Valid() && start <= end <= |text| && FoldedRun(text, start, end, false, true)
      requires (end < |text| ==> !IsEmittedBreak(text[end])) && (end == 0 ==> leadingSpace && column == 0)
      requires whitespace && indention
      modifies `stream, `column, `whitespace, `indention
      ensures stream + (if end == |text| then [] else FoldedRest(Folds(), text[end..], 0, text[end] == SPACE))
              == old(stream) + old(FoldedLeft(text, start, end, true, leadingSpace))
      ensures whitespace && indention && column == if end == |text| then 0 else Indent()
    {
      hide FoldedRest, FoldedText, AllBroken;
      ghost var first := if !leadingSpace && end < |text| && text[end] != SPACE
          && text[start] == LF then bestLineBreak else [];
      ghost var indentation := if end == |text| then [] else Spaces(Indent());
      ghost var rest := if end == |text| then [] else FoldedRest(Folds(), text[end..], 0, text[end] == SPACE);
      FoldedBreaksWritten(Folds(), text, start, end, leadingSpace, first, indentation, rest, stream);
      if !leadingSpace && end < |text| && text[end] != SPACE && text[start] == LF {
        WriteLineBreak(None);
      }
      WriteEachBreak(text, start, end);
      if end < |text| {
        WriteIndent();
      }
    }

    static lemma FoldedBreaksWritten(o: Folding, text: Text, start: nat, end: nat, lead: bool, first: Text,
                                     indentation: Text, rest: Text, stream: Text)
      requires start <= end <= |text| && FoldedRun(text, start, end, false, true)
      requires (end < |text| ==> !IsEmittedBreak(text[end])) && (end == 0 ==> lead)
      requires first == if !lead && end < |text| && text[end] != SPACE && text[start] == LF then o.lb else []
      requires indentation == if end == |text| then [] else Spaces(o.n)
      requires rest == if end == |text| then [] else FoldedRest(o, text[end..], 0, text[end] == SPACE)
      ensures stream + first + AllBroken(text[start..end], o.lb) + indentation + rest
              == stream + if end == 0 then FoldedText(o, text) else FoldedRest(o, text[start..], 0, lead)
      ensures stream + [] == stream
    {
      hide FoldedRest, AllBroken;
      var breaks := AllBroken(text[start..end], o.lb);
      if end == 0 {
        NoBreaks(o, text);
      } else {
        var t, r := text[start..], end - start;
        assert t[..r] == text[start..end] && t[r..] == text[end..];
        BreaksWritten(o, t, 0, lead, r);
      }
      var whole := if end == 0 then FoldedText(o, text) else FoldedRest(o, text[start..], 0, lead);
      assert whole == first + breaks + (indentation + rest);
      Assoc(stream, first + breaks, indentation + rest);
      Assoc(stream, first, breaks);
      Assoc(stream + first + breaks, indentation, rest);
    }

    static lemma NoBreaks(o: Folding, text: Text)
      requires text == [] || !IsEmittedBreak(text[0])
      ensures AllBroken(text[0..0], o.lb) == []
      ensures FoldedText(o, text) ==
              [] + [] + if text == [] then [] else Spaces(o.n) + FoldedRest(o, text[0..], 0, text[0] == SPACE)
    {
      assert text[0..] == text && text[0..0] == [];
    }

    /** A run of spaces in a line: a single one beyond the width becomes a new line. */
    method WriteFoldedSpaces(text: Text, start: nat, end: nat, ghost lead: bool)
      requires Valid() && start < end <= |text| && FoldedRun(text, start, end, true, false)
      requires (end < |text| ==> text[end] != SPACE)
      requires whitespace && indention && column >= Indent()
      modifies `stream, `column, `whitespace, `indention
      ensures stream + FoldedLeft(text, end, end, false, lead)
              == old(stream) + old(FoldedLeft(text, start, end, false, lead))
      ensures whitespace && indention && column >= Indent()
    {
      hide FoldedRest, IsEmittedBreak;
      ghost var o, t, j, k := Folds(), text[start..], end - start, column - Indent();
      assert t[..j] == text[start..end] && t[j..] == text[end..];
      SpacesWritten(o, t, k, lead, j);
      if start + 1 == end && column > bestWidth {
        Assoc(stream, NewLine(o, k), FoldedRest(o, text[end..], 0, lead));
        WriteIndent();
      } else {
        Assoc(stream, text[start..end], FoldedRest(o, text[end..], k + j, lead));
        WriteData(text[start..end]);
      }
    }

    method WriteFoldedWord(text: Text, start: nat, end: nat, ghost lead: bool)
      requires Valid() && start < end <= |text| && FoldedRun(text, start, end, false, false)
      requires end < |text| ==> !IsWordCharacter(text[end])
      requires whitespace && indention && column >= Indent()
      modifies `stream, `column, `whitespace, `indention
      ensures if end == |text| then column == 0 else column >= Indent()
      ensures stream + (if end == |text| then [] else FoldedLeft(text, end, end, false, lead))
              == old(stream) + old(FoldedLeft(text, start, end, false, lead))
      ensures whitespace && indention
    {
      hide FoldedRest, IsEmittedBreak;
      ghost var o, t, j, k := Folds(), text[start..], end - start, column - Indent();
      assert t[..j] == text[start..end] && t[j..] == text[end..];
      WordWritten(o, t, k, lead, j);
      Assoc(stream, text[start..end], if end == |text| then bestLineBreak else FoldedRest(o, text[end..], k + j, lead));
      WriteData(text[start..end]);
      if end == |text| {
        WriteLineBreak(None);
      }
    }

    /** The end of a run, in the three branches of write_folded. */
    method WriteFoldedRun(text: Text, start: nat, end: nat, spaces: bool, breaks: bool, lead: bool)
        returns (lead': bool)
      requires Valid() && start <= end <= |text| && FoldedRun(text, start, end, spaces, breaks)
      requires RunStops(text, end, spaces, breaks)
      requires whitespace && indention && if end == 0 then lead && column == 0 else breaks || column >= Indent()
      modifies `stream, `column, `whitespace, `indention
      ensures end == |text| ==> stream == old(stream) + old(FoldedLeft(text, start, end, breaks, lead))
      ensures end < |text| ==>
                && column >= Indent()
                && stream + FoldedRest(Folds(), text[end..], column - Indent(), lead')
                   == old(stream) + old(FoldedLeft(text, start, end, breaks, lead))
      ensures whitespace && indention && (end == |text| && !spaces ==> column == 0)
    {
      hide FoldedRest, FoldedText;
      lead' := lead;
      if breaks {
        WriteFoldedBreaks(text, start, end, lead);
        lead' := end < |text| && text[end] == SPACE;
        NothingAdded(stream);
      } else if spaces {
        WriteFoldedSpaces(text, start, end, lead);
      } else {
        WriteFoldedWord(text, start, end, lead);
      }
      NextRun(Folds(), text, end, if column < Indent() then 0 else column - Indent(), lead');
      NothingAdded(stream);
    }

    /** write_folded */
    method WriteFolded(text: Text)
      requires Valid()
      modifies `stream, `column, `whitespace, `indention, `openEnded
      ensures stream == old(stream) + old(Lead(true)) + [GREATER] + BlockHints(text, bestIndent) + bestLineBreak
                        + FoldedText(Folds(), text)
      ensures whitespace && indention && (text != [] && text[|text| - 1] != SPACE ==> column == 0)
      ensures var hints := BlockHints(text, bestIndent); openEnded == (hints != [] && hints[|hints| - 1] == PLUS)
    {
      hide FoldedRest, FoldedText, BlockHints, FoldedRun, RunStops;
      var hints := BlockHints(text, bestIndent);
      WriteIndicator([GREATER] + hints, true, false, false);
      if hints != [] && hints[|hints| - 1] == PLUS {
        openEnded := true;
      }
      Assoc(old(stream) + old(Lead(true)), [GREATER], hints);
      WriteLineBreak(None);
      ghost var done := stream + FoldedText(Folds(), text);
      var leadingSpace, spaces, breaks := true, false, true;
      var start, end := 0, 0;
      FirstRun(text);
      while end <= |text|
        invariant 0 <= start <= end <= |text| + 1 && start <= |text| && FoldedRun(text, start, end, spaces, breaks)
        invariant stream + FoldedLeft(text, start, end, breaks, leadingSpace) == done
        invariant whitespace && indention && (end > |text| && text != [] && text[|text| - 1] != SPACE ==> column == 0)
        invariant if end == 0 then column == 0 && leadingSpace && breaks
                  else breaks || column >= Indent() || end > |text|
        invariant openEnded == (hints != [] && hints[|hints| - 1] == PLUS)
      {
        ghost var before := start;
        if RunStops(text, end, spaces, breaks) {
          leadingSpace := WriteFoldedRun(text, start, end, spaces, breaks, leadingSpace);
          start := end;
        }
        RunGoesOn(text, before, start, end, spaces, breaks);
        NextRun(Folds(), text, end, if column < Indent() then 0 else column - Indent(), leadingSpace);
        NothingAdded(stream);
        if end < |text| {
          spaces := text[end] == SPACE;
          breaks := IsEmittedBreak(text[end]);
        }
        end := end + 1;
      }
      LastRun(text, start, end, spaces, breaks);
      NextRun(Folds(), text, start, if column < Indent() then 0 else column - Indent(), leadingSpace);
      NothingAdded(stream);
    }

    static lemma FirstRun(text: Text)
      ensures FoldedRun(text, 0, 0, false, true)
    {
    }

    static lemma RunGoesOn(text: Text, before: nat, start: nat, end: nat, spaces: bool, breaks: bool)
      requires before <= end <= |text| && FoldedRun(text, before, end, spaces, breaks)
      requires start == if RunStops(text, end, spaces, breaks) then end else before
      ensures if end == |text| then FoldedRun(text, start, end + 1, spaces, breaks)
              else FoldedRun(text, start, end + 1, text[end] == SPACE, IsEmittedBreak(text[end]))
      ensures end == |text| && text != [] && spaces ==> text[|text| - 1] == SPACE
      ensures !RunStops(text, end, spaces, breaks) ==>
                end < |text| && spaces == (text[end] == SPACE) && breaks == IsEmittedBreak(text[end])
    {
    }

    static lemma LastRun(text: Text, start: nat, end: nat, spaces: bool, breaks: bool)
      requires end > |text| && FoldedRun(text, start, end, spaces, breaks)
      ensures start == |text|
    {
    }

    static lemma NextRun(o: Folding, text: Text, end: nat, k: nat, lead: bool)
      requires end <= |text|
      ensures end == |text| ==> FoldedRest(o, text[end..], 0, lead) == FoldedRest(o, text[end..], k, lead) == []
      ensures end < |text| && IsEmittedBreak(text[end]) ==>
              FoldedRest(o, text[end..], k, lead) == FoldedRest(o, text[end..], 0, lead)
      ensures end == 0 && text != [] && IsEmittedBreak(text[0]) ==>
              FoldedText(o, text) == FoldedRest(o, text[0..], 0, true)
    {
      assert end == 0 ==> text[0..] == text;
    }

    lemma LiteralEnd(text: Text, lb: Text, n: nat)
      ensures LiteralLines(text[|text|..], false, lb, n) == lb && LiteralLines(text[|text|..], true, lb, n) == []
    {
    }

    /** At a line break it does not matter whether a line was begun. */
    lemma BreakAnyway(text: Text, i: nat, lb: Text, n: nat)
      requires i < |text| && IsEmittedBreak(text[i])
      ensures LiteralLines(text[i..], false, lb, n) == LiteralLines(text[i..], true, lb, n)
    {
    }

    /** process_scalar, at the indentation expect_scalar has set: the scanner makes one scalar token of what is
        written in the style chosen, with the same value exactly if the text is carried by that style. */
    method ProcessScalar(text: Text, eventStyle: ScalarStyle, implicit: bool, c: Place, ghost scannerIndent: int)
      returns (ghost style: ScalarStyle, ghost written: Text)
      requires Valid() && scannerIndent >= -1
      modifies `stream, `column, `whitespace, `indention, `openEnded
      ensures style == ChooseScalarStyle(AnalysisOf(text, allowUnicode), eventStyle, implicit, c)
      ensures stream == old(stream) + (if written == [] then [] else old(Lead(true))) + written
      ensures written == [] <==> (text == [] && style == PlainStyle)
      ensures written == [] ==> unchanged(`column, `whitespace, `indention) && !c.flow
      ensures style.DoubleStyle? && c.simpleKey ==> written == QuotedKey(allowUnicode, text)
      ensures written != [] && scannerIndent < Indent() && 0 < Indent() ==>
                Shows(style, c.flow, written) && !IsSeparation(written[0])
      ensures written != [] ==> if style.LiteralStyle? || style.FoldedStyle?
                                then EmitterPlaces.OnNewLine(Output()) && !c.flow && !c.simpleKey
                                else EmitterPlaces.Inline(Output())
      ensures (if style.LiteralStyle? || style.FoldedStyle? then Indent() == Max(scannerIndent, 0) + bestIndent
               else scannerIndent < Indent() && 0 < Indent())
              && (style.DoubleStyle? && !c.simpleKey ==> Indent() < bestWidth)
              && written != []
              ==> ReadsExactly(style, c.flow, scannerIndent, Indent(), written, text, IsCarried(style, Folds(), text))
      ensures !allowUnicode && !style.FoldedStyle? ==> IsCarried(style, Folds(), text)
      ensures style.PlainStyle? && (c.simpleKey || SPACE !in text) ==> written == text
    {
      hide OneScalar, ReadsExactly, Shows, ReadsBack, ReadsPlain, SingleQuotedAllowed, LiteralAllowed, PlainAllowed,
           FlowIndicators, BlockIndicators;
      hide SingleQuotable, LiteralLines, BlockHints, EscapeAll, Body, PlainWritable, KeepsFirstWord, LiteralCharacters;
      hide AnalysisOf, Follows, Foldable, FoldedText, FoldsALine, FoldsAt;
      EmptyInFlow(allowUnicode);
      var analysis := AnalyzeScalar(text, allowUnicode);
      var split := !c.simpleKey;
      ghost var before, lead := stream, Lead(true);
      var chosen := ChooseScalarStyle(analysis, eventStyle, implicit, c);
      style := chosen;
      match chosen {
        case DoubleStyle =>
          ghost var body := WriteDoubleQuoted(text, split);
          written := [DQUOTE] + body + [DQUOTE];
          Assoc(before + lead, [DQUOTE] + body, [DQUOTE]);
          Assoc(before + lead, [DQUOTE], body);
          if ReadsBack(true, body, text) {
            DoubleIsOneScalar(c.flow, scannerIndent, Indent(), body, text);
            OneIsExactly(style, c.flow, scannerIndent, Indent(), written, text);
          }
        case SingleStyle =>
          ghost var body := WriteSingleQuoted(text, split);
          written := [SQUOTE] + body + [SQUOTE];
          Assoc(before + lead, [SQUOTE] + body, [SQUOTE]);
          Assoc(before + lead, [SQUOTE], body);
          AllowedIsSingleQuotable(allowUnicode, text);
          if NEL in text {
            NelIsLost(style, c.flow, scannerIndent, Indent(), written, text);
          } else if Indent() > 0 {
            SingleIsOneScalar(c.flow, scannerIndent, Indent(), body, text);
            OneIsExactly(style, c.flow, scannerIndent, Indent(), written, text);
          }
        case LiteralStyle =>
          WriteLiteral(text);
          written := stream[|before + lead|..];
          assert stream == before + lead + written;
          AllowedIsLiteral(allowUnicode, text);
          LiteralEndsLine(text, true, bestLineBreak, Indent());
          BlockWritten(before + lead, BAR, BlockHints(text, bestIndent), bestLineBreak,
                       LiteralLines(text, true, bestLineBreak, Indent()));
          if Indent() == Max(scannerIndent, 0) + bestIndent {
            if NEL in text {
              NelIsLost(style, c.flow, scannerIndent, Indent(), written, text);
            } else {
              LiteralIsOneScalar(scannerIndent, bestIndent, bestLineBreak, text);
              OneIsExactly(style, c.flow, scannerIndent, Indent(), written, text);
            }
          }
        case FoldedStyle =>
          WriteFolded(text);
          written := [GREATER] + BlockHints(text, bestIndent) + bestLineBreak + FoldedText(Folds(), text);
          AllowedIsLiteral(allowUnicode, text);
          TextEndsLine(Folds(), text);
          BlockWritten(before + lead, GREATER, BlockHints(text, bestIndent), bestLineBreak, FoldedText(Folds(), text));
          if Indent() == Max(scannerIndent, 0) + bestIndent {
            if NEL in text {
              NelIsLost(style, c.flow, scannerIndent, Indent(), written, text);
            } else {
              FoldedIsOneScalar(scannerIndent, bestIndent, Folds(), text);
              FoldsALineIff(Folds(), text);
            }
          }
        case PlainStyle =>
          written := WritePlain(text, split, c.root, c.flow, scannerIndent + 1);
          PlainHasNoBreak(allowUnicode, text, c.flow);
          assert before + [] + [] == before;
          if text != [] {
            AllowedIsPlainWritable(c.flow, allowUnicode, text);
            if scannerIndent + 1 <= Indent() && 0 < Indent() {
              ghost var first :| KeepsFirstWord(written, text, first);
              PlainShows(c.flow, allowUnicode, text, written, first);
              PlainIsOneScalar(c.flow, allowUnicode, scannerIndent, Indent(), written, text, first);
              OneIsExactly(style, c.flow, scannerIndent, Indent(), written, text);
            }
          }
      }
      if written != [] && !style.PlainStyle? { IndicatorShows(style, c.flow, written); }
    }

    static lemma PlainHasNoBreak(allowUnicode: bool, text: Text, flow: bool)
      ensures var a := AnalysisOf(text, allowUnicode);
              (if flow then a.allowFlowPlain else a.allowBlockPlain) ==> !HasBreak(text)
    {
    }

    static lemma TextEndsLine(o: Folding, text: Text)
      requires IsLineBreak(o.lb) && text != [] && text[|text| - 1] != SPACE
      ensures var w := FoldedText(o, text); w != [] && IsBreak(w[|w| - 1])
    {
      FoldedEndsLine(o, text, 0, if IsEmittedBreak(text[0]) then true else text[0] == SPACE);
    }

    lemma BlockWritten(a: Text, indicator: Char, hints: Text, lb: Text, lines: Text)
      ensures a + [indicator] + hints + lb + lines == a + ([indicator] + hints + lb + lines)
      ensures (a + [indicator] + hints + lb + lines)[|a|..] == [indicator] + hints + lb + lines
    {
    }

    method IncreaseIndent(flow: bool, indentless: bool)
      requires Valid()
      modifies `indent, `indents
      ensures indents == old(indents) + [old(indent)]
      ensures indent == old(Deeper(indent, bestIndent, flow, indentless))
    {
      indents := indents + [indent];
      if indent.None? {
        indent := Some(if flow then bestIndent else 0);
      } else if !indentless {
        indent := Some(indent.value + bestIndent);
      }
    }

    /** expect_scalar: the scalar stands one step deeper than its surroundings, and the scanner's indentation is
        no deeper than those. It is that of the block outside, -1 at the top, at the first key of a block mapping,
        which the scanner enters only behind that key, and inside flow collections. A block scalar is never a
        key, and the scanner's indentation is then that of the surroundings. */
    method ExpectScalar(text: Text, eventStyle: ScalarStyle, implicit: bool, c: Place, ghost scannerIndent: int)
      returns (ghost style: ScalarStyle, ghost written: Text)
      requires Valid() && scannerIndent >= -1
      modifies this
      ensures style == ChooseScalarStyle(AnalysisOf(text, allowUnicode), eventStyle, implicit, c)
      ensures indent == old(indent) && indents == old(indents)
      ensures stream == old(stream) + (if written == [] then [] else old(Lead(true))) + written
      ensures written == [] <==> (text == [] && style == PlainStyle)
      ensures var outer := if old(indent).Some? then old(indent).value else -1;
              var n := Max(outer, 0) + bestIndent;
              && (if style.LiteralStyle?
                  || style.FoldedStyle? then scannerIndent == outer else scannerIndent <= Max(outer, 0))
              && (style.DoubleStyle? && !c.simpleKey ==> n < bestWidth)
              && written != []
              ==> (OneScalar(style, c.flow, scannerIndent, n, written, text)
                   <==> IsCarried(style, Folding(bestLineBreak, n, bestWidth), text))
      ensures var outer := if old(indent).Some? then old(indent).value else -1;
              var f := Folding(bestLineBreak, Max(outer, 0) + bestIndent, bestWidth);
              scannerIndent <= Max(outer, 0) ==>
                EmitterPlaces.ScalarOk(old(Output()), text, c.simpleKey, c.flow, Output())
                && ScalarPlaces.Carries(old(Output()), text, Output(), style, c.flow, c.simpleKey, outer, f,
                                        scannerIndent)
      ensures !allowUnicode && !style.FoldedStyle? ==> forall o: Folding :: IsCarried(style, o, text)
      ensures style.DoubleStyle? && c.simpleKey ==> written == QuotedKey(allowUnicode, text)
      ensures WrittenAsItIs(allowUnicode, text, eventStyle, implicit, c) && (c.simpleKey || SPACE !in text) ==>
                written == text
    {
      ReadAsItIs(allowUnicode, text, eventStyle, implicit, c);
      hide OneScalar, IsCarried, ReadsExactly, Shows, EmitterPlaces.ScalarOk, ScalarPlaces.Carries,
           WrittenAsItIs, ChooseScalarStyle, Usable, Preference, AnalysisOf, QuotedKey;
      ghost var o, lead, outer := Output(), Lead(true), if indent.Some? then indent.value else -1;
      IncreaseIndent(true, false);
      style, written := ProcessScalar(text, eventStyle, implicit, c, scannerIndent);
      indent := indents[|indents| - 1];
      indents := indents[..|indents| - 1];
      if scannerIndent <= Max(outer, 0) && written != [] {
        ghost var f := Folding(bestLineBreak, Max(outer, 0) + bestIndent, bestWidth);
        ScalarPlaced(o, text, Output(), c, outer, f, scannerIndent, style, written);
      } else if scannerIndent <= Max(outer, 0) {
        NothingPlaced(o, text, Output(), c, outer, Folding(bestLineBreak, Max(outer, 0) + bestIndent, bestWidth),
                      scannerIndent);
      }
      CarriedByAll(style, text);
    }

    static lemma ReadAsItIs(allowUnicode: bool, text: Text, eventStyle: ScalarStyle, implicit: bool, c: Place)
      ensures WrittenAsItIs(allowUnicode, text, eventStyle, implicit, c) ==>
                ChooseScalarStyle(AnalysisOf(text, allowUnicode), eventStyle, implicit, c).PlainStyle?
    {
      if WrittenAsItIs(allowUnicode, text, eventStyle, implicit, c) {
        assert Usable(PlainStyle, AnalysisOf(text, allowUnicode), eventStyle, implicit, c);
      }
    }

    static lemma CarriedByAll(style: ScalarStyle, text: Text)
      ensures !style.FoldedStyle? ==>
                forall o: Folding, f: Folding :: IsCarried(style, o, text) ==> IsCarried(style, f, text)
    {
    }

    /** What is written is what the state machine asks of the writer of scalars. */
    static lemma ScalarPlaced(o: Out, text: Text, p: Out, c: Place, outer: int, f: Folding, scannerIndent: int,
                              style: ScalarStyle, written: Text)
      requires scannerIndent >= -1 && f.n > 0 && Shows(style, c.flow, written) && !IsSeparation(written[0])
      requires p.text == o.text + ScalarPlaces.LeadOf(o) + written && !(text == [] && style.PlainStyle?)
      requires if ScalarPlaces.IsInline(style) then EmitterPlaces.Inline(p)
               else EmitterPlaces.OnNewLine(p) && !c.flow && !c.simpleKey
      requires ScalarPlaces.Unsplit(style, c.simpleKey, f)
               && (ScalarPlaces.IsInline(style) || scannerIndent == outer) ==>
                 ReadsExactly(style, c.flow, scannerIndent, f.n, written, text, IsCarried(style, f, text))
      ensures EmitterPlaces.ScalarOk(o, text, c.simpleKey, c.flow, p)
      ensures ScalarPlaces.Carries(o, text, p, style, c.flow, c.simpleKey, outer, f, scannerIndent)
      ensures ScalarPlaces.Unsplit(style, c.simpleKey, f)
              && (ScalarPlaces.IsInline(style) || scannerIndent == outer) ==>
                (OneScalar(style, c.flow, scannerIndent, f.n, written, text) <==> IsCarried(style, f, text))
    {
      hide ReadsExactly, IsCarried, OneScalar;
      if ScalarPlaces.Unsplit(style, c.simpleKey, f) && (ScalarPlaces.IsInline(style) || scannerIndent == outer) {
        ExactlyIsOne(style, c.flow, scannerIndent, f.n, written, text, IsCarried(style, f, text));
      }
      assert written != [];
      assert EmitterPlaces.Appended(o, ScalarPlaces.LeadOf(o) + written, p);
      assert ScalarPlaces.WrittenText(o, p) == written;
    }

    static lemma NothingPlaced(o: Out, text: Text, p: Out, c: Place, outer: int, f: Folding, scannerIndent: int)
      requires scannerIndent >= -1 && EmitterPlaces.Unwritten(o, p) && text == [] && !c.flow
      ensures EmitterPlaces.ScalarOk(o, text, c.simpleKey, c.flow, p)
      ensures ScalarPlaces.Carries(o, text, p, PlainStyle, c.flow, c.simpleKey, outer, f, scannerIndent)
    {
    }

    static lemma EmptyInFlow(allowUnicode: bool)
      ensures !AnalysisOf([], allowUnicode).allowFlowPlain
    {
    }
  }
}
