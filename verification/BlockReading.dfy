/** The text of a literal block scalar, and that the scanner reads it back. */
module BlockReading {
  import opened Options
  import opened Chars
  import opened FlowScalars
  import opened BlockScalars

  /** The lines of a literal scalar: the line breaks replaced, every line with text indented by n, a
      final break added if the text has none. `newLine` at the start of a line. */
  function LiteralLines(t: Text, newLine: bool, lb: Text, n: nat): Text {
    if t == [] then (if newLine then [] else lb)
    else if IsEmittedBreak(t[0]) then Broken(t[0], lb) + LiteralLines(t[1..], true, lb, n)
    else (if newLine then Spaces(n) else []) + [t[0]] + LiteralLines(t[1..], false, lb, n)
  }

  /** Every line that was begun is ended. */
  lemma {:induction false} LiteralEndsLine(t: Text, newLine: bool, lb: Text, n: nat)
    requires IsLineBreak(lb) && (t != [] || !newLine)
    ensures var w := LiteralLines(t, newLine, lb, n); w != [] && IsBreak(w[|w| - 1])
  {
    if t != [] && (|t| > 1 || !IsEmittedBreak(t[0])) {
      LiteralEndsLine(t[1..], IsEmittedBreak(t[0]), lb, n);
    }
  }

  /** What may follow a block scalar indented by n: a line with text that is indented less, or the end. */
  ghost predicate FollowsBlock(k: Text, n: nat) {
    var u := SkipSpaces(k);
    u != [] && !IsBreak(u[0]) && |k| - |u| < n
  }

  /** Every break is kept by the scanner, and no character ends the text. */
  ghost predicate LiteralCharacters(t: Text) {
    forall i :: 0 <= i < |t| ==> IsKept(t[i]) || !EndsLine(t[i])
  }

  lemma {:induction false} FollowRead(k: Text, column: nat, n: nat)
    requires var u := SkipSpaces(k); u != [] && !IsBreak(u[0]) && column + |k| - |u| < n
    ensures BlockBreaks(k, column, n) == Breaks([], SkipSpaces(k), column + |k| - |SkipSpaces(k)|)
  {
    if k[0] == SPACE {
      FollowRead(k[1..], column + 1, n);
    }
  }

  lemma {:induction false} IndentSkip(m: nat, s: Text, column: nat)
    requires s != [] && !IsBreak(s[0])
    ensures BlockBreaks(Spaces(m) + s, column, column + m) == Breaks([], s, column + m)
  {
    if m == 0 {
      assert Spaces(0) + s == s;
    } else {
      assert (Spaces(m) + s)[1..] == Spaces(m - 1) + s;
      IndentSkip(m - 1, s, column + 1);
    }
  }

  lemma ShiftOne(t: Text, m: nat)
    requires 0 < m <= |t|
    ensures [t[0]] + t[1..] == t && [t[0]] + t[1..][..m - 1] == t[..m] && t[1..][m - 1..] == t[m..]
  {
  }

  function LeadingBreaks(t: Text): (m: nat)
    ensures m <= |t| && (m < |t| ==> !IsEmittedBreak(t[m])) && forall i :: 0 <= i < m ==> IsEmittedBreak(t[i])
  {
    if t != [] && IsEmittedBreak(t[0]) then 1 + LeadingBreaks(t[1..]) else 0
  }

  function LineLength(t: Text): (m: nat)
    ensures m <= |t| && (m < |t| ==> IsEmittedBreak(t[m])) && forall i :: 0 <= i < m ==> !IsEmittedBreak(t[i])
  {
    if t != [] && !IsEmittedBreak(t[0]) then 1 + LineLength(t[1..]) else 0
  }

  /** A lone CR is never followed by LF in what is written. */
  lemma NoLineFeedNext(t: Text, newLine: bool, lb: Text, n: nat, k: Text)
    requires IsLineBreak(lb) && n > 0 && k != [] && k[0] != LF
    ensures var s := LiteralLines(t, newLine, lb, n) + k;
            lb == [CR] ==> s != [] && (t == [] || IsEmittedBreak(t[0]) || newLine ==> s[0] != LF)
  {
  }

  lemma OneBreakRead(b: Text, c: Char, s: Text, n: nat)
    requires b != [] && IsBreak(b[0]) && LineBreak(b + s) == ([c], s)
    ensures BlockBreaks(b + s, 0, n) == BlockBreaks(s, 0, n).After([c])
  {
  }

  /** Empty lines come back as line breaks, and the line behind them starts at the indentation. */
  lemma {:induction false} BreaksRead(t: Text, lb: Text, n: nat, k: Text)
    requires IsLineBreak(lb) && n > 0 && FollowsBlock(k, n) && LiteralCharacters(t)
    ensures var m := LeadingBreaks(t);
            BlockBreaks(LiteralLines(t, true, lb, n) + k, 0, n) ==
              if m == |t| then Breaks(t, SkipSpaces(k), |k| - |SkipSpaces(k)|)
              else Breaks(t[..m], LiteralLines(t[m..], false, lb, n) + k, n)
  {
    hide BlockBreaks, LiteralLines, LiteralCharacters, FollowsBlock, SkipSpaces;
    var m := LeadingBreaks(t);
    if t == [] {
      NothingWritten(lb, n, k);
      FollowRead(k, 0, n);
    } else if IsEmittedBreak(t[0]) {
      TailCharacters(t, 1);
      BreaksRead(t[1..], lb, n, k);
      FirstBreakRead(t, lb, n, k);
      ShiftOne(t, m);
    } else {
      LineIndented(t, lb, n, k);
      FirstIsText(t);
      IndentSkip(n, LiteralLines(t, false, lb, n) + k, 0);
      assert t[..0] == [] && t[0..] == t;
    }
  }

  lemma NothingWritten(lb: Text, n: nat, k: Text)
    requires FollowsBlock(k, n)
    ensures LiteralLines([], true, lb, n) + k == k
    ensures var u := SkipSpaces(k); u != [] && !IsBreak(u[0]) && |k| - |u| < n
  {
  }

  lemma FirstIsText(t: Text)
    requires LiteralCharacters(t) && t != [] && !IsEmittedBreak(t[0])
    ensures !IsBreak(t[0])
  {
  }

  lemma FirstBreakRead(t: Text, lb: Text, n: nat, k: Text)
    requires IsLineBreak(lb) && n > 0 && FollowsBlock(k, n) && LiteralCharacters(t) && t != [] && IsEmittedBreak(t[0])
    ensures BlockBreaks(LiteralLines(t, true, lb, n) + k, 0, n)
            == BlockBreaks(LiteralLines(t[1..], true, lb, n) + k, 0, n).After([t[0]])
  {
    hide BlockBreaks;
    var s := LiteralLines(t[1..], true, lb, n) + k;
    var b := Broken(t[0], lb);
    assert LiteralLines(t, true, lb, n) + k == b + s;
    NoLineFeedNext(t[1..], true, lb, n, k);
    BrokenReads(t[0], lb, s);
    OneBreakRead(b, t[0], s, n);
  }

  lemma LineIndented(t: Text, lb: Text, n: nat, k: Text)
    requires t != [] && !IsEmittedBreak(t[0])
    ensures LiteralLines(t, true, lb, n) + k == Spaces(n) + (LiteralLines(t, false, lb, n) + k)
    ensures LiteralLines(t, false, lb, n) != [] && LiteralLines(t, false, lb, n)[0] == t[0]
  {
    assert [] + [t[0]] == [t[0]];
  }

  lemma {:induction false} SkipLineAppend(a: Text, r: Text)
    requires (forall i :: 0 <= i < |a| ==> !EndsLine(a[i])) && r != [] && EndsLine(r[0])
    ensures SkipLine(a + r) == r
  {
    if a == [] {
      assert a + r == r;
    } else {
      assert (a + r)[1..] == a[1..] + r;
      SkipLineAppend(a[1..], r);
    }
  }

  lemma {:induction false} LineIsCopied(t: Text, lb: Text, n: nat)
    ensures LiteralLines(t, false, lb, n) == t[..LineLength(t)] + LiteralLines(t[LineLength(t)..], false, lb, n)
  {
    var m := LineLength(t);
    if m == 0 {
      assert t[0..] == t && t[..0] == [];
    } else {
      LineIsCopied(t[1..], lb, n);
      assert t[1..][m - 1..] == t[m..] && [t[0]] + t[1..][..m - 1] == t[..m];
    }
  }

  /** A line ends where the text's line ends. */
  lemma LineRead(t: Text, lb: Text, n: nat, k: Text)
    requires IsLineBreak(lb) && LiteralCharacters(t)
    ensures var s := LiteralLines(t, false, lb, n) + k;
            var m := LineLength(t);
            && SkipLine(s) == LiteralLines(t[m..], false, lb, n) + k
            && |s| - |SkipLine(s)| == m && s[..m] == t[..m]
  {
    hide LineLength, SkipLine;
    var m := LineLength(t);
    var r := LiteralLines(t[m..], false, lb, n) + k;
    LineIsCopied(t, lb, n);
    assert LiteralLines(t, false, lb, n) + k == t[..m] + r;
    assert EndsLine(r[0]);
    SkipLineAppend(t[..m], r);
  }

  /** The last j characters are line breaks, the one before them is not. */
  predicate EndsWithBreaks(t: Text, j: nat) {
    && j <= |t| && (j < |t| ==> !IsEmittedBreak(t[|t| - j - 1]))
    && forall i :: |t| - j <= i < |t| ==> IsEmittedBreak(t[i])
  }

  function TrailingBreaks(t: Text): (j: nat)
    ensures j <= |t| && EndsWithBreaks(t, j)
  {
    if t != [] && IsEmittedBreak(t[|t| - 1]) then 1 + TrailingBreaks(t[..|t| - 1]) else 0
  }

  /** The break behind the first line; '\n' where the text has none. */
  function FirstBreak(t: Text): Char { if LineLength(t) < |t| then t[LineLength(t)] else LF }

  /** The lines of a text behind `head`, with its last break and the empty lines behind it kept apart. */
  function Ending(t: Text, head: Text, rest: Text): Lines {
    Parts(t, TrailingBreaks(t), head, rest)
  }

  function Parts(t: Text, j: nat, head: Text, rest: Text): Lines
    requires j <= |t|
  {
    Lines(head + t[..|t| - j], [if j == 0 then LF else t[|t| - j]], if j == 0 then [] else t[|t| - j + 1..], rest)
  }

  lemma EndingAppend(head: Text, p: Text, u: Text, rest: Text)
    requires u != [] && !IsEmittedBreak(u[0])
    ensures Ending(p + u, head, rest) == Ending(u, head + p, rest)
  {
    hide TrailingBreaks, IsEmittedBreak, EndsWithBreaks, Parts;
    TrailingAppend(p, u);
    PartsAppend(head, p, u, TrailingBreaks(u), rest);
  }

  lemma PartsAppend(head: Text, p: Text, u: Text, j: nat, rest: Text)
    requires j <= |u|
    ensures Parts(p + u, j, head, rest) == Parts(u, j, head + p, rest)
  {
    SlicesBehind(p, u, |u| - j);
    if j > 0 { SlicesBehind(p, u, |u| - j + 1); }
    assert head + (p + u[..|u| - j]) == head + p + u[..|u| - j];
  }

  lemma EndingAfter(t: Text, a: Text, b: Text, rest: Text)
    ensures Ending(t, a, rest).After(b) == Ending(t, b + a, rest)
  {
    hide TrailingBreaks;
    var stem := t[..|t| - TrailingBreaks(t)];
    assert b + (a + stem) == b + a + stem;
  }

  /** The text behind the break of its first line. */
  function NextLines(t: Text): Text {
    if LineLength(t) < |t| then t[LineLength(t) + 1..] else []
  }

  lemma TrailingIs(t: Text, j: nat)
    requires EndsWithBreaks(t, j)
    ensures TrailingBreaks(t) == j
  {
  }

  lemma TrailingAppend(p: Text, u: Text)
    requires u != [] && !IsEmittedBreak(u[0])
    ensures TrailingBreaks(u) < |u| && TrailingBreaks(p + u) == TrailingBreaks(u)
  {
    hide EndsWithBreaks, IsEmittedBreak, TrailingBreaks;
    BreaksBehind(p, u, TrailingBreaks(u));
    TrailingIs(p + u, TrailingBreaks(u));
  }

  lemma BreaksBehind(p: Text, u: Text, j: nat)
    requires u != [] && EndsWithBreaks(u, j) && !IsEmittedBreak(u[0])
    ensures j < |u| && EndsWithBreaks(p + u, j)
  {
    hide IsEmittedBreak;
    var t := p + u;
    forall i | |t| - j <= i < |t| ensures IsEmittedBreak(t[i]) { assert t[i] == u[i - |p|]; }
    assert t[|t| - j - 1] == u[|u| - j - 1];
  }

  lemma SlicesBehind(p: Text, u: Text, i: nat)
    requires i <= |u|
    ensures (p + u)[..|p| + i] == p + u[..i] && (p + u)[|p| + i..] == u[i..]
    ensures i < |u| ==> (p + u)[|p| + i] == u[i]
  {
  }

  lemma Split(t: Text, m: nat, l: nat)
    requires m < |t| && l <= |t| - m - 1
    ensures t == (t[..m] + [t[m]] + t[m + 1..][..l]) + t[m + 1..][l..]
  {
  }

  /** One line and the empty lines behind it, then the rest. */
  lemma FirstLine(t: Text)
    requires t != [] && !IsEmittedBreak(t[0])
    ensures var m := LineLength(t); var v := NextLines(t); var l := LeadingBreaks(v);
            && 0 < m && |v| <= |t| - m
            && (l < |v| ==> t == (t[..m] + [FirstBreak(t)] + v[..l]) + v[l..])
            && (l == |v| ==> TrailingBreaks(t) == |t| - m)
  {
    hide LineLength, LeadingBreaks, TrailingBreaks;
    var m := LineLength(t);
    var v := NextLines(t);
    var l := LeadingBreaks(v);
    if l < |v| {
      Split(t, m, l);
    } else {
      OnlyBreaksBehind(t, m, v);
      TrailingIs(t, |t| - m);
    }
  }

  lemma OnlyBreaksBehind(t: Text, m: nat, v: Text)
    requires 0 < m <= |t| && !IsEmittedBreak(t[m - 1]) && (m < |t| ==> IsEmittedBreak(t[m]))
    requires v == (if m < |t| then t[m + 1..] else []) && forall i :: 0 <= i < |v| ==> IsEmittedBreak(v[i])
    ensures EndsWithBreaks(t, |t| - m)
  {
    hide IsEmittedBreak;
    forall i | m <= i < |t| ensures IsEmittedBreak(t[i]) {
      if i > m { assert t[i] == v[i - m - 1]; }
    }
  }

  lemma BehindLine(t: Text, lb: Text, n: nat, k: Text)
    ensures LiteralLines(t[LineLength(t)..], false, lb, n) + k
            == Broken(FirstBreak(t), lb) + (LiteralLines(NextLines(t), true, lb, n) + k)
  {
    var m := LineLength(t);
    if m < |t| {
      assert t[m..][1..] == NextLines(t);
    }
  }

  lemma LinesStep(n: nat, b: Breaks, line: Text, lb: Text, u: Text)
    requires b.AtText() && AtLine(b, n) && LineBreak(SkipLine(b.rest)) == (lb, u)
    requires line == b.rest[..|b.rest| - |SkipLine(b.rest)|]
    ensures var next := BlockBreaks(u, 0, n);
            BlockLines(false, n, b) == if AtLine(next, n) then BlockLines(false, n, next).After(b.text + line + lb)
                                       else Lines(b.text + line, lb, next.text, next.rest)
  {
  }

  /** The scanner at a line of the text, with the empty lines in front of it in hand. */
  function AtText(t: Text, head: Text, lb: Text, n: nat, k: Text): Breaks {
    Breaks(head, LiteralLines(t, false, lb, n) + k, n)
  }

  predicate StartsLine(t: Text) { t != [] && !IsEmittedBreak(t[0]) }

  lemma AtTextIsLine(t: Text, head: Text, lb: Text, n: nat, k: Text)
    requires StartsLine(t) && LiteralCharacters(t)
    ensures AtText(t, head, lb, n, k).AtText() && AtLine(AtText(t, head, lb, n, k), n)
  {
  }

  /** Reading one line: the scanner is then at the next one, or behind the last. */
  lemma OneLineRead(t: Text, head: Text, lb: Text, n: nat, k: Text)
    requires IsLineBreak(lb) && n > 0 && FollowsBlock(k, n) && LiteralCharacters(t) && StartsLine(t)
    ensures AtText(t, head, lb, n, k).AtText()
    ensures var m := LineLength(t); var v := NextLines(t); var l := LeadingBreaks(v);
            if l < |v| then
              var next := AtText(v[l..], v[..l], lb, n, k);
              next.AtText() && BlockLines(false, n, AtText(t, head, lb, n, k))
                  == BlockLines(false, n, next).After(head + t[..m] + [FirstBreak(t)])
            else
              BlockLines(false, n, AtText(t, head, lb, n, k)) == Lines(head + t[..m], [FirstBreak(t)], v, SkipSpaces(k))
  {
    hide BlockBreaks, SkipLine, BlockLines, LeadingBreaks, LineLength;
    var s := LiteralLines(t, false, lb, n) + k;
    var v := NextLines(t);
    var l := LeadingBreaks(v);
    var r := LiteralLines(v, true, lb, n) + k;
    LineRead(t, lb, n, k);
    BehindLine(t, lb, n, k);
    NoLineFeedNext(v, true, lb, n, k);
    BrokenReads(FirstBreak(t), lb, r);
    BreaksRead(v, lb, n, k);
    AtTextIsLine(t, head, lb, n, k);
    LinesStep(n, Breaks(head, s, n), t[..LineLength(t)], [FirstBreak(t)], r);
    if l < |v| {
      AtTextIsLine(v[l..], v[..l], lb, n, k);
    }
  }

  /** The lines of the text come back; the last break and the empty lines behind it are kept apart. */
  lemma {:induction false} LinesRead(t: Text, head: Text, lb: Text, n: nat, k: Text)
    requires IsLineBreak(lb) && n > 0 && FollowsBlock(k, n) && LiteralCharacters(t) && StartsLine(t)
    ensures AtText(t, head, lb, n, k).AtText()
    ensures BlockLines(false, n, AtText(t, head, lb, n, k)) == Ending(t, head, SkipSpaces(k))
    decreases |t|
  {
    hide BlockBreaks, SkipLine, BlockLines, TrailingBreaks, LeadingBreaks, LineLength, LiteralLines, AtText, SkipSpaces;
    hide EndsWithBreaks, IsEmittedBreak;
    var m := LineLength(t);
    var v := NextLines(t);
    var l := LeadingBreaks(v);
    OneLineRead(t, head, lb, n, k);
    FirstLine(t);
    if l == |v| {
      LastLine(t, head, SkipSpaces(k));
    } else {
      var u := v[l..];
      LinesRead(u, v[..l], lb, n, k);
      var p := t[..m] + [FirstBreak(t)];
      EndingAfter(u, v[..l], head + t[..m] + [FirstBreak(t)], SkipSpaces(k));
      EndingAppend(head, p + v[..l], u, SkipSpaces(k));
      assert head + t[..m] + [FirstBreak(t)] + v[..l] == head + (p + v[..l]);
    }
  }

  lemma LastLine(t: Text, head: Text, rest: Text)
    requires TrailingBreaks(t) == |t| - LineLength(t)
    ensures Ending(t, head, rest) == Lines(head + t[..LineLength(t)], [FirstBreak(t)], NextLines(t), rest)
  {
    hide TrailingBreaks, LineLength;
  }

  /** determine_block_hints */
  function BlockHints(t: Text, bestIndent: nat): Text
    requires 2 <= bestIndent <= 9
  {
    if t == [] then []
    else
      (if t[0] == SPACE || IsEmittedBreak(t[0]) then [0x30 + bestIndent] else [])
      + if !IsEmittedBreak(t[|t| - 1]) then [DASH]
        else if |t| == 1 || IsEmittedBreak(t[|t| - 2]) then [PLUS]
        else []
  }

  function HintedChomping(t: Text): Chomping
    requires t != []
  {
    if !IsEmittedBreak(t[|t| - 1]) then Some(false)
    else if |t| == 1 || IsEmittedBreak(t[|t| - 2]) then Some(true)
    else None
  }

  function Increment(t: Text, bestIndent: nat): Option<nat>
    requires t != []
  {
    if t[0] == SPACE || IsEmittedBreak(t[0]) then Some(bestIndent) else None
  }

  function Mark(c: Chomping): Text {
    match c
    case None => []
    case Some(keep) => if keep then [PLUS] else [DASH]
  }

  function Digit(d: Option<nat>): Text
    requires d.Some? ==> 1 <= d.value <= 9
  {
    if d.Some? then [0x30 + d.value] else []
  }

  lemma HintsAre(t: Text, bestIndent: nat)
    requires 2 <= bestIndent <= 9 && t != [] && LiteralCharacters(t)
    ensures BlockHints(t, bestIndent) ==
              Digit(Increment(t, bestIndent)) + Mark(HintedChomping(t))
  {
  }

  lemma IndicatorsRead(d: Option<nat>, c: Chomping, r: Text)
    requires r != [] && IsBreak(r[0]) && (d.Some? ==> 1 <= d.value <= 9)
    ensures Indicators(Digit(d) + (Mark(c) + r)) == Header(c, d, r)
  {
    hide OptionalMark, OptionalDigit;
    var u := Mark(c) + r;
    MarkReads(c, r);
    DigitReads(d, u);
    if d.Some? {
      assert !IsChompingMark((Digit(d) + u)[0]);
    } else {
      assert Digit(d) + u == u;
      assert c.None? ==> u == r;
      DigitReads(None, r);
      assert [] + r == r;
    }
  }

  lemma MarkReads(c: Chomping, r: Text)
    requires r != [] && IsBreak(r[0])
    ensures OptionalMark(Mark(c) + r) == (c, r) && (Mark(c) + r)[0] == if c.Some? then Mark(c)[0] else r[0]
  {
    var u := Mark(c) + r;
    assert if c.Some? then u[1..] == r && u[0] == Mark(c)[0] else u == r;
  }

  lemma DigitReads(d: Option<nat>, u: Text)
    requires u != [] && !IsDigit(u[0]) && (d.Some? ==> 1 <= d.value <= 9)
    ensures OptionalDigit(Digit(d) + u) == Some((d, u))
  {
    if d.Some? {
      assert (Digit(d) + u)[1..] == u;
    } else {
      assert Digit(d) + u == u;
    }
  }

  lemma HintsRead(t: Text, bestIndent: nat, lb: Text, r: Text)
    requires 2 <= bestIndent <= 9 && IsLineBreak(lb) && t != [] && LiteralCharacters(t)
    ensures Indicators(BlockHints(t, bestIndent) + lb + r) ==
              Header(HintedChomping(t), Increment(t, bestIndent), lb + r)
  {
    hide Indicators, BlockHints, Digit, Mark;
    var d := Increment(t, bestIndent);
    var c := HintedChomping(t);
    HintsAre(t, bestIndent);
    IndicatorsRead(d, c, lb + r);
    assert Digit(d) + Mark(c) + lb + r == Digit(d) + (Mark(c) + (lb + r));
  }

  lemma {:induction false} IndentFound(m: nat, s: Text, column: nat)
    requires s != [] && s[0] != SPACE && !IsBreak(s[0])
    ensures BlockIndentation(Spaces(m) + s, column, column) == (Breaks([], s, column + m), column + m)
  {
    if m == 0 {
      assert Spaces(0) + s == s;
    } else {
      assert (Spaces(m) + s)[1..] == Spaces(m - 1) + s;
      IndentFound(m - 1, s, column + 1);
    }
  }

  /** Where the scanner finds the text, whether it counts the indentation or is told. */
  lemma DepthFound(t: Text, lb: Text, n: nat, k: Text)
    requires IsLineBreak(lb) && n > 0 && LiteralCharacters(t) && t != [] && t[0] != SPACE && !IsEmittedBreak(t[0])
    ensures BlockIndentation(LiteralLines(t, true, lb, n) + k, 0, 0) == (AtText(t, [], lb, n, k), n)
  {
    var s := LiteralLines(t, false, lb, n) + k;
    assert [] + [t[0]] == [t[0]];
    assert LiteralLines(t, true, lb, n) + k == Spaces(n) + s;
    IndentFound(n, s, 0);
  }

  /** The hints keep exactly the breaks at the end of the text. */
  lemma Chomped(t: Text, j: nat, rest: Text)
    requires j < |t| && EndsWithBreaks(t, j)
    ensures Chomp(HintedChomping(t), Parts(t, j, [], rest)) == Scanned(t, rest)
  {
    assert [] + t[..|t| - j] == t[..|t| - j];
    if j == 0 {
      assert t[..|t|] + [] + [] == t;
    } else if j == 1 {
      assert IsEmittedBreak(t[|t| - 1]);
      assert t[..|t| - 1] + [t[|t| - 1]] + [] == t;
    } else {
      assert IsEmittedBreak(t[|t| - 1]) && IsEmittedBreak(t[|t| - 2]);
      assert t[..|t| - j] + [t[|t| - j]] + t[|t| - j + 1..] == t;
    }
  }

  lemma EndingChomped(t: Text, rest: Text)
    requires TrailingBreaks(t) < |t|
    ensures Chomp(HintedChomping(t), Ending(t, [], rest)) == Scanned(t, rest)
  {
    hide TrailingBreaks, Chomp, HintedChomping, Parts, EndsWithBreaks;
    Chomped(t, TrailingBreaks(t), rest);
  }

  lemma OnlyBreaksChomped(folded: bool, t: Text, rest: Text, column: nat, n: nat)
    requires t != [] && column < n && (forall i :: 0 <= i < |t| ==> IsEmittedBreak(t[i]))
    requires (rest == [] || !IsBreak(rest[0]))
    ensures Chomp(HintedChomping(t), BlockLines(folded, n, Breaks(t, rest, column))) == Scanned(t, rest)
  {
    assert IsEmittedBreak(t[|t| - 1]) && (|t| > 1 ==> IsEmittedBreak(t[|t| - 2]));
    assert [] + [] + t == t;
  }

  /** The scanner in front of the first line of the text. */
  function FirstLineOf(t: Text, lb: Text, n: nat, k: Text): Breaks {
    var m := LeadingBreaks(t);
    if m == |t| then Breaks(t, SkipSpaces(k), |k| - |SkipSpaces(k)|) else AtText(t[m..], t[..m], lb, n, k)
  }

  lemma TailCharacters(t: Text, m: nat)
    requires LiteralCharacters(t) && m <= |t|
    ensures LiteralCharacters(t[m..])
  {
  }

  /** From the first line of the text on. */
  lemma ChompedRead(t: Text, lb: Text, n: nat, k: Text)
    requires IsLineBreak(lb) && n > 0 && FollowsBlock(k, n) && LiteralCharacters(t) && t != []
    ensures FirstLineOf(t, lb, n, k).AtText()
    ensures Chomp(HintedChomping(t), BlockLines(false, n, FirstLineOf(t, lb, n, k))) == Scanned(t, SkipSpaces(k))
  {
    hide LiteralLines, Chomp, BlockLines, TrailingBreaks, LeadingBreaks, HintedChomping, Ending, SkipSpaces,
         LiteralCharacters;
    var m := LeadingBreaks(t);
    TailCharacters(t, m);
    if m == |t| {
      OnlyBreaksChomped(false, t, SkipSpaces(k), |k| - |SkipSpaces(k)|, n);
    } else {
      var u := t[m..];
      LinesRead(u, t[..m], lb, n, k);
      TrailingAppend(t[..m], u);
      EndingAppend([], t[..m], u, SkipSpaces(k));
      assert t[..m] + u == t && [] + t[..m] == t[..m];
      EndingChomped(t, SkipSpaces(k));
    }
  }

  /** The scanner finds the first line: it is told the indentation, or counts it. */
  lemma FirstLineRead(t: Text, lb: Text, n: nat, k: Text)
    requires IsLineBreak(lb) && n > 0 && LiteralCharacters(t) && t != [] && FollowsBlock(k, n)
    ensures BlockBreaks(LiteralLines(t, true, lb, n) + k, 0, n) == FirstLineOf(t, lb, n, k)
    ensures t[0] != SPACE && !IsEmittedBreak(t[0]) ==>
              BlockIndentation(LiteralLines(t, true, lb, n) + k, 0, 0) == (FirstLineOf(t, lb, n, k), n)
  {
    hide LiteralLines, BlockBreaks, BlockIndentation;
    BreaksRead(t, lb, n, k);
    if t[0] != SPACE && !IsEmittedBreak(t[0]) {
      DepthFound(t, lb, n, k);
      assert t[0..] == t && t[..0] == [];
    }
  }

  /** A literal scalar is read back, under every indentation of the scanner that agrees with the
      writer's, and whatever the text. */
  lemma LiteralReads(t: Text, bestIndent: nat, indent: int, lb: Text, n: nat, k: Text)
    requires 2 <= bestIndent <= 9 && IsLineBreak(lb) && t != [] && LiteralCharacters(t) && FollowsBlock(k, n)
    requires indent >= -1 && n == Max(indent, 0) + bestIndent
    ensures BlockScalar(false, indent, BlockHints(t, bestIndent) + lb + LiteralLines(t, true, lb, n) + k) ==
              Scanned(t, SkipSpaces(k))
  {
    hide Indicators, LiteralLines, HintedChomping, BlockHints, IgnoredLine, BlockBody, FollowsBlock, LiteralCharacters,
         SkipSpaces;
    var body := LiteralLines(t, true, lb, n) + k;
    assert BlockHints(t, bestIndent) + lb + LiteralLines(t, true, lb, n) + k == BlockHints(t, bestIndent) + lb + body;
    HintsRead(t, bestIndent, lb, body);
    HeaderEnds(t, lb, n, k);
    BodyReads(t, bestIndent, indent, lb, n, k);
  }

  lemma BodyReads(t: Text, bestIndent: nat, indent: int, lb: Text, n: nat, k: Text)
    requires 2 <= bestIndent <= 9 && IsLineBreak(lb) && t != [] && LiteralCharacters(t) && FollowsBlock(k, n)
    requires indent >= -1 && n == Max(indent, 0) + bestIndent
    ensures BlockBody(false, indent, HintedChomping(t), Increment(t, bestIndent),
                      LiteralLines(t, true, lb, n) + k) == Scanned(t, SkipSpaces(k))
  {
    hide BlockIndentation, BlockBreaks, BlockLines, LiteralLines, Chomp, HintedChomping, FirstLineOf, FollowsBlock;
    hide LiteralCharacters, SkipSpaces;
    FirstLineRead(t, lb, n, k);
    ChompedRead(t, lb, n, k);
  }

  lemma HeaderEnds(t: Text, lb: Text, n: nat, k: Text)
    requires IsLineBreak(lb) && n > 0 && FollowsBlock(k, n)
    ensures IgnoredLine(lb + (LiteralLines(t, true, lb, n) + k)) == Some(LiteralLines(t, true, lb, n) + k)
  {
    var body := LiteralLines(t, true, lb, n) + k;
    NoLineFeedNext(t, true, lb, n, k);
    LineBreakReads(lb, body);
    assert SkipSpaces(lb + body) == lb + body;
  }
}
