/** What a written plain scalar contributes when the scanner reads it, word by word. */
module PlainReading {
  import opened Options
  import opened Chars
  import opened FlowScalars
  import opened PlainScalars
  import opened ScalarAnalysis

  /** A run of characters that the scanner takes whole: no white space, no break-off inside. */
  ghost predicate Word(flow: bool, a: Text) {
    && a != [] && a[|a| - 1] != COLON
    && forall i :: 0 <= i < |a| ==>
       !IsSeparation(a[i]) && a[i] != BOM && (flow ==> a[i] != COLON && !IsFlowIndicator(a[i]))
  }

  lemma {:induction false} RunOfWord(flow: bool, a: Text, k: Text)
    requires Word(flow, a) && StopsRun(flow, k)
    ensures Run(flow, a + k) == a && Width(a) == |a|
  {
    RunOfSuffix(flow, a, k, 0);
    WidthOf(a);
  }

  lemma {:induction false} RunOfSuffix(flow: bool, a: Text, k: Text, i: nat)
    requires Word(flow, a) && StopsRun(flow, k) && i <= |a|
    ensures Run(flow, a[i..] + k) == a[i..]
    decreases |a| - i
  {
    var s := a[i..] + k;
    if i == |a| {
      assert s == k;
    } else {
      assert s[1..] == a[i + 1..] + k;
      assert i + 1 < |a| ==> s[1] == a[i + 1];
      RunOfSuffix(flow, a, k, i + 1);
      assert a[i..] == [a[i]] + a[i + 1..];
    }
  }

  lemma {:induction false} WidthOf(a: Text)
    requires BOM !in a
    ensures Width(a) == |a|
  {
    if a != [] {
      WidthOf(a[..|a| - 1]);
    }
  }

  /** A gap as the emitter writes it between two words: spaces, or one new line and an indentation. */
  ghost predicate WrittenGap(indent: nat, g: Text, text: Text) {
    || (g == text && g != [] && forall i :: 0 <= i < |g| ==> g[i] == SPACE)
    || (text == [SPACE] && exists lb: Text, n: nat :: IsLineBreak(lb) && n > 0 && n >= indent && g == lb + Spaces(n))
  }

  lemma {:induction false} IndentRead(n: nat, k: Text, column: nat)
    requires k != [] && (k[0] == NUL || !IsSeparation(k[0]))
    ensures PlainBreaks(Spaces(n) + k, column) == Some(Gap([], k, Some(column + n)))
  {
    if n == 0 {
      assert Spaces(0) + k == k;
    } else {
      assert (Spaces(n) + k)[1..] == Spaces(n - 1) + k;
      IndentRead(n - 1, k, column + 1);
    }
  }

  lemma GapRead(indent: nat, g: Text, text: Text, k: Text)
    requires WrittenGap(indent, g, text) && k != [] && !IsSeparation(k[0])
    ensures var r := PlainGap(g + k);
            r.text == text && r.rest == k && (r.newColumn.Some? ==> r.newColumn.value >= indent)
    ensures g != [] && IsSeparation(g[0])
  {
    hide PlainGap;
    if g == text && forall i :: 0 <= i < |g| ==> g[i] == SPACE {
      SpacesRead(g, k);
    } else {
      var lb: Text, n: nat :| IsLineBreak(lb) && n > 0 && n >= indent && g == lb + Spaces(n);
      assert g + k == lb + (Spaces(n) + k);
      FoldRead(lb, n, k);
    }
  }

  lemma SpacesRead(g: Text, k: Text)
    requires k != [] && !IsSeparation(k[0]) && forall i :: 0 <= i < |g| ==> g[i] == SPACE
    ensures PlainGap(g + k) == Gap(g, k, None)
  {
    hide PlainBreaks, SkipSpaces;
    SpacesSkipped(g, k);
    assert (g + k)[..|g|] == g;
  }

  lemma FoldRead(lb: Text, n: nat, k: Text)
    requires k != [] && !IsSeparation(k[0]) && IsLineBreak(lb) && n > 0
    ensures PlainGap(lb + (Spaces(n) + k)) == Gap([SPACE], k, Some(n))
  {
    hide PlainBreaks, SeparatorAfter;
    var t := Spaces(n) + k;
    assert t[0] == SPACE;
    assert SkipSpaces(lb + t) == lb + t;
    hide SkipSpaces;
    LineBreakReads(lb, t);
    hide LineBreak;
    IndentRead(n, k, 0);
    assert !AtDocumentSeparator(t);
    assert [SPACE] + [] == [SPACE];
  }
  /** From the indentation on, the column does not matter behind a run. */
  lemma {:induction false} TailColumn(flow: bool, indent: nat, s: Text, c: nat, d: nat)
    requires flow || (c >= indent && d >= indent)
    ensures Tail(flow, indent, s, c) == Tail(flow, indent, s, d)
    ensures s != [] && s[0] != HASH && !StopsRun(flow, s) ==> Plain(flow, indent, s, c) == Plain(flow, indent, s, d)
    decreases |s|, 1
  {
    hide PlainGap, Run, Width, StopsRun;
    var g := PlainGap(s);
    if GoesOn(flow, indent, g, c) {
      if g.newColumn.None? {
        TailColumn'(flow, indent, g.rest, c + |g.text|, d + |g.text|);
      }
    }
    TailColumn'(flow, indent, s, c, d);
  }

  lemma {:induction false} TailColumn'(flow: bool, indent: nat, s: Text, c: nat, d: nat)
    requires flow || (c >= indent && d >= indent)
    ensures Plain(flow, indent, s, c) == Plain(flow, indent, s, d)
    decreases |s|, 0
  {
    hide PlainGap, Width;
    if !(s == [] || s[0] == HASH || StopsRun(flow, s)) {
      var run := Run(flow, s);
      TailColumn(flow, indent, s[|run|..], c + Width(run), d + Width(run));
    }
  }

  /** The scalar may end before k: the scanner takes in nothing of it. */
  ghost predicate EndsPlain(flow: bool, indent: nat, k: Text) {
    StopsRun(flow, k) && Tail(flow, indent, k, indent).0 == []
  }

  /** In front of k, w is read as v and the scanner stands behind a run. */
  ghost predicate PlainAt(flow: bool, indent: nat, w: Text, v: Text, k: Text, column: nat) {
    Plain(flow, indent, w + k, column) == (v + Tail(flow, indent, k, indent).0, Tail(flow, indent, k, indent).1)
  }

  ghost predicate ReadsPlain(flow: bool, indent: nat, w: Text, v: Text) {
    forall k: Text, column: nat :: StopsRun(flow, k) && (flow || column + 1 >= indent) ==>
      PlainAt(flow, indent, w, v, k, column)
  }

  lemma FirstWord(flow: bool, indent: nat, a: Text)
    requires Word(flow, a) && a[0] != HASH
    ensures ReadsPlain(flow, indent, a, a)
  {
    hide PlainGap, Width, Run;
    forall k: Text, column: nat | StopsRun(flow, k) && (flow || column + 1 >= indent)
      ensures PlainAt(flow, indent, a, a, k, column)
    {
      var s := a + k;
      RunOfWord(flow, a, k);
      NotStopped(flow, a, k);
      assert s[|a|..] == k;
      TailColumn(flow, indent, k, column + |a|, indent);
    }
  }

  lemma NotStopped(flow: bool, a: Text, k: Text)
    requires Word(flow, a)
    ensures !StopsRun(flow, a + k)
  {
    if |a| > 1 {
      assert (a + k)[1] == a[1];
    }
  }

  lemma NextWord(flow: bool, indent: nat, w: Text, v: Text, g: Text, text: Text, a: Text)
    requires ReadsPlain(flow, indent, w, v) && WrittenGap(indent, g, text)
    requires Word(flow, a) && a[0] != HASH
    ensures ReadsPlain(flow, indent, w + (g + a), v + (text + a))
  {
    FirstWord(flow, indent, a);
    forall k: Text, column: nat | StopsRun(flow, k) && (flow || column + 1 >= indent)
      ensures PlainAt(flow, indent, w + (g + a), v + (text + a), k, column)
    {
      NextWordAt(flow, indent, w, v, g, text, a, k, column);
    }
  }

  lemma NextWordAt(flow: bool, indent: nat, w: Text, v: Text, g: Text, text: Text, a: Text, k: Text, column: nat)
    requires ReadsPlain(flow, indent, w, v) && WrittenGap(indent, g, text)
    requires Word(flow, a) && a[0] != HASH && ReadsPlain(flow, indent, a, a)
    requires StopsRun(flow, k) && (flow || column + 1 >= indent)
    ensures PlainAt(flow, indent, w + (g + a), v + (text + a), k, column)
  {
    hide ReadsPlain, PlainGap, Width, Run, WrittenGap, Plain, Tail;
    var u := a + k;
    assert w + (g + a) + k == w + (g + u);
    NotStopped(flow, a, k);
    GapRead(indent, g, text, u);
    ReadsPlainAt(flow, indent, w, v, g + u, column);
    ReadsPlainAt(flow, indent, a, a, k, indent);
    ThenWord(flow, indent, g, text, u);
    var t := Tail(flow, indent, k, indent).0;
    assert v + (text + (a + t)) == v + (text + a) + t;
  }

  lemma ReadsPlainAt(flow: bool, indent: nat, w: Text, v: Text, k: Text, column: nat)
    requires ReadsPlain(flow, indent, w, v) && StopsRun(flow, k) && (flow || column + 1 >= indent)
    ensures PlainAt(flow, indent, w, v, k, column)
  {
  }

  lemma ThenWord(flow: bool, indent: nat, g: Text, text: Text, u: Text)
    requires WrittenGap(indent, g, text) && u != [] && u[0] != HASH && !StopsRun(flow, u)
    ensures Tail(flow, indent, g + u, indent) ==
              (text + Plain(flow, indent, u, indent).0, Plain(flow, indent, u, indent).1)
  {
    GapRead(indent, g, text, u);
    var r := PlainGap(g + u);
    TailColumn'(flow, indent, u, if r.newColumn.Some? then r.newColumn.value else indent + |text|, indent);
  }

  /** A text the plain style keeps: words separated by spaces, none that the scanner would end early. */
  ghost predicate PlainWritable(flow: bool, t: Text) {
    && t != [] && t[0] != SPACE && t[|t| - 1] != SPACE
    && (forall i :: 0 <= i < |t| ==>
          t[i] == SPACE
          || (!IsSeparation(t[i]) && t[i] != BOM && (flow ==> t[i] != COLON && !IsFlowIndicator(t[i]))))
    && (forall i :: 0 <= i < |t| && t[i] == HASH ==> 0 < i && t[i - 1] != SPACE)
    && (forall i :: 0 <= i < |t| && t[i] == COLON ==> i + 1 < |t| && t[i + 1] != SPACE)
  }

  ghost predicate PlainIndicators(flow: bool, t: Text) {
    if flow then FlowIndicators(t) else BlockIndicators(t)
  }

  lemma AllowedAt(flow: bool, allowUnicode: bool, t: Text, i: nat)
    requires PlainAllowed(allowUnicode, t) && !PlainIndicators(flow, t) && i < |t|
    ensures t[i] == SPACE || (!IsSeparation(t[i]) && t[i] != BOM && (flow ==> t[i] != COLON && !IsFlowIndicator(t[i])))
    ensures t[i] == HASH ==> 0 < i && t[i - 1] != SPACE
    ensures t[i] == COLON ==> i + 1 < |t| && t[i + 1] != SPACE
  {
    assert !IsSpecial(allowUnicode, t[i]) && !IsEmittedBreak(t[i]);
    if flow {
      assert !FlowIndicatorAt(t, i);
    } else {
      assert !BlockIndicatorAt(t, i);
    }
  }

  /** What the analysis allows in plain style is such a text. */
  lemma AllowedIsPlainWritable(flow: bool, allowUnicode: bool, t: Text)
    requires PlainAllowed(allowUnicode, t) && !PlainIndicators(flow, t)
    ensures PlainWritable(flow, t)
  {
    hide PlainAllowed, PlainIndicators;
    assert t != [] && t[0] != SPACE && t[|t| - 1] != SPACE by {
      EdgesAllowed(allowUnicode, t);
    }
    forall i | 0 <= i < |t|
      ensures t[i] == SPACE || (!IsSeparation(t[i]) && t[i] != BOM
                                && (flow ==> t[i] != COLON && !IsFlowIndicator(t[i])))
    {
      AllowedAt(flow, allowUnicode, t, i);
    }
    forall i | 0 <= i < |t| && t[i] == HASH ensures 0 < i && t[i - 1] != SPACE {
      AllowedAt(flow, allowUnicode, t, i);
    }
    forall i | 0 <= i < |t| && t[i] == COLON ensures i + 1 < |t| && t[i + 1] != SPACE {
      AllowedAt(flow, allowUnicode, t, i);
    }
  }

  lemma EdgesAllowed(allowUnicode: bool, t: Text)
    requires PlainAllowed(allowUnicode, t)
    ensures t != [] && t[0] != SPACE && t[|t| - 1] != SPACE
  {
  }

  /** What is written starts with the first word of the text, and then white space or nothing. */
  ghost predicate KeepsFirstWord(w: Text, t: Text, first: nat) {
    && 0 < first <= |t| && first <= |w| && w[..first] == t[..first]
    && (if |w| == first then first == |t| else IsSeparation(w[first]))
    && (first < |t| ==> t[first] == SPACE)
  }

  /** The written text starts no other token than a plain scalar, wherever it stands. */
  lemma StartsPlainScalar(flow: bool, allowUnicode: bool, t: Text, w: Text, first: nat, k: Text, column: nat)
    requires PlainAllowed(allowUnicode, t) && !PlainIndicators(flow, t)
    requires KeepsFirstWord(w, t, first) && k != [] && StopsRun(flow, k)
    ensures FirstToken(flow, column, w + k) == PlainScalar
  {
    var s := w + k;
    AllowedAt(flow, allowUnicode, t, 0);
    assert w[..first][0] == t[..first][0];
    assert !IsSpecial(allowUnicode, t[0]) && !IsEmittedBreak(t[0]);
    if flow {
      assert !FlowIndicatorAt(t, 0);
    } else {
      assert !BlockIndicatorAt(t, 0);
    }
    SecondCharacter(flow, allowUnicode, t, w, first, k);
  }

  lemma SecondCharacter(flow: bool, allowUnicode: bool, t: Text, w: Text, first: nat, k: Text)
    requires PlainAllowed(allowUnicode, t) && !PlainIndicators(flow, t)
    requires KeepsFirstWord(w, t, first) && k != [] && StopsRun(flow, k)
    ensures t[0] == DASH || t[0] == QUESTION || t[0] == COLON ==> first > 1 && !IsSeparation((w + k)[1])
    ensures !AtDocumentSeparator(w + k)
  {
    assert w[..first][0] == t[..first][0];
    assert first > 1 ==> w[..first][1] == t[..first][1];
    assert first > 2 ==> w[..first][2] == t[..first][2];
    if flow {
      assert !FlowIndicatorAt(t, 0);
    } else {
      assert !BlockIndicatorAt(t, 0);
    }
  }

  /** A character that ends a run and is no white space: ':' with what makes it a value, or an indicator of
      the flow context. */
  predicate Stopper(flow: bool, u: Text) { u != [] && !IsSeparation(u[0]) && StopsRun(flow, u) }

  /** A new line that ends a plain scalar: indented no deeper than the block around it, or a document
      separator, or nothing; or a line that starts with a stopper. */
  ghost predicate EndingLine(flow: bool, indent: nat, j: nat, u: Text) {
    && u != []
    && (u[0] == NUL || Stopper(flow, u)
        || (!IsSeparation(u[0]) && ((!flow && j < indent) || (j == 0 && AtDocumentSeparator(u)))))
  }

  /** What the emitter writes behind a plain scalar ends it: the end of the text, the ':' of a simple key, a
      bracket or comma of the flow context; the same behind a space, as the ':' of a complex key in braces; or a
      line that ends it, such as that ':' where the line was too long. */
  lemma EndsPlainBehind(flow: bool, indent: nat, k: Text)
    requires k != []
    requires || k[0] == NUL
             || Stopper(flow, k)
             || (exists j: nat, u: Text :: Stopper(flow, u) && k == Spaces(j) + u)
             || (exists lb: Text, j: nat, u: Text ::
                   IsLineBreak(lb) && EndingLine(flow, indent, j, u) && k == lb + (Spaces(j) + u))
    ensures EndsPlain(flow, indent, k)
  {
    if k[0] == NUL || Stopper(flow, k) {
      assert k[..0] == [];
    } else if j: nat, u: Text :| Stopper(flow, u) && k == Spaces(j) + u {
      StopperBehindSpaces(flow, indent, j, u);
    } else {
      var lb: Text, j: nat, u: Text :| IsLineBreak(lb) && EndingLine(flow, indent, j, u) && k == lb + (Spaces(j) + u);
      NextLineGap(lb, j, u);
      var g := PlainGap(k);
      if g.text != [] && (u[0] == NUL || Stopper(flow, u)) {
        assert Plain(flow, indent, u, j) == ([], u);
      }
    }
  }

  lemma StopperBehindSpaces(flow: bool, indent: nat, j: nat, u: Text)
    requires Stopper(flow, u)
    ensures Spaces(j) + u != [] && EndsPlain(flow, indent, Spaces(j) + u)
  {
    var k := Spaces(j) + u;
    SpacesSkipped(Spaces(j), u);
    if j == 0 {
      assert k == u;
    }
    assert k[..|k| - |u|] == Spaces(j);
    assert PlainGap(k) == Gap(Spaces(j), u, None);
    assert Plain(flow, indent, u, indent + j) == ([], u);
  }

  lemma NextLineGap(lb: Text, j: nat, u: Text)
    requires IsLineBreak(lb) && u != [] && (u[0] == NUL || !IsSeparation(u[0]))
    ensures IsBreak((lb + (Spaces(j) + u))[0])
    ensures var g := PlainGap(lb + (Spaces(j) + u));
            g.text == [] || (g == Gap([SPACE], u, Some(j)) && !(j == 0 && AtDocumentSeparator(u)))
  {
    var t := Spaces(j) + u;
    assert SkipSpaces(lb + t) == lb + t;
    LineBreakReads(lb, t);
    assert j == 0 ==> t == u;
    IndentRead(j, u, 0);
    assert [SPACE] + [] == [SPACE];
  }

  // What a plain scalar can hold, whatever stands there.

  predicate IsWhite(c: Char) { c == SPACE || IsBreak(c) }

  /** No comment, no value indicator, and in brackets no flow indicator. */
  predicate CleanAt(flow: bool, v: Text, i: nat)
    requires i < |v|
  {
    && v[i] != NUL && v[i] != TAB && (flow ==> !IsFlowIndicator(v[i]))
    && (v[i] == HASH ==> i > 0 && !IsWhite(v[i - 1]))
    && (v[i] == COLON && i + 1 < |v| ==> !IsSeparation(v[i + 1]))
  }

  ghost predicate Clean(flow: bool, v: Text) {
    && (forall i: nat :: i < |v| ==> CleanAt(flow, v, i))
    && (v != [] ==> !IsSeparation(v[0]) && !IsSeparation(v[|v| - 1]))
  }

  lemma {:induction false} RunIsClean(flow: bool, s: Text)
    requires s != [] && s[0] != HASH && !StopsRun(flow, s)
    ensures var run := Run(flow, s);
            && run != [] && Clean(flow, run) && run <= s && (forall i :: 0 <= i < |run| ==> !IsSeparation(run[i]))
            && (run[|run| - 1] == COLON ==> |run| < |s| && !IsSeparation(s[|run|]))
  {
    RunOfClean(flow, s);
    var run := Run(flow, s);
    forall i: nat | i < |run| ensures CleanAt(flow, run, i) {
      assert run[i] == COLON && i + 1 < |run| ==> !IsSeparation(run[i + 1]);
    }
  }

  lemma {:induction false} RunOfClean(flow: bool, s: Text)
    ensures var run := Run(flow, s);
            && run <= s && (forall i :: 0 <= i < |run| ==> !IsSeparation(run[i]))
            && (flow ==> forall i :: 0 <= i < |run| ==> !IsFlowIndicator(run[i]))
            && (run != [] && run[|run| - 1] == COLON ==> |run| < |s| && !IsSeparation(s[|run|]))
  {
    if !StopsRun(flow, s) { RunOfClean(flow, s[1..]); }
  }

  lemma {:induction false} BreaksAreWhite(s: Text, column: nat)
    ensures PlainBreaks(s, column).Some? ==> forall c <- PlainBreaks(s, column).value.text :: IsWhite(c)
    decreases |s|
  {
    if s != [] && s[0] == SPACE {
      BreaksAreWhite(s[1..], column + 1);
    } else if s != [] && IsBreak(s[0]) {
      var t := LineBreak(s).1;
      if !AtDocumentSeparator(t) { BreaksAreWhite(t, 0); }
    }
  }

  lemma {:induction false} SpacesInFront(s: Text)
    ensures var n := |s| - |SkipSpaces(s)|; forall i :: 0 <= i < n ==> s[i] == SPACE
  {
    if s != [] && s[0] == SPACE {
      SpacesInFront(s[1..]);
      var n := |s| - |SkipSpaces(s)|;
      assert forall i :: 1 <= i < n ==> s[i] == s[1..][i - 1];
    }
  }

  lemma GapIsWhite(s: Text)
    ensures forall c <- PlainGap(s).text :: IsWhite(c)
    ensures PlainGap(s).text != [] ==> s != [] && IsWhite(s[0])
  {
    SpacesInFront(s);
    var t := SkipSpaces(s);
    if t != [] && IsBreak(t[0]) { BreaksAreWhite(LineBreak(t).1, 0); }
  }

  lemma CleanJoin(flow: bool, run: Text, gap: Text, v: Text)
    requires Clean(flow, run) && run != [] && run[|run| - 1] != COLON && Clean(flow, v) && v != [] && v[0] != HASH
    requires forall c <- gap :: IsWhite(c)
    ensures Clean(flow, run + (gap + v))
  {
    var w := run + (gap + v);
    forall i: nat | i < |w| ensures CleanAt(flow, w, i) {
      if i < |run| {
        assert CleanAt(flow, run, i);
      } else if i < |run| + |gap| {
        assert w[i] == gap[i - |run|] && IsWhite(w[i]);
      } else {
        assert CleanAt(flow, v, i - |run| - |gap|);
      }
    }
  }

  /** Whatever the text, a plain scalar is read without comments, value indicators and, in brackets, flow indicators,
      and neither starts nor ends with white space. */
  lemma {:induction false} PlainIsClean(flow: bool, indent: nat, s: Text, column: nat)
    ensures Clean(flow, Plain(flow, indent, s, column).0)
    ensures var v := Plain(flow, indent, s, column).0; v != [] ==> v[0] != HASH
    decreases |s|
  {
    hide PlainGap, Width, Clean;
    NothingIsClean(flow);
    if s != [] && s[0] != HASH && !StopsRun(flow, s) {
      var run := Run(flow, s);
      RunIsClean(flow, s);
      var u, d := s[|run|..], column + Width(run);
      var g := PlainGap(u);
      GapIsWhite(u);
      assert run + [] == run;
      if GoesOn(flow, indent, g, d) {
        var d' := if g.newColumn.Some? then g.newColumn.value else d + |g.text|;
        PlainIsClean(flow, indent, g.rest, d');
        var v := Plain(flow, indent, g.rest, d').0;
        assert IsWhite(u[0]) && u[0] == s[|run|];
        if v != [] { CleanJoin(flow, run, g.text, v); }
      }
    }
  }

  lemma NothingIsClean(flow: bool)
    ensures Clean(flow, [])
  {
  }
}
