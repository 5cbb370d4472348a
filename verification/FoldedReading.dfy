/** The text of a folded block scalar (yaml/emitter.py, write_folded), and exactly when the scanner reads it
    back. */
module FoldedReading {
  import opened Options
  import opened Chars
  import opened FlowScalars
  import opened BlockScalars
  import opened BlockReading

  datatype Folding = Folding(lb: Text, n: nat, width: nat)

  function SpaceRun(t: Text): (j: nat)
    ensures j <= |t| && (forall i :: 0 <= i < j ==> t[i] == SPACE) && (j < |t| ==> t[j] != SPACE)
  {
    if t != [] && t[0] == SPACE then 1 + SpaceRun(t[1..]) else 0
  }

  predicate IsWordCharacter(c: Char) { c != SPACE && !IsEmittedBreak(c) }

  function WordRun(t: Text): (w: nat)
    ensures w <= |t| && (forall i :: 0 <= i < w ==> IsWordCharacter(t[i])) && (w < |t| ==> !IsWordCharacter(t[w]))
  {
    if t != [] && IsWordCharacter(t[0]) then 1 + WordRun(t[1..]) else 0
  }

  /** The spaces or the word in front. */
  function Run(t: Text): (j: nat)
    requires StartsLine(t)
    ensures 0 < j <= |t|
  {
    if t[0] == SPACE then SpaceRun(t) else WordRun(t)
  }

  /** A single space that the writer replaces by a new line, in a line started k characters earlier. */
  predicate FoldPoint(o: Folding, t: Text, k: nat, i: nat)
    requires i < |t|
  {
    && t[i] == SPACE && (i == 0 || t[i - 1] != SPACE) && (i + 1 == |t| || t[i + 1] != SPACE)
    && o.n + k + i > o.width
  }

  /** What is written for the runs of t, k characters behind the indentation; `lead` if the line of the text
      starts with a space. A single space beyond the width becomes a line break, and a break between two lines
      of which neither starts with a space is doubled. */
  function FoldedRest(o: Folding, t: Text, k: nat, lead: bool): Text {
    if t == [] then []
    else if IsEmittedBreak(t[0]) then
      var r := LeadingBreaks(t);
      BreakRun(o, t, r, lead) + if r == |t| then [] else Spaces(o.n) + FoldedRest(o, t[r..], 0, t[r] == SPACE)
    else if FoldPoint(o, t, k, 0) then NewLine(o, k) + FoldedRest(o, t[1..], 0, lead)
    else
      var j := Run(t);
      t[..j] + (if j == |t| && t[0] != SPACE then o.lb else []) + FoldedRest(o, t[j..], k + j, lead)
  }

  /** The first r characters of t, which are breaks. */
  function BreakRun(o: Folding, t: Text, r: nat, lead: bool): Text
    requires 0 < r <= |t|
  {
    (if !lead && t[0] == LF && r < |t| && t[r] != SPACE then o.lb else []) + AllBroken(t[..r], o.lb)
  }

  /** write_indent behind k characters */
  function NewLine(o: Folding, k: nat): Text { if k > 0 then o.lb + Spaces(o.n) else [] }

  /** A run of characters that are all spaces, all breaks or neither. */
  predicate IsRun(t: Text, j: nat, spaces: bool, breaks: bool) {
    && 0 < j <= |t| && (spaces ==> !breaks)
    && (forall i :: 0 <= i < j ==> (spaces <==> t[i] == SPACE) && (breaks <==> IsEmittedBreak(t[i])))
    && (j < |t| ==> if spaces then t[j] != SPACE else if breaks then !IsEmittedBreak(t[j]) else !IsWordCharacter(t[j]))
  }

  lemma BreaksWritten(o: Folding, t: Text, k: nat, lead: bool, r: nat)
    requires IsRun(t, r, false, true)
    ensures FoldedRest(o, t, k, lead)
            == BreakRun(o, t, r, lead) + if r == |t| then [] else Spaces(o.n) + FoldedRest(o, t[r..], 0, t[r] == SPACE)
  {
    hide BreakRun, IsEmittedBreak;
    assert LeadingBreaks(t) == r;
  }

  lemma SpacesWritten(o: Folding, t: Text, k: nat, lead: bool, j: nat)
    requires IsRun(t, j, true, false)
    ensures FoldedRest(o, t, k, lead)
            == if j == 1 && o.n + k > o.width then NewLine(o, k) + FoldedRest(o, t[1..], 0, lead)
               else t[..j] + FoldedRest(o, t[j..], k + j, lead)
  {
    hide NewLine, IsEmittedBreak, FoldedRest;
    assert j > 1 ==> t[1] == SPACE;
    assert SpaceRun(t) == j;
    assert !IsEmittedBreak(t[0]) && FoldPoint(o, t, k, 0) == (j == 1 && o.n + k > o.width);
    RunUnfolds(o, t, k, lead);
    NothingBetween(t[..j], FoldedRest(o, t[j..], k + j, lead));
  }

  lemma NothingBetween(a: Text, b: Text)
    ensures a + [] + b == a + b && b + [] == b
  {
  }

  lemma RunUnfolds(o: Folding, t: Text, k: nat, lead: bool)
    requires StartsLine(t)
    ensures FoldedRest(o, t, k, lead)
            == if FoldPoint(o, t, k, 0) then NewLine(o, k) + FoldedRest(o, t[1..], 0, lead)
               else
                 t[..Run(t)] + (if Run(t) == |t| && t[0] != SPACE then o.lb else [])
                 + FoldedRest(o, t[Run(t)..], k + Run(t), lead)
  {
    hide FoldPoint, Run, NewLine, IsEmittedBreak;
  }

  lemma WordWritten(o: Folding, t: Text, k: nat, lead: bool, w: nat)
    requires IsRun(t, w, false, false)
    ensures FoldedRest(o, t, k, lead) == t[..w] + (if w == |t| then o.lb else FoldedRest(o, t[w..], k + w, lead))
  {
    hide IsEmittedBreak, FoldedRest;
    assert forall i :: 0 <= i < w ==> IsWordCharacter(t[i]);
    assert WordRun(t) == w;
    RunUnfolds(o, t, k, lead);
    FoldedEnd(o, k + w, lead);
    assert w == |t| ==> t[w..] == [];
    NothingBetween(t[..w], FoldedRest(o, t[w..], k + w, lead));
    NothingBetween([], t[..w] + o.lb);
  }

  lemma FoldedEnd(o: Folding, k: nat, lead: bool)
    ensures FoldedRest(o, [], k, lead) == []
  {
  }

  lemma BreakRunEndsLine(o: Folding, t: Text, r: nat, lead: bool)
    requires IsLineBreak(o.lb) && 0 < r <= |t| && forall i :: 0 <= i < r ==> IsEmittedBreak(t[i])
    ensures var w := BreakRun(o, t, r, lead); w != [] && IsBreak(w[|w| - 1])
  {
    var u := t[..r];
    assert u[|u| - 1] == t[r - 1];
  }

  lemma BreaksUnfold(o: Folding, t: Text, k: nat, lead: bool)
    requires t != [] && IsEmittedBreak(t[0])
    ensures var r := LeadingBreaks(t);
            && 0 < r <= |t| && (forall i :: 0 <= i < r ==> IsEmittedBreak(t[i]))
            && FoldedRest(o, t, k, lead)
               == BreakRun(o, t, r, lead) + if r == |t| then []
                                            else Spaces(o.n) + FoldedRest(o, t[r..], 0, t[r] == SPACE)
  {
    hide BreakRun;
  }

  /** A text that does not end with a space ends its last line. */
  lemma {:induction false} FoldedEndsLine(o: Folding, t: Text, k: nat, lead: bool)
    requires IsLineBreak(o.lb) && t != [] && t[|t| - 1] != SPACE
    ensures var w := FoldedRest(o, t, k, lead); w != [] && IsBreak(w[|w| - 1])
    decreases |t|
  {
    hide FoldedRest, BreakRun, FoldPoint, NewLine, IsEmittedBreak, IsBreak, Run;
    if IsEmittedBreak(t[0]) {
      var r := LeadingBreaks(t);
      BreaksUnfold(o, t, k, lead);
      BreakRunEndsLine(o, t, r, lead);
      if r < |t| { FoldedEndsLine(o, t[r..], 0, t[r] == SPACE); }
    } else {
      RunUnfolds(o, t, k, lead);
      if FoldPoint(o, t, k, 0) {
        SpaceIsNoEnd(o, t, k);
        FoldedEndsLine(o, t[1..], 0, lead);
      } else {
        var j := Run(t);
        LastRunIsWord(t);
        LineBreakEnds(o.lb);
        FoldedEnd(o, k + j, lead);
        if j < |t| { FoldedEndsLine(o, t[j..], k + j, lead); } else { assert t[j..] == []; }
      }
    }
  }

  lemma SpaceIsNoEnd(o: Folding, t: Text, k: nat)
    requires t != [] && t[|t| - 1] != SPACE && FoldPoint(o, t, k, 0)
    ensures |t| > 1
  {
  }

  lemma LastRunIsWord(t: Text)
    requires StartsLine(t) && t[|t| - 1] != SPACE
    ensures Run(t) == |t| ==> t[0] != SPACE
  {
  }

  lemma LineBreakEnds(lb: Text)
    requires IsLineBreak(lb)
    ensures lb != [] && IsBreak(lb[|lb| - 1])
  {
  }

  /** The whole text, behind the header's line. */
  function FoldedText(o: Folding, t: Text): Text {
    if t == [] || IsEmittedBreak(t[0]) then FoldedRest(o, t, 0, true)
    else Spaces(o.n) + FoldedRest(o, t, 0, t[0] == SPACE)
  }

  /** How much of t is written on the line. */
  function Segment(o: Folding, t: Text, k: nat): (m: nat)
    ensures m <= |t|
  {
    if t == [] || IsEmittedBreak(t[0]) || FoldPoint(o, t, k, 0) then 0
    else Run(t) + Segment(o, t[Run(t)..], k + Run(t))
  }

  predicate Stops(o: Folding, t: Text, k: nat, i: nat)
    requires i < |t|
  {
    IsEmittedBreak(t[i]) || FoldPoint(o, t, k, i)
  }

  lemma StopShift(o: Folding, t: Text, k: nat, j: nat, i: nat)
    requires 0 < j <= i < |t| && (t[j - 1] != SPACE || t[j] != SPACE)
    ensures Stops(o, t, k, i) <==> Stops(o, t[j..], k + j, i - j)
  {
  }

  lemma RunFacts(o: Folding, t: Text, k: nat)
    requires StartsLine(t) && !FoldPoint(o, t, k, 0)
    ensures var j := Run(t);
            && (j < |t| ==> t[j - 1] != SPACE || t[j] != SPACE)
            && forall i :: 0 <= i < j ==> !Stops(o, t, k, i)
  {
    var j := Run(t);
    forall i | 0 <= i < j ensures !Stops(o, t, k, i) {
      if t[0] == SPACE {
        assert i > 0 ==> t[i - 1] == SPACE;
        assert j > 1 ==> t[1] == SPACE;
      } else {
        assert IsWordCharacter(t[i]);
      }
    }
    assert t[0] != SPACE ==> IsWordCharacter(t[j - 1]);
  }

  /** A line is written up to its first fold point or its end. */
  lemma {:induction false} SegmentFacts(o: Folding, t: Text, k: nat)
    ensures var m := Segment(o, t, k);
            (forall i :: 0 <= i < m ==> !Stops(o, t, k, i)) && (m < |t| ==> Stops(o, t, k, m))
    decreases |t|
  {
    hide Run, FoldPoint, IsEmittedBreak;
    if t != [] && !Stops(o, t, k, 0) {
      var j := Run(t);
      RunFacts(o, t, k);
      SegmentFacts(o, t[j..], k + j);
      SegmentShift(o, t, k, j, t[j..], k + j, Segment(o, t[j..], k + j));
    }
  }

  lemma SegmentShift(o: Folding, t: Text, k: nat, j: nat, u: Text, c: nat, m: nat)
    requires 0 < j <= |t| && (j < |t| ==> t[j - 1] != SPACE || t[j] != SPACE) && u == t[j..] && c == k + j && m <= |u|
    requires forall i :: 0 <= i < j ==> !Stops(o, t, k, i)
    requires forall i :: 0 <= i < m ==> !Stops(o, u, c, i)
    requires m < |u| ==> Stops(o, u, c, m)
    ensures forall i :: 0 <= i < j + m ==> !Stops(o, t, k, i)
    ensures j + m < |t| ==> Stops(o, t, k, j + m)
  {
    hide Stops;
    forall i | 0 <= i < j + m ensures !Stops(o, t, k, i) {
      if i >= j {
        StopShift(o, t, k, j, i);
        assert !Stops(o, u, c, i - j);
      }
    }
    if j + m < |t| { StopShift(o, t, k, j, j + m); }
  }

  /** What is written behind the first m characters, where a line of the text or of the output ends. */
  function Behind(o: Folding, t: Text, k: nat, m: nat, lead: bool): Text
    requires m <= |t|
  {
    if m == |t| then (if t != [] && t[|t| - 1] != SPACE then o.lb else [])
    else if IsEmittedBreak(t[m]) then FoldedRest(o, t[m..], k + m, lead)
    else NewLine(o, k + m) + FoldedRest(o, t[m + 1..], 0, lead)
  }

  lemma {:induction false} SegmentWritten(o: Folding, t: Text, k: nat, lead: bool)
    ensures var m := Segment(o, t, k); FoldedRest(o, t, k, lead) == t[..m] + Behind(o, t, k, m, lead)
    decreases |t|
  {
    hide FoldedRest, Behind, FoldPoint, Run, IsEmittedBreak;
    if t == [] || Stops(o, t, k, 0) {
      NothingInFront(o, t, k, lead);
    } else {
      var j := Run(t);
      SegmentWritten(o, t[j..], k + j, lead);
      RunWritten(o, t, k, lead);
      RunAndRest(o, t, k, j, j + Segment(o, t[j..], k + j), lead);
    }
  }

  lemma NothingInFront(o: Folding, t: Text, k: nat, lead: bool)
    requires t == [] || Stops(o, t, k, 0)
    ensures FoldedRest(o, t, k, lead) == t[..0] + Behind(o, t, k, 0, lead)
  {
    assert t[..0] == [] && t[0..] == t;
  }

  lemma RunWritten(o: Folding, t: Text, k: nat, lead: bool)
    requires StartsLine(t) && !FoldPoint(o, t, k, 0)
    ensures var j := Run(t);
            FoldedRest(o, t, k, lead)
            == t[..j] + if j == |t| then Behind(o, t, k, j, lead) else FoldedRest(o, t[j..], k + j, lead)
  {
    hide FoldPoint;
    var j := Run(t);
    if j == |t| {
      assert t[0] == SPACE <==> t[|t| - 1] == SPACE by {
        if t[0] != SPACE { assert IsWordCharacter(t[|t| - 1]); }
      }
      assert FoldedRest(o, t[j..], k + j, lead) == [];
    }
  }

  lemma RunAndRest(o: Folding, t: Text, k: nat, j: nat, m: nat, lead: bool)
    requires 0 < j <= m <= |t|
    ensures t[..m] == t[..j] + t[j..][..m - j]
    ensures j < |t| ==> Behind(o, t[j..], k + j, m - j, lead) == Behind(o, t, k, m, lead)
    ensures t[..j] + (t[j..][..m - j] + Behind(o, t[j..], k + j, m - j, lead))
            == t[..m] + Behind(o, t[j..], k + j, m - j, lead)
  {
    hide FoldedRest;
    if m < |t| { assert t[j..][m - j..] == t[m..] && t[j..][m - j + 1..] == t[m + 1..]; }
  }

  // Reading it.

  /** What the analysis allows in a block scalar, with breaks that the scanner keeps. */
  ghost predicate Foldable(t: Text) {
    && LiteralCharacters(t) && (t != [] ==> t[|t| - 1] != SPACE)
    && (forall i :: 0 <= i < |t| ==> t[i] != TAB)
    && (forall i :: 0 < i < |t| && IsEmittedBreak(t[i]) ==> t[i - 1] != SPACE)
  }

  lemma FoldableTail(t: Text, i: nat)
    requires Foldable(t) && i <= |t|
    ensures Foldable(t[i..])
  {
  }

  /** The first line starts with a single space that is dropped: the indentation is beyond the width. */
  predicate Drops(o: Folding, t: Text) { t != [] && FoldPoint(o, t, 0, 0) }

  /** The first character that is written for a line. */
  function FirstOf(o: Folding, t: Text): Char
    requires t != []
  {
    if Drops(o, t) && |t| > 1 then t[1] else t[0]
  }

  /** The scanner at a line of the text, with the empty lines in front of it in hand. */
  function AtFolded(o: Folding, t: Text, head: Text, k: Text): Breaks {
    Breaks(head, FoldedRest(o, t, 0, t != [] && t[0] == SPACE) + k, o.n)
  }

  lemma SegmentStarts(o: Folding, t: Text)
    requires StartsLine(t) && !Drops(o, t)
    ensures Segment(o, t, 0) > 0
  {
    SegmentFacts(o, t, 0);
    hide Segment;
  }

  lemma FirstWritten(o: Folding, t: Text, lead: bool, k: Text)
    requires StartsLine(t) && Foldable(t)
    ensures Drops(o, t) ==> |t| > 1 && StartsLine(t[1..]) && t[1] != SPACE
    ensures Drops(o, t) ==> FoldedRest(o, t, 0, lead) == FoldedRest(o, t[1..], 0, lead)
    ensures var s := FoldedRest(o, t, 0, lead) + k; s != [] && s[0] == FirstOf(o, t) && !EndsLine(s[0])
  {
    if Drops(o, t) {
      assert [] + FoldedRest(o, t[1..], 0, lead) == FoldedRest(o, t[1..], 0, lead);
      LineStarts(o, t[1..], lead);
    } else {
      LineStarts(o, t, lead);
    }
  }

  lemma LineStarts(o: Folding, t: Text, lead: bool)
    requires StartsLine(t) && !Drops(o, t)
    ensures FoldedRest(o, t, 0, lead) != [] && FoldedRest(o, t, 0, lead)[0] == t[0]
  {
    SegmentStarts(o, t);
    SegmentWritten(o, t, 0, lead);
    hide FoldedRest, Segment, Behind;
    assert t[..Segment(o, t, 0)][0] == t[0];
  }

  /** Written breaks come back, whatever line is behind them. */
  lemma {:induction false} RunOfBreaksRead(b: Text, lb: Text, n: nat, s: Text)
    requires IsLineBreak(lb) && (forall i :: 0 <= i < |b| ==> IsKept(b[i])) && s != [] && s[0] != LF
    ensures BlockBreaks(AllBroken(b, lb) + s, 0, n) == BlockBreaks(s, 0, n).After(b)
    ensures AllBroken(b, lb) + s != [] && (lb == [CR] ==> (AllBroken(b, lb) + s)[0] != LF)
  {
    hide BlockBreaks, AllBroken, LineBreak;
    if b == [] {
      NothingBroken(lb, s);
      BreaksAfterAfter(BlockBreaks(s, 0, n), [], []);
    } else {
      RunOfBreaksRead(b[1..], lb, n, s);
      var u := AllBroken(b[1..], lb) + s;
      FirstBroken(b, lb, s);
      BrokenReads(b[0], lb, u);
      OneBreakRead(Broken(b[0], lb), b[0], u, n);
      BreaksAfterAfter(BlockBreaks(s, 0, n), [b[0]], b[1..]);
      assert [b[0]] + b[1..] == b;
    }
  }

  lemma NothingBroken(lb: Text, s: Text)
    ensures AllBroken([], lb) + s == s
  {
  }

  lemma FirstBroken(b: Text, lb: Text, s: Text)
    requires b != []
    ensures AllBroken(b, lb) + s == Broken(b[0], lb) + (AllBroken(b[1..], lb) + s)
  {
    hide AllBroken, Broken;
    AllBrokenFront(b, lb);
  }

  /** The next line of the text, behind its indentation. */
  lemma LineFound(o: Folding, b: Text, t: Text, k: Text)
    requires IsLineBreak(o.lb) && o.n > 0 && (forall i :: 0 <= i < |b| ==> IsKept(b[i])) && StartsLine(t) && Foldable(t)
    ensures BlockBreaks(AllBroken(b, o.lb) + (Spaces(o.n) + (FoldedRest(o, t, 0, t[0] == SPACE) + k)), 0, o.n)
            == AtFolded(o, t, b, k)
    ensures AtFolded(o, t, b, k).AtText() && AtLine(AtFolded(o, t, b, k), o.n)
  {
    hide BlockBreaks, FoldedRest;
    var s := FoldedRest(o, t, 0, t[0] == SPACE) + k;
    FirstWritten(o, t, t[0] == SPACE, k);
    RunOfBreaksRead(b, o.lb, o.n, Spaces(o.n) + s);
    IndentSkip(o.n, s, 0);
    assert b + [] == b;
  }

  /** Nothing but breaks is left. */
  lemma EndFound(o: Folding, b: Text, k: Text)
    requires IsLineBreak(o.lb) && o.n > 0 && (forall i :: 0 <= i < |b| ==> IsKept(b[i])) && FollowsBlock(k, o.n)
    ensures BlockBreaks(AllBroken(b, o.lb) + k, 0, o.n) == Breaks(b, SkipSpaces(k), |k| - |SkipSpaces(k)|)
  {
    hide BlockBreaks;
    RunOfBreaksRead(b, o.lb, o.n, k);
    FollowRead(k, 0, o.n);
    assert b + [] == b;
  }

  /** One line that the scanner reads, and what is behind its break. */
  lemma LineAndTailRead(n: nat, b: Breaks, line: Text, tail: Text, lb: Text, u: Text)
    requires b.AtText() && b.column == n && b.rest == line + tail && line != []
    requires (forall i :: 0 <= i < |line| ==> !EndsLine(line[i]))
    requires tail != [] && EndsLine(tail[0]) && LineBreak(tail) == (lb, u)
    ensures var next := BlockBreaks(u, 0, n);
            BlockLines(true, n, b) == if AtLine(next, n)
                then BlockLines(true, n, next).After(b.text + line + Joint(true, line, lb, next))
                                      else Lines(b.text + line, lb, next.text, next.rest)
  {
    hide BlockLines, BlockBreaks, SkipLine;
    SkipLineAppend(line, tail);
    BlockLinesStep(true, n, b);
    assert b.rest[..|line|] == line && b.rest[0] == line[0];
  }

  /** The line in front of the m-th character, and what is written behind it. */
  lemma LineWritten(o: Folding, t: Text, k: Text)
    requires StartsLine(t) && Foldable(t) && !Drops(o, t)
    ensures var m := Segment(o, t, 0);
            var lead := t[0] == SPACE;
            && 0 < m <= |t| && t[..m] != [] && t[..m][0] == t[0] && (forall i :: 0 <= i < m ==> !EndsLine(t[..m][i]))
            && FoldedRest(o, t, 0, lead) + k == t[..m] + (Behind(o, t, 0, m, lead) + k)
            && (m < |t| && !IsEmittedBreak(t[m]) ==>
                FoldPoint(o, t, 0, m) && m + 1 < |t| && StartsLine(t[m + 1..]) && t[m + 1] != SPACE)
  {
    SegmentStarts(o, t);
    SegmentFacts(o, t, 0);
    SegmentWritten(o, t, 0, t[0] == SPACE);
    hide FoldedRest, Segment, Behind, FoldPoint;
    var m := Segment(o, t, 0);
    forall i | 0 <= i < m ensures !EndsLine(t[..m][i]) { assert !Stops(o, t, 0, i); }
    if m < |t| && !IsEmittedBreak(t[m]) {
      assert FoldPoint(o, t, 0, m);
      FoldPointInside(o, t, m);
    }
  }

  lemma FoldPointInside(o: Folding, t: Text, m: nat)
    requires Foldable(t) && m < |t| && FoldPoint(o, t, 0, m)
    ensures m + 1 < |t| && t[m + 1] != SPACE && !IsEmittedBreak(t[m + 1])
  {
  }

  /** The text ends with the line. */
  lemma LastLineRead(o: Folding, t: Text, head: Text, k: Text)
    requires IsLineBreak(o.lb) && o.n > 0 && FollowsBlock(k, o.n) && StartsLine(t) && Foldable(t) && !Drops(o, t)
    requires Segment(o, t, 0) == |t|
    ensures AtFolded(o, t, head, k).AtText()
    ensures BlockLines(true, o.n, AtFolded(o, t, head, k)) == Ending(t, head, SkipSpaces(k))
  {
    hide FoldedRest, Segment, BlockBreaks, BlockLines, TrailingBreaks, SkipSpaces;
    FirstWritten(o, t, t[0] == SPACE, k);
    LineWritten(o, t, k);
    assert t[..|t|] == t;
    FollowsNoBreak(k, o.n);
    LineBreakReads(o.lb, k);
    FollowRead(k, 0, o.n);
    LineAndTailRead(o.n, AtFolded(o, t, head, k), t, o.lb + k, [LF], k);
    TrailingIs(t, 0);
  }

  /** The text ends with the breaks behind the line. */
  lemma LastBreaksRead(o: Folding, t: Text, head: Text, k: Text)
    requires IsLineBreak(o.lb) && o.n > 0 && FollowsBlock(k, o.n) && StartsLine(t) && Foldable(t) && !Drops(o, t)
    requires var m := Segment(o, t, 0); m < |t| && LeadingBreaks(t[m..]) == |t| - m
    ensures AtFolded(o, t, head, k).AtText()
    ensures BlockLines(true, o.n, AtFolded(o, t, head, k)) == Ending(t, head, SkipSpaces(k))
  {
    hide FoldedRest, Segment, BlockBreaks, BlockLines, TrailingBreaks, SkipSpaces, LeadingBreaks, Foldable;
    var m := Segment(o, t, 0);
    FirstWritten(o, t, t[0] == SPACE, k);
    LineWritten(o, t, k);
    EndBehind(o, t, m, k);
    EndFound(o, t[m + 1..], k);
    LineAndTailRead(o.n, AtFolded(o, t, head, k), t[..m], Behind(o, t, 0, m, t[0] == SPACE) + k, [t[m]],
                AllBroken(t[m + 1..], o.lb) + k);
    OnlyBreaksBehind(t, m, t[m + 1..]);
    TrailingIs(t, |t| - m);
  }

  lemma EndBehind(o: Folding, t: Text, m: nat, k: Text)
    requires IsLineBreak(o.lb) && o.n > 0 && FollowsBlock(k, o.n) && StartsLine(t) && Foldable(t)
    requires 0 < m < |t| && LeadingBreaks(t[m..]) == |t| - m && !IsEmittedBreak(t[m - 1])
    ensures var v := t[m + 1..];
            IsEmittedBreak(t[m]) && (forall i :: 0 <= i < |v| ==> IsEmittedBreak(v[i]) && IsKept(v[i]))
    ensures var s := Behind(o, t, 0, m, t[0] == SPACE) + k;
            s != [] && EndsLine(s[0]) && LineBreak(s) == ([t[m]], AllBroken(t[m + 1..], o.lb) + k)
  {
    hide LeadingBreaks, BlockBreaks;
    var d := t[m..];
    assert d[..|d|] == d && d[1..] == t[m + 1..] && d[0] == t[m];
    KeptRun(t, m, |t|);
    BehindEnd(o, t, m);
    FollowsNoBreak(k, o.n);
    RunStartRead(o.lb, d, k);
  }

  lemma KeptRun(t: Text, m: nat, e: nat)
    requires Foldable(t) && m < e <= |t| && forall i :: 0 <= i < e - m ==> IsEmittedBreak(t[m..][i])
    ensures var b := t[m..e]; b[0] == t[m] && b[1..] == t[m + 1..e] && forall i :: 0 <= i < |b| ==>
            IsEmittedBreak(b[i]) && IsKept(b[i])
    ensures var v := t[m + 1..e]; forall i :: 0 <= i < |v| ==> IsEmittedBreak(v[i]) && IsKept(v[i])
  {
    var b := t[m..e];
    forall i | 0 <= i < |b| ensures IsEmittedBreak(b[i]) && IsKept(b[i]) {
      assert b[i] == t[m..][i] == t[m + i];
    }
    var v := t[m + 1..e];
    forall i | 0 <= i < |v| ensures IsEmittedBreak(v[i]) && IsKept(v[i]) { assert v[i] == b[i + 1]; }
  }

  lemma BehindEnd(o: Folding, t: Text, m: nat)
    requires 0 < m < |t| && IsEmittedBreak(t[m]) && LeadingBreaks(t[m..]) == |t| - m
    ensures Behind(o, t, 0, m, t[0] == SPACE) == AllBroken(t[m..], o.lb)
  {
    hide LeadingBreaks, AllBroken;
    var d := t[m..];
    assert d[..|d|] == d && d[0] == t[m];
    assert [] + AllBroken(d, o.lb) + [] == AllBroken(d, o.lb);
  }

  lemma FollowsNoBreak(k: Text, n: nat)
    requires FollowsBlock(k, n)
    ensures k != [] && !IsBreak(k[0])
  {
  }

  lemma RunStartRead(lb: Text, d: Text, s: Text)
    requires IsLineBreak(lb) && d != [] && (forall i :: 0 <= i < |d| ==> IsKept(d[i])) && s != [] && s[0] != LF
    ensures var w := AllBroken(d, lb) + s;
            w != [] && EndsLine(w[0]) && LineBreak(w) == ([d[0]], AllBroken(d[1..], lb) + s)
  {
    hide BlockBreaks, AllBroken, LineBreak, Broken, IsBreak;
    var u := AllBroken(d[1..], lb) + s;
    FirstBroken(d, lb, s);
    RunOfBreaksRead(d[1..], lb, 1, s);
    BrokenReads(d[0], lb, u);
    assert (Broken(d[0], lb) + u)[0] == Broken(d[0], lb)[0];
  }

  /** Reading on from b is p and then what reading from `next` is. */
  ghost predicate Goes(n: nat, b: Breaks, p: Text, next: Breaks) {
    b.AtText() && next.AtText() && BlockLines(true, n, b) == BlockLines(true, n, next).After(p)
  }

  /** A folded space: it is read back, unless the line starts with a space. */
  lemma FoldRead(o: Folding, t: Text, head: Text, k: Text)
    requires IsLineBreak(o.lb) && o.n > 0 && StartsLine(t) && Foldable(t) && !Drops(o, t)
    requires Segment(o, t, 0) < |t| && !IsEmittedBreak(t[Segment(o, t, 0)])
    ensures var m := Segment(o, t, 0);
            && m + 1 < |t| && StartsLine(t[m + 1..]) && t[m + 1] != SPACE && t[m] == SPACE
            && Goes(o.n, AtFolded(o, t, head, k), head + t[..m] + [if t[0] == SPACE then LF else SPACE],
                    Breaks([], FoldedRest(o, t[m + 1..], 0, t[0] == SPACE) + k, o.n))
  {
    hide FoldedRest, Segment, BlockBreaks, BlockLines, FoldPoint, Foldable;
    var m, lead := Segment(o, t, 0), t[0] == SPACE;
    FirstWritten(o, t, lead, k);
    LineWritten(o, t, k);
    SpaceThere(o, t, m);
    FoldableTail(t, m + 1);
    var s := FoldedRest(o, t[m + 1..], 0, lead) + k;
    FirstWritten(o, t[m + 1..], lead, k);
    IndentSkip(o.n, s, 0);
    LineBreakReads(o.lb, Spaces(o.n) + s);
    NewLineBehind(o, t, m, k);
    NoTab(t);
    LineAndTailRead(o.n, AtFolded(o, t, head, k), t[..m], Behind(o, t, 0, m, lead) + k, [LF], Spaces(o.n) + s);
  }

  lemma SpaceThere(o: Folding, t: Text, m: nat)
    requires m < |t| && FoldPoint(o, t, 0, m)
    ensures t[m] == SPACE
  {
  }

  lemma NoTab(t: Text)
    requires Foldable(t)
    ensures forall i :: 0 <= i < |t| ==> t[i] != TAB
  {
  }

  lemma NewLineBehind(o: Folding, t: Text, m: nat, k: Text)
    requires 0 < m && m + 1 < |t| && !IsEmittedBreak(t[m])
    ensures Behind(o, t, 0, m, t[0] == SPACE) + k
            == o.lb + (Spaces(o.n) + (FoldedRest(o, t[m + 1..], 0, t[0] == SPACE) + k))
  {
  }

  /** Whether the writer doubles the run of r breaks behind the m-th character of a line. */
  predicate Doubles(t: Text, m: nat, r: nat)
    requires 0 < m && 0 < r && m + r < |t|
  {
    t[0] != SPACE && t[m] == LF && t[m + r] != SPACE
  }

  /** How the run comes back: in front of the next line, and as its first breaks. */
  function JoinRead(o: Folding, t: Text, m: nat, r: nat): Text
    requires 0 < m && 0 < r && m + r < |t|
  {
    if t[0] == SPACE || t[m] != LF then [t[m]]
    else if t[m + r] != SPACE then []
    else if FirstOf(o, t[m + r..]) == SPACE then [LF]
    else if r == 1 then [SPACE] else []
  }

  function RunRead(t: Text, m: nat, r: nat): Text
    requires 0 < m && 0 < r && m + r < |t|
  {
    if Doubles(t, m, r) then t[m..m + r] else t[m + 1..m + r]
  }

  lemma BreakRead(o: Folding, t: Text, head: Text, k: Text, r: nat)
    requires IsLineBreak(o.lb) && o.n > 0 && StartsLine(t) && Foldable(t) && !Drops(o, t)
    requires Segment(o, t, 0) < |t| && IsEmittedBreak(t[Segment(o, t, 0)])
    requires r == LeadingBreaks(t[Segment(o, t, 0)..]) < |t| - Segment(o, t, 0)
    ensures var m := Segment(o, t, 0);
            && 0 < m && 0 < r
            && Goes(o.n, AtFolded(o, t, head, k), head + t[..m] + JoinRead(o, t, m, r),
                    AtFolded(o, t[m + r..], RunRead(t, m, r), k))
  {
    hide FoldedRest, Segment, BlockBreaks, BlockLines, LeadingBreaks, Foldable, IsEmittedBreak, JoinRead, RunRead;
    var m, lead := Segment(o, t, 0), t[0] == SPACE;
    var u, n := t[m + r..], RunRead(t, m, r);
    FirstWritten(o, t, lead, k);
    LineWritten(o, t, k);
    FoldableTail(t, m + r);
    KeptRun(t, m, m + r);
    FirstWritten(o, u, u[0] == SPACE, k);
    RunReadKept(t, m, r);
    LineFound(o, n, u, k);
    RunBehind(o, t, m, k, r);
    var s := Spaces(o.n) + (FoldedRest(o, u, 0, u[0] == SPACE) + k);
    LineAndTailRead(o.n, AtFolded(o, t, head, k), t[..m], Behind(o, t, 0, m, lead) + k, [t[m]], AllBroken(n, o.lb) + s);
    JoinIs(o, t, m, r, k);
  }

  lemma RunReadKept(t: Text, m: nat, r: nat)
    requires Foldable(t) && 0 < m && 0 < r && m + r < |t| && forall i :: 0 <= i < r ==> IsEmittedBreak(t[m..][i])
    ensures forall i :: 0 <= i < |RunRead(t, m, r)| ==> IsKept(RunRead(t, m, r)[i])
  {
    hide IsEmittedBreak, Foldable, IsKept;
    KeptRun(t, m, m + r);
  }

  lemma JoinIs(o: Folding, t: Text, m: nat, r: nat, k: Text)
    requires Foldable(t) && 0 < m && 0 < r && m + r < |t| && StartsLine(t[m + r..])
    ensures AtFolded(o, t[m + r..], RunRead(t, m, r), k).rest != []
    ensures Joint(true, t[..m], [t[m]], AtFolded(o, t[m + r..], RunRead(t, m, r), k)) == JoinRead(o, t, m, r)
  {
    hide FoldedRest, IsEmittedBreak, Foldable;
    var u := t[m + r..];
    FoldableTail(t, m + r);
    FirstWritten(o, u, u[0] == SPACE, k);
    NoTab(t);
    NoTab(u);
    assert t[..m][0] == t[0] && u[0] == t[m + r];
  }

  lemma RunBehind(o: Folding, t: Text, m: nat, k: Text, r: nat)
    requires IsLineBreak(o.lb) && o.n > 0 && Foldable(t) && 0 < m < |t| && IsEmittedBreak(t[m])
    requires r == LeadingBreaks(t[m..]) < |t| - m && 0 < r
    ensures
      var u := t[m + r..];
      var w := Behind(o, t, 0, m, t[0] == SPACE) + k;
      && w != [] && EndsLine(w[0])
      && LineBreak(w) == ([t[m]],
                          AllBroken(RunRead(t, m, r), o.lb) + (Spaces(o.n) + (FoldedRest(o, u, 0, u[0] == SPACE) + k)))
  {
    hide BlockBreaks, AllBroken, LeadingBreaks, Behind, LineBreak, FoldedRest, IsEmittedBreak, Foldable;
    var u, b := t[m + r..], t[m..m + r];
    var s := Spaces(o.n) + (FoldedRest(o, u, 0, u[0] == SPACE) + k);
    KeptRun(t, m, m + r);
    RunWrittenBehind(o, t, m, k, r);
    if Doubles(t, m, r) {
      RunOfBreaksRead(b, o.lb, 1, s);
      LineBreakReads(o.lb, AllBroken(b, o.lb) + s);
    } else {
      RunStartRead(o.lb, b, s);
    }
  }

  lemma RunWrittenBehind(o: Folding, t: Text, m: nat, k: Text, r: nat)
    requires 0 < m < |t| && IsEmittedBreak(t[m]) && r == LeadingBreaks(t[m..]) < |t| - m && 0 < r
    ensures
      var u, b := t[m + r..], t[m..m + r];
      var s := Spaces(o.n) + (FoldedRest(o, u, 0, u[0] == SPACE) + k);
      Behind(o, t, 0, m, t[0] == SPACE) + k
      == if Doubles(t, m, r) then o.lb + (AllBroken(b, o.lb) + s) else AllBroken(b, o.lb) + s
  {
    hide AllBroken, LeadingBreaks, FoldedRest, Behind;
    var u := t[m + r..];
    BehindRun(o, t, m, r);
    RunGrouped(if Doubles(t, m, r)
               then o.lb else [], AllBroken(t[m..m + r], o.lb), Spaces(o.n), FoldedRest(o, u, 0, u[0] == SPACE), k);
  }

  lemma BehindRun(o: Folding, t: Text, m: nat, r: nat)
    requires 0 < m < |t| && IsEmittedBreak(t[m]) && r == LeadingBreaks(t[m..]) < |t| - m && 0 < r
    ensures var u := t[m + r..];
            Behind(o, t, 0, m, t[0] == SPACE)
            == (if Doubles(t, m, r) then o.lb else []) + AllBroken(t[m..m + r], o.lb)
                + (Spaces(o.n) + FoldedRest(o, u, 0, u[0] == SPACE))
  {
    hide AllBroken, LeadingBreaks;
    var d := t[m..];
    assert d[..r] == t[m..m + r] && d[r..] == t[m + r..] && d[0] == t[m] && d[r] == t[m + r];
  }

  lemma RunGrouped(a: Text, b: Text, c: Text, d: Text, e: Text)
    ensures a + b + (c + d) + e == a + (b + (c + (d + e))) && [] + (b + (c + (d + e))) == b + (c + (d + e))
  {
  }

  // The whole text.

  /** The texts differ in some place. */
  ghost predicate Differs(a: Text, b: Text) { exists i :: 0 <= i < |a| && i < |b| && a[i] != b[i] }

  lemma DiffersBehind(p: Text, a: Text, b: Text)
    requires Differs(a, b)
    ensures Differs(p + a, p + b)
  {
    var i :| 0 <= i < |a| && i < |b| && a[i] != b[i];
    assert (p + a)[|p| + i] != (p + b)[|p| + i];
  }

  lemma DiffersAt(p: Text, a: Text, b: Text, i: nat)
    requires i < |a| && i < |b| && a[i] != b[i]
    ensures Differs(p + a, p + b)
  {
    assert Differs(a, b);
    DiffersBehind(p, a, b);
  }

  /** Whether a line of the text that starts with a space is folded. */
  predicate FoldsIndented(o: Folding, t: Text)
    requires StartsLine(t)
    decreases |t|
  {
    var m := Segment(o, t, 0);
    if m == |t| then false
    else if IsEmittedBreak(t[m]) then
      var r := LeadingBreaks(t[m..]);
      m + r < |t| && FoldsIndented(o, t[m + r..])
    else t[0] == SPACE || (m + 1 < |t| && StartsLine(t[m + 1..]) && FoldsIndented(o, t[m + 1..]))
  }

  /** What is read starts with what was found before the line, and with the line's first character. */
  lemma StartsWith(n: nat, b: Breaks)
    requires b.AtText() && AtLine(b, n)
    ensures var l := BlockLines(true, n, b).text; |l| > |b.text| && l[..|b.text|] == b.text && l[|b.text|] == b.rest[0]
  {
    hide BlockLines, BlockBreaks;
    BlockLinesStep(true, n, b);
  }

  /** The result of reading the lines: the text, or something else. */
  ghost predicate Result(o: Folding, l: Lines, t: Text, head: Text, rest: Text)
    requires StartsLine(t)
  {
    if FoldsIndented(o, t) then Differs(l.text, head + t) else l == Ending(t, head, rest)
  }

  lemma DroppedRead(o: Folding, t: Text, head: Text, k: Text)
    requires IsLineBreak(o.lb) && o.n > 0 && StartsLine(t) && Foldable(t) && Drops(o, t)
    ensures AtFolded(o, t, head, k).AtText() && FoldsIndented(o, t)
    ensures Differs(BlockLines(true, o.n, AtFolded(o, t, head, k)).text, head + t)
  {
    hide FoldedRest, BlockLines, Foldable, Differs;
    FirstWritten(o, t, t[0] == SPACE, k);
    StartsWith(o.n, AtFolded(o, t, head, k));
    OtherFirst(BlockLines(true, o.n, AtFolded(o, t, head, k)).text, head, t);
  }

  lemma OtherFirst(l: Text, head: Text, t: Text)
    requires |l| > |head| && t != [] && l[|head|] != t[0]
    ensures Differs(l, head + t)
  {
    assert (head + t)[|head|] == t[0];
  }

  lemma FoldLost(o: Folding, t: Text, head: Text, b: Breaks, next: Breaks)
    requires StartsLine(t) && t[0] == SPACE && Segment(o, t, 0) < |t| && t[Segment(o, t, 0)] == SPACE
    requires Goes(o.n, b, head + t[..Segment(o, t, 0)] + [LF], next)
    ensures FoldsIndented(o, t) && Differs(BlockLines(true, o.n, b).text, head + t)
  {
    hide Segment, BlockLines, Differs;
    var m := Segment(o, t, 0);
    var l := BlockLines(true, o.n, next).text;
    DiffersAt(head + t[..m], [LF] + l, t[m..], 0);
    assert head + t[..m] + [LF] + l == head + t[..m] + ([LF] + l) && head + t[..m] + t[m..] == head + t;
  }

  lemma FoldKept(o: Folding, t: Text, head: Text, b: Breaks, next: Breaks, rest: Text)
    requires StartsLine(t) && t[0] != SPACE && Segment(o, t, 0) + 1 < |t| && t[Segment(o, t, 0)] == SPACE
    requires StartsLine(t[Segment(o, t, 0) + 1..])
    requires Goes(o.n, b, head + t[..Segment(o, t, 0)] + [SPACE], next)
    requires Result(o, BlockLines(true, o.n, next), t[Segment(o, t, 0) + 1..], [], rest)
    ensures Result(o, BlockLines(true, o.n, b), t, head, rest)
  {
    hide Segment, BlockLines, Differs, Ending;
    var m := Segment(o, t, 0);
    var l, u, p := BlockLines(true, o.n, next), t[m + 1..], t[..m] + [SPACE];
    assert p + u == t;
    Carried(l, u, head, p, head + t[..m] + [SPACE], [], rest);
  }

  /** What stands in front of a text that was read is carried along. */
  lemma Carried(l: Lines, u: Text, head: Text, p: Text, q: Text, n: Text, rest: Text)
    requires StartsLine(u) && q + n == head + p
    ensures Differs(l.text, n + u) ==> Differs(l.After(q).text, head + (p + u))
    ensures l == Ending(u, n, rest) ==> l.After(q) == Ending(p + u, head, rest)
  {
    hide Differs, Ending, IsEmittedBreak;
    if Differs(l.text, n + u) {
      DiffersBehind(q, l.text, n + u);
      assert q + (n + u) == q + n + u && head + (p + u) == head + p + u;
    }
    if l == Ending(u, n, rest) {
      EndingAfter(u, n, q, rest);
      EndingAppend(head, p, u, rest);
    }
  }

  lemma RunCarried(o: Folding, t: Text, head: Text, b: Breaks, next: Breaks, r: nat, rest: Text)
    requires StartsLine(t) && 0 < Segment(o, t, 0) < |t| && IsEmittedBreak(t[Segment(o, t, 0)])
    requires 0 < r == LeadingBreaks(t[Segment(o, t, 0)..]) < |t| - Segment(o, t, 0)
    requires StartsLine(t[Segment(o, t, 0) + r..])
    requires next.text == RunRead(t, Segment(o, t, 0), r)
    requires var m := Segment(o, t, 0); Goes(o.n, b, head + t[..m] + JoinRead(o, t, m, r), next)
    requires JoinRead(o, t, Segment(o, t, 0), r) + next.text == t[Segment(o, t, 0)..Segment(o, t, 0) + r]
    requires Result(o, BlockLines(true, o.n, next), t[Segment(o, t, 0) + r..], next.text, rest)
    ensures Result(o, BlockLines(true, o.n, b), t, head, rest)
  {
    hide Segment, BlockLines, Differs, Ending, LeadingBreaks, JoinRead, RunRead, FoldsIndented, IsEmittedBreak;
    var m := Segment(o, t, 0);
    var l, u, j := BlockLines(true, o.n, next), t[m + r..], JoinRead(o, t, m, r);
    FoldsBehindBreaks(o, t, r);
    JoinGrouped(head, t, m, r, j, next.text);
    Carried(l, u, head, t[..m + r], head + t[..m] + j, next.text, rest);
  }

  lemma FoldsBehindBreaks(o: Folding, t: Text, r: nat)
    requires StartsLine(t) && Segment(o, t, 0) < |t| && IsEmittedBreak(t[Segment(o, t, 0)])
    requires r == LeadingBreaks(t[Segment(o, t, 0)..]) < |t| - Segment(o, t, 0) && StartsLine(t[Segment(o, t, 0) + r..])
    ensures FoldsIndented(o, t) <==> FoldsIndented(o, t[Segment(o, t, 0) + r..])
  {
    hide Segment, LeadingBreaks;
  }

  lemma JoinGrouped(head: Text, t: Text, m: nat, r: nat, j: Text, n: Text)
    requires m + r <= |t| && j + n == t[m..m + r]
    ensures head + t[..m] + j + n == head + t[..m + r] && t[..m + r] + t[m + r..] == t
  {
    assert head + t[..m] + j + n == head + (t[..m] + (j + n));
    assert t[..m] + t[m..m + r] == t[..m + r];
  }

  /** Where the run of breaks is read as something else, the line behind it starts with another character. */
  lemma RunLost(o: Folding, t: Text, head: Text, b: Breaks, next: Breaks, m: nat, r: nat)
    requires 0 < m && 0 < r && m + r < |t| && (forall i :: m <= i < m + r ==> IsEmittedBreak(t[i]))
    requires StartsLine(t[m + r..])
    requires next.text == RunRead(t, m, r) && Goes(o.n, b, head + t[..m] + JoinRead(o, t, m, r), next)
    requires JoinRead(o, t, m, r) + next.text != t[m..m + r]
    requires AtLine(next, o.n) && next.rest[0] == FirstOf(o, t[m + r..]) && !IsEmittedBreak(next.rest[0])
    ensures Drops(o, t[m + r..]) && Differs(BlockLines(true, o.n, b).text, head + t)
  {
    hide BlockLines, Differs, IsEmittedBreak, FoldPoint;
    var l, j := BlockLines(true, o.n, next).text, JoinRead(o, t, m, r);
    StartsWith(o.n, next);
    var i := if r == 1 then 0 else r - 1;
    assert head + t[..m] + t[m..] == head + t && head + t[..m] + j + l == head + t[..m] + (j + l);
    DiffersAt(head + t[..m], j + l, t[m..], i);
  }

  lemma {:induction false} FoldedLinesRead(o: Folding, t: Text, head: Text, k: Text)
    requires IsLineBreak(o.lb) && o.n > 0 && FollowsBlock(k, o.n) && StartsLine(t) && Foldable(t)
    ensures AtFolded(o, t, head, k).AtText()
    ensures Result(o, BlockLines(true, o.n, AtFolded(o, t, head, k)), t, head, SkipSpaces(k))
    decreases |t|
  {
    hide FoldedRest, Segment, BlockLines, LeadingBreaks, Foldable, SkipSpaces, Ending, Differs, FoldPoint, FollowsBlock;
    hide JoinRead, RunRead;
    FirstWritten(o, t, t[0] == SPACE, k);
    var m, b, rest := Segment(o, t, 0), AtFolded(o, t, head, k), SkipSpaces(k);
    if Drops(o, t) {
      DroppedRead(o, t, head, k);
    } else if m == |t| {
      LastLineRead(o, t, head, k);
    } else if !IsEmittedBreak(t[m]) {
      FoldRead(o, t, head, k);
      var next := Breaks([], FoldedRest(o, t[m + 1..], 0, t[0] == SPACE) + k, o.n);
      if t[0] == SPACE {
        FoldLost(o, t, head, b, next);
      } else {
        FoldableTail(t, m + 1);
        FoldedLinesRead(o, t[m + 1..], [], k);
        FoldKept(o, t, head, b, next, rest);
      }
    } else if m + LeadingBreaks(t[m..]) == |t| {
      LastBreaksRead(o, t, head, k);
    } else {
      BreakAndRest(o, t, head, k);
    }
  }

  lemma {:induction false} BreakAndRest(o: Folding, t: Text, head: Text, k: Text)
    requires IsLineBreak(o.lb) && o.n > 0 && FollowsBlock(k, o.n) && StartsLine(t) && Foldable(t) && !Drops(o, t)
    requires Segment(o, t, 0) < |t| && IsEmittedBreak(t[Segment(o, t, 0)])
    requires LeadingBreaks(t[Segment(o, t, 0)..]) < |t| - Segment(o, t, 0)
    ensures AtFolded(o, t, head, k).AtText()
    ensures Result(o, BlockLines(true, o.n, AtFolded(o, t, head, k)), t, head, SkipSpaces(k))
    decreases |t|, 0
  {
    hide FoldedRest, Segment, BlockLines, LeadingBreaks, Foldable, SkipSpaces, Ending, Differs, FoldPoint, FollowsBlock;
    hide JoinRead, RunRead, FoldsIndented, IsEmittedBreak;
    var m, b, rest := Segment(o, t, 0), AtFolded(o, t, head, k), SkipSpaces(k);
    var r := LeadingBreaks(t[m..]);
    BreakRead(o, t, head, k, r);
    FoldableTail(t, m + r);
    var u := t[m + r..];
    var next := AtFolded(o, u, RunRead(t, m, r), k);
    if JoinRead(o, t, m, r) + next.text == t[m..m + r] {
      FoldedLinesRead(o, u, RunRead(t, m, r), k);
      RunCarried(o, t, head, b, next, r, rest);
    } else {
      FirstWritten(o, u, u[0] == SPACE, k);
      KeptRun(t, m, m + r);
      RunLost(o, t, head, b, next, m, r);
      DroppedRead(o, u, [], k);
      FoldsBehindBreaks(o, t, r);
    }
  }

  /** The scanner in front of the first line of the text. */
  function FirstOfText(o: Folding, t: Text, k: Text): Breaks {
    var m := LeadingBreaks(t);
    if m == |t| then Breaks(t, SkipSpaces(k), |k| - |SkipSpaces(k)|) else AtFolded(o, t[m..], t[..m], k)
  }

  /** The scanner finds the first line: it is told the indentation, or counts it. */
  lemma FirstLineFound(o: Folding, t: Text, k: Text)
    requires IsLineBreak(o.lb) && o.n > 0 && Foldable(t) && t != [] && FollowsBlock(k, o.n)
    ensures BlockBreaks(FoldedText(o, t) + k, 0, o.n) == FirstOfText(o, t, k)
    ensures StartsLine(t) && t[0] != SPACE ==>
            BlockIndentation(FoldedText(o, t) + k, 0, 0) == (FirstOfText(o, t, k), o.n)
  {
    hide BlockBreaks, BlockIndentation, FoldedRest, FoldedText, SkipSpaces, Foldable, LeadingBreaks;
    var m := LeadingBreaks(t);
    FoldableTail(t, m);
    LeadingKept(t, t[..m]);
    if StartsLine(t) {
      LineInFront(o, t, k);
      FirstWritten(o, t, t[0] == SPACE, k);
      LineFound(o, [], t, k);
      assert t[0..] == t && t[..0] == [];
      if t[0] != SPACE { IndentFound(o.n, FoldedRest(o, t, 0, false) + k, 0); }
    } else {
      BreaksInFront(o, t, k);
      if m == |t| {
        assert t[..m] == t;
        EndFound(o, t, k);
      } else {
        LineFound(o, t[..m], t[m..], k);
      }
    }
  }

  lemma LeadingKept(t: Text, b: Text)
    requires Foldable(t) && b == t[..LeadingBreaks(t)]
    ensures forall i :: 0 <= i < |b| ==> IsKept(b[i])
  {
    hide LeadingBreaks;
  }

  lemma LineInFront(o: Folding, t: Text, k: Text)
    requires StartsLine(t)
    ensures var s := Spaces(o.n) + (FoldedRest(o, t, 0, t[0] == SPACE) + k);
            FoldedText(o, t) + k == s && AllBroken([], o.lb) + s == s
  {
    hide FoldedRest;
  }

  lemma BreaksInFront(o: Folding, t: Text, k: Text)
    requires t != [] && IsEmittedBreak(t[0])
    ensures var m := LeadingBreaks(t);
            FoldedText(o, t) + k ==
            AllBroken(t[..m], o.lb)
            + if m == |t| then k else Spaces(o.n) + (FoldedRest(o, t[m..], 0, t[m] == SPACE) + k)
  {
    hide AllBroken, LeadingBreaks;
    var m := LeadingBreaks(t);
    var b := AllBroken(t[..m], o.lb);
    assert BreakRun(o, t, m, true) == b;
    if m == |t| {
      assert FoldedText(o, t) == b + [];
    } else {
      RunGrouped([], b, Spaces(o.n), FoldedRest(o, t[m..], 0, t[m] == SPACE), k);
      assert FoldedText(o, t) == b + (Spaces(o.n) + FoldedRest(o, t[m..], 0, t[m] == SPACE));
      assert [] + b == b;
    }
  }

  lemma FoldedChomped(o: Folding, t: Text, k: Text)
    requires IsLineBreak(o.lb) && o.n > 0 && Foldable(t) && t != [] && FollowsBlock(k, o.n)
    ensures FirstOfText(o, t, k).AtText()
    ensures var s := Chomp(HintedChomping(t), BlockLines(true, o.n, FirstOfText(o, t, k)));
            if FoldsALine(o, t) then s.value != t else s == Scanned(t, SkipSpaces(k))
  {
    hide FoldedRest, BlockLines, LeadingBreaks, TrailingBreaks, HintedChomping, SkipSpaces, Foldable, Chomp, Ending,
         Differs;
    var m := LeadingBreaks(t);
    if m == |t| {
      OnlyBreaksChomped(true, t, SkipSpaces(k), |k| - |SkipSpaces(k)|, o.n);
    } else {
      var u := t[m..];
      FoldableTail(t, m);
      FoldedLinesRead(o, u, t[..m], k);
      assert t[..m] + u == t && [] + t[..m] == t[..m];
      var l := BlockLines(true, o.n, AtFolded(o, u, t[..m], k));
      if FoldsIndented(o, u) {
        DifferentValue(t, l);
      } else {
        EndingAppend([], t[..m], u, SkipSpaces(k));
        TrailingAppend(t[..m], u);
        EndingChomped(t, SkipSpaces(k));
      }
    }
  }

  predicate FoldsALine(o: Folding, t: Text) {
    var m := LeadingBreaks(t);
    m < |t| && FoldsIndented(o, t[m..])
  }

  lemma DifferentValue(t: Text, l: Lines)
    requires t != [] && Differs(l.text, t)
    ensures Chomp(HintedChomping(t), l).value != t
  {
    var i :| 0 <= i < |l.text| && i < |t| && l.text[i] != t[i];
    assert Chomp(HintedChomping(t), l).value[i] == l.text[i];
  }

  /** A folded scalar is read back, unless a line that starts with a space is folded. */
  lemma FoldedReads(o: Folding, t: Text, bestIndent: nat, indent: int, k: Text)
    requires 2 <= bestIndent <= 9 && IsLineBreak(o.lb) && t != [] && Foldable(t) && FollowsBlock(k, o.n)
    requires indent >= -1 && o.n == Max(indent, 0) + bestIndent
    ensures var s := BlockScalar(true, indent, BlockHints(t, bestIndent) + o.lb + FoldedText(o, t) + k);
            if FoldsALine(o, t) then s.Scanned? && s.value != t else s == Scanned(t, SkipSpaces(k))
  {
    hide Indicators, FoldedText, HintedChomping, BlockHints, IgnoredLine, BlockBody, FollowsBlock, LiteralCharacters,
         SkipSpaces, FoldsALine;
    var body := FoldedText(o, t) + k;
    assert BlockHints(t, bestIndent) + o.lb + FoldedText(o, t) + k == BlockHints(t, bestIndent) + o.lb + body;
    HintsRead(t, bestIndent, o.lb, body);
    FoldedHeaderEnds(o, t, k);
    FoldedBodyReads(o, t, bestIndent, indent, k);
  }

  lemma FoldedBodyReads(o: Folding, t: Text, bestIndent: nat, indent: int, k: Text)
    requires 2 <= bestIndent <= 9 && IsLineBreak(o.lb) && t != [] && Foldable(t) && FollowsBlock(k, o.n)
    requires indent >= -1 && o.n == Max(indent, 0) + bestIndent
    ensures var s := BlockBody(true, indent, HintedChomping(t), Increment(t, bestIndent), FoldedText(o, t) + k);
            if FoldsALine(o, t) then s.Scanned? && s.value != t else s == Scanned(t, SkipSpaces(k))
  {
    hide BlockIndentation, BlockBreaks, BlockLines, FoldedText, HintedChomping, FirstOfText, FollowsBlock, Foldable;
    hide FoldsALine, SkipSpaces;
    FirstLineFound(o, t, k);
    FoldedChomped(o, t, k);
  }

  lemma FoldedHeaderEnds(o: Folding, t: Text, k: Text)
    requires IsLineBreak(o.lb) && o.n > 0 && FollowsBlock(k, o.n) && t != [] && Foldable(t)
    ensures IgnoredLine(o.lb + (FoldedText(o, t) + k)) == Some(FoldedText(o, t) + k)
  {
    hide FoldedText, FoldedRest, Foldable, LeadingBreaks, BlockBreaks, FollowsBlock;
    var body := FoldedText(o, t) + k;
    FollowsNoBreak(k, o.n);
    if StartsLine(t) {
      LineInFront(o, t, k);
    } else {
      var m := LeadingBreaks(t);
      LeadingKept(t, t[..m]);
      BreaksInFront(o, t, k);
      RunOfBreaksRead(t[..m], o.lb, 1, if m == |t|
                      then k else Spaces(o.n) + (FoldedRest(o, t[m..], 0, t[m] == SPACE) + k));
    }
    LineBreakReads(o.lb, body);
    assert SkipSpaces(o.lb + body) == o.lb + body;
  }

  // Where a line that starts with a space is folded, as a condition on the text.

  /** The line that starts at a starts with a space, and its single space at i is beyond the width. */
  ghost predicate FoldsAt(o: Folding, t: Text, a: nat, i: nat) {
    && a <= i < |t| && (a == 0 || IsEmittedBreak(t[a - 1])) && t[a] == SPACE
    && (forall x :: a <= x < i ==> !IsEmittedBreak(t[x]))
    && t[i] == SPACE && (i == 0 || t[i - 1] != SPACE) && (i + 1 == |t| || t[i + 1] != SPACE)
    && o.n + (i - a) > o.width
  }

  lemma FoldsAtShift(o: Folding, t: Text, p: nat, a: nat, i: nat)
    requires p <= a <= i < |t| && (a > p || p == 0 || IsEmittedBreak(t[p - 1]))
    ensures FoldsAt(o, t[p..], a - p, i - p) <==> FoldsAt(o, t, a, i)
  {
    var u := t[p..];
    assert forall x :: p <= x < |t| ==> u[x - p] == t[x];
    if FoldsAt(o, u, a - p, i - p) {
      forall x | a <= x < i ensures !IsEmittedBreak(t[x]) { assert u[x - p] == t[x]; }
    }
  }

  lemma FoldPointAlone(o: Folding, t: Text, m: nat)
    requires m + 1 < |t| && FoldPoint(o, t, 0, m)
    ensures t[m + 1] != SPACE
  {
  }

  lemma BreakInFront(t: Text, m: nat, p: nat)
    requires m < |t| && IsEmittedBreak(t[m]) && p == m + LeadingBreaks(t[m..])
    ensures m < p <= |t| && IsEmittedBreak(t[p - 1])
  {
    hide IsEmittedBreak;
    assert t[p - 1] == t[m..][p - m - 1];
  }

  lemma FoldedFirst(o: Folding, t: Text)
    requires StartsLine(t) && t[0] == SPACE && Segment(o, t, 0) < |t| && !IsEmittedBreak(t[Segment(o, t, 0)])
    ensures FoldsAt(o, t, 0, Segment(o, t, 0))
  {
    SegmentFacts(o, t, 0);
    hide Segment;
    var m := Segment(o, t, 0);
    assert Stops(o, t, 0, m);
    forall x | 0 <= x < m ensures !IsEmittedBreak(t[x]) { assert !Stops(o, t, 0, x); }
  }

  lemma {:induction false} FoldedSomewhere(o: Folding, t: Text) returns (a: nat, i: nat)
    requires StartsLine(t) && FoldsIndented(o, t)
    ensures FoldsAt(o, t, a, i)
    decreases |t|
  {
    hide Segment, LeadingBreaks, FoldsAt, IsEmittedBreak, FoldPoint;
    var m := Segment(o, t, 0);
    SegmentFacts(o, t, 0);
    if IsEmittedBreak(t[m]) {
      var p := m + LeadingBreaks(t[m..]);
      a, i := FoldedSomewhere(o, t[p..]);
      FoldsWithin(o, t[p..], a, i);
      BreakInFront(t, m, p);
      FoldsAtShift(o, t, p, a + p, i + p);
      a, i := a + p, i + p;
    } else if t[0] == SPACE {
      FoldedFirst(o, t);
      a, i := 0, m;
    } else {
      a, i := FoldedSomewhere(o, t[m + 1..]);
      FoldsWithin(o, t[m + 1..], a, i);
      FoldPointAlone(o, t, m);
      assert t[m + 1..][0] == t[m + 1] && a > 0;
      FoldsAtShift(o, t, m + 1, a + m + 1, i + m + 1);
      a, i := a + m + 1, i + m + 1;
    }
  }

  lemma {:induction false} FoldedThere(o: Folding, t: Text, a: nat, i: nat)
    requires StartsLine(t) && Foldable(t) && FoldsAt(o, t, a, i)
    ensures FoldsIndented(o, t)
    decreases |t|
  {
    hide Segment, LeadingBreaks, Foldable;
    var m := Segment(o, t, 0);
    SegmentFacts(o, t, 0);
    if a == 0 {
      assert Stops(o, t, 0, i);
    } else {
      assert Stops(o, t, 0, a - 1);
      if IsEmittedBreak(t[m]) {
        var p := m + LeadingBreaks(t[m..]);
        assert a >= p;
        BreakInFront(t, m, p);
        FoldsAtShift(o, t, p, a, i);
        FoldableTail(t, p);
        FoldedThere(o, t[p..], a - p, i - p);
      } else if t[0] != SPACE {
        FoldPointInside(o, t, m);
        FoldsAtShift(o, t, m + 1, a, i);
        FoldableTail(t, m + 1);
        FoldedThere(o, t[m + 1..], a - m - 1, i - m - 1);
      }
    }
  }

  lemma FoldsALineIff(o: Folding, t: Text)
    requires Foldable(t)
    ensures FoldsALine(o, t) <==> exists a, i :: FoldsAt(o, t, a, i)
  {
    hide LeadingBreaks, Foldable, FoldsIndented, FoldsAt;
    var m := LeadingBreaks(t);
    FoldableTail(t, m);
    if FoldsALine(o, t) {
      var a, i := FoldedSomewhere(o, t[m..]);
      FoldsWithin(o, t[m..], a, i);
      FoldsAtShift(o, t, m, a + m, i + m);
    }
    if a, i :| FoldsAt(o, t, a, i) {
      FoldsWithin(o, t, a, i);
      assert a >= m;
      FoldsAtShift(o, t, m, a, i);
      FoldedThere(o, t[m..], a - m, i - m);
    }
  }

  lemma FoldsWithin(o: Folding, t: Text, a: nat, i: nat)
    requires FoldsAt(o, t, a, i)
    ensures a <= i < |t| && t[a] == SPACE
  {
  }
}
