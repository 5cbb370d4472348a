/** What a piece of quoted text contributes when the scanner reads it: the pieces the emitter writes
    are read one after the other, whatever follows them. */
module QuotedReading {
  import opened Chars
  import opened FlowScalars

  /** In front of k the scanner, inside quotes, reads w as v. */
  ghost predicate ReadsAt(double: bool, w: Text, v: Text, k: Text) {
    FlowScalar(double, w + k) == FlowScalar(double, k).Push(v)
  }

  /** Inside quotes the scanner reads w as v and goes on behind it; if `tight`, only when the next
      character is no white space. */
  ghost predicate Reads(double: bool, w: Text, v: Text, tight: bool) {
    forall k: Text :: k != [] && (tight ==> !IsSeparation(k[0])) ==> ReadsAt(double, w, v, k)
  }

  ghost predicate ClosesAt(double: bool, w: Text, v: Text, k: Text) {
    FlowScalar(double, w + [Quote(double)] + k) == Scanned(v, k)
  }

  /** The text after the opening quote is read up to its closing quote as v, whatever follows
      (a single-quoted scalar must not be followed by another quote). */
  ghost predicate ReadsBack(double: bool, w: Text, v: Text) {
    forall k: Text :: k != [] && (double || k[0] != SQUOTE) ==> ClosesAt(double, w, v, k)
  }

  lemma ReadsNothing(double: bool)
    ensures Reads(double, [], [], false)
  {
    hide FlowScalar;
    forall k: Text | k != [] ensures ReadsAt(double, [], [], k) {
      assert [] + k == k;
      PushPush(FlowScalar(double, k), [], []);
    }
  }

  lemma ReadsThen(double: bool, w1: Text, v1: Text, t1: bool, w2: Text, v2: Text, t2: bool)
    requires Reads(double, w1, v1, t1) && Reads(double, w2, v2, t2)
    requires w2 != [] && (t1 ==> !IsSeparation(w2[0]))
    ensures Reads(double, w1 + w2, v1 + v2, t2)
  {
    hide FlowScalar;
    forall k: Text | k != [] && (t2 ==> !IsSeparation(k[0])) ensures ReadsAt(double, w1 + w2, v1 + v2, k) {
      assert ReadsAt(double, w2, v2, k) && ReadsAt(double, w1, v1, w2 + k);
      assert w1 + w2 + k == w1 + (w2 + k);
      PushPush(FlowScalar(double, k), v1, v2);
    }
  }

  lemma ReadsToTheQuote(double: bool, w: Text, v: Text, tight: bool)
    requires Reads(double, w, v, tight)
    ensures ReadsBack(double, w, v)
  {
    hide FlowScalar;
    forall k: Text | k != [] && (double || k[0] != SQUOTE) ensures ClosesAt(double, w, v, k) {
      var q := [Quote(double)] + k;
      assert ReadsAt(double, w, v, q);
      assert w + [Quote(double)] + k == w + q;
      ClosingQuote(double, q);
      assert q[1..] == k && v + [] == v;
    }
  }

  /** Characters written between quotes as they are. */
  predicate IsRaw(double: bool, c: Char) {
    c != Quote(double) && !(double && c == BACKSLASH) && (c == SPACE || !IsSeparation(c))
  }

  predicate AllRaw(double: bool, a: Text) {
    forall i :: 0 <= i < |a| ==> IsRaw(double, a[i])
  }

  lemma {:induction false} BlankPrefix(s: Text)
    ensures var n := |s| - |SkipBlanks(s)|; SkipBlanks(s) == s[n..] && forall i :: 0 <= i < n ==> IsBlank(s[i])
  {
    if s != [] && IsBlank(s[0]) {
      BlankPrefix(s[1..]);
      var n := |s| - |SkipBlanks(s)|;
      assert forall i :: 1 <= i < n ==> s[i] == s[1..][i - 1];
    }
  }

  /** The first step of the scanner over raw characters: one of them, or all the spaces in front. */
  lemma RawStep(double: bool, a: Text, k: Text) returns (n: nat)
    requires AllRaw(double, a) && k != [] && !IsSeparation(k[0]) && a != []
    ensures 0 < n <= |a| && AllRaw(double, a[n..])
    ensures NextStep(double, a + k) == Take(a[..n], a[n..] + k)
  {
    n := 1;
    if a[0] == SPACE {
      BlankPrefix(a);
      n := |a| - |SkipBlanks(a)|;
      assert a + k == a[..n] + (a[n..] + k);
      SpacesStep(double, a[..n], a[n..] + k);
    } else {
      assert (a + k)[1..] == a[1..] + k;
    }
  }

  lemma SpacesStep(double: bool, b: Text, rest: Text)
    requires b != [] && (forall i :: 0 <= i < |b| ==> b[i] == SPACE) && rest != [] && !IsSeparation(rest[0])
    ensures NextStep(double, b + rest) == Take(b, rest)
  {
    SkipBlanksAppend(b, rest);
    hide SkipBlanks;
    assert (b + rest)[..|b|] == b && (b + rest)[0] == SPACE;
  }
  /** A run of raw characters, spaces included, comes back as it is if no white space follows. */
  lemma {:induction false} RawRun(double: bool, a: Text, k: Text)
    requires AllRaw(double, a) && k != [] && !IsSeparation(k[0])
    ensures FlowScalar(double, a + k) == FlowScalar(double, k).Push(a)
    decreases |a|
  {
    if a == [] {
      assert a + k == k;
      PushPush(FlowScalar(double, k), [], []);
    } else {
      hide FlowScalar, NextStep;
      var n := RawStep(double, a, k);
      var b := a[..n];
      assert a == b + a[n..];
      OneStep(double, a + k, b, a[n..] + k);
      RawRun(double, a[n..], k);
      PushPush(FlowScalar(double, k), b, a[n..]);
    }
  }

  lemma ReadsRaw(double: bool, a: Text)
    requires AllRaw(double, a)
    ensures Reads(double, a, a, true)
  {
    forall k: Text | k != [] && !IsSeparation(k[0]) ensures ReadsAt(double, a, a, k) {
      RawRun(double, a, k);
    }
  }

  lemma {:induction false} RawWord(double: bool, a: Text, k: Text)
    requires AllRaw(double, a) && SPACE !in a
    ensures FlowScalar(double, a + k) == FlowScalar(double, k).Push(a)
  {
    hide FlowScalar;
    if a == [] {
      assert a + k == k;
      PushPush(FlowScalar(double, k), [], []);
    } else {
      assert (a + k)[1..] == a[1..] + k;
      OneStep(double, a + k, [a[0]], a[1..] + k);
      RawWord(double, a[1..], k);
      PushPush(FlowScalar(double, k), [a[0]], a[1..]);
      assert [a[0]] + a[1..] == a;
    }
  }

  lemma ReadsWord(double: bool, a: Text)
    requires AllRaw(double, a) && SPACE !in a
    ensures Reads(double, a, a, false)
  {
    forall k: Text | k != [] ensures ReadsAt(double, a, a, k) {
      RawWord(double, a, k);
    }
  }

  /** An escaped space in front of a run keeps the run's first space. */
  lemma ReadsGuarded(a: Text)
    requires a != [] && a[0] == SPACE && AllRaw(true, a)
    ensures Reads(true, [BACKSLASH] + a, a, true)
  {
    hide FlowScalar;
    forall k: Text | k != [] && !IsSeparation(k[0]) ensures ReadsAt(true, [BACKSLASH] + a, a, k) {
      var s := [BACKSLASH] + a + k;
      assert s[1..] == a + k && (a + k)[1..] == a[1..] + k;
      OneStep(true, s, [SPACE], a[1..] + k);
      RawRun(true, a[1..], k);
      PushPush(FlowScalar(true, k), [SPACE], a[1..]);
      assert [SPACE] + a[1..] == a;
    }
  }

  /** A backslash before a line break joins the lines: the break and the indentation disappear. */
  lemma ReadsContinuation(lb: Text, n: nat)
    requires IsLineBreak(lb) && n > 0
    ensures Reads(true, [BACKSLASH] + lb + Spaces(n), [], true)
  {
    hide FlowScalar, NextStep;
    var w := [BACKSLASH] + lb + Spaces(n);
    forall k: Text | k != [] && !IsSeparation(k[0]) ensures ReadsAt(true, w, [], k) {
      ContinuationStep(lb, n, k);
      OneStep(true, w + k, [], k);
    }
  }

  lemma ContinuationStep(lb: Text, n: nat, k: Text)
    requires IsLineBreak(lb) && n > 0 && k != [] && !IsSeparation(k[0])
    ensures NextStep(true, [BACKSLASH] + lb + Spaces(n) + k) == Take([], k)
  {
    hide FlowBreaks, LineBreak, Escape;
    var s := [BACKSLASH] + lb + Spaces(n) + k;
    var u := lb + (Spaces(n) + k);
    assert s[1..] == u;
    EscapedBreak(lb, n, k);
  }

  lemma EscapedBreak(lb: Text, n: nat, k: Text)
    requires IsLineBreak(lb) && n > 0 && k != [] && !IsSeparation(k[0])
    ensures Escape(lb + (Spaces(n) + k)) == Scanned([], k)
  {
    hide FlowBreaks, LineBreak, HexCode;
    LineBreakReads(lb, Spaces(n) + k);
    IndentSkipped(n, k);
  }

  lemma IndentSkipped(n: nat, k: Text)
    requires n > 0 && k != [] && !IsSeparation(k[0])
    ensures FlowBreaks(Spaces(n) + k) == Scanned([], k)
  {
    SkipBlanksAppend(Spaces(n), k);
  }

  /** A line break with the indentation behind it is read as a space. */
  lemma ReadsFold(double: bool, lb: Text, n: nat)
    requires IsLineBreak(lb) && n > 0
    ensures Reads(double, lb + Spaces(n), [SPACE], true)
  {
    hide FlowScalar, FlowBreaks, Fold;
    var w := lb + Spaces(n);
    forall k: Text | k != [] && !IsSeparation(k[0]) ensures ReadsAt(double, w, [SPACE], k) {
      var s := Spaces(n) + k;
      assert w + k == lb + s;
      LineBreakReads(lb, s);
      IndentSkipped(n, k);
      FoldAt(lb, LF, s, [], k);
      OneStep(double, lb + s, [SPACE], k);
    }
  }

  /** A run of breaks, as it is written, and the indentation behind it are read as the run. */
  lemma ReadsBreaks(double: bool, lb: Text, u: Text, n: nat)
    requires IsLineBreak(lb) && u != [] && AllKept(u) && n > 0
    ensures Reads(double, BreaksText(u, lb) + Spaces(n), u, true)
  {
    hide FlowScalar, FlowBreaks, Fold, AllBroken;
    var w := BreaksText(u, lb) + Spaces(n);
    forall k: Text | k != [] && !IsSeparation(k[0]) ensures ReadsAt(double, w, u, k) {
      var rest := if u[0] == LF then u else u[1..];
      var s := AllBroken(rest, lb) + (Spaces(n) + k);
      var first := Broken(u[0], lb);
      AllBrokenFront(u, lb);
      assert w + k == first + s;
      NotLineFeed(rest, lb, Spaces(n) + k);
      BrokenReads(u[0], lb, s);
      BreaksSkipped(lb, rest, n, k);
      FoldAt(first, u[0], s, rest, k);
      assert [u[0]] + u[1..] == u;
      OneStep(double, first + s, u, k);
    }
  }

  predicate AllKept(u: Text) { forall i :: 0 <= i < |u| ==> IsKept(u[i]) }

  lemma FoldAt(b: Text, c: Char, s: Text, breaks: Text, k: Text)
    requires b != [] && IsBreak(b[0]) && LineBreak(b + s) == ([c], s) && FlowBreaks(s) == Scanned(breaks, k) && k != []
    ensures Fold(b + s) == Scanned(if c != LF then [c] + breaks else if breaks == [] then [SPACE] else breaks, k)
  {
    assert SkipBlanks(b + s) == b + s;
    assert [] + breaks == breaks;
  }

  /** A CR of the written text is not followed by LF: the next line break starts with CR too. */
  lemma NotLineFeed(u: Text, lb: Text, t: Text)
    requires IsLineBreak(lb) && AllKept(u) && t != [] && t[0] == SPACE
    ensures lb == [CR] ==> (AllBroken(u, lb) + t)[0] != LF
  {
    if u != [] { AllBrokenFront(u, lb); }
  }

  lemma OneBreakSkipped(b: Text, c: Char, s: Text)
    requires b != [] && IsBreak(b[0]) && LineBreak(b + s) == ([c], s)
    ensures FlowBreaks(b + s) == FlowBreaks(s).Push([c])
  {
    assert SkipBlanks(b + s) == b + s;
  }

  lemma {:induction false} BreaksSkipped(lb: Text, u: Text, n: nat, k: Text)
    requires IsLineBreak(lb) && AllKept(u) && n > 0 && k != [] && !IsSeparation(k[0])
    ensures FlowBreaks(AllBroken(u, lb) + (Spaces(n) + k)) == Scanned(u, k)
  {
    var t := Spaces(n) + k;
    if u == [] {
      assert AllBroken(u, lb) + t == t;
      IndentSkipped(n, k);
    } else {
      hide AllBroken, FlowBreaks;
      var b := Broken(u[0], lb);
      var s := AllBroken(u[1..], lb) + t;
      AllBrokenFront(u, lb);
      assert AllBroken(u, lb) + t == b + s;
      NotLineFeed(u[1..], lb, t);
      BrokenReads(u[0], lb, s);
      OneBreakSkipped(b, u[0], s);
      BreaksSkipped(lb, u[1..], n, k);
      assert [u[0]] + u[1..] == u;
    }
  }

  /** A doubled quote is one quote. */
  lemma ReadsQuotePair()
    ensures Reads(false, [SQUOTE, SQUOTE], [SQUOTE], false)
  {
    hide FlowScalar;
    forall k: Text | k != [] ensures ReadsAt(false, [SQUOTE, SQUOTE], [SQUOTE], k) {
      assert ([SQUOTE, SQUOTE] + k)[2..] == k;
      OneStep(false, [SQUOTE, SQUOTE] + k, [SQUOTE], k);
    }
  }
}
