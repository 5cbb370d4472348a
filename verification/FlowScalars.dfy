/** What the scanner reads from a quoted scalar (yaml/scanner.py, scan_flow_scalar and its helpers),
    as functions of the text that is left. */
module FlowScalars {
  import opened Options
  import opened Chars

  datatype Scanned = Scanned(value: Text, rest: Text) | Failed {
    /** Put text in front of what was read. */
    function Push(t: Text): Scanned {
      match this
      case Scanned(v, rest) => Scanned(t + v, rest)
      case Failed => Failed
    }
  }

  lemma PushPush(r: Scanned, a: Text, b: Text)
    ensures r.Push(b).Push(a) == r.Push(a + b)
    ensures r.Push([]) == r
  {
    if r.Scanned? {
      assert a + (b + r.value) == (a + b) + r.value;
    }
  }

  /** "---" or "..." followed by a separation character. */
  predicate AtDocumentSeparator(s: Text) {
    |s| > 3 && (s[0] == DASH || s[0] == DOT) && s[0] == s[1] == s[2] && IsSeparation(s[3])
  }

  /** Characters that scan_flow_scalar_non_spaces copies without looking further. */
  predicate IsOrdinary(c: Char) {
    c != SQUOTE && c != DQUOTE && c != BACKSLASH && !IsSeparation(c)
  }

  function Quote(double: bool): Char {
    if double then DQUOTE else SQUOTE
  }

  /** ESCAPE_REPLACEMENTS of the scanner. */
  function Replacement(c: Char): Option<Char> {
    if c == 0x30 then Some(NUL)            // 0
    else if c == 0x61 then Some(0x07)      // a
    else if c == 0x62 then Some(0x08)      // b
    else if c == 0x74 then Some(TAB)       // t
    else if c == TAB then Some(TAB)
    else if c == 0x6E then Some(LF)        // n
    else if c == 0x76 then Some(0x0B)      // v
    else if c == 0x66 then Some(0x0C)      // f
    else if c == 0x72 then Some(CR)        // r
    else if c == 0x65 then Some(0x1B)      // e
    else if c == SPACE then Some(SPACE)
    else if c == DQUOTE then Some(DQUOTE)
    else if c == BACKSLASH then Some(BACKSLASH)
    else if c == 0x2F then Some(0x2F)      // slash
    else if c == 0x4E then Some(NEL)       // N
    else if c == 0x5F then Some(0xA0)      // _
    else if c == 0x4C then Some(LS)        // L
    else if c == 0x50 then Some(PS)        // P
    else None
  }

  /** ESCAPE_CODES of the scanner: how many hexadecimal digits follow, 0 for none. */
  function CodeLength(c: Char): (n: nat)
    ensures n <= 8
  {
    if c == 0x78 then 2 else if c == 0x75 then 4 else if c == 0x55 then 8 else 0
  }

  predicate IsHex(c: Char) {
    0x30 <= c <= 0x39 || 0x41 <= c <= 0x46 || 0x61 <= c <= 0x66
  }

  const DIGITS: Text := [0x30, 0x31, 0x32, 0x33, 0x34, 0x35, 0x36, 0x37, 0x38, 0x39]
  const LOWER: Text := DIGITS + [0x61, 0x62, 0x63, 0x64, 0x65, 0x66]
  const UPPER: Text := DIGITS + [0x41, 0x42, 0x43, 0x44, 0x45, 0x46]

  /** The digit's place among those of either case. */
  function HexDigit(c: Char): (d: nat)
    requires IsHex(c)
    ensures d < 16 && (LOWER[d] == c || UPPER[d] == c)
  {
    if c <= 0x39 then c - 0x30 else if c <= 0x46 then c - 0x37 else c - 0x57
  }

  predicate AllHex(t: Text) {
    forall i :: 0 <= i < |t| ==> IsHex(t[i])
  }

  /** int(digits, 16) */
  function HexNumber(digits: Text): nat
    requires AllHex(digits)
  {
    if digits == [] then 0
    else 16 * HexNumber(digits[..|digits| - 1]) + HexDigit(digits[|digits| - 1])
  }

  /** scan_flow_scalar_breaks: further line breaks with the blanks around them dropped. */
  function FlowBreaks(s: Text): (r: Scanned)
    ensures r.Scanned? ==> |r.rest| <= |s|
    ensures r.Scanned? && r.rest != [] ==> !IsBlank(r.rest[0]) && !IsBreak(r.rest[0])
    decreases |s|
  {
    if AtDocumentSeparator(s) then Failed
    else
      var t := SkipBlanks(s);
      if t != [] && IsBreak(t[0]) then
        var (b, t') := LineBreak(t);
        FlowBreaks(t').Push(b)
      else Scanned([], t)
  }

  /** A character given by its number in n hexadecimal digits; chr() refuses what is no code point. */
  function HexCode(s: Text, n: nat): (r: Scanned)
    ensures r.Scanned? ==> |r.rest| <= |s|
  {
    if |s| < n || !AllHex(s[..n]) || HexNumber(s[..n]) > 0x10FFFF then Failed
    else Scanned([HexNumber(s[..n])], s[n..])
  }

  /** The text after a backslash, inside double quotes. */
  function Escape(s: Text): (r: Scanned)
    ensures r.Scanned? ==> |r.rest| < |s|
  {
    if s == [] then Failed
    else if Replacement(s[0]).Some? then Scanned([Replacement(s[0]).value], s[1..])
    else if CodeLength(s[0]) > 0 then HexCode(s[1..], CodeLength(s[0]))
    else if IsBreak(s[0]) then FlowBreaks(LineBreak(s).1)
    else Failed
  }

  /** scan_flow_scalar_spaces: a run of blanks is kept, unless a line break follows; one line break
      becomes a space, several lose one. */
  function Fold(s: Text): (r: Scanned)
    requires s != [] && IsSeparation(s[0])
    ensures r.Scanned? ==> |r.rest| < |s|
  {
    var t := SkipBlanks(s);
    if t == [] || t[0] == NUL then Failed
    else if IsBreak(t[0]) then
      var (lb, t') := LineBreak(t);
      match FlowBreaks(t')
      case Scanned(breaks, rest) =>
        Scanned((if lb != [LF] then lb else if breaks == [] then [SPACE] else []) + breaks, rest)
      case Failed => Failed
    else Scanned(s[..|s| - |t|], t)
  }

  datatype Step = Take(value: Text, rest: Text) | Close(rest: Text) | Bad

  function Taken(r: Scanned): Step {
    match r
    case Scanned(v, rest) => Take(v, rest)
    case Failed => Bad
  }

  /** What the scanner does next inside the quotes. */
  function NextStep(double: bool, s: Text): (r: Step)
    requires s != []
    ensures r.Take? ==> |r.rest| < |s|
    ensures r.Close? ==> |r.rest| < |s|
  {
    if IsOrdinary(s[0]) then Take([s[0]], s[1..])
    else if !double && |s| > 1 && s[0] == SQUOTE && s[1] == SQUOTE then Take([SQUOTE], s[2..])
    else if s[0] == Quote(double) then Close(s[1..])
    else if IsSeparation(s[0]) then Taken(Fold(s))
    else if double && s[0] == BACKSLASH then Taken(Escape(s[1..]))
    else Take([s[0]], s[1..])
  }

  /** scan_flow_scalar, from just after the opening quote. */
  function FlowScalar(double: bool, s: Text): Scanned
    decreases |s|
  {
    if s == [] then Failed
    else
      match NextStep(double, s)
      case Take(v, rest) => FlowScalar(double, rest).Push(v)
      case Close(rest) => Scanned([], rest)
      case Bad => Failed
  }

  /** A run of ordinary characters is read as it is, whatever follows it. */
  lemma {:induction false} OrdinaryRun(double: bool, a: Text, k: Text)
    requires forall i :: 0 <= i < |a| ==> IsOrdinary(a[i])
    ensures FlowScalar(double, a + k) == FlowScalar(double, k).Push(a)
  {
    if a == [] {
      assert a + k == k;
      PushPush(FlowScalar(double, k), [], []);
    } else {
      assert (a + k)[1..] == a[1..] + k;
      OrdinaryRun(double, a[1..], k);
      PushPush(FlowScalar(double, k), [a[0]], a[1..]);
      assert [a[0]] + a[1..] == a;
    }
  }

  /** The escapes that stand for the character itself. */
  lemma EscapedItself(c: Char, k: Text)
    requires c == SPACE || c == TAB || c == DQUOTE || c == 0x2F || c == BACKSLASH
    ensures Escape([c] + k) == Scanned([c], k)
  {
    assert ([c] + k)[1..] == k;
  }

  lemma ClosingQuote(double: bool, s: Text)
    requires s != [] && s[0] == Quote(double)
    requires !double ==> |s| > 1 && s[1] != SQUOTE
    ensures FlowScalar(double, s) == Scanned([], s[1..])
  {
  }

  lemma OneStep(double: bool, s: Text, v: Text, rest: Text)
    requires s != [] && NextStep(double, s) == Take(v, rest)
    ensures FlowScalar(double, s) == FlowScalar(double, rest).Push(v)
  {
  }

  // What a quoted scalar takes in, whatever stands there.

  /** From s on to its end t, no line starts with a document separator. */
  ghost predicate Passes(s: Text, t: Text) {
    && |t| <= |s| && t == s[|s| - |t|..]
    && forall i :: 0 < i <= |s| - |t| && IsBreak(s[i - 1]) ==> !AtDocumentSeparator(s[i..])
  }

  lemma PassesOn(s: Text, t: Text, u: Text)
    requires Passes(s, t) && Passes(t, u)
    ensures Passes(s, u)
  {
    var n := |s| - |t|;
    forall i | 0 < i <= |s| - |u| && IsBreak(s[i - 1]) ensures !AtDocumentSeparator(s[i..]) {
      if i > n { assert s[i - 1] == t[i - n - 1] && s[i..] == t[i - n..]; }
    }
  }

  lemma PassesOne(s: Text)
    requires s != [] && !IsBreak(s[0])
    ensures Passes(s, s[1..])
  {
  }

  lemma {:induction false} BlanksPass(s: Text)
    ensures Passes(s, SkipBlanks(s))
  {
    if s != [] && IsBlank(s[0]) {
      BlanksPass(s[1..]);
      PassesOn(s, s[1..], SkipBlanks(s));
    }
  }

  lemma BreakPasses(s: Text)
    requires s != [] && IsBreak(s[0]) && !AtDocumentSeparator(LineBreak(s).1)
    ensures Passes(s, LineBreak(s).1)
  {
  }

  lemma {:induction false} BreaksPass(s: Text)
    requires FlowBreaks(s).Scanned?
    ensures !AtDocumentSeparator(s) && Passes(s, FlowBreaks(s).rest)
    decreases |s|
  {
    hide Passes;
    var t := SkipBlanks(s);
    BlanksPass(s);
    if t != [] && IsBreak(t[0]) {
      var u := LineBreak(t).1;
      BreaksPass(u);
      BreakPasses(t);
      PassesOn(t, u, FlowBreaks(u).rest);
      PassesOn(s, t, FlowBreaks(u).rest);
    }
  }

  lemma FoldPasses(s: Text)
    requires s != [] && IsSeparation(s[0]) && Fold(s).Scanned?
    ensures Passes(s, Fold(s).rest)
  {
    hide Passes;
    var t := SkipBlanks(s);
    BlanksPass(s);
    if IsBreak(t[0]) {
      var u := LineBreak(t).1;
      BreaksPass(u);
      BreakPasses(t);
      PassesOn(t, u, FlowBreaks(u).rest);
      PassesOn(s, t, FlowBreaks(u).rest);
    }
  }

  lemma EscapePasses(s: Text)
    requires Escape(s).Scanned?
    ensures Passes(s, Escape(s).rest)
  {
    hide FlowBreaks, AtDocumentSeparator, HexNumber, LineBreak;
    if IsBreak(s[0]) {
      var u := LineBreak(s).1;
      BreaksPass(u);
      BreakPasses(s);
      PassesOn(s, u, FlowBreaks(u).rest);
    } else if CodeLength(s[0]) > 0 && Replacement(s[0]).None? {
      var n := CodeLength(s[0]);
      assert s[1..][..n] == s[1..n + 1] && s[1..][n..] == s[n + 1..];
      assert forall i :: 1 <= i <= n ==> s[i] == s[1..][..n][i - 1] && IsHex(s[i]);
    }
  }

  /** A quoted scalar ends with its closing quote, and goes over no document separator. */
  lemma {:induction false} QuotedEnds(double: bool, s: Text)
    requires FlowScalar(double, s).Scanned?
    ensures var rest := FlowScalar(double, s).rest;
            |rest| < |s| && Passes(s, rest) && s[|s| - |rest| - 1] == Quote(double)
    decreases |s|
  {
    hide Passes, Fold, Escape;
    match NextStep(double, s)
    case Take(_, rest) =>
      StepPasses(double, s);
      QuotedEnds(double, rest);
      PassesOn(s, rest, FlowScalar(double, rest).rest);
      SameEnd(s, rest, FlowScalar(double, rest).rest);
    case Close(rest) => PassesOne(s);
    case Bad =>
  }

  lemma StepPasses(double: bool, s: Text)
    requires s != [] && NextStep(double, s).Take?
    ensures Passes(s, NextStep(double, s).rest)
  {
    hide Passes, Fold, Escape;
    if !IsBreak(s[0]) { PassesOne(s); }
    if !double && |s| > 1 && s[0] == SQUOTE && s[1] == SQUOTE {
      PassesOne(s[1..]);
      PassesOn(s, s[1..], s[2..]);
    } else if IsSeparation(s[0]) {
      FoldPasses(s);
    } else if double && s[0] == BACKSLASH {
      EscapePasses(s[1..]);
      PassesOn(s, s[1..], Escape(s[1..]).rest);
    }
  }

  lemma SameEnd(s: Text, t: Text, u: Text)
    requires Passes(s, t) && |u| < |t|
    ensures s[|s| - |u| - 1] == t[|t| - |u| - 1]
  {
  }
}
