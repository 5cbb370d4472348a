/** When a written scalar is one token of the scanner, with its value. */
module ScalarReading {
  import opened Options
  import opened Chars
  import opened FlowScalars
  import opened QuotedReading
  import opened PlainScalars
  import opened PlainReading
  import opened BlockScalars
  import opened BlockReading
  import opened FoldedReading
  import opened ScalarAnalysis
  import opened ScalarTokens

  datatype ScalarStyle = PlainStyle | SingleStyle | DoubleStyle | LiteralStyle | FoldedStyle

  /** What may stand behind a scalar of the style, written at the indentation n. */
  ghost predicate Follows(style: ScalarStyle, flow: bool, indent: int, n: nat, k: Text)
    requires indent >= -1
  {
    && k != []
    && (style.SingleStyle? ==> k[0] != SQUOTE)
    && (style.LiteralStyle? || style.FoldedStyle? ==> FollowsBlock(k, n))
    && (style.PlainStyle? ==> EndsPlain(flow, indent + 1, k))
  }

  /** In front of k, the scanner makes one scalar token of the written text, with the value and the
      plainness the emitter started from. */
  ghost predicate OneScalarAt(style: ScalarStyle, flow: bool, indent: int, w: Text, v: Text, k: Text, column: nat)
    requires indent >= -1
  {
    var s := w + k;
    && s != [] && (s[0] == NUL || |s| > 1)
    && var t := ScalarToken(flow, indent, column, s); t.Scalar? && t.value == v && t.plain == style.PlainStyle?
  }

  ghost predicate OneScalar(style: ScalarStyle, flow: bool, indent: int, n: nat, w: Text, v: Text)
    requires indent >= -1
  {
    forall k: Text, column: nat :: Follows(style, flow, indent, n, k) && (flow || column >= indent) ==>
      OneScalarAt(style, flow, indent, w, v, k, column)
  }

  /** In front of whatever may stand behind it, w is read as one token with the value v exactly if `carried`. */
  ghost predicate ReadsExactly(style: ScalarStyle, flow: bool, indent: int, n: nat, w: Text, v: Text, carried: bool)
    requires indent >= -1
  {
    forall k: Text, column: nat :: Follows(style, flow, indent, n, k) && (flow || column >= indent) ==>
      (OneScalarAt(style, flow, indent, w, v, k, column) <==> carried)
  }

  lemma OneIsExactly(style: ScalarStyle, flow: bool, indent: int, n: nat, w: Text, v: Text)
    requires indent >= -1 && OneScalar(style, flow, indent, n, w, v)
    ensures ReadsExactly(style, flow, indent, n, w, v, true)
  {
    hide OneScalarAt, Follows;
  }

  /** Something may always stand there: the end of the text. */
  lemma ExactlyIsOne(style: ScalarStyle, flow: bool, indent: int, n: nat, w: Text, v: Text, carried: bool)
    requires indent >= -1 && n > 0 && ReadsExactly(style, flow, indent, n, w, v, carried)
    ensures OneScalar(style, flow, indent, n, w, v) <==> carried
  {
    hide OneScalarAt, EndsPlain;
    var k, column: nat := [NUL], Max(indent, 0);
    assert SkipSpaces(k) == k;
    EndsPlainBehind(flow, indent + 1, k);
    assert Follows(style, flow, indent, n, k);
    assert OneScalarAt(style, flow, indent, w, v, k, column) <==> carried;
  }

  /** The token that a scalar in the style starts. */
  function StartOf(style: ScalarStyle): TokenStart {
    match style
    case PlainStyle => PlainScalar
    case SingleStyle => SingleQuoted
    case DoubleStyle => DoubleQuoted
    case LiteralStyle => Literal
    case FoldedStyle => Folded
  }

  /** In front of anything that ends a run, the scanner starts the token of the style: the indicator shows it, and a
      plain scalar has none. A block scalar ends its last line. */
  ghost predicate Shows(style: ScalarStyle, flow: bool, w: Text) {
    && w != []
    && (w[0] == DQUOTE <==> style.DoubleStyle?) && (w[0] == SQUOTE <==> style.SingleStyle?)
    && (w[0] == BAR <==> style.LiteralStyle?) && (w[0] == GREATER <==> style.FoldedStyle?)
    && (forall k: Text, column: nat :: k != [] && StopsRun(flow, k) ==>
          FirstToken(flow, column, w + k) == StartOf(style))
    && (style.LiteralStyle? || style.FoldedStyle? ==> !flow && IsBreak(w[|w| - 1]))
  }

  /** An indicator starts its token whatever follows. */
  lemma IndicatorShows(style: ScalarStyle, flow: bool, w: Text)
    requires w != [] && !style.PlainStyle?
    requires style.DoubleStyle? ==> w[0] == DQUOTE
    requires style.SingleStyle? ==> w[0] == SQUOTE
    requires style.LiteralStyle? ==> w[0] == BAR
    requires style.FoldedStyle? ==> w[0] == GREATER
    requires style.LiteralStyle? || style.FoldedStyle? ==> !flow && IsBreak(w[|w| - 1])
    ensures Shows(style, flow, w) && !IsSeparation(w[0])
  {
    forall k: Text, column: nat | k != [] && StopsRun(flow, k)
      ensures FirstToken(flow, column, w + k) == StartOf(style)
    {
      assert (w + k)[0] == w[0];
    }
  }

  lemma PlainShows(flow: bool, allowUnicode: bool, t: Text, w: Text, first: nat)
    requires PlainAllowed(allowUnicode, t) && !PlainIndicators(flow, t) && KeepsFirstWord(w, t, first)
    ensures Shows(PlainStyle, flow, w) && !IsSeparation(w[0])
  {
    hide FirstToken;
    PlainHasNoIndicator(flow, allowUnicode, t, w, first);
    hide PlainAllowed, PlainIndicators, KeepsFirstWord, IsSeparation;
    forall k: Text, column: nat | k != [] && StopsRun(flow, k)
      ensures FirstToken(flow, column, w + k) == PlainScalar
    {
      StartsPlainScalar(flow, allowUnicode, t, w, first, k, column);
    }
  }

  lemma PlainHasNoIndicator(flow: bool, allowUnicode: bool, t: Text, w: Text, first: nat)
    requires PlainAllowed(allowUnicode, t) && !PlainIndicators(flow, t) && KeepsFirstWord(w, t, first)
    ensures w != [] && !IsSeparation(w[0]) && w[0] != DQUOTE && w[0] != SQUOTE && w[0] != BAR && w[0] != GREATER
  {
    assert w[..first][0] == t[..first][0];
    assert !IsSpecial(allowUnicode, t[0]) && !IsEmittedBreak(t[0]);
    if flow {
      assert !FlowIndicatorAt(t, 0);
    } else {
      assert !BlockIndicatorAt(t, 0);
    }
  }

  lemma DoubleIsOneScalar(flow: bool, indent: int, n: nat, body: Text, v: Text)
    requires indent >= -1 && ReadsBack(true, body, v)
    ensures OneScalar(DoubleStyle, flow, indent, n, [DQUOTE] + body + [DQUOTE], v)
  {
    hide FlowScalar, Plain, BlockScalar;
    var w := [DQUOTE] + body + [DQUOTE];
    forall k: Text, column: nat | Follows(DoubleStyle, flow, indent, n, k) && (flow || column >= indent)
      ensures OneScalarAt(DoubleStyle, flow, indent, w, v, k, column)
    {
      assert ClosesAt(true, body, v, k);
      assert (w + k)[1..] == body + [DQUOTE] + k;
    }
  }

  lemma SingleIsOneScalar(flow: bool, indent: int, n: nat, body: Text, v: Text)
    requires indent >= -1 && ReadsBack(false, body, v)
    ensures OneScalar(SingleStyle, flow, indent, n, [SQUOTE] + body + [SQUOTE], v)
  {
    hide FlowScalar, Plain, BlockScalar;
    var w := [SQUOTE] + body + [SQUOTE];
    forall k: Text, column: nat | Follows(SingleStyle, flow, indent, n, k) && (flow || column >= indent)
      ensures OneScalarAt(SingleStyle, flow, indent, w, v, k, column)
    {
      assert ClosesAt(false, body, v, k);
      assert (w + k)[1..] == body + [SQUOTE] + k;
    }
  }

  lemma LiteralIsOneScalar(indent: int, bestIndent: nat, lb: Text, v: Text)
    requires indent >= -1 && 2 <= bestIndent <= 9 && IsLineBreak(lb) && v != [] && LiteralCharacters(v)
    ensures var n := Max(indent, 0) + bestIndent;
            OneScalar(LiteralStyle, false, indent, n,
                      [BAR] + BlockHints(v, bestIndent) + lb + LiteralLines(v, true, lb, n), v)
  {
    hide FlowScalar, Plain, BlockScalar, BlockHints, LiteralLines, LiteralCharacters;
    var n := Max(indent, 0) + bestIndent;
    var tail := BlockHints(v, bestIndent) + lb + LiteralLines(v, true, lb, n);
    var w := [BAR] + BlockHints(v, bestIndent) + lb + LiteralLines(v, true, lb, n);
    assert w == [BAR] + tail;
    forall k: Text, column: nat | Follows(LiteralStyle, false, indent, n, k) && column >= indent
      ensures OneScalarAt(LiteralStyle, false, indent, w, v, k, column)
    {
      LiteralReads(v, bestIndent, indent, lb, n, k);
      assert (w + k)[1..] == tail + k;
    }
  }

  /** A folded scalar is one token, and comes back unless a line that starts with a space was folded. */
  lemma FoldedToken(indent: int, bestIndent: nat, o: Folding, v: Text, k: Text, column: nat)
    requires indent >= -1 && 2 <= bestIndent <= 9 && IsLineBreak(o.lb) && v != [] && Foldable(v)
    requires o.n == Max(indent, 0) + bestIndent && Follows(FoldedStyle, false, indent, o.n, k)
    ensures var w := [GREATER] + BlockHints(v, bestIndent) + o.lb + FoldedText(o, v);
            OneScalarAt(FoldedStyle, false, indent, w, v, k, column) <==> !FoldsALine(o, v)
  {
    hide FlowScalar, Plain, BlockScalar, BlockHints, FoldedText, Foldable, FoldsALine;
    var tail := BlockHints(v, bestIndent) + o.lb + FoldedText(o, v);
    var w := [GREATER] + BlockHints(v, bestIndent) + o.lb + FoldedText(o, v);
    assert w == [GREATER] + tail;
    assert (w + k)[1..] == tail + k;
    FoldedReads(o, v, bestIndent, indent, k);
  }

  lemma FoldedIsOneScalar(indent: int, bestIndent: nat, o: Folding, v: Text)
    requires indent >= -1 && 2 <= bestIndent <= 9 && IsLineBreak(o.lb) && v != [] && Foldable(v)
    requires o.n == Max(indent, 0) + bestIndent
    ensures var w := [GREATER] + BlockHints(v, bestIndent) + o.lb + FoldedText(o, v);
            ReadsExactly(FoldedStyle, false, indent, o.n, w, v, !FoldsALine(o, v))
            && (OneScalar(FoldedStyle, false, indent, o.n, w, v) <==> !FoldsALine(o, v))
  {
    hide OneScalarAt, BlockHints, FoldedText, Foldable, FoldsALine, Follows, OneScalar;
    var w := [GREATER] + BlockHints(v, bestIndent) + o.lb + FoldedText(o, v);
    forall k: Text, column: nat | Follows(FoldedStyle, false, indent, o.n, k) && column >= indent
      ensures OneScalarAt(FoldedStyle, false, indent, w, v, k, column) <==> !FoldsALine(o, v)
    {
      FoldedToken(indent, bestIndent, o, v, k, column);
    }
    ExactlyIsOne(FoldedStyle, false, indent, o.n, w, v, !FoldsALine(o, v));
  }

  lemma PlainIsOneScalar(flow: bool, allowUnicode: bool, indent: int, n: nat, body: Text, v: Text, first: nat)
    requires indent >= -1 && PlainAllowed(allowUnicode, v) && !PlainIndicators(flow, v)
    requires ReadsPlain(flow, indent + 1, body, v) && KeepsFirstWord(body, v, first)
    ensures OneScalar(PlainStyle, flow, indent, n, body, v)
  {
    hide FlowScalar, BlockScalar, Plain, Tail, FirstToken, PlainAllowed, PlainIndicators;
    forall k: Text, column: nat | Follows(PlainStyle, flow, indent, n, k) && (flow || column >= indent)
      ensures OneScalarAt(PlainStyle, flow, indent, body, v, k, column)
    {
      assert PlainAt(flow, indent + 1, body, v, k, column);
      assert v + [] == v;
      StartsPlainScalar(flow, allowUnicode, v, body, first, k, column);
    }
  }

  // NEL is the one break of the emitter that the scanner does not keep.

  /** Whether a text the analysis allows in the style comes back in it: with NEL only between double quotes, and
      folded only if no line that starts with a space is broken. */
  ghost predicate IsCarried(style: ScalarStyle, o: Folding, text: Text) {
    && (style.SingleStyle? || style.LiteralStyle? || style.FoldedStyle? ==> NEL !in text)
    && (style.FoldedStyle? ==> !exists a, i :: FoldsAt(o, text, a, i))
  }

  lemma {:induction false} FlowBreaksHoldNoNel(s: Text)
    ensures FlowBreaks(s).Scanned? ==> NEL !in FlowBreaks(s).value
    decreases |s|
  {
    var t := SkipBlanks(s);
    if !AtDocumentSeparator(s) && t != [] && IsBreak(t[0]) {
      FlowBreaksHoldNoNel(LineBreak(t).1);
    }
  }

  lemma {:induction false} BlanksHoldNoNel(s: Text)
    ensures NEL !in s[..|s| - |SkipBlanks(s)|]
  {
    if s != [] && IsBlank(s[0]) {
      BlanksHoldNoNel(s[1..]);
      var n := |s| - |SkipBlanks(s)|;
      assert s[..n] == [s[0]] + s[1..][..n - 1];
    }
  }

  lemma StepHoldsNoNel(s: Text)
    requires s != []
    ensures NextStep(false, s).Take? ==> NEL !in NextStep(false, s).value
  {
    hide SkipBlanks, FlowBreaks;
    if IsSeparation(s[0]) {
      var t := SkipBlanks(s);
      BlanksHoldNoNel(s);
      if t != [] && IsBreak(t[0]) { FlowBreaksHoldNoNel(LineBreak(t).1); }
    }
  }

  lemma {:induction false} SingleHoldsNoNel(s: Text)
    ensures FlowScalar(false, s).Scanned? ==> NEL !in FlowScalar(false, s).value
    decreases |s|
  {
    hide NextStep;
    if s != [] {
      StepHoldsNoNel(s);
      var step := NextStep(false, s);
      if step.Take? { SingleHoldsNoNel(step.rest); }
    }
  }

  lemma {:induction false} BlockBreaksHoldNoNel(s: Text, column: nat, indent: nat)
    ensures NEL !in BlockBreaks(s, column, indent).text
    decreases |s|
  {
    if column < indent && s != [] && s[0] == SPACE {
      BlockBreaksHoldNoNel(s[1..], column + 1, indent);
    } else if s != [] && IsBreak(s[0]) {
      BlockBreaksHoldNoNel(LineBreak(s).1, 0, indent);
    }
  }

  lemma {:induction false} IndentationHoldsNoNel(s: Text, column: nat, deepest: nat)
    ensures NEL !in BlockIndentation(s, column, deepest).0.text
    decreases |s|
  {
    if s != [] && s[0] == SPACE {
      IndentationHoldsNoNel(s[1..], column + 1, Max(deepest, column + 1));
    } else if s != [] && IsBreak(s[0]) {
      IndentationHoldsNoNel(LineBreak(s).1, 0, deepest);
    }
  }

  lemma {:induction false} LineHoldsNoNel(s: Text)
    ensures NEL !in s[..|s| - |SkipLine(s)|]
  {
    if s != [] && !EndsLine(s[0]) {
      LineHoldsNoNel(s[1..]);
      var n := |s| - |SkipLine(s)|;
      assert s[..n] == [s[0]] + s[1..][..n - 1];
    }
  }

  lemma {:induction false} LinesHoldNoNel(folded: bool, indent: nat, b: Breaks)
    requires b.AtText() && NEL !in b.text
    ensures var l := BlockLines(folded, indent, b); NEL !in l.text && NEL !in l.lastBreak && NEL !in l.breaks
    decreases |b.rest|
  {
    hide BlockBreaks, SkipLine;
    if AtLine(b, indent) {
      var (lb, u) := LineBreak(SkipLine(b.rest));
      LineHoldsNoNel(b.rest);
      BlockBreaksHoldNoNel(u, 0, indent);
      var next := BlockBreaks(u, 0, indent);
      if AtLine(next, indent) { LinesHoldNoNel(folded, indent, next); }
    }
  }

  lemma BlockHoldsNoNel(folded: bool, indent: int, s: Text)
    requires indent >= -1
    ensures BlockScalar(folded, indent, s).Scanned? ==> NEL !in BlockScalar(folded, indent, s).value
  {
    hide Indicators, IgnoredLine, BlockIndentation, BlockBreaks, BlockLines;
    var h := Indicators(s);
    if h.Header? && IgnoredLine(h.rest).Some? {
      var t := IgnoredLine(h.rest).value;
      var least := Max(indent + 1, 1);
      IndentationHoldsNoNel(t, 0, 0);
      var found := BlockIndentation(t, 0, 0);
      var depth: nat := if h.increment.Some? then least + h.increment.value - 1 else Max(least, found.1);
      BlockBreaksHoldNoNel(t, 0, depth);
      LinesHoldNoNel(folded, depth, if h.increment.Some? then BlockBreaks(t, 0, depth) else found.0);
    }
  }

  /** A text with NEL never comes back from single quotes or a block scalar, whatever is written for it. */
  lemma NelIsLost(style: ScalarStyle, flow: bool, indent: int, n: nat, w: Text, v: Text)
    requires indent >= -1 && NEL in v && w != []
    requires || (style.SingleStyle? && w[0] == SQUOTE)
             || (!flow && n > 0 && ((style.LiteralStyle? && w[0] == BAR) || (style.FoldedStyle? && w[0] == GREATER)))
    ensures ReadsExactly(style, flow, indent, n, w, v, false)
  {
    hide FlowScalar, BlockScalar, Plain, Follows;
    forall k: Text, column: nat | Follows(style, flow, indent, n, k) && (flow || column >= indent)
      ensures !OneScalarAt(style, flow, indent, w, v, k, column)
    {
      SingleHoldsNoNel((w + k)[1..]);
      BlockHoldsNoNel(style.FoldedStyle?, indent, (w + k)[1..]);
    }
  }

  /** 'a\u0085b' is allowed in both styles with allow_unicode on; in single quotes it comes back as 'a b' (the
      break is folded like '\n'), as a literal as 'a\nb'. */
  lemma NelComesBackChanged()
    ensures var t := [0x61, NEL, 0x62];
            AnalysisOf(t, true).allowSingleQuoted && AnalysisOf(t, true).allowBlock
    ensures FlowScalar(false, [0x61, NEL, SPACE, SPACE, 0x62, SQUOTE, NUL]) == Scanned([0x61, SPACE, 0x62], [NUL])
    ensures BlockScalar(false, -1, [DASH, LF, SPACE, SPACE, 0x61, NEL, SPACE, SPACE, 0x62, LF, NUL])
            == Scanned([0x61, LF, 0x62], [NUL])
  {
    hide AnalysisOf, FlowScalar, BlockScalar;
    NelIsAllowed();
    NelInSingleQuotes();
    NelInLiteral();
  }

  lemma NelIsAllowed()
    ensures var t := [0x61, NEL, 0x62];
            AnalysisOf(t, true).allowSingleQuoted && AnalysisOf(t, true).allowBlock
  {
    var t := [0x61, NEL, 0x62];
    assert !BreakSpaceAt(t, 1) && !SpaceBreakAt(t, 1);
  }

  /** A text that does not come back folded at this width: a space, a word as long as the width, one more word. */
  function LongLine(o: Folding): Text { [SPACE] + seq(o.width, i => 0x78) + [SPACE, 0x79] }

  lemma FoldedIsLost(o: Folding, bestIndent: nat, indent: int, k: Text)
    requires o.width > 0 && IsLineBreak(o.lb) && 2 <= bestIndent <= 9 && indent >= -1
    requires o.n == Max(indent, 0) + bestIndent && FollowsBlock(k, o.n)
    ensures LiteralAllowed(false, LongLine(o)) && !IsCarried(FoldedStyle, o, LongLine(o))
    ensures var s := BlockScalar(true, indent,
                                 BlockHints(LongLine(o), bestIndent) + o.lb + FoldedText(o, LongLine(o)) + k);
            s.Scanned? && s.value != LongLine(o)
  {
    hide BlockScalar, BlockHints, FoldedText, FoldsALine, Foldable, FollowsBlock;
    LongLineFolds(o);
    AllowedIsLiteral(false, LongLine(o));
    FoldsALineIff(o, LongLine(o));
    FoldedReads(o, LongLine(o), bestIndent, indent, k);
  }

  lemma LongLineFolds(o: Folding)
    requires o.width > 0
    ensures LiteralAllowed(false, LongLine(o)) && FoldsAt(o, LongLine(o), 0, o.width + 1)
  {
    var t := LongLine(o);
    assert t[o.width + 1] == SPACE && t[o.width + 2] == 0x79;
    forall i | 0 <= i < |t| ensures t[i] == SPACE || t[i] == 0x78 || t[i] == 0x79 {
    }
    assert t[o.width] == 0x78;
    assert FoldsAt(o, t, 0, o.width + 1);
  }

  lemma NelInSingleQuotes()
    ensures FlowScalar(false, [0x61, NEL, SPACE, SPACE, 0x62, SQUOTE, NUL]) == Scanned([0x61, SPACE, 0x62], [NUL])
  {
    hide FlowScalar, FlowBreaks, Fold;
    var k := [0x62, SQUOTE, NUL];
    var s := Spaces(2) + k;
    IndentSkipped(2, k);
    FoldAt([NEL], LF, s, [], k);
    OneStep(false, [NEL] + s, [SPACE], k);
    OrdinaryRun(false, [0x61], [NEL] + s);
    OrdinaryRun(false, [0x62], [SQUOTE, NUL]);
    ClosingQuote(false, [SQUOTE, NUL]);
    assert [0x61] + ([NEL] + s) == [0x61, NEL, SPACE, SPACE, 0x62, SQUOTE, NUL] && [0x62] + [SQUOTE, NUL] == k;
    assert [SQUOTE, NUL][1..] == [NUL] && [0x61] + ([SPACE] + ([0x62] + [])) == [0x61, SPACE, 0x62];
  }

  lemma NelInLiteral()
    ensures BlockScalar(false, -1, [DASH, LF, SPACE, SPACE, 0x61, NEL, SPACE, SPACE, 0x62, LF, NUL])
            == Scanned([0x61, LF, 0x62], [NUL])
  {
    hide Indicators, IgnoredLine, BlockIndentation, BlockBreaks, BlockLines;
    var first := [0x61, NEL] + (Spaces(2) + [0x62, LF, NUL]);
    var body := Spaces(2) + first;
    HeaderOnly(body);
    IndentFound(2, first, 0);
    NelInLines();
    assert [DASH] + ([LF] + body) == [DASH, LF, SPACE, SPACE, 0x61, NEL, SPACE, SPACE, 0x62, LF, NUL];
    assert [0x61, LF, 0x62] + [] + [] == [0x61, LF, 0x62];
  }

  lemma HeaderOnly(body: Text)
    requires body != [] && body[0] == SPACE
    ensures Indicators([DASH] + ([LF] + body)) == Header(Some(false), None, [LF] + body)
    ensures IgnoredLine([LF] + body) == Some(body)
  {
    hide Indicators;
    assert [] + ([DASH] + ([LF] + body)) == [DASH] + ([LF] + body);
    IndicatorsRead(None, Some(false), [LF] + body);
    assert SkipSpaces([LF] + body) == [LF] + body && ([LF] + body)[1..] == body;
  }

  lemma NelInLines()
    ensures var first := [0x61, NEL] + (Spaces(2) + [0x62, LF, NUL]);
            BlockLines(false, 2, Breaks([], first, 2)) == Lines([0x61, LF, 0x62], [LF], [], [NUL])
  {
    hide BlockBreaks, BlockLines, SkipLine;
    var second := [0x62, LF, NUL];
    var u := Spaces(2) + second;
    var first := [0x61, NEL] + u;
    SkipLineAppend([0x61], [NEL] + u);
    assert [0x61] + ([NEL] + u) == first && ([NEL] + u)[1..] == u && first[..1] == [0x61];
    IndentSkip(2, second, 0);
    LinesStep(2, Breaks([], first, 2), [0x61], [LF], u);
    LastLineRead();
    assert [] + [0x61] + [LF] + [0x62] == [0x61, LF, 0x62];
  }

  lemma LastLineRead()
    ensures BlockLines(false, 2, Breaks([], [0x62, LF, NUL], 2)) == Lines([0x62], [LF], [], [NUL])
  {
    hide BlockBreaks, BlockLines, SkipLine;
    var second, last := [0x62, LF, NUL], [NUL];
    SkipLineAppend([0x62], [LF] + last);
    assert [0x62] + ([LF] + last) == second && ([LF] + last)[1..] == last && second[..1] == [0x62];
    assert SkipSpaces(last) == last;
    FollowRead(last, 0, 2);
    LinesStep(2, Breaks([], second, 2), [0x62], [LF], last);
    assert [] + [0x62] == [0x62];
  }

  /** Where a scalar is written. */
  datatype Place = Place(flow: bool, simpleKey: bool, root: bool, canonical: bool)

  /** The style is permitted for the scalar: what it asks of the event, the place and the text. */
  predicate Usable(style: ScalarStyle, a: Analysis, eventStyle: ScalarStyle, implicit: bool, c: Place) {
    match style
    case PlainStyle =>
      && eventStyle.PlainStyle? && implicit && !c.canonical
      && (c.simpleKey ==> !a.empty && !a.multiline)
      && (c.flow ==> a.allowFlowPlain) && (!c.flow ==> a.allowBlockPlain)
    case SingleStyle =>
      && (eventStyle.PlainStyle? || eventStyle.SingleStyle?) && !c.canonical
      && (c.simpleKey ==> !a.multiline)
      && a.allowSingleQuoted
    case DoubleStyle => true
    case _ => eventStyle == style && !c.canonical && !c.flow && !c.simpleKey && a.allowBlock
  }

  /** Plain first, then the block style asked for, then single quotes, double quotes last. */
  function Preference(style: ScalarStyle): nat {
    match style
    case PlainStyle => 0
    case SingleStyle => 2
    case DoubleStyle => 3
    case _ => 1
  }

  /** choose_scalar_style; PlainStyle as the event's style stands for none given. */
  function ChooseScalarStyle(a: Analysis, eventStyle: ScalarStyle, implicit: bool, c: Place): (style: ScalarStyle)
    ensures Usable(style, a, eventStyle, implicit, c)
    ensures forall s: ScalarStyle :: Usable(s, a, eventStyle, implicit, c) && s != style
                                     ==> Preference(style) < Preference(s)
  {
    if eventStyle.DoubleStyle? || c.canonical then DoubleStyle
    else if eventStyle.PlainStyle? && implicit && !(c.simpleKey && (a.empty || a.multiline))
            && (if c.flow then a.allowFlowPlain else a.allowBlockPlain) then PlainStyle
    else if (eventStyle.LiteralStyle? || eventStyle.FoldedStyle?) && !c.flow && !c.simpleKey
      && a.allowBlock then eventStyle
    else if (eventStyle.PlainStyle? || eventStyle.SingleStyle?) && a.allowSingleQuoted
      && !(c.simpleKey && a.multiline) then
      SingleStyle
    else DoubleStyle
  }

  /** A style is chosen exactly if it can be used and no style preferred to it can. */
  lemma StyleIsChosenIff(s: ScalarStyle, a: Analysis, eventStyle: ScalarStyle, implicit: bool, c: Place)
    ensures s == ChooseScalarStyle(a, eventStyle, implicit, c)
            <==> Usable(s, a, eventStyle, implicit, c)
                 && forall p: ScalarStyle :: Usable(p, a, eventStyle, implicit, c) ==> Preference(s) <= Preference(p)
  {
    var style := ChooseScalarStyle(a, eventStyle, implicit, c);
    assert Usable(style, a, eventStyle, implicit, c);
  }

  /** Nothing in the event or the place speaks against writing the text as it is. */
  ghost predicate WrittenAsItIs(allowUnicode: bool, t: Text, eventStyle: ScalarStyle, implicit: bool, c: Place) {
    && implicit && eventStyle.PlainStyle? && !c.canonical
    && PlainAllowed(allowUnicode, t) && (if c.flow then !FlowIndicators(t) else !BlockIndicators(t))
  }

  /** A text the analysis allows as a literal has only breaks the scanner keeps, or holds NEL. */
  lemma AllowedIsLiteral(allowUnicode: bool, t: Text)
    requires LiteralAllowed(allowUnicode, t)
    ensures t != [] && t[|t| - 1] != SPACE && (LiteralCharacters(t) <==> NEL !in t) && (Foldable(t) <==> NEL !in t)
    ensures !allowUnicode ==> NEL !in t
  {
    forall i | 0 <= i < |t|
      ensures IsKept(t[i]) || t[i] == NEL || !EndsLine(t[i])
      ensures !allowUnicode ==> t[i] != NEL
      ensures t[i] != TAB
    {
      assert !IsSpecial(allowUnicode, t[i]);
    }
    forall i | 0 < i < |t| && IsEmittedBreak(t[i])
      ensures t[i - 1] != SPACE
    {
      assert !SpaceBreakAt(t, i);
    }
  }
}
