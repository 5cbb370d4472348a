/** Which styles a scalar may be written in (yaml/emitter.py, analyze_scalar). */
module ScalarAnalysis {
  import opened Chars

  datatype Analysis = Analysis(
    scalar: Text, empty: bool, multiline: bool,
    allowFlowPlain: bool, allowBlockPlain: bool,
    allowSingleQuoted: bool, allowDoubleQuoted: bool, allowBlock: bool)

  /** '#,[]{}&*!|>\'\"%@`' */
  predicate IsLeadingIndicator(c: Char) {
    || c == HASH || c == COMMA || c == 0x5B || c == 0x5D || c == 0x7B || c == 0x7D || c == 0x26 || c == 0x2A
    || c == 0x21 || c == BAR || c == GREATER || c == SQUOTE || c == DQUOTE || c == 0x25 || c == 0x40 || c == 0x60
  }

  /** Neither '\n' nor printable ASCII, nor (if allowed) printable Unicode. */
  predicate IsSpecial(allowUnicode: bool, c: Char) {
    && !(c == LF || 0x20 <= c <= 0x7E)
    && !(allowUnicode && c != BOM
         && (c == NEL || 0xA0 <= c <= 0xD7FF || 0xE000 <= c <= 0xFFFD || 0x10000 <= c < 0x10FFFF))
  }

  predicate Followed(t: Text, i: nat)
    requires i < |t|
  {
    i + 1 >= |t| || IsSeparation(t[i + 1])
  }

  predicate Preceded(t: Text, i: nat)
    requires i < |t|
  {
    i == 0 || IsSeparation(t[i - 1])
  }

  predicate StartsLikeDocument(t: Text) {
    |t| >= 3 && (t[0] == DASH || t[0] == DOT) && t[0] == t[1] == t[2]
  }

  /** The character at i is not acceptable in a plain scalar of the block context. */
  predicate BlockIndicatorAt(t: Text, i: nat)
    requires i < |t|
  {
    if i == 0 then
      IsLeadingIndicator(t[0]) || ((t[0] == QUESTION || t[0] == COLON || t[0] == DASH) && Followed(t, 0))
    else
      (t[i] == COLON && Followed(t, i)) || (t[i] == HASH && Preceded(t, i))
  }

  /** The character at i is not acceptable in a plain scalar of the flow context. */
  predicate FlowIndicatorAt(t: Text, i: nat)
    requires i < |t|
  {
    if i == 0 then
      IsLeadingIndicator(t[0]) || t[0] == QUESTION || t[0] == COLON || (t[0] == DASH && Followed(t, 0))
    else
      IsFlowIndicator(t[i]) || t[i] == COLON || (t[i] == HASH && Preceded(t, i))
  }

  ghost predicate HasBreak(t: Text) { exists i :: 0 <= i < |t| && IsEmittedBreak(t[i]) }

  ghost predicate HasSpecial(allowUnicode: bool, t: Text) { exists i :: 0 <= i < |t| && IsSpecial(allowUnicode, t[i]) }

  ghost predicate BlockIndicators(t: Text) {
    StartsLikeDocument(t) || exists i: nat :: i < |t| && BlockIndicatorAt(t, i)
  }

  ghost predicate FlowIndicators(t: Text) {
    StartsLikeDocument(t) || exists i: nat :: i < |t| && FlowIndicatorAt(t, i)
  }

  /** A space right after a line break. */
  predicate BreakSpaceAt(t: Text, i: nat) { 0 < i < |t| && IsEmittedBreak(t[i - 1]) && t[i] == SPACE }

  /** A space right before a line break. */
  predicate SpaceBreakAt(t: Text, i: nat) { 0 < i < |t| && t[i - 1] == SPACE && IsEmittedBreak(t[i]) }

  ghost predicate HasBreakSpace(t: Text) { exists i: nat :: BreakSpaceAt(t, i) }

  ghost predicate HasSpaceBreak(t: Text) { exists i: nat :: SpaceBreakAt(t, i) }

  predicate IsEdge(c: Char) { c == SPACE || IsEmittedBreak(c) }

  ghost predicate PlainAllowed(allowUnicode: bool, t: Text) {
    && t != [] && !IsEdge(t[0]) && !IsEdge(t[|t| - 1])
    && !HasSpecial(allowUnicode, t) && !HasBreak(t)
  }

  ghost predicate SingleQuotedAllowed(allowUnicode: bool, t: Text) {
    !HasBreakSpace(t) && !HasSpaceBreak(t) && !HasSpecial(allowUnicode, t)
  }

  ghost predicate LiteralAllowed(allowUnicode: bool, t: Text) {
    t != [] && t[|t| - 1] != SPACE && !HasSpaceBreak(t) && !HasSpecial(allowUnicode, t)
  }

  /** The only breaks are those the scanner keeps and the only blanks spaces, never next to each other. */
  ghost predicate SingleQuotable(t: Text) {
    && !HasBreakSpace(t) && !HasSpaceBreak(t)
    && forall i :: 0 <= i < |t| ==> IsKept(t[i]) || t[i] == SPACE || !IsSeparation(t[i])
  }

  lemma AllowedIsSingleQuotable(allowUnicode: bool, t: Text)
    requires SingleQuotedAllowed(allowUnicode, t)
    ensures SingleQuotable(t) <==> NEL !in t
    ensures !allowUnicode ==> NEL !in t
  {
    forall i | 0 <= i < |t|
      ensures IsKept(t[i]) || t[i] == SPACE || t[i] == NEL || !IsSeparation(t[i])
      ensures !allowUnicode ==> t[i] != NEL
    {
      assert !IsSpecial(allowUnicode, t[i]);
    }
  }

  /** What analyze_scalar finds, character by character. */
  ghost function AnalysisOf(t: Text, allowUnicode: bool): Analysis {
    Analysis(t, t == [], HasBreak(t),
             PlainAllowed(allowUnicode, t) && !FlowIndicators(t),
             t == [] || (PlainAllowed(allowUnicode, t) && !BlockIndicators(t)),
             SingleQuotedAllowed(allowUnicode, t), true, LiteralAllowed(allowUnicode, t))
  }

  /** The character at i as an indicator in the block and in the flow context. */
  method IndicatorsAt(t: Text, i: nat, precededByWhitespace: bool, followedByWhitespace: bool)
      returns (block: bool, flow: bool)
    requires i < |t| && precededByWhitespace == Preceded(t, i) && followedByWhitespace == Followed(t, i)
    ensures block == BlockIndicatorAt(t, i) && flow == FlowIndicatorAt(t, i)
  {
    hide IsLeadingIndicator, IsFlowIndicator, IsSeparation;
    var ch := t[i];
    block, flow := false, false;
    if i == 0 {
      if IsLeadingIndicator(ch) {
        flow, block := true, true;
      }
      if ch == QUESTION || ch == COLON {
        flow := true;
        if followedByWhitespace {
          block := true;
        }
      }
      if ch == DASH && followedByWhitespace {
        flow, block := true, true;
      }
    } else {
      if IsFlowIndicator(ch) {
        flow := true;
      }
      if ch == COLON {
        flow := true;
        if followedByWhitespace {
          block := true;
        }
      }
      if ch == HASH && precededByWhitespace {
        flow, block := true, true;
      }
    }
  }

  method AnalyzeScalar(scalar: Text, allowUnicode: bool) returns (a: Analysis)
    ensures a == AnalysisOf(scalar, allowUnicode)
    ensures a.scalar == scalar && a.empty == (scalar == []) && a.allowDoubleQuoted
    ensures a.multiline == HasBreak(scalar)
    ensures a.allowFlowPlain == (PlainAllowed(allowUnicode, scalar) && !FlowIndicators(scalar))
    ensures a.allowBlockPlain == (scalar == [] || (PlainAllowed(allowUnicode, scalar) && !BlockIndicators(scalar)))
    ensures a.allowSingleQuoted == SingleQuotedAllowed(allowUnicode, scalar)
    ensures a.allowBlock == LiteralAllowed(allowUnicode, scalar)
  {
    hide IsSeparation, StartsLikeDocument, BlockIndicatorAt, FlowIndicatorAt;
    if scalar == [] {
      return Analysis(scalar, true, false, false, true, true, true, false);
    }
    var blockIndicators, flowIndicators := false, false;
    var lineBreaks, specialCharacters := false, false;
    var leadingSpace, leadingBreak, trailingSpace, trailingBreak := false, false, false, false;
    var breakSpace, spaceBreak := false, false;
    if StartsLikeDocument(scalar) {
      blockIndicators, flowIndicators := true, true;
    }
    var precededByWhitespace := true;
    var followedByWhitespace := |scalar| == 1 || IsSeparation(scalar[1]);
    var previousSpace, previousBreak := false, false;
    var index := 0;
    while index < |scalar|
      invariant 0 <= index <= |scalar|
      invariant precededByWhitespace == (index == 0 || IsSeparation(scalar[index - 1]))
      invariant followedByWhitespace == (index + 1 >= |scalar| || IsSeparation(scalar[index + 1]))
      invariant previousSpace == (index > 0 && scalar[index - 1] == SPACE)
      invariant previousBreak == (index > 0 && IsEmittedBreak(scalar[index - 1]))
      invariant blockIndicators
                == (StartsLikeDocument(scalar) || exists i: nat :: i < index && BlockIndicatorAt(scalar, i))
      invariant flowIndicators
                == (StartsLikeDocument(scalar) || exists i: nat :: i < index && FlowIndicatorAt(scalar, i))
      invariant lineBreaks == exists i :: 0 <= i < index && IsEmittedBreak(scalar[i])
      invariant specialCharacters == exists i :: 0 <= i < index && IsSpecial(allowUnicode, scalar[i])
      invariant breakSpace == exists i: nat :: i < index && BreakSpaceAt(scalar, i)
      invariant spaceBreak == exists i: nat :: i < index && SpaceBreakAt(scalar, i)
      invariant leadingSpace == (index > 0 && scalar[0] == SPACE)
      invariant leadingBreak == (index > 0 && IsEmittedBreak(scalar[0]))
      invariant trailingSpace == (index == |scalar| && scalar[|scalar| - 1] == SPACE)
      invariant trailingBreak == (index == |scalar| && IsEmittedBreak(scalar[|scalar| - 1]))
    {
      var ch := scalar[index];
      ghost var bs, sb := breakSpace, spaceBreak;
      var block, flow := IndicatorsAt(scalar, index, precededByWhitespace, followedByWhitespace);
      blockIndicators, flowIndicators := blockIndicators || block, flowIndicators || flow;
      if IsEmittedBreak(ch) {
        lineBreaks := true;
      }
      if !(ch == LF || 0x20 <= ch <= 0x7E) {
        if (ch == NEL || 0xA0 <= ch <= 0xD7FF || 0xE000 <= ch <= 0xFFFD || 0x10000 <= ch < 0x10FFFF) && ch != BOM {
          if !allowUnicode {
            specialCharacters := true;
          }
        } else {
          specialCharacters := true;
        }
      }
      if ch == SPACE {
        if index == 0 { leadingSpace := true; }
        if index == |scalar| - 1 { trailingSpace := true; }
        if previousBreak { breakSpace := true; }
        previousSpace, previousBreak := true, false;
      } else if IsEmittedBreak(ch) {
        if index == 0 { leadingBreak := true; }
        if index == |scalar| - 1 { trailingBreak := true; }
        if previousSpace { spaceBreak := true; }
        previousSpace, previousBreak := false, true;
      } else {
        previousSpace, previousBreak := false, false;
      }
      assert breakSpace == (bs || BreakSpaceAt(scalar, index)) && spaceBreak == (sb || SpaceBreakAt(scalar, index));
      index := index + 1;
      precededByWhitespace := IsSeparation(ch);
      followedByWhitespace := index + 1 >= |scalar| || IsSeparation(scalar[index + 1]);
    }
    var allowFlowPlain, allowBlockPlain, allowSingleQuoted, allowBlock := true, true, true, true;
    if leadingSpace || leadingBreak || trailingSpace || trailingBreak {
      allowFlowPlain, allowBlockPlain := false, false;
    }
    if trailingSpace {
      allowBlock := false;
    }
    if breakSpace {
      allowFlowPlain, allowBlockPlain, allowSingleQuoted := false, false, false;
    }
    if spaceBreak || specialCharacters {
      allowFlowPlain, allowBlockPlain, allowSingleQuoted, allowBlock := false, false, false, false;
    }
    if lineBreaks {
      allowFlowPlain, allowBlockPlain := false, false;
    }
    if flowIndicators {
      allowFlowPlain := false;
    }
    if blockIndicators {
      allowBlockPlain := false;
    }
    return Analysis(scalar, false, lineBreaks, allowFlowPlain, allowBlockPlain, allowSingleQuoted, true, allowBlock);
  }
}
