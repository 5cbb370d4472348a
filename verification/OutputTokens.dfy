/** The emitter's output as a list of tokens with white space between them, and what the scanner starts at each. */
module OutputTokens {
  import opened Options
  import opened Chars
  import opened EmitterMachine
  import opened EmitterOutput
  import opened FlowScalars
  import opened PlainScalars
  import EmitterPlaces
  import R = ScalarReading

  /** The text of a token behind white space, and the token that is meant. */
  datatype Piece = Piece(gap: Text, text: Text, start: TokenStart)

  /** The text of a list of pieces. */
  function TextOf(l: seq<Piece>): Text {
    if l == [] then [] else TextOf(l[..|l| - 1]) + l[|l| - 1].gap + l[|l| - 1].text
  }

  predicate IsOpener(k: TokenStart) { k.FlowSequenceStart? || k.FlowMappingStart? }

  predicate IsCloser(k: TokenStart) { k.FlowSequenceEnd? || k.FlowMappingEnd? }

  predicate IsFlowScalar(k: TokenStart) { k.PlainScalar? || k.SingleQuoted? || k.DoubleQuoted? }

  predicate IsBlockScalar(k: TokenStart) { k.Literal? || k.Folded? }

  /** What a node that stands on one line ends with. */
  predicate EndsNode(k: TokenStart) { k.Alias? || IsFlowScalar(k) || IsCloser(k) }

  /** The brackets that are open. */
  function Level(l: seq<Piece>): int {
    if l == [] then 0
    else Level(l[..|l| - 1]) + if IsOpener(l[|l| - 1].start) then 1 else if IsCloser(l[|l| - 1].start) then -1 else 0
  }

  predicate IsBlankText(t: Text) { forall i :: 0 <= i < |t| ==> t[i] == SPACE || IsBreak(t[i]) }

  predicate AtLineStart(t: Text) { t == [] || IsBreak(t[|t| - 1]) }

  /** The text is what is written for the token. */
  ghost predicate Proper(p: Piece, flow: bool) {
    match p.start
    case Alias => |p.text| > 1 && p.text[0] == 0x2A && IsAnchor(p.text[1..])
    case Anchor => |p.text| > 1 && p.text[0] == 0x26 && IsAnchor(p.text[1..])
    case Tag => EmitterPlaces.IsTagText(p.text)
    case FlowSequenceStart => p.text == [0x5B]
    case FlowMappingStart => p.text == [0x7B]
    case FlowSequenceEnd => p.text == [0x5D]
    case FlowMappingEnd => p.text == [0x7D]
    case FlowEntry => p.text == [COMMA]
    case BlockEntry => p.text == [DASH] && !flow
    case Key => p.text == [QUESTION]
    case Value => p.text == [COLON]
    case DocumentStart => p.text == [DASH, DASH, DASH] && !flow
    case DocumentEnd => p.text == [DOT, DOT, DOT] && !flow
    case PlainScalar => R.Shows(R.PlainStyle, flow, p.text)
    case SingleQuoted => R.Shows(R.SingleStyle, flow, p.text)
    case DoubleQuoted => R.Shows(R.DoubleStyle, flow, p.text)
    case Literal => R.Shows(R.LiteralStyle, flow, p.text)
    case Folded => R.Shows(R.FoldedStyle, flow, p.text)
    case _ => false
  }

  /** The two may stand together without white space: behind an opening bracket and a block scalar, and in front of a
      comma, a closing bracket and the ':' of a simple key. */
  predicate MayTouch(a: TokenStart, b: TokenStart, flow: bool) {
    || IsOpener(a) || IsBlockScalar(a)
    || (EndsNode(a) && (b.Value? || (flow && (b.FlowEntry? || IsCloser(b)))))
  }

  /** The i-th piece stands where it may. */
  ghost predicate Placed(l: seq<Piece>, i: nat)
    requires i < |l|
  {
    && Proper(l[i], Level(l[..i]) > 0) && IsBlankText(l[i].gap)
    && (i > 0 && l[i].gap == [] ==> MayTouch(l[i - 1].start, l[i].start, Level(l[..i]) > 0))
    && (l[i].start.DocumentStart? || l[i].start.DocumentEnd? ==> AtLineStart(TextOf(l[..i]) + l[i].gap))
  }

  ghost predicate AllPlaced(l: seq<Piece>) { forall i :: 0 <= i < |l| ==> Placed(l, i) }

  // One more piece.

  lemma TextOfMore(l: seq<Piece>, p: Piece)
    ensures TextOf(l + [p]) == TextOf(l) + p.gap + p.text
    ensures Level(l + [p]) == Level(l) + (if IsOpener(p.start) then 1 else if IsCloser(p.start) then -1 else 0)
  {
    assert (l + [p])[..|l|] == l;
  }

  lemma PlacedMore(l: seq<Piece>, p: Piece)
    requires AllPlaced(l) && Proper(p, Level(l) > 0) && IsBlankText(p.gap)
    requires l != [] && p.gap == [] ==> MayTouch(l[|l| - 1].start, p.start, Level(l) > 0)
    requires p.start.DocumentStart? || p.start.DocumentEnd? ==> AtLineStart(TextOf(l) + p.gap)
    ensures AllPlaced(l + [p])
  {
    hide Proper, MayTouch;
    var m := l + [p];
    assert m[..|l|] == l;
    forall i | 0 <= i < |m| ensures Placed(m, i) {
      if i < |l| {
        assert m[..i] == l[..i] && Placed(l, i);
      }
    }
  }

  // The output behind a list of pieces.

  /** What was written is the pieces, and white space behind them; the flags of the output say what is behind the last
      piece. */
  ghost predicate Written(o: Out, l: seq<Piece>) {
    && AllPlaced(l) && TextOf(l) <= o.text && IsBlankText(o.text[|TextOf(l)|..])
    && (o.whitespace && o.text == TextOf(l) && l != [] ==>
          IsOpener(l[|l| - 1].start) || IsBlockScalar(l[|l| - 1].start))
    && (NewLine(o) ==> AtLineStart(o.text))
  }

  /** Where write_indent at the margin has nothing to write. */
  predicate NewLine(o: Out) { o.column == 0 && o.whitespace && o.indention }

  lemma NothingWritten()
    ensures Written(INITIAL.out, [])
  {
  }

  lemma BlankJoin(a: Text, b: Text)
    requires IsBlankText(a) && IsBlankText(b)
    ensures IsBlankText(a + b)
  {
  }

  lemma SpaceIsBlank()
    ensures IsBlankText([]) && IsBlankText([SPACE])
  {
  }

  lemma SpacesAreBlank(n: nat)
    ensures IsBlankText(Spaces(n))
  {
  }

  lemma LineBreakIsBlank(lb: Text)
    requires IsLineBreak(lb)
    ensures IsBlankText(lb) && lb != [] && IsBreak(lb[|lb| - 1])
  {
  }

  /** White space behind what was written. */
  lemma BlankWritten(o: Out, l: seq<Piece>, w: Text, p: Out)
    requires Written(o, l) && IsBlankText(w) && p.text == o.text + w
    requires w == [] ==> p.whitespace == o.whitespace
    requires NewLine(p) ==> AtLineStart(p.text)
    ensures Written(p, l)
  {
    hide AllPlaced, AtLineStart;
    var tail := o.text[|TextOf(l)|..];
    BlankJoin(tail, w);
    assert p.text[|TextOf(l)|..] == tail + w;
  }

  /** write_indent */
  lemma IndentWritten(o: Out, l: seq<Piece>, lb: Text, n: nat)
    requires Written(o, l) && IsLineBreak(lb)
    ensures var p := Indented(o, lb, n); Written(p, l) && p.indention && o.text <= p.text
    ensures n == 0 ==> NewLine(Indented(o, lb, n))
  {
    hide Written, AllPlaced;
    LineBreakIsBlank(lb);
    SpacesAreBlank(n);
    var q := if !o.indention || o.column > n || (o.column == n && !o.whitespace) then NextLine(o, lb) else o;
    if q != o {
      BlankWritten(o, l, lb, q);
    }
    ColumnWritten(o, l);
    ColumnWritten(q, l);
    var p := Indented(o, lb, n);
    if q.column < n {
      SpacesAreBlank(n - q.column);
      BlankWritten(q, l, Spaces(n - q.column), p);
    }
  }

  lemma ColumnWritten(o: Out, l: seq<Piece>)
    requires Written(o, l)
    ensures NewLine(o) ==> AtLineStart(o.text)
  {
  }

  /** The token may be written without a space in front. */
  predicate Fits(o: Out, l: seq<Piece>, start: TokenStart) {
    |TextOf(l)| < |o.text| || (l != [] && MayTouch(l[|l| - 1].start, start, Level(l) > 0))
  }

  /** One more piece, behind white space or touching the last one. */
  lemma PieceAdded(o: Out, l: seq<Piece>, space: Text, text: Text, start: TokenStart, q: Out) returns (p: Piece)
    requires Written(o, l) && IsBlankText(space) && Proper(Piece([], text, start), Level(l) > 0)
    requires space == [] ==> o.whitespace || Fits(o, l, start)
    requires start.DocumentStart? || start.DocumentEnd? ==> space == [] && NewLine(o)
    requires q.text == o.text + space + text && (q.whitespace ==> IsOpener(start) || IsBlockScalar(start))
    requires NewLine(q) ==> AtLineStart(q.text)
    ensures Written(q, l + [p]) && p.text == text && p.start == start
  {
    hide AllPlaced, MayTouch, Proper, TextOf, Level, IsBlankText, AtLineStart;
    SpaceIsBlank();
    var tail := o.text[|TextOf(l)|..];
    BlankJoin(tail, space);
    p := Piece(tail + space, text, start);
    ProperAnyGap(Piece([], text, start), p.gap, Level(l) > 0);
    TextOfMore(l, p);
    assert o.text == TextOf(l) + tail;
    TextAdded(TextOf(l), tail, space, text);
    if p.gap == [] && l != [] {
      TouchesFirst(l[|l| - 1].start, start, Level(l) > 0);
    }
    PlacedMore(l, p);
  }

  lemma TextAdded(before: Text, tail: Text, space: Text, text: Text)
    ensures before + (tail + space) + text == before + tail + space + text
    ensures (before + tail + space + text)[|before + tail + space + text|..] == []
    ensures space == [] ==> before + (tail + space) == before + tail
  {
  }

  /** write_indicator: one more piece. */
  lemma IndicatorWritten(o: Out, l: seq<Piece>, text: Text, need: bool, whitespace: bool, indention: bool,
                         start: TokenStart) returns (p: Piece)
    requires Written(o, l) && text != [] && (whitespace ==> IsOpener(start))
    requires need || Fits(o, l, start)
    requires Proper(Piece([], text, start), Level(l) > 0)
    requires start.DocumentStart? || start.DocumentEnd? ==> NewLine(o)
    ensures Written(Indicator(o, text, need, whitespace, indention), l + [p]) && p.text == text && p.start == start
  {
    hide Written, Fits, Proper, Level, IsBlankText;
    var space := if o.whitespace || !need then [] else [SPACE];
    SpaceIsBlank();
    assert o.text + (space + text) == o.text + space + text;
    assert [] + text == text;
    p := PieceAdded(o, l, space, text, start, Indicator(o, text, need, whitespace, indention));
  }

  lemma ProperAnyGap(p: Piece, gap: Text, flow: bool)
    requires Proper(p, flow)
    ensures Proper(Piece(gap, p.text, p.start), flow)
  {
  }

  lemma TouchesFirst(a: TokenStart, b: TokenStart, flow: bool)
    ensures IsOpener(a) || IsBlockScalar(a) ==> MayTouch(a, b, flow)
  {
  }

  /** process_scalar: one more piece. */
  lemma ScalarWritten(o: Out, l: seq<Piece>, w: Text, q: Out, style: R.ScalarStyle) returns (p: Piece)
    requires Written(o, l) && R.Shows(style, Level(l) > 0, w)
    requires q.text == o.text + (if o.whitespace then [] else [SPACE]) + w
    requires q.whitespace ==> IsBlockScalar(R.StartOf(style))
    ensures Written(q, l + [p]) && p.text == w && p.start == R.StartOf(style)
  {
    hide Written, MayTouch, Proper, Level, IsBlankText;
    var space := if o.whitespace then [] else [SPACE];
    SpaceIsBlank();
    ProperScalar(Piece([], w, R.StartOf(style)), style, Level(l) > 0);
    assert q.text != [] && q.text[|q.text| - 1] == w[|w| - 1];
    p := PieceAdded(o, l, space, w, R.StartOf(style), q);
  }

  lemma ProperScalar(p: Piece, style: R.ScalarStyle, flow: bool)
    requires p.start == R.StartOf(style) && R.Shows(style, flow, p.text)
    ensures Proper(p, flow)
  {
  }

  // What the scanner finds.

  /** What scan_anchor reads behind '&' and '*': a name, in front of something that may follow it. */
  function ScanAnchor(s: Text): Option<Text> {
    var name := AnchorRun(s);
    if name == [] || |name| == |s| || !MayFollowName(s[|name|]) then None else Some(name)
  }

  function AnchorRun(s: Text): (r: Text)
    ensures |r| <= |s|
  {
    if s == [] || !(0x30 <= s[0] <= 0x39 || 0x41 <= s[0] <= 0x5A || 0x61 <= s[0] <= 0x7A || s[0] == DASH
                    || s[0] == 0x5F)
      then []
    else [s[0]] + AnchorRun(s[1..])
  }

  /** '\0 \t\r\n\x85\u2028\u2029?:,]}%@`' */
  predicate MayFollowName(c: Char) {
    || IsSeparation(c) || c == QUESTION || c == COLON || c == COMMA || c == 0x5D || c == 0x7D || c == 0x25 || c == 0x40
    || c == 0x60
  }

  lemma {:induction false} NameScanned(name: Text, k: Text)
    requires name != [] && IsAnchor(name) && k != [] && MayFollowName(k[0]) && !IsAnchorCharacter(k[0])
    ensures ScanAnchor(name + k) == Some(name)
  {
    NameRun(name, k);
  }

  lemma {:induction false} NameRun(name: Text, k: Text)
    requires (forall i :: 0 <= i < |name| ==> IsAnchorCharacter(name[i])) && k != [] && !IsAnchorCharacter(k[0])
    ensures AnchorRun(name + k) == name && (name + k)[|name|] == k[0]
  {
    if name == [] {
      assert name + k == k;
    } else {
      NameRun(name[1..], k);
      assert (name + k)[1..] == name[1..] + k;
    }
  }

  /** What stands behind the i-th piece, up to the end of the text. */
  function Behind(l: seq<Piece>, i: nat, tail: Text): Text
    requires i < |l|
    decreases |l| - i
  {
    if i + 1 == |l| then tail + [NUL] else l[i + 1].gap + l[i + 1].text + Behind(l, i + 1, tail)
  }

  /** What ends a token: white space, or what may touch it. */
  predicate Ending(k: TokenStart, flow: bool, s: Text) {
    && s != []
    && (IsSeparation(s[0])
        || (EndsNode(k) && ((s[0] == COLON && |s| > 1 && IsSeparation(s[1]))
                            || ((flow || IsCloser(k)) && (s[0] == COMMA || s[0] == 0x5D || s[0] == 0x7D)))))
  }

  lemma {:induction false} PieceEnds(l: seq<Piece>, i: nat, tail: Text)
    requires AllPlaced(l) && i < |l| && IsBlankText(tail)
    ensures var k := Behind(l, i, tail);
            && k != []
            && (IsOpener(l[i].start) || IsBlockScalar(l[i].start) || Ending(l[i].start, Level(l[..i]) > 0, k))
    decreases |l| - i
  {
    hide Proper, Level, Ending, MayTouch;
    if i + 1 < |l| {
      assert Placed(l, i + 1);
      PieceEnds(l, i + 1, tail);
      if l[i + 1].gap != [] {
        BlankEnds(l[i].start, Level(l[..i]) > 0, l[i + 1].gap, l[i + 1].text, Behind(l, i + 1, tail));
      } else {
        TouchingEnds(l, i, tail);
      }
    } else {
      LastEnds(l[i].start, Level(l[..i]) > 0, tail);
    }
  }

  lemma BlankEnds(k: TokenStart, flow: bool, gap: Text, text: Text, rest: Text)
    requires gap != [] && IsBlankText(gap)
    ensures Ending(k, flow, gap + text + rest)
  {
    assert (gap + text + rest)[0] == gap[0];
  }

  lemma LastEnds(k: TokenStart, flow: bool, tail: Text)
    requires IsBlankText(tail)
    ensures Ending(k, flow, tail + [NUL])
  {
    assert tail != [] ==> (tail + [NUL])[0] == tail[0];
  }

  /** A piece that touches the one in front of it ends it. */
  lemma TouchingEnds(l: seq<Piece>, i: nat, tail: Text)
    requires AllPlaced(l) && i + 1 < |l| && l[i + 1].gap == [] && Behind(l, i + 1, tail) != []
    requires IsOpener(l[i + 1].start) || IsBlockScalar(l[i + 1].start)
             || Ending(l[i + 1].start, Level(l[..i + 1]) > 0, Behind(l, i + 1, tail))
    ensures var k := Behind(l, i, tail);
            && k != []
            && (IsOpener(l[i].start) || IsBlockScalar(l[i].start) || Ending(l[i].start, Level(l[..i]) > 0, k))
  {
    hide Proper, Level;
    assert Placed(l, i + 1);
    TextOfTouching(l, i);
    LevelNext(l, i);
    var next, rest := l[i + 1], Behind(l, i + 1, tail);
    assert [] + next.text + rest == next.text + rest;
  }

  lemma LevelNext(l: seq<Piece>, i: nat)
    requires i < |l|
    ensures Level(l[..i + 1])
            == Level(l[..i]) + (if IsOpener(l[i].start) then 1 else if IsCloser(l[i].start) then -1 else 0)
  {
    assert l[..i + 1][..i] == l[..i];
  }

  lemma TextOfTouching(l: seq<Piece>, i: nat)
    requires AllPlaced(l) && i + 1 < |l|
    ensures l[i + 1].start.Value? ==> l[i + 1].text == [COLON]
    ensures l[i + 1].start.FlowEntry? ==> l[i + 1].text == [COMMA]
    ensures IsCloser(l[i + 1].start) ==> l[i + 1].text == [0x5D] || l[i + 1].text == [0x7D]
  {
    assert Placed(l, i + 1);
  }

  /** Whatever the column is, at the start of a line or not, the scanner starts the token. */
  ghost predicate StartsToken(flow: bool, lineStart: bool, s: Text, start: TokenStart)
    requires s != [] && (s[0] == NUL || |s| > 1)
  {
    forall column: nat :: (column == 0 <==> lineStart) ==> FirstToken(flow, column, s) == start
  }

  /** At the i-th piece the scanner starts the token that is meant, and reads the name of an anchor or alias. */
  ghost predicate ScannedAt(l: seq<Piece>, i: nat, tail: Text)
    requires i < |l|
  {
    var s := l[i].text + Behind(l, i, tail);
    && s != [] && (s[0] == NUL || |s| > 1)
    && StartsToken(Level(l[..i]) > 0, AtLineStart(TextOf(l[..i]) + l[i].gap), s, l[i].start)
    && (l[i].start.Alias? || l[i].start.Anchor? ==> l[i].text != [] && ScanAnchor(s[1..]) == Some(l[i].text[1..]))
  }

  lemma PieceScanned(l: seq<Piece>, i: nat, tail: Text)
    requires AllPlaced(l) && i < |l| && IsBlankText(tail)
    ensures ScannedAt(l, i, tail)
  {
    hide Behind, Level, TextOf, AtLineStart;
    PieceEnds(l, i, tail);
    var k, flow, p := Behind(l, i, tail), Level(l[..i]) > 0, l[i];
    assert Placed(l, i);
    hide AllPlaced;
    if p.start.Alias? || p.start.Anchor? {
      NameScanned(p.text[1..], k);
      assert (p.text + k)[1..] == p.text[1..] + k;
    }
    forall column: nat | column == 0 <==> AtLineStart(TextOf(l[..i]) + p.gap)
      ensures FirstToken(flow, column, p.text + k) == p.start
    {
      if IsFlowScalar(p.start) || IsBlockScalar(p.start) {
        ScalarStarts(p, flow, k, column);
      } else {
        IndicatorStarts(p, flow, k, column);
      }
    }
  }

  lemma ScalarStarts(p: Piece, flow: bool, k: Text, column: nat)
    requires Proper(p, flow) && (IsFlowScalar(p.start) || IsBlockScalar(p.start)) && k != []
    requires IsBlockScalar(p.start) || Ending(p.start, flow, k)
    ensures |p.text + k| > 1 && FirstToken(flow, column, p.text + k) == p.start
  {
    hide FirstToken;
    if IsBlockScalar(p.start) {
      BlockStarts(p, flow, k, column);
    } else {
      assert StopsRun(flow, k);
    }
  }

  lemma BlockStarts(p: Piece, flow: bool, k: Text, column: nat)
    requires Proper(p, flow) && IsBlockScalar(p.start) && k != []
    ensures |p.text + k| > 1 && FirstToken(flow, column, p.text + k) == p.start
  {
    assert (p.text + k)[0] == p.text[0];
  }

  lemma IndicatorStarts(p: Piece, flow: bool, k: Text, column: nat)
    requires Proper(p, flow) && !IsFlowScalar(p.start) && !IsBlockScalar(p.start) && k != []
    requires IsOpener(p.start) || Ending(p.start, flow, k)
    requires p.start.DocumentStart? || p.start.DocumentEnd? ==> column == 0
    ensures |p.text + k| > 1 && FirstToken(flow, column, p.text + k) == p.start
  {
    hide R.Shows, IsAnchor;
    var s := p.text + k;
    assert s[0] == p.text[0] && (|p.text| == 1 ==> s[1] == k[0]);
    if p.start.DocumentStart? || p.start.DocumentEnd? {
      assert s[1] == p.text[1] && s[2] == p.text[2] && s[3] == k[0];
    }
  }
}
