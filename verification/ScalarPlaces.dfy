/** Behind every scalar, in every run of the emitter, the scanner finds what ends it. */
module ScalarPlaces {
  import opened Options
  import opened Chars
  import opened PlainReading
  import opened BlockScalars
  import opened BlockReading
  import opened FoldedReading
  import opened EmitterMachine
  import opened EmitterOutput
  import opened EmitterPlaces
  import opened ScalarAnalysis
  import EmitterStructure
  import S = ScalarReading
  import E = Events

  type Event = E.Event

  // What the scanner needs behind a scalar.

  function Outer(m: Machine): int { if m.indent.Some? then m.indent.value else -1 }

  predicate IsInline(style: S.ScalarStyle) { style.PlainStyle? || style.SingleStyle? || style.DoubleStyle? }

  lemma FlowFollows(c: Config, m: Machine, events: seq<Event>, end: Machine, style: S.ScalarStyle, indent: int, n: nat)
    requires ConfigOk(c) && Shape(m) && Ends(c, m, events, end) && Inline(m.out) && IsInline(style) && indent >= -1
    requires m.state.ExpectFlowSequenceItem? || m.state.ExpectFlowMappingKey? || m.state.ExpectFlowMappingSimpleValue?
             || m.state.ExpectFlowMappingValue?
    ensures Grown(m, end) && S.Follows(style, true, indent, n, RestBehind(m, end))
  {
    hide ConfigOk, Shape, Ends, Handle, EndsPlain;
    EndsStep(c, m, events, end);
    if m.state.ExpectFlowMappingSimpleValue? {
      SimpleValueFollows(c, m, events, end);
      EndsPlainBehind(true, indent + 1, RestBehind(m, end));
    } else if m.state.ExpectFlowMappingValue? {
      ComplexValueFollows(c, m, events, end);
      ConfigParts(c);
      ColonEnds(c, m, RestBehind(m, end), indent + 1);
    } else {
      var x := FlowItemBegins(c, m, events[0], After(events), Handle(c, m, events[0], After(events)).value);
      assert m.out.text + [x] <= end.out.text;
      PrefixBehind(m.out.text, [x], end.out.text);
      assert RestBehind(m, end)[0] == x;
      EndsPlainBehind(true, indent + 1, RestBehind(m, end));
    }
  }

  lemma ColonEnds(c: Config, m: Machine, k: Text, indent: nat)
    requires IsLineBreak(c.bestLineBreak)
    requires ColonAt(k, BeforeColon(c, m))
    ensures EndsPlain(true, indent, k) && k[0] != SQUOTE
  {
    if c.canonical || m.out.column > c.bestWidth {
      ColonOnLine(c.bestLineBreak, IndentOf(m), k, indent);
    } else {
      ColonAfterSpace(k, indent);
    }
  }

  lemma ColonOnLine(lb: Text, j: nat, k: Text, indent: nat)
    requires IsLineBreak(lb) && ColonAt(k, lb + Spaces(j))
    ensures EndsPlain(true, indent, k) && k[0] != SQUOTE
  {
    hide EndsPlain, IsSeparation;
    var pre := lb + Spaces(j);
    var u := k[|pre|..];
    assert k[..|pre|] + u == k && k[0] == pre[0];
    assert lb + Spaces(j) + u == lb + (Spaces(j) + u);
    ColonStops(u);
    assert EndingLine(true, indent, j, u);
    EndsPlainBehind(true, indent, k);
  }

  lemma ColonAfterSpace(k: Text, indent: nat)
    requires ColonAt(k, [SPACE])
    ensures EndsPlain(true, indent, k) && k[0] != SQUOTE
  {
    hide EndsPlain, IsSeparation;
    var u := k[1..];
    assert k[..1][0] == k[0];
    assert k == Spaces(1) + u;
    ColonStops(u);
    EndsPlainBehind(true, indent, k);
  }

  lemma ColonStops(u: Text)
    requires |u| > 1 && u[0] == COLON && IsSeparation(u[1])
    ensures Stopper(true, u)
  {
  }

  lemma SimpleKeyFollows(c: Config, m: Machine, events: seq<Event>, end: Machine, style: S.ScalarStyle, indent: int,
                         n: nat)
    requires ConfigOk(c) && Shape(m) && Ends(c, m, events, end) && Inline(m.out) && IsInline(style) && indent >= -1
    requires m.state.ExpectBlockMappingSimpleValue?
    ensures Grown(m, end) && S.Follows(style, false, indent, n, RestBehind(m, end))
  {
    hide ConfigOk, Shape, Ends, EndsPlain;
    SimpleValueFollows(c, m, events, end);
    EndsPlainBehind(false, indent + 1, RestBehind(m, end));
  }

  lemma LineFollows(c: Config, m: Machine, events: seq<Event>, end: Machine, style: S.ScalarStyle)
    requires ConfigOk(c) && Shape(m) && Ends(c, m, events, end) && StartsNewLine(m.state)
    requires if IsInline(style) then Inline(m.out) else OnNewLine(m.out)
    ensures Grown(m, end) && S.Follows(style, false, Outer(m), Max(Outer(m), 0) + c.bestIndent, RestBehind(m, end))
  {
    hide Shape, Ends, EndsPlain, FollowsBlock, SomeEndLine, ScalarsOk, TagsOk;
    LineNext(c, m, events, end);
    var k := RestBehind(m, end);
    if IsInline(style) {
      EndLineEndsPlain(c.bestLineBreak, k, m.indent);
    } else {
      assert k[0..] == k;
      EndLineFollowsBlock(k, m.indent, Max(Outer(m), 0) + c.bestIndent);
    }
  }

  lemma EndLineEndsPlain(lb: Text, k: Text, indent: Option<nat>)
    requires IsLineBreak(lb) && lb <= k && SomeEndLine(k[|lb|..], indent)
    ensures k != [] && k[0] != SQUOTE && EndsPlain(false, if indent.Some? then indent.value + 1 else 0, k)
  {
    hide EndsPlain;
    var rest := k[|lb|..];
    var j: nat :| EndLine(rest, indent, j);
    var u := rest[j..];
    var bound := if indent.Some? then indent.value + 1 else 0;
    assert u[0] == rest[j] && (j == 0 ==> u == rest);
    assert EndingLine(false, bound, j, u);
    assert k == lb + (Spaces(j) + u);
    EndsPlainBehind(false, bound, k);
  }

  lemma EndLineFollowsBlock(k: Text, indent: Option<nat>, n: nat)
    requires SomeEndLine(k, indent) && n > 0 && (indent.Some? ==> indent.value < n)
    ensures FollowsBlock(k, n)
  {
    var j: nat :| EndLine(k, indent, j);
    var u := k[j..];
    assert k == Spaces(j) + u;
    SpacesSkipped(Spaces(j), u);
  }

  // Every scalar of every run.

  /** q is the machine behind a scalar that was written at the output o, as a simple key or not. */
  ghost predicate WrittenAt(c: Config, e: Event, o: Out, simpleKey: bool, q: Machine)
    requires e.Scalar?
  {
    exists context: Context ::
      && context.simpleKey == simpleKey
      && q.out == c.scalar(o, e, Deeper(q.indent, c.bestIndent, true, false), context, q.flowLevel > 0)
  }

  /** Whatever the style is that was chosen: what is behind the scalar may stand there, for a scanner at the
      surroundings' indentation, and for any in a flow collection and behind a simple key. */
  ghost predicate Followed(c: Config, simpleKey: bool, q: Machine, k: Text) {
    var flow, n := q.flowLevel > 0, Max(Outer(q), 0) + c.bestIndent;
    && (Inline(q.out) ==> InlineFollowed(flow, simpleKey, Outer(q), n, k))
    && (!Inline(q.out) ==> !flow && !simpleKey && BlockFollowed(Outer(q), n, k))
  }

  ghost predicate InlineFollowed(flow: bool, simpleKey: bool, outer: int, n: nat, k: Text) {
    forall style: S.ScalarStyle, indent: int ::
      IsInline(style) && indent >= -1 && (flow || simpleKey || indent == outer) ==> S.Follows(style, flow, indent, n, k)
  }

  ghost predicate BlockFollowed(outer: int, n: nat, k: Text)
    requires outer >= -1
  {
    forall style: S.ScalarStyle :: !IsInline(style) ==> S.Follows(style, false, outer, n, k)
  }

  /** The state behind a scalar, and that the scalar was written, behind `front`, as what the state says. */
  ghost predicate ScalarBehind(c: Config, e: Event, front: Text, q: Machine)
    requires e.Scalar?
  {
    && (exists o: Out :: front <= o.text && WrittenAt(c, e, o, IsSimpleValue(q.state), q))
    && (q.state.ExpectFlowSequenceItem? || q.state.ExpectFlowMappingKey? || q.state.ExpectFlowMappingValue?
        || IsSimpleValue(q.state) || StartsNewLine(q.state))
  }

  lemma ScalarNode(c: Config, m: Machine, n: Machine, s: State, e: Event, next: Option<Event>, context: Context)
    requires e.Scalar? && context.simpleKey == IsSimpleValue(s) && Grown(m, n)
    requires s.ExpectFlowSequenceItem? || s.ExpectFlowMappingKey? || s.ExpectFlowMappingValue? || IsSimpleValue(s)
             || StartsNewLine(s)
    ensures var r := Node(c, Pushed(n, s), e, next, context); r.Some? ==> ScalarBehind(c, e, m.out.text, r.value)
  {
    hide Indicator, IsAnchor, OmitsTag, Tagged;
    var p := Pushed(n, s).(context := context);
    var t := Tagged(c, p, e);
    TaggedOnly(c, p, e);
    if t.Some? {
      TaggedGrows(c, p, e);
      GrownTwice(m, p, t.value);
      var r := ScalarWritten(c, t.value, e);
      assert r.Some? && r.value.state == s;
      var deeper := Deeper(r.value.indent, c.bestIndent, true, false);
      assert r.value.out == c.scalar(t.value.out, e, deeper, context, r.value.flowLevel > 0);
      assert WrittenAt(c, e, t.value.out, IsSimpleValue(s), r.value);
    }
  }

  lemma ScalarInFlow(c: Config, m: Machine, e: Event, next: Option<Event>, first: bool)
    requires e.Scalar?
    ensures var r := FlowSequenceItem(c, m, e, next, first); r.Some? ==> ScalarBehind(c, e, m.out.text, r.value)
    ensures var r := FlowMappingKey(c, m, e, next, first); r.Some? ==> ScalarBehind(c, e, m.out.text, r.value)
    ensures var r := FlowMappingValue(c, m, e, next, first); r.Some? ==> ScalarBehind(c, e, m.out.text, r.value)
  {
    hide Node, Indicator, Indented, IsSimpleKey, Preparable, ScalarBehind;
    var w := Wraps(c, if first then m else Writes(m, [COMMA], false, false, false));
    WrappedGrows(c, m, first);
    OutputGrows(c, w, [QUESTION], true, false, false);
    GrownTwice(m, w, Writes(w, [QUESTION], true, false, false));
    OutputGrows(c, m, [COLON], false, false, false);
    OutputGrows(c, Wraps(c, m), [COLON], true, false, false);
    ScalarNode(c, m, w, ExpectFlowSequenceItem, e, next, ITEM);
    ScalarNode(c, m, w, ExpectFlowMappingSimpleValue, e, next, SIMPLE_KEY);
    ScalarNode(c, m, Writes(w, [QUESTION], true, false, false), ExpectFlowMappingValue, e, next, VALUE);
    var v := if first then Writes(m, [COLON], false, false, false)
             else Writes(Wraps(c, m), [COLON], true, false, false);
    ScalarNode(c, m, v, ExpectFlowMappingKey, e, next, VALUE);
  }

  lemma ScalarInBlock(c: Config, m: Machine, e: Event, next: Option<Event>, first: bool)
    requires e.Scalar?
    ensures var r := BlockSequenceItem(c, m, e, next, first); r.Some? ==> ScalarBehind(c, e, m.out.text, r.value)
    ensures var r := BlockMappingKey(c, m, e, next, first); r.Some? ==> ScalarBehind(c, e, m.out.text, r.value)
    ensures var r := BlockMappingValue(c, m, e, next, first); r.Some? ==> ScalarBehind(c, e, m.out.text, r.value)
  {
    hide Node, Indicator, Indented, IsSimpleKey, Preparable, ScalarBehind;
    var n := WritesIndent(c, m);
    OutputGrows(c, m, [COLON], false, false, false);
    OutputGrows(c, n, [DASH], true, false, true);
    OutputGrows(c, n, [QUESTION], true, false, true);
    OutputGrows(c, n, [COLON], true, false, true);
    ScalarNode(c, m, Writes(n, [DASH], true, false, true), ExpectBlockSequenceItem, e, next, ITEM);
    ScalarNode(c, m, n, ExpectBlockMappingSimpleValue, e, next, SIMPLE_KEY);
    ScalarNode(c, m, Writes(n, [QUESTION], true, false, true), ExpectBlockMappingValue, e, next, VALUE);
    var v := if first then Writes(m, [COLON], false, false, false)
             else Writes(n, [COLON], true, false, true);
    ScalarNode(c, m, v, ExpectBlockMappingKey, e, next, VALUE);
  }

  lemma ScalarHandled(c: Config, m: Machine, e: Event, next: Option<Event>, q: Machine)
    requires e.Scalar? && Handle(c, m, e, next) == Some(q)
    ensures ScalarBehind(c, e, m.out.text, q)
  {
    hide Document, DocumentEnding, Node, FlowSequenceItem, FlowMappingKey, FlowMappingValue, BlockSequenceItem,
         BlockMappingKey, BlockMappingValue, ScalarBehind;
    ScalarInFlow(c, m, e, next, m.state.ExpectFirstFlowSequenceItem? || m.state.ExpectFirstFlowMappingKey?
                                || m.state.ExpectFlowMappingSimpleValue?);
    ScalarInBlock(c, m, e, next, m.state.ExpectFirstBlockSequenceItem? || m.state.ExpectFirstBlockMappingKey?
                                 || m.state.ExpectBlockMappingSimpleValue?);
    ScalarNode(c, m, m, ExpectDocumentEnd, e, next, Context(true, false, false, false));
    NoDocumentScalar(c, m, e, next);
  }

  lemma NoDocumentScalar(c: Config, m: Machine, e: Event, next: Option<Event>)
    requires e.Scalar?
    ensures Document(c, m, e, next, true) == Document(c, m, e, next, false) == DocumentEnding(c, m, e) == None
  {
  }

  /** What the writer of scalars promises of the machine behind one. */
  lemma WrittenFlags(c: Config, e: Event, o: Out, simpleKey: bool, q: Machine)
    requires ConfigOk(c) && e.Scalar? && WrittenAt(c, e, o, simpleKey, q)
    ensures Unwritten(o, q.out) || Inline(q.out) || (OnNewLine(q.out) && q.flowLevel <= 0 && !simpleKey)
  {
    var context: Context :| context.simpleKey == simpleKey
      && q.out == c.scalar(o, e, Deeper(q.indent, c.bestIndent, true, false), context, q.flowLevel > 0);
    assert ScalarOk(o, e.value, simpleKey, q.flowLevel > 0, q.out);
  }

  /** Behind a scalar that was written, the rest of the output is such that the scanner ends the scalar there. */
  lemma ScalarIsFollowed(c: Config, q: Machine, events: seq<Event>, end: Machine)
    requires ConfigOk(c) && Shape(q) && Ends(c, q, events, end)
    requires Inline(q.out) || (OnNewLine(q.out) && q.flowLevel <= 0 && !IsSimpleValue(q.state))
    requires q.state.ExpectFlowSequenceItem? || q.state.ExpectFlowMappingKey? || q.state.ExpectFlowMappingValue?
             || IsSimpleValue(q.state) || StartsNewLine(q.state)
    ensures Grown(q, end) && Followed(c, IsSimpleValue(q.state), q, RestBehind(q, end))
  {
    hide ConfigOk, Shape, Ends, S.Follows;
    EndsStep(c, q, events, end);
    FlowLevels(q);
    var k, n, flow := RestBehind(q, end), Max(Outer(q), 0) + c.bestIndent, q.flowLevel > 0;
    if Inline(q.out) {
      forall style: S.ScalarStyle, indent: int
        | IsInline(style) && indent >= -1 && (flow || IsSimpleValue(q.state) || indent == Outer(q))
        ensures S.Follows(style, flow, indent, n, k)
      {
        if IsFlowState(q.state) {
          FlowFollows(c, q, events, end, style, indent, n);
        } else if IsSimpleValue(q.state) {
          SimpleKeyFollows(c, q, events, end, style, indent, n);
        } else {
          LineFollows(c, q, events, end, style);
        }
      }
    } else {
      forall style: S.ScalarStyle | !IsInline(style) ensures S.Follows(style, false, Outer(q), n, k) {
        LineFollows(c, q, events, end, style);
      }
    }
  }

  /** The machines in front of the i-th event of a run and behind it. */
  function MachinesAround(c: Config, events: seq<Event>, i: nat): Option<(Machine, Machine)>
    requires i < |events|
  {
    match Handled(c, INITIAL, events[..i], Some(events[i]))
    case None => None
    case Some(m) =>
      match Handle(c, m, events[i], After(events[i..]))
      case None => None
      case Some(q) => Some((m, q))
  }

  /** The scalar was written behind m at o: as nothing, or with what may stand there behind it. */
  ghost predicate FollowedFrom(c: Config, e: Event, m: Machine, o: Out, q: Machine, end: Machine)
    requires e.Scalar? && Grown(q, end)
  {
    && m.out.text <= o.text && WrittenAt(c, e, o, IsSimpleValue(q.state), q)
    && (Unwritten(o, q.out) || Followed(c, IsSimpleValue(q.state), q, RestBehind(q, end)))
  }

  /** In every run to the end of the stream, every scalar is written as nothing, or what is behind it may stand
      there. */
  lemma ScalarsAreFollowed(c: Config, events: seq<Event>, end: Machine, i: nat)
    requires ConfigOk(c) && Offline(c, events) == Some(end) && end.state.ExpectNothing?
    requires i < |events| && events[i].Scalar?
    ensures var r := MachinesAround(c, events, i);
            r.Some? && Grown(r.value.1, end)
            && exists o: Out :: FollowedFrom(c, events[i], r.value.0, o, r.value.1, end)
  {
    hide ConfigOk, Shape, Handle, Followed, WrittenAt;
    assert events[..i] + events[i..] == events && events[i..][0] == events[i];
    HandledJoin(c, INITIAL, events[..i], events[i..], None);
    var m := Handled(c, INITIAL, events[..i], Some(events[i])).value;
    ShapeInitially();
    ShapeAlways(c, INITIAL, events[..i], Some(events[i]));
    HandledStep(c, m, events[i..], None);
    var q := Handle(c, m, events[i], After(events[i..])).value;
    ShapeKept(c, m, events[i], After(events[i..]));
    ScalarHandled(c, m, events[i], After(events[i..]), q);
    var o: Out :| m.out.text <= o.text && WrittenAt(c, events[i], o, IsSimpleValue(q.state), q);
    WrittenFlags(c, events[i], o, IsSimpleValue(q.state), q);
    assert Ends(c, q, events[i..][1..], end);
    RunGrows(c, q, events[i..][1..], None);
    if !Unwritten(o, q.out) {
      ScalarIsFollowed(c, q, events[i..][1..], end);
    }
    assert FollowedFrom(c, events[i], m, o, q, end);
  }

  predicate IsSimpleValue(s: State) { s.ExpectFlowMappingSimpleValue? || s.ExpectBlockMappingSimpleValue? }

  // The styles.

  /** What choose_scalar_style decides by beside the text and the place: an option, and the styles that the events ask
      for. */
  datatype Choice = Choice(allowUnicode: bool, eventStyle: Event -> S.ScalarStyle)

  /** The style that is chosen for the scalar. */
  ghost function StyleOf(c: Config, x: Choice, e: Event, simpleKey: bool, flow: bool): S.ScalarStyle
    requires e.Scalar?
  {
    S.ChooseScalarStyle(AnalysisOf(e.value, x.allowUnicode), x.eventStyle(e), e.plainImplicit,
                        S.Place(flow, simpleKey, false, c.canonical))
  }

  /** The tests of the state machine on scalars are those of the analysis and of the style that is chosen. */
  ghost predicate ChoiceOk(c: Config, x: Choice) {
    && (forall t: Text :: c.multiline(t) <==> HasBreak(t))
    && (forall e: Event, context: Context, flow: bool :: e.Scalar? ==>
          (c.plain(e, context, flow) <==> StyleOf(c, x, e, context.simpleKey, flow).PlainStyle?))
  }

  /** process_tag leaves the tag out exactly where the plainness of the style implies it. */
  lemma TagByStyle(c: Config, x: Choice, m: Machine, e: Event)
    requires ChoiceOk(c, x) && e.Scalar?
    ensures var style := StyleOf(c, x, e, m.context.simpleKey, m.flowLevel > 0);
            && (IsPlain(c, m, e) <==> style.PlainStyle?)
            && (OmitsTag(c, m, e) <==>
                  (!c.canonical || e.tag.None?) && if style.PlainStyle? then e.plainImplicit else e.quotedImplicit)
  {
    hide AnalysisOf;
  }

  // The values.

  /** The space in front of what is written behind something. */
  function LeadOf(o: Out): Text { if o.whitespace then [] else [SPACE] }

  /** What was written at o, without that space. */
  function WrittenText(o: Out, p: Out): Text
    requires o.text + LeadOf(o) <= p.text
  {
    p.text[|o.text + LeadOf(o)|..]
  }

  /** p is o with a scalar written to it in the style: as nothing, or as text that shows the style and that the
      scanner, at its indentation, reads as one token with the value exactly if the style carries it, in front of
      whatever may stand there. `outer` is the indentation of the surroundings. */
  ghost predicate Carries(o: Out, value: Text, p: Out, style: S.ScalarStyle, flow: bool, simpleKey: bool, outer: int,
                          f: Folding, indent: int)
    requires indent >= -1
  {
    if value == [] && style.PlainStyle? then Unwritten(o, p)
    else
      && o.text + LeadOf(o) <= p.text && S.Shows(style, flow, WrittenText(o, p))
      && (if IsInline(style) then Inline(p) else OnNewLine(p))
      && (Unsplit(style, simpleKey, f) && (IsInline(style) || indent == outer) ==>
            S.ReadsExactly(style, flow, indent, f.n, WrittenText(o, p), value, S.IsCarried(style, f, value)))
  }

  /** No line is split at an indentation beyond the width. */
  predicate Unsplit(style: S.ScalarStyle, simpleKey: bool, f: Folding) {
    style.DoubleStyle? && !simpleKey ==> f.n < f.width
  }

  function FoldingAt(c: Config, indent: Option<nat>): Folding {
    Folding(c.bestLineBreak, ColumnOf(indent) + c.bestIndent, c.bestWidth)
  }

  ghost predicate CarriedAt(c: Config, x: Choice, o: Out, e: Event, outer: Option<nat>, context: Context, flow: bool,
                            indent: int)
    requires e.Scalar? && indent >= -1
  {
    Carries(o, e.value, c.scalar(o, e, Deeper(outer, c.bestIndent, true, false), context, flow),
            StyleOf(c, x, e, context.simpleKey, flow), flow, context.simpleKey,
            if outer.Some? then outer.value else -1, FoldingAt(c, outer), indent)
  }

  ghost predicate ScalarsCarried(c: Config, x: Choice) {
    forall o: Out, e: Event, outer: Option<nat>, context: Context, flow: bool, indent: int ::
      e.Scalar? && -1 <= indent <= ColumnOf(outer) ==> CarriedAt(c, x, o, e, outer, context, flow, indent)
  }

  /** At w, in front of k, there is one scalar token with the value, plain or not as the style is, exactly if the
      style carries the value. */
  ghost predicate TokenThere(style: S.ScalarStyle, flow: bool, indent: int, w: Text, value: Text, k: Text,
                             carried: bool)
    requires indent >= -1
  {
    forall column: nat :: flow || column >= indent ==>
      (S.OneScalarAt(style, flow, indent, w, value, k, column) <==> carried)
  }

  /** Read in place: the whole output is what was there, the text of the scalar, which shows the style chosen for it,
      and the rest; and the scanner in front of the scalar reads it as one token exactly if the style carries it. */
  ghost predicate ReadInPlace(c: Config, x: Choice, e: Event, o: Out, q: Machine, end: Machine, indent: int)
    requires e.Scalar? && indent >= -1
  {
    var simpleKey, flow, f := IsSimpleValue(q.state), q.flowLevel > 0, FoldingAt(c, q.indent);
    var style := StyleOf(c, x, e, simpleKey, flow);
    && Grown(q, end) && o.text + LeadOf(o) <= q.out.text
    && var w := WrittenText(o, q.out);
       && end.out.text + [NUL] == o.text + LeadOf(o) + w + RestBehind(q, end) && S.Shows(style, flow, w)
       && (Unsplit(style, simpleKey, f) ==>
             TokenThere(style, flow, indent, w, e.value, RestBehind(q, end), S.IsCarried(style, f, e.value)))
  }

  /** The scalar was written behind m at o: as nothing, where it is empty and plain, or to be read in place. */
  ghost predicate ReadFrom(c: Config, x: Choice, e: Event, m: Machine, o: Out, q: Machine, end: Machine, indent: int)
    requires e.Scalar? && indent >= -1
  {
    && m.out.text <= o.text && WrittenAt(c, e, o, IsSimpleValue(q.state), q)
    && ((Unwritten(o, q.out) && e.value == [] && StyleOf(c, x, e, IsSimpleValue(q.state), q.flowLevel > 0).PlainStyle?)
        || (ScannerAt(q, indent) ==> ReadInPlace(c, x, e, o, q, end, indent)))
  }

  /** In every run to the end of the stream, every scalar is written as nothing, or the scanner that stands in front
      of it in the whole output makes one token of it, with its value and the plainness of the style chosen for it,
      exactly if that style carries the value. */
  lemma ScalarsReadInPlace(c: Config, x: Choice, events: seq<Event>, end: Machine, i: nat, indent: int)
    requires ConfigOk(c) && ScalarsCarried(c, x) && Offline(c, events) == Some(end) && end.state.ExpectNothing?
    requires i < |events| && events[i].Scalar? && indent >= -1
    ensures var r := MachinesAround(c, events, i);
            r.Some? && exists o: Out :: ReadFrom(c, x, events[i], r.value.0, o, r.value.1, end, indent)
  {
    hide ConfigOk, MachinesAround, Followed, WrittenAt, ReadInPlace, ScannerAt, ScalarsCarried, StyleOf;
    ScalarsAreFollowed(c, events, end, i);
    var (m, q) := MachinesAround(c, events, i).value;
    var o: Out :| FollowedFrom(c, events[i], m, o, q, end);
    if ScannerAt(q, indent) { FollowedIsRead(c, x, events[i], o, q, end, indent); }
    assert ReadFrom(c, x, events[i], m, o, q, end, indent);
  }

  /** The same for every stream of the grammar whose anchors and tags are acceptable. */
  lemma StreamsReadInPlace(c: Config, x: Choice, docs: seq<E.Document>, i: nat, indent: int) returns (end: Machine)
    requires ConfigOk(c) && ScalarsCarried(c, x) && EmitterStructure.DocumentsOk(docs)
    requires i < |E.StreamEvents(docs)| && E.StreamEvents(docs)[i].Scalar? && indent >= -1
    ensures Offline(c, E.StreamEvents(docs)) == Some(end)
    ensures var r := MachinesAround(c, E.StreamEvents(docs), i);
            r.Some?
            && exists o: Out :: ReadFrom(c, x, E.StreamEvents(docs)[i], r.value.0, o, r.value.1, end, indent)
  {
    hide ConfigOk, ScalarsCarried, MachinesAround, ReadFrom, EmitterStructure.DocumentsOk, E.StreamEvents;
    end := EmitterStructure.StreamRuns(c, docs);
    ScalarsReadInPlace(c, x, E.StreamEvents(docs), end, i, indent);
  }

  /** Where the scanner's indentation is when it comes to the scalar: that of the surroundings in block context; in a
      flow collection and at a simple key it may be less. */
  predicate ScannerAt(q: Machine, indent: int) {
    -1 <= indent <= ColumnOf(q.indent) && (q.flowLevel > 0 || IsSimpleValue(q.state) || indent == Outer(q))
  }

  lemma FollowedIsRead(c: Config, x: Choice, e: Event, o: Out, q: Machine, end: Machine, indent: int)
    requires ScalarsCarried(c, x) && e.Scalar? && WrittenAt(c, e, o, IsSimpleValue(q.state), q) && Grown(q, end)
    requires Unwritten(o, q.out) || Followed(c, IsSimpleValue(q.state), q, RestBehind(q, end))
    requires ScannerAt(q, indent)
    ensures
      (Unwritten(o, q.out) && e.value == [] && StyleOf(c, x, e, IsSimpleValue(q.state), q.flowLevel > 0).PlainStyle?)
      || ReadInPlace(c, x, e, o, q, end, indent)
  {
    hide S.Follows, S.IsCarried, S.OneScalarAt, StyleOf;
    var simpleKey, flow, f, k := IsSimpleValue(q.state), q.flowLevel > 0, FoldingAt(c, q.indent), RestBehind(q, end);
    var context: Context :| context.simpleKey == simpleKey
      && q.out == c.scalar(o, e, Deeper(q.indent, c.bestIndent, true, false), context, flow);
    assert CarriedAt(c, x, o, e, q.indent, context, flow, indent);
    var style := StyleOf(c, x, e, simpleKey, flow);
    if !(Unwritten(o, q.out) && e.value == [] && style.PlainStyle?) {
      var w := WrittenText(o, q.out);
      assert q.out.text == o.text + LeadOf(o) + w;
      assert end.out.text + [NUL] == q.out.text + k;
      assert IsInline(style) <==> Inline(q.out);
      assert f.n == Max(Outer(q), 0) + c.bestIndent;
      assert S.Follows(style, flow, indent, f.n, k);
    }
  }
}
