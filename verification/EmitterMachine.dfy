/** The states of yaml/emitter.py as functions: what the handler of each state makes of an event, when it
    can see the event behind it. */
module EmitterMachine {
  import opened Options
  import opened Chars
  import opened EmitterOutput
  import opened Events

  datatype State =
    | ExpectStreamStart | ExpectFirstDocumentStart | ExpectDocumentStart | ExpectDocumentRoot | ExpectDocumentEnd
    | ExpectNothing
    | ExpectFirstFlowSequenceItem | ExpectFlowSequenceItem
    | ExpectFirstFlowMappingKey | ExpectFlowMappingKey | ExpectFlowMappingSimpleValue | ExpectFlowMappingValue
    | ExpectFirstBlockSequenceItem | ExpectBlockSequenceItem
    | ExpectFirstBlockMappingKey | ExpectBlockMappingKey | ExpectBlockMappingSimpleValue | ExpectBlockMappingValue

  predicate IsFlowState(s: State) {
    || s.ExpectFirstFlowSequenceItem? || s.ExpectFlowSequenceItem? || s.ExpectFirstFlowMappingKey?
    || s.ExpectFlowMappingKey? || s.ExpectFlowMappingSimpleValue? || s.ExpectFlowMappingValue?
  }

  datatype Context = Context(root: bool, sequence: bool, mapping: bool, simpleKey: bool)

  datatype Machine = Machine(
    state: State, states: seq<State>, indents: seq<Option<nat>>, indent: Option<nat>, flowLevel: int, context: Context,
        out: Out)

  /** The options of the emitter, and the parts of it that deal with the text of one scalar or tag. */
  datatype Config = Config(
    canonical: bool, bestIndent: nat, bestWidth: nat, bestLineBreak: Text,
    /** prepare_tag */
    tagText: Text -> Text,
    /** analyze_scalar: is the text multiline? */
    multiline: Text -> bool,
    /** choose_scalar_style: is the scalar written in plain style? */
    plain: (Event, Context, bool) -> bool,
    /** process_scalar: the scalar at an indentation, and in a flow collection or not. */
    scalar: (Out, Event, Option<nat>, Context, bool) -> Out)

  // Writing.

  function IndentOf(m: Machine): nat { if m.indent.Some? then m.indent.value else 0 }

  function Writes(m: Machine, indicator: Text, needWhitespace: bool, whitespace: bool, indention: bool): Machine {
    m.(out := Indicator(m.out, indicator, needWhitespace, whitespace, indention))
  }

  function WritesIndent(c: Config, m: Machine): Machine { m.(out := Indented(m.out, c.bestLineBreak, IndentOf(m))) }

  /** A line break where the line has become too long. */
  function Wraps(c: Config, m: Machine): Machine {
    if c.canonical || m.out.column > c.bestWidth then WritesIndent(c, m) else m
  }

  // Stacks.

  function Increased(c: Config, m: Machine, flow: bool, indentless: bool): Machine {
    m.(indents := m.indents + [m.indent], indent := Deeper(m.indent, c.bestIndent, flow, indentless))
  }

  function Pushed(m: Machine, s: State): Machine { m.(states := m.states + [s]) }

  /** self.state = self.states.pop(); None where the stack is empty. */
  function Popped(m: Machine): Option<Machine> {
    if m.states == [] then None else Some(m.(state := m.states[|m.states| - 1], states := m.states[..|m.states| - 1]))
  }

  function IndentPopped(m: Machine): Option<Machine> {
    if m.indents == [] then None
      else Some(m.(indent := m.indents[|m.indents| - 1], indents := m.indents[..|m.indents| - 1]))
  }

  /** The end of a collection; `flow` when it is in brackets. */
  function Closed(m: Machine, flow: bool): Option<Machine> {
    var i := IndentPopped(m);
    if i.None? then None else Popped(if flow then i.value.(flowLevel := i.value.flowLevel - 1) else i.value)
  }

  // Anchors and tags.

  predicate IsAnchorCharacter(c: Char) {
    0x30 <= c <= 0x39 || 0x41 <= c <= 0x5A || 0x61 <= c <= 0x7A || c == DASH || c == 0x5F
  }

  predicate IsAnchor(a: Text) { a != [] && forall i | 0 <= i < |a| :: IsAnchorCharacter(a[i]) }

  /** process_anchor; None where the anchor is not acceptable. */
  function WithAnchor(m: Machine, anchor: Anchor, indicator: Char): Option<Machine> {
    match anchor
    case None => Some(m)
    case Some(a) => if IsAnchor(a) then Some(Writes(m, [indicator] + a, true, false, false)) else None
  }

  /** Whether process_tag leaves the tag out. */
  predicate OmitsTag(c: Config, m: Machine, e: Event)
    requires e.Scalar? || e.SequenceStart? || e.MappingStart?
  {
    (!c.canonical || e.tag.None?) &&
    if e.Scalar? then (if IsPlain(c, m, e) then e.plainImplicit else e.quotedImplicit) else e.implicit
  }

  predicate IsPlain(c: Config, m: Machine, e: Event)
    requires e.Scalar?
  {
    !c.canonical && e.plainImplicit && c.plain(e, m.context, m.flowLevel > 0)
  }

  /** process_tag; None where there is no tag and there must be one, and where it is empty. */
  function WithTag(c: Config, m: Machine, e: Event): Option<Machine>
    requires e.Scalar? || e.SequenceStart? || e.MappingStart?
  {
    if OmitsTag(c, m, e) then Some(m)
    else
      var tag := if e.Scalar? && e.plainImplicit && e.tag.None? then Some([0x21]) else e.tag;
      if tag.None? || tag.value == [] then None
      else
        var text := c.tagText(tag.value);
        Some(if text == [] then m else Writes(m, text, true, false, false))
  }

  // The checks that look ahead.

  predicate IsEmptySequence(e: Event, next: Option<Event>) { e.SequenceStart? && next == Some(SequenceEnd) }

  predicate IsEmptyMapping(e: Event, next: Option<Event>) { e.MappingStart? && next == Some(MappingEnd) }

  predicate IsEmptyDocument(e: Event, next: Option<Event>) {
    e.DocumentStart? && next.Some? && next.value.Scalar? && next.value.anchor.None? && next.value.tag.None?
        && next.value.value == []
  }

  function TagOf(e: Event): Option<Text> {
    match e
    case Scalar(_, t, _, _, _) => t
    case SequenceStart(_, t, _, _) => t
    case MappingStart(_, t, _, _) => t
    case _ => None
  }

  /** The texts check_simple_key prepares are acceptable. */
  predicate Preparable(e: Event) {
    (AnchorOf(e).Some? ==> IsAnchor(AnchorOf(e).value)) && (TagOf(e).Some? ==> TagOf(e).value != [])
  }

  predicate IsSimpleKey(c: Config, e: Event, next: Option<Event>) {
    var length := (if AnchorOf(e).Some? then |AnchorOf(e).value| else 0)
        + (if TagOf(e).Some? then |c.tagText(TagOf(e).value)| else 0)
                  + if e.Scalar? then |e.value| else 0;
    length < 128 && (e.Alias? || (e.Scalar? && e.value != [] && !c.multiline(e.value)) || IsEmptySequence(e, next)
                     || IsEmptyMapping(e, next))
  }

  // The handlers.

  function Document(c: Config, m: Machine, e: Event, next: Option<Event>, first: bool): Option<Machine> {
    if e.DocumentStart? then
      var implicit := first && !e.explicit && !c.canonical && !IsEmptyDocument(e, next);
      var n := if implicit then m
               else
                 var written := Writes(WritesIndent(c, m), [DASH, DASH, DASH], true, false, false);
                 if c.canonical then WritesIndent(c, written) else written;
      Some(n.(state := ExpectDocumentRoot))
    else if e.StreamEnd? then
      var n := if m.out.openEnded then WritesIndent(c, Writes(m, [DOT, DOT, DOT], true, false, false)) else m;
      Some(n.(state := ExpectNothing))
    else None
  }

  function DocumentEnding(c: Config, m: Machine, e: Event): Option<Machine> {
    if e.DocumentEnd? then
      var n := WritesIndent(c, m);
      Some((if e.explicit then WritesIndent(c, Writes(n, [DOT, DOT, DOT], true, false, false))
            else n).(state := ExpectDocumentStart))
    else None
  }

  /** expect_node */
  function Node(c: Config, m: Machine, e: Event, next: Option<Event>, context: Context): Option<Machine> {
    var n := m.(context := context);
    if e.Alias? then AliasWritten(n, e.name)
    else if e.Scalar? || e.SequenceStart? || e.MappingStart? then
      var tagged := Tagged(c, n, e);
      if tagged.None? then None else Content(c, tagged.value, e, next)
    else None
  }

  /** expect_alias */
  function AliasWritten(m: Machine, anchor: Anchor): Option<Machine> {
    var written := WithAnchor(m, anchor, 0x2A);
    if anchor.None? || written.None? then None else Popped(written.value)
  }

  /** expect_scalar */
  function ScalarWritten(c: Config, m: Machine, e: Event): Option<Machine>
    requires e.Scalar?
  {
    var deeper := Increased(c, m, true, false);
    Popped(m.(out := c.scalar(deeper.out, e, deeper.indent, m.context, m.flowLevel > 0)))
  }

  /** A node behind its anchor and its tag. */
  function Content(c: Config, m: Machine, e: Event, next: Option<Event>): Option<Machine>
    requires e.Scalar? || e.SequenceStart? || e.MappingStart?
  {
    match e
    case Scalar(_, _, _, _, _) => ScalarWritten(c, m, e)
    case SequenceStart(_, _, _, flow) =>
      if m.flowLevel != 0 || c.canonical || flow == Some(true) || IsEmptySequence(e, next) then
        Some(OpensFlow(c, m, 0x5B, ExpectFirstFlowSequenceItem))
      else
        var indentless := m.context.mapping && !m.out.indention;
        Some(Increased(c, m, false, indentless).(state := ExpectFirstBlockSequenceItem))
    case MappingStart(_, _, _, flow) =>
      if m.flowLevel != 0 || c.canonical || flow == Some(true) || IsEmptyMapping(e, next) then
        Some(OpensFlow(c, m, 0x7B, ExpectFirstFlowMappingKey))
      else Some(Increased(c, m, false, false).(state := ExpectFirstBlockMappingKey))
  }

  function Tagged(c: Config, m: Machine, e: Event): Option<Machine>
    requires e.Scalar? || e.SequenceStart? || e.MappingStart?
  {
    var anchored := WithAnchor(m, e.anchor, 0x26);
    if anchored.None? then None else WithTag(c, anchored.value, e)
  }

  function OpensFlow(c: Config, m: Machine, bracket: Char, state: State): Machine {
    var n := Writes(m, [bracket], true, true, false);
    Increased(c, n.(flowLevel := n.flowLevel + 1), true, false).(state := state)
  }

  const ITEM := Context(false, true, false, false)
  const VALUE := Context(false, false, true, false)
  const SIMPLE_KEY := Context(false, false, true, true)

  function FlowSequenceItem(c: Config, m: Machine, e: Event, next: Option<Event>, first: bool): Option<Machine> {
    if e.SequenceEnd? then FlowEnd(c, m, 0x5D, first)
    else
      var n := if first then m else Writes(m, [COMMA], false, false, false);
      Node(c, Pushed(Wraps(c, n), ExpectFlowSequenceItem), e, next, ITEM)
  }

  /** The closing bracket, behind a comma in canonical form. */
  function FlowEnd(c: Config, m: Machine, bracket: Char, first: bool): Option<Machine> {
    var i := IndentPopped(m);
    if i.None? then None
    else
      var n := i.value.(flowLevel := i.value.flowLevel - 1);
      var o := if c.canonical && !first then WritesIndent(c, Writes(n, [COMMA], false, false, false)) else n;
      Popped(Writes(o, [bracket], false, false, false))
  }

  function FlowMappingKey(c: Config, m: Machine, e: Event, next: Option<Event>, first: bool): Option<Machine> {
    if e.MappingEnd? then FlowEnd(c, m, 0x7D, first)
    else
      var n := Wraps(c, if first then m else Writes(m, [COMMA], false, false, false));
      if !c.canonical && !Preparable(e) then None
      else if !c.canonical && IsSimpleKey(c, e, next) then
        Node(c, Pushed(n, ExpectFlowMappingSimpleValue), e, next, SIMPLE_KEY)
      else Node(c, Pushed(Writes(n, [QUESTION], true, false, false), ExpectFlowMappingValue), e, next, VALUE)
  }

  function FlowMappingValue(c: Config, m: Machine, e: Event, next: Option<Event>, simple: bool): Option<Machine> {
    var n := if simple then Writes(m, [COLON], false, false, false)
        else Writes(Wraps(c, m), [COLON], true, false, false);
    Node(c, Pushed(n, ExpectFlowMappingKey), e, next, VALUE)
  }

  function BlockSequenceItem(c: Config, m: Machine, e: Event, next: Option<Event>, first: bool): Option<Machine> {
    if !first && e.SequenceEnd? then Closed(m, false)
    else
      var n := Writes(WritesIndent(c, m), [DASH], true, false, true);
      Node(c, Pushed(n, ExpectBlockSequenceItem), e, next, ITEM)
  }

  function BlockMappingKey(c: Config, m: Machine, e: Event, next: Option<Event>, first: bool): Option<Machine> {
    if !first && e.MappingEnd? then Closed(m, false)
    else
      var n := WritesIndent(c, m);
      if !Preparable(e) then None
      else if IsSimpleKey(c, e, next) then Node(c, Pushed(n, ExpectBlockMappingSimpleValue), e, next, SIMPLE_KEY)
      else Node(c, Pushed(Writes(n, [QUESTION], true, false, true), ExpectBlockMappingValue), e, next, VALUE)
  }

  function BlockMappingValue(c: Config, m: Machine, e: Event, next: Option<Event>, simple: bool): Option<Machine> {
    var n := if simple then Writes(m, [COLON], false, false, false)
             else Writes(WritesIndent(c, m), [COLON], true, false, true);
    Node(c, Pushed(n, ExpectBlockMappingKey), e, next, VALUE)
  }

  /** self.state(), with the event behind e, if any; None where an error is raised. */
  function Handle(c: Config, m: Machine, e: Event, next: Option<Event>): Option<Machine> {
    match m.state
    case ExpectStreamStart => if e.StreamStart? then Some(m.(state := ExpectFirstDocumentStart)) else None
    case ExpectFirstDocumentStart => Document(c, m, e, next, true)
    case ExpectDocumentStart => Document(c, m, e, next, false)
    case ExpectDocumentRoot => Node(c, Pushed(m, ExpectDocumentEnd), e, next, Context(true, false, false, false))
    case ExpectDocumentEnd => DocumentEnding(c, m, e)
    case ExpectNothing => None
    case ExpectFirstFlowSequenceItem => FlowSequenceItem(c, m, e, next, true)
    case ExpectFlowSequenceItem => FlowSequenceItem(c, m, e, next, false)
    case ExpectFirstFlowMappingKey => FlowMappingKey(c, m, e, next, true)
    case ExpectFlowMappingKey => FlowMappingKey(c, m, e, next, false)
    case ExpectFlowMappingSimpleValue => FlowMappingValue(c, m, e, next, true)
    case ExpectFlowMappingValue => FlowMappingValue(c, m, e, next, false)
    case ExpectFirstBlockSequenceItem => BlockSequenceItem(c, m, e, next, true)
    case ExpectBlockSequenceItem => BlockSequenceItem(c, m, e, next, false)
    case ExpectFirstBlockMappingKey => BlockMappingKey(c, m, e, next, true)
    case ExpectBlockMappingKey => BlockMappingKey(c, m, e, next, false)
    case ExpectBlockMappingSimpleValue => BlockMappingValue(c, m, e, next, true)
    case ExpectBlockMappingValue => BlockMappingValue(c, m, e, next, false)
  }

  const INITIAL := Machine(ExpectStreamStart, [], [], None, 0, Context(false, false, false, false),
                           Out([], 0, true, true, false))

  function Head(events: seq<Event>): Option<Event> { if events == [] then None else Some(events[0]) }

  /** The machine after the events, when `next` is the event behind them; None where an error is raised. */
  function Handled(c: Config, m: Machine, events: seq<Event>, next: Option<Event>): Option<Machine>
    decreases |events|
  {
    if events == [] then Some(m)
    else
      match Handle(c, m, events[0], if |events| > 1 then Some(events[1]) else next)
      case None => None
      case Some(n) => Handled(c, n, events[1..], next)
  }

  /** The emitter with all events at hand. */
  function Offline(c: Config, events: seq<Event>): Option<Machine> { Handled(c, INITIAL, events, None) }

  lemma HandledStep(c: Config, m: Machine, events: seq<Event>, next: Option<Event>)
    requires events != []
    ensures
      var r := Handle(c, m, events[0], if |events| > 1 then Some(events[1]) else next);
      Handled(c, m, events, next) == if r.None? then None else Handled(c, r.value, events[1..], next)
  {
    hide Handle;
  }

  lemma {:induction false} HandledJoin(c: Config, m: Machine, a: seq<Event>, b: seq<Event>, next: Option<Event>)
    ensures
      var r := Handled(c, m, a, if b == [] then next else Some(b[0]));
      Handled(c, m, a + b, next) == if r.None? then None else Handled(c, r.value, b, next)
    decreases |a|
  {
    hide Handle;
    if a == [] {
      assert a + b == b;
    } else {
      assert (a + b)[1..] == a[1..] + b;
      var r := Handle(c, m, a[0], if |a| > 1 then Some(a[1]) else if b == [] then next else Some(b[0]));
      if r.Some? { HandledJoin(c, r.value, a[1..], b, next); }
    }
  }
}
