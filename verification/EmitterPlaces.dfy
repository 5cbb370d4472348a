/** What the emitter writes behind the scalars, in every run: the indicators of the flow context, the ':' of a
    simple key, a line that is indented no deeper, or a document separator. */
module EmitterPlaces {
  import opened Options
  import opened Chars
  import opened FlowScalars
  import opened EmitterMachine
  import opened EmitterOutput
  import E = Events

  type Event = E.Event

  // What is known of the writers of scalars and tags.

  /** Behind something on the line, and at the start of a new one. */
  predicate Inline(o: Out) { !o.whitespace && !o.indention }

  predicate OnNewLine(o: Out) { o.column == 0 && o.whitespace && o.indention }

  /** p is o with w appended, which a space sets apart where there is none. */
  predicate Appended(o: Out, w: Text, p: Out) {
    w != [] && p.text == o.text + w && (if o.whitespace then !IsSeparation(w[0]) else w[0] == SPACE)
  }

  predicate Unwritten(o: Out, p: Out) {
    p.text == o.text && p.column == o.column && p.whitespace == o.whitespace && p.indention == o.indention
  }

  /** A scalar is written as nothing, only where it is empty and in block context; or on the line; or, in block
      context and not as a simple key, as lines of its own. */
  ghost predicate ScalarOk(o: Out, value: Text, simpleKey: bool, flow: bool, p: Out) {
    || (Unwritten(o, p) && !flow && value == [])
    || exists w: Text :: Appended(o, w, p) && (Inline(p) || (OnNewLine(p) && !flow && !simpleKey))
  }

  ghost predicate ScalarsOk(c: Config) {
    forall o: Out, e: Event, indent: Option<nat>, context: Context, flow: bool :: e.Scalar? ==>
      ScalarOk(o, e.value, context.simpleKey, flow, c.scalar(o, e, indent, context, flow))
  }

  /** What prepare_tag makes of a tag: '!' in front and no white space. */
  predicate IsTagText(t: Text) { t != [] && t[0] == 0x21 && forall i :: 0 <= i < |t| ==> !IsSeparation(t[i]) }

  ghost predicate TagsOk(c: Config) { forall tag: Text :: tag != [] ==> IsTagText(c.tagText(tag)) }

  ghost predicate ConfigOk(c: Config) {
    IsLineBreak(c.bestLineBreak) && c.bestIndent > 0 && ScalarsOk(c) && TagsOk(c)
  }

  // What is written stays written.

  predicate Grown(m: Machine, n: Machine) { m.out.text <= n.out.text }

  lemma GrownTwice(a: Machine, b: Machine, d: Machine)
    requires Grown(a, b) && Grown(b, d)
    ensures Grown(a, d)
  {
  }

  lemma OutputGrows(c: Config, m: Machine, indicator: Text, a: bool, b: bool, d: bool)
    ensures Grown(m, Writes(m, indicator, a, b, d)) && Grown(m, WritesIndent(c, m)) && Grown(m, Wraps(c, m))
  {
  }

  lemma ScalarGrows(c: Config, m: Machine, e: Event)
    requires ConfigOk(c) && e.Scalar? && ScalarWritten(c, m, e).Some?
    ensures Grown(m, ScalarWritten(c, m, e).value)
  {
    var deeper := Increased(c, m, true, false);
    var p := c.scalar(deeper.out, e, deeper.indent, m.context, m.flowLevel > 0);
    assert ScalarOk(m.out, e.value, m.context.simpleKey, m.flowLevel > 0, p);
  }

  lemma NodeGrows(c: Config, m: Machine, e: Event, next: Option<Event>, context: Context)
    requires ConfigOk(c) && Node(c, m, e, next, context).Some?
    ensures Grown(m, Node(c, m, e, next, context).value)
  {
    hide Indicator, ConfigOk, ScalarWritten;
    var n := m.(context := context);
    if e.Alias? {
      OutputGrows(c, n, [0x2A] + if e.name.Some? then e.name.value else [], true, false, false);
    } else {
      TaggedGrows(c, n, e);
      var t := Tagged(c, n, e).value;
      if e.Scalar? {
        ScalarGrows(c, t, e);
      } else {
        OutputGrows(c, t, [0x5B], true, true, false);
        OutputGrows(c, t, [0x7B], true, true, false);
      }
    }
  }

  lemma TaggedGrows(c: Config, m: Machine, e: Event)
    requires (e.Scalar? || e.SequenceStart? || e.MappingStart?) && Tagged(c, m, e).Some?
    ensures Grown(m, Tagged(c, m, e).value)
  {
    hide Indicator, IsAnchor;
    var a := WithAnchor(m, e.anchor, 0x26).value;
    OutputGrows(c, m, [0x26] + if e.anchor.Some? then e.anchor.value else [], true, false, false);
    OutputGrows(c, a, c.tagText([0x21]), true, false, false);
    if e.tag.Some? { OutputGrows(c, a, c.tagText(e.tag.value), true, false, false); }
  }

  lemma DocumentGrows(c: Config, m: Machine, e: Event, next: Option<Event>, first: bool)
    ensures Document(c, m, e, next, first).Some? ==> Grown(m, Document(c, m, e, next, first).value)
    ensures DocumentEnding(c, m, e).Some? ==> Grown(m, DocumentEnding(c, m, e).value)
  {
    hide Indicator, Indented;
    OutputGrows(c, m, [DOT, DOT, DOT], true, false, false);
    var n := WritesIndent(c, m);
    OutputGrows(c, n, [DASH, DASH, DASH], true, false, false);
    OutputGrows(c, n, [DOT, DOT, DOT], true, false, false);
    OutputGrows(c, Writes(n, [DASH, DASH, DASH], true, false, false), [], true, false, false);
    OutputGrows(c, Writes(n, [DOT, DOT, DOT], true, false, false), [], true, false, false);
    OutputGrows(c, Writes(m, [DOT, DOT, DOT], true, false, false), [], true, false, false);
  }

  lemma FlowEndGrows(c: Config, m: Machine, bracket: Char, first: bool)
    requires FlowEnd(c, m, bracket, first).Some?
    ensures Grown(m, FlowEnd(c, m, bracket, first).value)
  {
    hide Indicator, Indented;
    var n := IndentPopped(m).value.(flowLevel := m.flowLevel - 1);
    OutputGrows(c, n, [COMMA], false, false, false);
    var o := Writes(n, [COMMA], false, false, false);
    OutputGrows(c, o, [], false, false, false);
    OutputGrows(c, n, [bracket], false, false, false);
    OutputGrows(c, WritesIndent(c, o), [bracket], false, false, false);
  }

  lemma FlowItemGrows(c: Config, m: Machine, e: Event, next: Option<Event>, first: bool)
    requires ConfigOk(c)
    ensures FlowSequenceItem(c, m, e, next, first).Some? ==> Grown(m, FlowSequenceItem(c, m, e, next, first).value)
    ensures FlowMappingKey(c, m, e, next, first).Some? ==> Grown(m, FlowMappingKey(c, m, e, next, first).value)
  {
    hide Indicator, Indented, Node, FlowEnd, IsSimpleKey, Preparable, ConfigOk, Grown, Wraps;
    if FlowEnd(c, m, 0x5D, first).Some? { FlowEndGrows(c, m, 0x5D, first); }
    if FlowEnd(c, m, 0x7D, first).Some? { FlowEndGrows(c, m, 0x7D, first); }
    var a := if first then m else Writes(m, [COMMA], false, false, false);
    var w := Wraps(c, a);
    WrappedGrows(c, m, first);
    FlowNodeGrows(c, m, w, ExpectFlowSequenceItem, e, next, ITEM);
    FlowNodeGrows(c, m, w, ExpectFlowMappingSimpleValue, e, next, SIMPLE_KEY);
    OutputGrows(c, w, [QUESTION], true, false, false);
    GrownTwice(m, w, Writes(w, [QUESTION], true, false, false));
    FlowNodeGrows(c, m, Writes(w, [QUESTION], true, false, false), ExpectFlowMappingValue, e, next, VALUE);
  }

  lemma WrappedGrows(c: Config, m: Machine, first: bool)
    ensures Grown(m, Wraps(c, if first then m else Writes(m, [COMMA], false, false, false)))
  {
    hide Indicator, Indented;
    OutputGrows(c, m, [COMMA], false, false, false);
    OutputGrows(c, Writes(m, [COMMA], false, false, false), [], false, false, false);
  }

  lemma FlowNodeGrows(c: Config, m: Machine, w: Machine, s: State, e: Event, next: Option<Event>, context: Context)
    requires ConfigOk(c) && Grown(m, w)
    ensures var r := Node(c, Pushed(w, s), e, next, context); r.Some? ==> Grown(m, r.value)
  {
    hide Node, ConfigOk, Grown;
    NodeAfter(c, w, s, e, next, context);
    var r := Node(c, Pushed(w, s), e, next, context);
    if r.Some? { GrownTwice(m, w, r.value); }
  }

  lemma NodeAfter(c: Config, m: Machine, s: State, e: Event, next: Option<Event>, context: Context)
    requires ConfigOk(c)
    ensures var r := Node(c, Pushed(m, s), e, next, context); r.Some? ==> Grown(m, r.value)
  {
    hide Node, ConfigOk;
    if Node(c, Pushed(m, s), e, next, context).Some? { NodeGrows(c, Pushed(m, s), e, next, context); }
  }

  lemma ValueGrows(c: Config, m: Machine, e: Event, next: Option<Event>, simple: bool)
    requires ConfigOk(c)
    ensures FlowMappingValue(c, m, e, next, simple).Some? ==> Grown(m, FlowMappingValue(c, m, e, next, simple).value)
    ensures BlockMappingValue(c, m, e, next, simple).Some? ==> Grown(m, BlockMappingValue(c, m, e, next, simple).value)
  {
    hide Indicator, Indented, Node, ConfigOk;
    OutputGrows(c, m, [COLON], false, false, false);
    OutputGrows(c, Wraps(c, m), [COLON], true, false, false);
    OutputGrows(c, WritesIndent(c, m), [COLON], true, false, true);
    var f := if simple then Writes(m, [COLON], false, false, false)
             else Writes(Wraps(c, m), [COLON], true, false, false);
    var b := if simple then Writes(m, [COLON], false, false, false)
             else Writes(WritesIndent(c, m), [COLON], true, false, true);
    NodeAfter(c, f, ExpectFlowMappingKey, e, next, VALUE);
    NodeAfter(c, b, ExpectBlockMappingKey, e, next, VALUE);
  }

  lemma BlockItemGrows(c: Config, m: Machine, e: Event, next: Option<Event>, first: bool)
    requires ConfigOk(c)
    ensures BlockSequenceItem(c, m, e, next, first).Some? ==> Grown(m, BlockSequenceItem(c, m, e, next, first).value)
    ensures BlockMappingKey(c, m, e, next, first).Some? ==> Grown(m, BlockMappingKey(c, m, e, next, first).value)
  {
    hide Indicator, Indented, Node, IsSimpleKey, Preparable, ConfigOk;
    var n := WritesIndent(c, m);
    OutputGrows(c, m, [], false, false, false);
    OutputGrows(c, n, [DASH], true, false, true);
    OutputGrows(c, n, [QUESTION], true, false, true);
    NodeAfter(c, Writes(n, [DASH], true, false, true), ExpectBlockSequenceItem, e, next, ITEM);
    NodeAfter(c, Writes(n, [QUESTION], true, false, true), ExpectBlockMappingValue, e, next, VALUE);
    NodeAfter(c, n, ExpectBlockMappingSimpleValue, e, next, SIMPLE_KEY);
  }

  lemma HandleGrows(c: Config, m: Machine, e: Event, next: Option<Event>)
    requires ConfigOk(c) && Handle(c, m, e, next).Some?
    ensures Grown(m, Handle(c, m, e, next).value)
  {
    hide Document, DocumentEnding, Node, FlowSequenceItem, FlowMappingKey, FlowMappingValue, BlockSequenceItem,
         BlockMappingKey, BlockMappingValue, ConfigOk;
    DocumentGrows(c, m, e, next, m.state.ExpectFirstDocumentStart?);
    NodeAfter(c, m, ExpectDocumentEnd, e, next, Context(true, false, false, false));
    FlowItemGrows(c, m, e, next, m.state.ExpectFirstFlowSequenceItem? || m.state.ExpectFirstFlowMappingKey?);
    ValueGrows(c, m, e, next, m.state.ExpectFlowMappingSimpleValue? || m.state.ExpectBlockMappingSimpleValue?);
    BlockItemGrows(c, m, e, next, m.state.ExpectFirstBlockSequenceItem? || m.state.ExpectFirstBlockMappingKey?);
  }

  lemma {:induction false} RunGrows(c: Config, m: Machine, events: seq<Event>, next: Option<Event>)
    requires ConfigOk(c) && Handled(c, m, events, next).Some?
    ensures Grown(m, Handled(c, m, events, next).value)
    decreases |events|
  {
    hide Handle, ConfigOk;
    if events != [] {
      var after := if |events| > 1 then Some(events[1]) else next;
      HandleGrows(c, m, events[0], after);
      var n := Handle(c, m, events[0], after).value;
      RunGrows(c, n, events[1..], next);
    }
  }

  // The shape of the stacks in every run.

  predicate IsBlockState(s: State) {
    || s.ExpectFirstBlockSequenceItem? || s.ExpectBlockSequenceItem? || s.ExpectFirstBlockMappingKey?
    || s.ExpectBlockMappingKey? || s.ExpectBlockMappingSimpleValue? || s.ExpectBlockMappingValue?
  }

  function ColumnOf(indent: Option<nat>): nat { if indent.Some? then indent.value else 0 }

  /** One state and one indentation outside for every collection, the indentations growing. */
  predicate Indentations(states: seq<State>, indents: seq<Option<nat>>, indent: Option<nat>) {
    && |indents| == |states| && (indent.None? <==> indents == [])
    && (forall i :: 0 <= i < |indents| ==> (indents[i].None? <==> i == 0) && ColumnOf(indents[i]) <= ColumnOf(indent))
    && (forall i, j :: 0 <= i < j < |indents| ==> ColumnOf(indents[i]) <= ColumnOf(indents[j]))
  }

  /** At the bottom a document, above it block collections, and on top the flow collections; a simple key of a
      block mapping is no block collection. */
  predicate Layered(all: seq<State>, flowLevel: int) {
    && all != [] && 0 <= flowLevel < |all| && (|all| > 1 ==> all[0].ExpectDocumentEnd?)
    && !IsFlowState(all[0]) && !IsBlockState(all[0])
    && (forall i :: 0 < i < |all| ==> IsFlowState(all[i]) || IsBlockState(all[i]))
    && (forall i :: 0 <= i < |all| ==> (IsFlowState(all[i]) <==> i >= |all| - flowLevel))
    && (forall i :: 0 <= i < |all| - 1 && all[i].ExpectBlockMappingSimpleValue? ==> IsFlowState(all[i + 1]))
  }

  predicate Shape(m: Machine) {
    Indentations(m.states, m.indents, m.indent) && Layered(m.states + [m.state], m.flowLevel)
  }

  predicate SameKind(a: State, b: State) {
    (IsFlowState(a) <==> IsFlowState(b)) && (IsBlockState(a) <==> IsBlockState(b))
  }

  /** What an event does to the stacks. */
  predicate Stays(m: Machine, n: Machine) {
    && n.states == m.states && n.indents == m.indents && n.indent == m.indent && n.flowLevel == m.flowLevel
    && SameKind(m.state, n.state) && (m.states != [] || IsFlowState(m.state) || IsBlockState(m.state) ||
                                      !(IsFlowState(n.state) || IsBlockState(n.state)))
  }

  predicate Opens(m: Machine, n: Machine, flow: bool) {
    && |n.states| == |m.states| + 1 && n.states[..|m.states|] == m.states && SameKind(m.state, n.states[|m.states|])
    && (!IsFlowState(m.state) && !IsBlockState(m.state) ==> n.states[|m.states|].ExpectDocumentEnd?)
    && n.indents == m.indents + [m.indent] && n.indent.Some? && ColumnOf(m.indent) <= ColumnOf(n.indent)
    && (if flow then IsFlowState(n.state) && n.flowLevel == m.flowLevel + 1
        else IsBlockState(n.state) && m.flowLevel == n.flowLevel == 0)
    && (n.states[|m.states|].ExpectBlockMappingSimpleValue? ==> flow)
  }

  predicate Closes(m: Machine, n: Machine) {
    && m.states != [] && n.states == m.states[..|m.states| - 1] && n.state == m.states[|m.states| - 1]
    && m.indents != [] && n.indents == m.indents[..|m.indents| - 1] && n.indent == m.indents[|m.indents| - 1]
    && n.flowLevel == m.flowLevel - if IsFlowState(m.state) then 1 else 0
  }

  lemma ShapeStays(m: Machine, n: Machine)
    requires Shape(m) && Stays(m, n)
    ensures Shape(n)
  {
    var a, b := m.states + [m.state], n.states + [n.state];
    assert forall i :: 0 <= i < |a| ==> SameKind(a[i], b[i]);
  }

  lemma ShapeOpens(m: Machine, n: Machine, flow: bool)
    requires Shape(m) && Opens(m, n, flow)
    ensures Shape(n)
  {
    var a, b := m.states + [m.state], n.states + [n.state];
    assert forall i :: 0 <= i < |a| ==> SameKind(a[i], b[i]);
  }

  lemma ShapeCloses(m: Machine, n: Machine)
    requires Shape(m) && Closes(m, n)
    ensures Shape(n)
  {
    var a, b := m.states + [m.state], n.states + [n.state];
    assert b == a[..|a| - 1] && a[|a| - 1] == m.state;
    assert !IsFlowState(a[0]) && (IsFlowState(a[|a| - 1]) <==> m.flowLevel >= 1);
    assert forall i :: 0 <= i < |b| ==> b[i] == a[i];
  }

  // What every event does.

  /** A node, entered from a state of the kind of s. */
  lemma NodeMoves(c: Config, m: Machine, n: Machine, s: State, e: Event, next: Option<Event>, context: Context)
    requires Shape(m) && SameKind(m.state, s)
    requires n.states == m.states && n.indents == m.indents && n.indent == m.indent && n.flowLevel == m.flowLevel
    requires !IsFlowState(m.state) && !IsBlockState(m.state) ==> s.ExpectDocumentEnd?
    requires s.ExpectBlockMappingSimpleValue? ==> IsSimpleKey(c, e, next)
    ensures
      var r := Node(c, Pushed(n, s), e, next, context);
      r.Some? ==> Stays(m, r.value) || Opens(m, r.value, true) || Opens(m, r.value, false)
  {
    hide IsAnchor, Tagged, Content, Shape, IsSimpleKey, Stays, Opens;
    var p := Pushed(n, s).(context := context);
    assert p.states[..|m.states|] == m.states && p.states[|m.states|] == s;
    if e.Scalar? || e.SequenceStart? || e.MappingStart? {
      TaggedOnly(c, p, e);
      if Tagged(c, p, e).Some? { ContentMoves(c, m, Tagged(c, p, e).value, s, e, next); }
    } else if e.Alias? {
      AliasMoves(m, p, s, e.name);
    }
  }

  lemma AliasMoves(m: Machine, p: Machine, s: State, anchor: E.Anchor)
    requires Shape(m) && SameKind(m.state, s) && p.states == m.states + [s]
    requires p.indents == m.indents && p.indent == m.indent && p.flowLevel == m.flowLevel
    requires !IsFlowState(m.state) && !IsBlockState(m.state) ==> s.ExpectDocumentEnd?
    ensures AliasWritten(p, anchor).Some? ==> Stays(m, AliasWritten(p, anchor).value)
  {
    hide Indicator, IsAnchor;
  }

  lemma ContentMoves(c: Config, m: Machine, t: Machine, s: State, e: Event, next: Option<Event>)
    requires Shape(m) && SameKind(m.state, s) && (e.Scalar? || e.SequenceStart? || e.MappingStart?)
    requires t.states == m.states + [s] && t.indents == m.indents && t.indent == m.indent && t.flowLevel == m.flowLevel
    requires !IsFlowState(m.state) && !IsBlockState(m.state) ==> s.ExpectDocumentEnd?
    requires s.ExpectBlockMappingSimpleValue? ==> IsSimpleKey(c, e, next)
    ensures
      var r := Content(c, t, e, next);
      r.Some? ==> Stays(m, r.value) || Opens(m, r.value, true) || Opens(m, r.value, false)
  {
    hide Indicator;
    assert t.states[..|m.states|] == m.states && t.states[|m.states|] == s;
  }

  lemma TaggedOnly(c: Config, m: Machine, e: Event)
    requires e.Scalar? || e.SequenceStart? || e.MappingStart?
    ensures var t := Tagged(c, m, e); t.Some? ==> t.value.(out := m.out) == m
  {
    hide Indicator, IsAnchor, OmitsTag;
  }

  ghost predicate Moves(m: Machine, r: Option<Machine>) {
    r.Some? ==> Stays(m, r.value) || Opens(m, r.value, true) || Opens(m, r.value, false) || Closes(m, r.value)
  }

  lemma MovesKeepShape(m: Machine, r: Option<Machine>)
    requires Shape(m) && Moves(m, r) && r.Some?
    ensures Shape(r.value)
  {
    hide Shape, Stays, Opens, Closes;
    if Stays(m, r.value) { ShapeStays(m, r.value); }
    if Opens(m, r.value, true) { ShapeOpens(m, r.value, true); }
    if Opens(m, r.value, false) { ShapeOpens(m, r.value, false); }
    if Closes(m, r.value) { ShapeCloses(m, r.value); }
  }

  lemma FlowMoves(c: Config, m: Machine, e: Event, next: Option<Event>, first: bool)
    requires Shape(m) && IsFlowState(m.state)
    ensures Moves(m, FlowSequenceItem(c, m, e, next, first)) && Moves(m, FlowMappingKey(c, m, e, next, first))
    ensures Moves(m, FlowMappingValue(c, m, e, next, first))
  {
    hide Shape, Moves, FlowSequenceItem, FlowMappingKey, FlowMappingValue;
    FlowItemMoves(c, m, e, next, first);
    FlowKeyMoves(c, m, e, next, first);
    FlowValueMoves(c, m, e, next, first);
  }

  lemma FlowItemMoves(c: Config, m: Machine, e: Event, next: Option<Event>, first: bool)
    requires Shape(m) && IsFlowState(m.state)
    ensures Moves(m, FlowSequenceItem(c, m, e, next, first))
  {
    hide Shape, Node, Indicator, Indented, Stays, Opens, Closes, FlowEnd;
    FlowEndCloses(c, m, 0x5D, first);
    var w := Wraps(c, if first then m else Writes(m, [COMMA], false, false, false));
    NodeMoves(c, m, w, ExpectFlowSequenceItem, e, next, ITEM);
  }

  lemma FlowKeyMoves(c: Config, m: Machine, e: Event, next: Option<Event>, first: bool)
    requires Shape(m) && IsFlowState(m.state)
    ensures Moves(m, FlowMappingKey(c, m, e, next, first))
  {
    hide Shape, Node, Indicator, Indented, IsSimpleKey, Preparable, Stays, Opens, Closes, FlowEnd;
    FlowEndCloses(c, m, 0x7D, first);
    var w := Wraps(c, if first then m else Writes(m, [COMMA], false, false, false));
    if IsSimpleKey(c, e, next) { NodeMoves(c, m, w, ExpectFlowMappingSimpleValue, e, next, SIMPLE_KEY); }
    NodeMoves(c, m, Writes(w, [QUESTION], true, false, false), ExpectFlowMappingValue, e, next, VALUE);
  }

  lemma FlowValueMoves(c: Config, m: Machine, e: Event, next: Option<Event>, simple: bool)
    requires Shape(m) && IsFlowState(m.state)
    ensures Moves(m, FlowMappingValue(c, m, e, next, simple))
  {
    hide Shape, Node, Indicator, Indented, Stays, Opens, Closes;
    var v := if simple then Writes(m, [COLON], false, false, false)
             else Writes(Wraps(c, m), [COLON], true, false, false);
    NodeMoves(c, m, v, ExpectFlowMappingKey, e, next, VALUE);
  }

  lemma FlowEndCloses(c: Config, m: Machine, bracket: Char, first: bool)
    requires Shape(m) && IsFlowState(m.state)
    ensures Moves(m, FlowEnd(c, m, bracket, first))
  {
    hide Indicator, Indented, Stays, Opens;
  }

  lemma BlockMoves(c: Config, m: Machine, e: Event, next: Option<Event>, first: bool)
    requires Shape(m) && IsBlockState(m.state)
    ensures Moves(m, BlockSequenceItem(c, m, e, next, first)) && Moves(m, BlockMappingKey(c, m, e, next, first))
    ensures Moves(m, BlockMappingValue(c, m, e, next, first))
  {
    hide Shape, Node, Indicator, Indented, IsSimpleKey, Preparable, Stays, Opens, Closes, BlockMappingKey;
    BlockKeyMoves(c, m, e, next, first);
    BlockCloses(m);
    var n := WritesIndent(c, m);
    NodeMoves(c, m, Writes(n, [DASH], true, false, true), ExpectBlockSequenceItem, e, next, ITEM);
    var v := if first then Writes(m, [COLON], false, false, false)
             else Writes(n, [COLON], true, false, true);
    NodeMoves(c, m, v, ExpectBlockMappingKey, e, next, VALUE);
  }

  lemma BlockKeyMoves(c: Config, m: Machine, e: Event, next: Option<Event>, first: bool)
    requires Shape(m) && IsBlockState(m.state)
    ensures Moves(m, BlockMappingKey(c, m, e, next, first))
  {
    hide Shape, Node, Indicator, Indented, IsSimpleKey, Preparable, Stays, Opens, Closes;
    BlockCloses(m);
    var n := WritesIndent(c, m);
    if IsSimpleKey(c, e, next) { NodeMoves(c, m, n, ExpectBlockMappingSimpleValue, e, next, SIMPLE_KEY); }
    NodeMoves(c, m, Writes(n, [QUESTION], true, false, true), ExpectBlockMappingValue, e, next, VALUE);
  }

  lemma BlockCloses(m: Machine)
    requires Shape(m) && IsBlockState(m.state)
    ensures Moves(m, Closed(m, false))
  {
    hide Stays, Opens, Shape;
    FlowIsOver(m);
  }

  lemma FlowIsOver(m: Machine)
    requires Shape(m) && !IsFlowState(m.state)
    ensures m.flowLevel == 0
  {
    var all := m.states + [m.state];
    assert all[|all| - 1] == m.state;
  }

  lemma DocumentMoves(c: Config, m: Machine, e: Event, next: Option<Event>, first: bool)
    requires Shape(m) && !IsFlowState(m.state) && !IsBlockState(m.state)
    ensures Moves(m, Document(c, m, e, next, first)) && Moves(m, DocumentEnding(c, m, e))
    ensures Moves(m, Node(c, Pushed(m, ExpectDocumentEnd), e, next, Context(true, false, false, false)))
    ensures m.state.ExpectStreamStart? ==> Moves(m, Some(m.(state := ExpectFirstDocumentStart)))
  {
    hide Indicator, Indented, Node, Shape, IsEmptyDocument, Opens, Closes;
    NodeMoves(c, m, m, ExpectDocumentEnd, e, next, Context(true, false, false, false));
  }

  lemma ShapeKept(c: Config, m: Machine, e: Event, next: Option<Event>)
    requires Shape(m) && Handle(c, m, e, next).Some?
    ensures Shape(Handle(c, m, e, next).value)
  {
    hide Shape, Document, DocumentEnding, Node, FlowSequenceItem, FlowMappingKey, FlowMappingValue, BlockSequenceItem,
         BlockMappingKey, BlockMappingValue, Moves;
    if IsFlowState(m.state) {
      FlowMoves(c, m, e, next, m.state.ExpectFirstFlowSequenceItem? || m.state.ExpectFirstFlowMappingKey?
                               || m.state.ExpectFlowMappingSimpleValue?);
    } else if IsBlockState(m.state) {
      BlockMoves(c, m, e, next, m.state.ExpectFirstBlockSequenceItem? || m.state.ExpectFirstBlockMappingKey?
                                || m.state.ExpectBlockMappingSimpleValue?);
    } else {
      DocumentMoves(c, m, e, next, m.state.ExpectFirstDocumentStart?);
    }
    MovesKeepShape(m, Handle(c, m, e, next));
  }

  lemma {:induction false} ShapeAlways(c: Config, m: Machine, events: seq<Event>, next: Option<Event>)
    requires Shape(m) && Handled(c, m, events, next).Some?
    ensures Shape(Handled(c, m, events, next).value)
    decreases |events|
  {
    hide Handle, Shape;
    if events != [] {
      var after := if |events| > 1 then Some(events[1]) else next;
      ShapeKept(c, m, events[0], after);
      ShapeAlways(c, Handle(c, m, events[0], after).value, events[1..], next);
    }
  }

  lemma ShapeInitially()
    ensures Shape(INITIAL)
  {
  }

  // What is written behind.

  /** The rest of the output, with the NUL that the reader puts behind it. */
  function RestBehind(m: Machine, end: Machine): Text
    requires Grown(m, end)
  {
    end.out.text[|m.out.text|..] + [NUL]
  }

  /** From m, the events lead to the end of the stream. */
  ghost predicate Ends(c: Config, m: Machine, events: seq<Event>, end: Machine) {
    Handled(c, m, events, None) == Some(end) && end.state.ExpectNothing?
  }

  function After(events: seq<Event>): Option<Event> { if |events| > 1 then Some(events[1]) else None }

  lemma EndsStep(c: Config, m: Machine, events: seq<Event>, end: Machine)
    requires ConfigOk(c) && Shape(m) && Ends(c, m, events, end) && !m.state.ExpectNothing?
    ensures events != [] && Handle(c, m, events[0], After(events)).Some?
    ensures var n := Handle(c, m, events[0], After(events)).value;
            Shape(n) && Ends(c, n, events[1..], end) && Grown(m, n) && Grown(n, end) && Grown(m, end)
  {
    hide Handle, ConfigOk, Shape;
    HandledStep(c, m, events, None);
    ShapeKept(c, m, events[0], After(events));
    HandleGrows(c, m, events[0], After(events));
    var n := Handle(c, m, events[0], After(events)).value;
    RunGrows(c, n, events[1..], None);
    GrownTwice(m, n, end);
  }

  /** A line that ends whatever is indented deeper than `indent`, at the top of a document also the end of the
      stream and a document separator. */
  predicate EndLine(k: Text, indent: Option<nat>, j: nat) {
    && j < |k| && k[..j] == Spaces(j)
    && (if k[j] == NUL then j == 0 else !IsSeparation(k[j]))
    && (k[j] == NUL || (indent.Some? && j <= indent.value) || (j == 0 && AtDocumentSeparator(k)))
  }

  ghost predicate SomeEndLine(k: Text, indent: Option<nat>) { exists j: nat :: EndLine(k, indent, j) }

  /** The break in front of what is written on a new line. */
  function BreakOf(c: Config, o: Out): Text { if Inline(o) then c.bestLineBreak else [] }

  /** What is behind m starts with such a line; behind something on the line, with a line break in front of it. */
  ghost predicate LineBehind(c: Config, m: Machine, k: Text) {
    BreakOf(c, m.out) <= k && SomeEndLine(k[|BreakOf(c, m.out)|..], m.indent)
  }

  /** The states that start a new line, or end their collection. */
  predicate StartsNewLine(s: State) {
    s.ExpectDocumentEnd? || (IsBlockState(s) && !s.ExpectBlockMappingSimpleValue?)
  }

  lemma BehindPieces(a: Machine, b: Machine, end: Machine, w: Text)
    requires b.out.text == a.out.text + w && Grown(b, end)
    ensures Grown(a, end) && RestBehind(a, end) == w + RestBehind(b, end)
  {
  }

  lemma IndentWritten(c: Config, m: Machine)
    requires Inline(m.out) || OnNewLine(m.out)
    ensures
      var n := WritesIndent(c, m);
      && n.out.text == m.out.text + ((if Inline(m.out) then c.bestLineBreak else []) + Spaces(IndentOf(m)))
      && n.out.whitespace && n.out.column == IndentOf(m) && n.out.indention
  {
    assert [] + Spaces(IndentOf(m)) == Spaces(IndentOf(m));
    var lb := if Inline(m.out) then c.bestLineBreak else [];
    assert m.out.text + [] == m.out.text;
    assert m.out.text + lb + Spaces(IndentOf(m)) == m.out.text + (lb + Spaces(IndentOf(m)));
  }

  /** Something was appended to m's output, set apart by a space where it stands behind something. */
  ghost predicate Apart(m: Machine, n: Machine) { exists w: Text :: Appended(m.out, w, n.out) }

  lemma WritesApart(m: Machine, indicator: Text, a: bool, b: bool)
    requires indicator != [] && !IsSeparation(indicator[0])
    ensures Apart(m, Writes(m, indicator, true, a, b))
  {
    var lead := if m.out.whitespace then [] else [SPACE];
    assert Appended(m.out, lead + indicator, Writes(m, indicator, true, a, b).out);
  }

  lemma ApartGrows(a: Machine, b: Machine, d: Machine)
    requires Apart(a, b) && Grown(b, d)
    ensures Apart(a, d)
  {
    var w :| Appended(a.out, w, b.out);
    assert Appended(a.out, d.out.text[|a.out.text|..], d.out);
  }

  lemma TaggedApart(c: Config, m: Machine, e: Event)
    requires TagsOk(c) && (e.Scalar? || e.SequenceStart? || e.MappingStart?) && Tagged(c, m, e).Some?
    ensures var t := Tagged(c, m, e).value; t == m || Apart(m, t)
  {
    hide Indicator, IsAnchor, Appended, OmitsTag;
    var a := WithAnchor(m, e.anchor, 0x26).value;
    if e.anchor.Some? { WritesApart(m, [0x26] + e.anchor.value, false, false); }
    TagApart(c, a, e);
    var t := WithTag(c, a, e).value;
    if a != m && t != a {
      ApartIsGrown(a, t);
      ApartGrows(m, a, t);
    }
  }

  lemma ApartIsGrown(a: Machine, b: Machine)
    requires Apart(a, b)
    ensures Grown(a, b)
  {
  }

  lemma TagApart(c: Config, m: Machine, e: Event)
    requires TagsOk(c) && (e.Scalar? || e.SequenceStart? || e.MappingStart?) && WithTag(c, m, e).Some?
    ensures var t := WithTag(c, m, e).value; t == m || Apart(m, t)
  {
    hide Indicator, Appended, OmitsTag;
    var tag := if e.Scalar? && e.plainImplicit && e.tag.None? then Some([0x21]) else e.tag;
    if tag.Some? && tag.value != [] {
      assert IsTagText(c.tagText(tag.value));
      WritesApart(m, c.tagText(tag.value), false, false);
    }
  }

  /** A node is written apart, or nothing is written yet: an empty scalar, or a collection in block style. */
  lemma NodeApart(c: Config, m: Machine, e: Event, next: Option<Event>, context: Context)
    requires ConfigOk(c) && Node(c, m, e, next, context).Some?
    ensures
      var r := Node(c, m, e, next, context).value;
      Apart(m, r)
      || (Unwritten(m.out, r.out) && m.flowLevel <= 0
          && !IsSimpleKey(c, e, next)
          && (r.state.ExpectFirstBlockSequenceItem? || r.state.ExpectFirstBlockMappingKey?
              || (m.states != [] && r.state == m.states[|m.states| - 1])))
  {
    hide Appended, ConfigOk, Indicator, IsAnchor;
    var k, r := m.(context := context), Node(c, m, e, next, context).value;
    assert ConfigOk(c) ==> TagsOk(c) by { ConfigParts(c); }
    if e.Alias? {
      WritesApart(k, [0x2A] + e.name.value, false, false);
    } else {
      TaggedApart(c, k, e);
      var t := Tagged(c, k, e).value;
      TaggedOnly(c, k, e);
      ContentApart(c, t, e, next);
      if t != k {
        ContentGrows(c, t, e, next);
        ApartGrows(k, t, r);
      }
    }
  }

  lemma ConfigParts(c: Config)
    requires ConfigOk(c)
    ensures TagsOk(c) && ScalarsOk(c) && IsLineBreak(c.bestLineBreak) && c.bestIndent > 0
  {
  }

  lemma ContentGrows(c: Config, m: Machine, e: Event, next: Option<Event>)
    requires ConfigOk(c) && (e.Scalar? || e.SequenceStart? || e.MappingStart?) && Content(c, m, e, next).Some?
    ensures Grown(m, Content(c, m, e, next).value)
  {
    hide ConfigOk, Indicator, ScalarWritten;
    if e.Scalar? {
      ScalarGrows(c, m, e);
    } else {
      OutputGrows(c, m, [0x5B], true, true, false);
      OutputGrows(c, m, [0x7B], true, true, false);
    }
  }

  lemma ContentApart(c: Config, m: Machine, e: Event, next: Option<Event>)
    requires ConfigOk(c) && (e.Scalar? || e.SequenceStart? || e.MappingStart?) && Content(c, m, e, next).Some?
    ensures
      var r := Content(c, m, e, next).value;
      Apart(m, r)
      || (Unwritten(m.out, r.out) && m.flowLevel <= 0
          && !IsSimpleKey(c, e, next)
          && (r.state.ExpectFirstBlockSequenceItem? || r.state.ExpectFirstBlockMappingKey?
              || (m.states != [] && r.state == m.states[|m.states| - 1])))
  {
    if e.Scalar? {
      ScalarApart(c, m, e);
    } else {
      hide Indicator, Appended, ConfigOk;
      WritesApart(m, [0x5B], true, false);
      WritesApart(m, [0x7B], true, false);
    }
  }

  lemma ScalarApart(c: Config, m: Machine, e: Event)
    requires ConfigOk(c) && e.Scalar? && ScalarWritten(c, m, e).Some?
    ensures
      var r := ScalarWritten(c, m, e).value;
      Apart(m, r) || (Unwritten(m.out, r.out) && m.flowLevel <= 0 && e.value == [])
  {
    hide Appended;
    var deeper := Increased(c, m, true, false);
    var p := c.scalar(deeper.out, e, deeper.indent, m.context, m.flowLevel > 0);
    assert ScalarOk(m.out, e.value, m.context.simpleKey, m.flowLevel > 0, p);
  }

  // Lines behind a scalar.

  predicate EndsCollection(s: State, e: Event) {
    (s.ExpectBlockSequenceItem? && e.SequenceEnd?) || (s.ExpectBlockMappingKey? && e.MappingEnd?)
  }

  lemma IndentSome(m: Machine)
    requires Shape(m) && IsBlockState(m.state)
    ensures m.indent.Some? && m.states != [] && m.flowLevel == 0
  {
    FlowIsOver(m);
  }

  /** The end of a block collection: the line that ends what is outside ends what is inside. */
  lemma ClosedLine(c: Config, m: Machine, n: Machine)
    requires Shape(m) && IsBlockState(m.state) && Closes(m, n)
    ensures StartsNewLine(n.state)
    ensures forall k: Text :: SomeEndLine(k, n.indent) ==> SomeEndLine(k, m.indent)
  {
    IndentSome(m);
    var all := m.states + [m.state];
    assert all[|all| - 2] == n.state && all[|all| - 1] == m.state;
    forall k: Text | SomeEndLine(k, n.indent) ensures SomeEndLine(k, m.indent) {
      var j: nat :| EndLine(k, n.indent, j);
      assert EndLine(k, m.indent, j);
    }
  }

  /** A line of a block collection is begun with x. */
  lemma ItemLine(c: Config, m: Machine, n: Machine, end: Machine, x: Char)
    requires Shape(m) && IsBlockState(m.state) && (Inline(m.out) || OnNewLine(m.out)) && !IsSeparation(x)
    requires WritesIndent(c, m).out.text + [x] <= n.out.text && Grown(n, end) && Grown(m, end)
    ensures LineBehind(c, m, RestBehind(m, end))
  {
    hide Shape;
    IndentSome(m);
    IndentWritten(c, m);
    var lb := BreakOf(c, m.out);
    var j := IndentOf(m);
    var k := RestBehind(m, end);
    var rest := end.out.text[|m.out.text|..];
    assert m.out.text + (lb + Spaces(j)) + [x] <= end.out.text;
    assert lb + Spaces(j) + [x] <= rest by { PrefixBehind(m.out.text, lb + Spaces(j) + [x], end.out.text); }
    assert k[|lb|..][..j] == Spaces(j) && k[|lb|..][j] == x;
    assert EndLine(k[|lb|..], m.indent, j);
  }

  lemma PrefixBehind(a: Text, w: Text, b: Text)
    requires a + w <= b
    ensures |a| <= |b| && w <= b[|a|..]
  {
  }

  /** The indentation, the indicator or the simple key of a block collection's item. */
  lemma ItemBegins(c: Config, m: Machine, e: Event, next: Option<Event>, n: Machine) returns (x: Char)
    requires ConfigOk(c) && IsBlockState(m.state) && StartsNewLine(m.state) && Handle(c, m, e, next) == Some(n)
    requires Inline(m.out) || OnNewLine(m.out)
    requires !EndsCollection(m.state, e)
    ensures !IsSeparation(x) && WritesIndent(c, m).out.text + [x] <= n.out.text
  {
    hide Node, ConfigOk, IsSimpleKey, Preparable, IsSeparation, Indented, Indicator, Document, DocumentEnding,
         FlowSequenceItem, FlowMappingKey, FlowMappingValue, Closed;
    IndicatorsAreText();
    IndentWritten(c, m);
    var p := WritesIndent(c, m);
    if m.state.ExpectFirstBlockSequenceItem? || m.state.ExpectBlockSequenceItem? {
      x := DASH;
      IndicatorBegins(c, p, DASH, ExpectBlockSequenceItem, e, next, ITEM);
    } else if m.state.ExpectBlockMappingValue? {
      x := COLON;
      IndicatorBegins(c, p, COLON, ExpectBlockMappingKey, e, next, VALUE);
    } else {
      x := KeyBegins(c, m, p, e, next, n);
    }
  }

  lemma KeyBegins(c: Config, m: Machine, p: Machine, e: Event, next: Option<Event>, n: Machine) returns (x: Char)
    requires ConfigOk(c) && p == WritesIndent(c, m) && p.out.whitespace
    requires BlockMappingKey(c, m, e, next, true) == Some(n)
    ensures !IsSeparation(x) && p.out.text + [x] <= n.out.text
  {
    hide Node, ConfigOk, IsSimpleKey, Preparable, IsSeparation, Indented, Indicator;
    IndicatorsAreText();
    if IsSimpleKey(c, e, next) {
      NodeApart(c, Pushed(p, ExpectBlockMappingSimpleValue), e, next, SIMPLE_KEY);
      var w :| Appended(p.out, w, n.out);
      x := w[0];
    } else {
      x := QUESTION;
      IndicatorBegins(c, p, QUESTION, ExpectBlockMappingValue, e, next, VALUE);
    }
  }

  lemma IndicatorBegins(c: Config, p: Machine, x: Char, s: State, e: Event, next: Option<Event>, context: Context)
    requires ConfigOk(c) && p.out.whitespace
    ensures var r := Node(c, Pushed(Writes(p, [x], true, false, true), s), e, next, context);
            r.Some? ==> p.out.text + [x] <= r.value.out.text
  {
    hide Node, ConfigOk;
    NodeAfter(c, Writes(p, [x], true, false, true), s, e, next, context);
  }

  lemma IndicatorsAreText()
    ensures !IsSeparation(DASH) && !IsSeparation(COLON) && !IsSeparation(QUESTION)
  {
  }

  /** Where a new line is due: it is one that ends the scalar, however many collections end first. */
  lemma {:induction false} LineNext(c: Config, m: Machine, events: seq<Event>, end: Machine)
    requires ConfigOk(c) && Shape(m) && Ends(c, m, events, end) && StartsNewLine(m.state)
    requires Inline(m.out) || OnNewLine(m.out)
    ensures Grown(m, end) && LineBehind(c, m, RestBehind(m, end))
    decreases |events|, 1
  {
    hide ConfigOk, Shape, Ends, LineBehind, Grown, Handle;
    EndsStep(c, m, events, end);
    var e, n := events[0], Handle(c, m, events[0], After(events)).value;
    if m.state.ExpectDocumentEnd? {
      DocumentLine(c, m, events, end);
    } else if EndsCollection(m.state, e) {
      ClosedLines(c, m, events, end);
    } else {
      var x := ItemBegins(c, m, e, After(events), n);
      ItemLine(c, m, n, end, x);
    }
  }

  lemma {:induction false} ClosedLines(c: Config, m: Machine, events: seq<Event>, end: Machine)
    requires ConfigOk(c) && Shape(m) && Ends(c, m, events, end) && StartsNewLine(m.state) && IsBlockState(m.state)
    requires (Inline(m.out) || OnNewLine(m.out)) && Grown(m, end) && events != []
    requires EndsCollection(m.state, events[0])
    ensures LineBehind(c, m, RestBehind(m, end))
    decreases |events|, 0
  {
    hide ConfigOk, Shape, Ends, Grown;
    EndsStep(c, m, events, end);
    var n := Handle(c, m, events[0], After(events)).value;
    assert Closes(m, n) && n.out == m.out by { IndentSome(m); }
    ClosedLine(c, m, n);
    LineNext(c, n, events[1..], end);
    LineOutside(c, m, n, RestBehind(n, end));
  }

  lemma LineOutside(c: Config, m: Machine, n: Machine, k: Text)
    requires LineBehind(c, n, k) && n.out == m.out
    requires forall k: Text :: SomeEndLine(k, n.indent) ==> SomeEndLine(k, m.indent)
    ensures LineBehind(c, m, k)
  {
    hide SomeEndLine;
  }

  lemma DocumentIndent(m: Machine)
    requires Shape(m) && !IsFlowState(m.state) && !IsBlockState(m.state)
    ensures m.states == [] && m.indent == None && m.flowLevel == 0
  {
    FlowIsOver(m);
    var all := m.states + [m.state];
    assert all[|all| - 1] == m.state;
  }

  lemma SeparatorLine(c: Config, m: Machine, end: Machine, x: Char, y: Char)
    requires Grown(m, end) && (x == DASH || x == DOT) && IsSeparation(y)
    requires m.out.text + (BreakOf(c, m.out) + [x, x, x, y]) <= end.out.text + [NUL]
    ensures LineBehind(c, m, RestBehind(m, end))
  {
    var lb := BreakOf(c, m.out);
    var k := RestBehind(m, end);
    PrefixBehind(m.out.text, lb + [x, x, x, y], end.out.text + [NUL]);
    assert (end.out.text + [NUL])[|m.out.text|..] == k;
    var u := k[|lb|..];
    assert u[0] == (lb + [x, x, x, y])[|lb|] && u[1] == (lb + [x, x, x, y])[|lb| + 1];
    assert u[2] == (lb + [x, x, x, y])[|lb| + 2] && u[3] == (lb + [x, x, x, y])[|lb| + 3];
    assert EndLine(u, m.indent, 0);
  }

  /** Behind the root of a document: a document separator on the next line, or the end of the stream. */
  lemma {:induction false} DocumentLine(c: Config, m: Machine, events: seq<Event>, end: Machine)
    requires ConfigOk(c) && Shape(m) && Ends(c, m, events, end) && m.state.ExpectDocumentEnd?
    requires (Inline(m.out) || OnNewLine(m.out)) && Grown(m, end)
    ensures LineBehind(c, m, RestBehind(m, end))
    decreases |events|, 0
  {
    hide ConfigOk, Shape, Ends, Grown, LineBehind, Indented, AtDocumentSeparator;
    EndsStep(c, m, events, end);
    DocumentIndent(m);
    IndentWritten(c, m);
    var e, n := events[0], Handle(c, m, events[0], After(events)).value;
    var p := WritesIndent(c, m);
    if e.explicit {
      DotsBehind(c, m, p, n, end);
    } else {
      BetweenLine(c, m, n, events[1..], end);
    }
  }

  lemma {:induction false} BetweenLine(c: Config, m: Machine, n: Machine, events: seq<Event>, end: Machine)
    requires ConfigOk(c) && Shape(n) && Ends(c, n, events, end) && n.state.ExpectDocumentStart?
    requires m.indent == None && (Inline(m.out) || OnNewLine(m.out)) && Grown(m, end) && n.out == WritesIndent(c, m).out
    ensures LineBehind(c, m, RestBehind(m, end))
    decreases |events|, 0
  {
    hide ConfigOk, Shape, Ends, Grown, LineBehind, Indented, AtDocumentSeparator;
    EndsStep(c, n, events, end);
    ConfigParts(c);
    DocumentIndent(n);
    IndentWritten(c, m);
    IndentWritten(c, n);
    var e, r := events[0], Handle(c, n, events[0], After(events)).value;
    if e.StreamEnd? {
      StreamLine(c, m, n, r, events, end);
    } else if c.canonical {
      CanonicalDashes(c, m, n, r);
      DashesLine(c, m, r, end, c.bestLineBreak[0]);
    } else {
      RootFollows(c, r, events[1..], end);
      DashesLine(c, m, r, end, RestBehind(r, end)[0]);
    }
  }

  lemma CanonicalDashes(c: Config, m: Machine, n: Machine, r: Machine)
    requires ConfigOk(c) && m.indent == n.indent == None && (Inline(m.out) || OnNewLine(m.out))
    requires n.out == WritesIndent(c, m).out
    requires r.out == WritesIndent(c, Writes(WritesIndent(c, n), [DASH, DASH, DASH], true, false, false)).out
    ensures c.bestLineBreak != [] && IsSeparation(c.bestLineBreak[0])
    ensures m.out.text + (BreakOf(c, m.out) + [DASH, DASH, DASH, c.bestLineBreak[0]]) <= r.out.text
  {
    hide Indented;
    ConfigParts(c);
    IndentWritten(c, m);
    IndentWritten(c, n);
    IndentWritten(c, Writes(WritesIndent(c, n), [DASH, DASH, DASH], true, false, false));
  }

  lemma DashesLine(c: Config, m: Machine, r: Machine, end: Machine, y: Char)
    requires Grown(m, end) && Grown(r, end) && IsSeparation(y)
    requires m.out.text + (BreakOf(c, m.out) + [DASH, DASH, DASH, y]) <= r.out.text
             || (r.out.text == m.out.text + (BreakOf(c, m.out) + [DASH, DASH, DASH]) && y == RestBehind(r, end)[0])
    ensures LineBehind(c, m, RestBehind(m, end))
  {
    hide LineBehind;
    assert r.out.text + [RestBehind(r, end)[0]] <= end.out.text + [NUL];
    SeparatorLine(c, m, end, DASH, y);
  }

  lemma StreamLine(c: Config, m: Machine, n: Machine, r: Machine, events: seq<Event>, end: Machine)
    requires ConfigOk(c) && events != [] && Ends(c, r, events[1..], end) && events[0].StreamEnd?
    requires n.state.ExpectDocumentStart? && n.indent == m.indent == None && (Inline(m.out) || OnNewLine(m.out))
    requires Grown(m, end) && Grown(r, end)
    requires n.out == WritesIndent(c, m).out && Handle(c, n, events[0], After(events)) == Some(r)
    ensures LineBehind(c, m, RestBehind(m, end))
  {
    hide Indented;
    if n.out.openEnded {
      DotsBehind(c, m, n, r, end);
    } else {
      IndentWritten(c, m);
      var lb, k := BreakOf(c, m.out), RestBehind(m, end);
      assert end == r && k == lb + [NUL];
      assert k[|lb|..] == [NUL] && EndLine(k[|lb|..], m.indent, 0);
    }
  }

  lemma DotsBehind(c: Config, m: Machine, n: Machine, r: Machine, end: Machine)
    requires ConfigOk(c) && n.indent == m.indent == None && (Inline(m.out) || OnNewLine(m.out))
    requires Grown(m, end) && Grown(r, end) && n.out == WritesIndent(c, m).out
    requires r.out == WritesIndent(c, Writes(n, [DOT, DOT, DOT], true, false, false)).out
    ensures LineBehind(c, m, RestBehind(m, end))
  {
    hide Indented, LineBehind;
    ConfigParts(c);
    IndentWritten(c, m);
    IndentWritten(c, Writes(n, [DOT, DOT, DOT], true, false, false));
    var y := c.bestLineBreak[0];
    assert m.out.text + (BreakOf(c, m.out) + [DOT, DOT, DOT, y]) <= r.out.text;
    SeparatorLine(c, m, end, DOT, y);
  }

  lemma {:induction false} RootFollows(c: Config, m: Machine, events: seq<Event>, end: Machine)
    requires ConfigOk(c) && Shape(m) && Ends(c, m, events, end) && m.state.ExpectDocumentRoot? && Inline(m.out)
    ensures Grown(m, end) && IsSeparation(RestBehind(m, end)[0])
    decreases |events|, 0
  {
    hide ConfigOk, Shape, Ends, Grown, Node, IsSeparation;
    EndsStep(c, m, events, end);
    NodeFollows(c, m, ExpectDocumentEnd, events[0], After(events), Context(true, false, false, false),
                Handle(c, m, events[0], After(events)).value, events[1..], end);
  }

  /** A node behind an indicator: white space is in front of it, or nothing of it is there. */
  lemma {:induction false} NodeFollows(c: Config, m: Machine, s: State, e: Event, next: Option<Event>, context: Context,
                                       r: Machine, events: seq<Event>, end: Machine)
    requires ConfigOk(c) && Inline(m.out) && Shape(r) && Node(c, Pushed(m, s), e, next, context) == Some(r)
    requires Ends(c, r, events, end) && Grown(r, end) && Grown(m, end) && (m.flowLevel > 0 || StartsNewLine(s))
    ensures IsSeparation(RestBehind(m, end)[0])
    decreases |events|, 2
  {
    hide ConfigOk, Shape, Ends, Node, Handled;
    NodeApart(c, Pushed(m, s), e, next, context);
    ConfigParts(c);
    if Apart(Pushed(m, s), r) {
      ApartGrows(Pushed(m, s), r, end);
      var w :| Appended(m.out, w, end.out);
      assert RestBehind(m, end)[0] == w[0];
    } else {
      assert StartsNewLine(r.state) && Inline(r.out);
      LineNext(c, r, events, end);
      assert RestBehind(m, end) == RestBehind(r, end);
      assert RestBehind(m, end)[0] == c.bestLineBreak[0];
    }
  }

  // In flow collections, and behind simple keys.

  predicate ClosesItem(x: Char) { x == COMMA || x == 0x5D || x == 0x7D }

  lemma FlowItemBegins(c: Config, m: Machine, e: Event, next: Option<Event>, n: Machine) returns (x: Char)
    requires ConfigOk(c) && Handle(c, m, e, next) == Some(n)
    requires m.state.ExpectFlowSequenceItem? || m.state.ExpectFlowMappingKey?
    ensures ClosesItem(x) && m.out.text + [x] <= n.out.text
  {
    hide Node, ConfigOk, IsSimpleKey, Preparable, Indented;
    var p := Writes(m, [COMMA], false, false, false);
    OutputGrows(c, p, [], false, false, false);
    var w := Wraps(c, p);
    if (m.state.ExpectFlowSequenceItem? && e.SequenceEnd?) || (m.state.ExpectFlowMappingKey? && e.MappingEnd?) {
      var q := IndentPopped(m).value.(flowLevel := m.flowLevel - 1);
      OutputGrows(c, Writes(q, [COMMA], false, false, false), [], false, false, false);
      x := if c.canonical then COMMA else if e.SequenceEnd? then 0x5D else 0x7D;
    } else {
      x := COMMA;
      var v := Writes(w, [QUESTION], true, false, false);
      OutputGrows(c, w, [QUESTION], true, false, false);
      NodeAfter(c, w, ExpectFlowSequenceItem, e, next, ITEM);
      NodeAfter(c, w, ExpectFlowMappingSimpleValue, e, next, SIMPLE_KEY);
      NodeAfter(c, v, ExpectFlowMappingValue, e, next, VALUE);
    }
  }

  /** ':' with white space behind it, and in front of it what write_indent or write_indicator put there. */
  lemma ColonBehind(c: Config, m: Machine, p: Machine, end: Machine, pre: Text)
    requires p.out.text == m.out.text + (pre + [COLON]) && Grown(p, end) && IsSeparation(RestBehind(p, end)[0])
    ensures Grown(m, end) && |pre| + 2 <= |RestBehind(m, end)| && RestBehind(m, end)[..|pre|] == pre
    ensures RestBehind(m, end)[|pre|] == COLON && IsSeparation(RestBehind(m, end)[|pre| + 1])
  {
    BehindPieces(m, p, end, pre + [COLON]);
  }

  lemma SimpleValueFollows(c: Config, m: Machine, events: seq<Event>, end: Machine)
    requires ConfigOk(c) && Shape(m) && Ends(c, m, events, end) && Inline(m.out)
    requires m.state.ExpectFlowMappingSimpleValue? || m.state.ExpectBlockMappingSimpleValue?
    ensures Grown(m, end)
    ensures var k := RestBehind(m, end); |k| >= 2 && k[0] == COLON && IsSeparation(k[1])
  {
    hide ConfigOk, Shape, Ends, Node, IsSeparation;
    EndsStep(c, m, events, end);
    var e, n := events[0], Handle(c, m, events[0], After(events)).value;
    var p := Writes(m, [COLON], false, false, false);
    var s := if m.state.ExpectFlowMappingSimpleValue? then ExpectFlowMappingKey else ExpectBlockMappingKey;
    FlowLevels(m);
    NodeGrows(c, Pushed(p, s), e, After(events), VALUE);
    GrownTwice(Pushed(p, s), n, end);
    NodeFollows(c, p, s, e, After(events), VALUE, n, events[1..], end);
    assert [] + [COLON] == [COLON];
    ColonBehind(c, m, p, end, []);
  }

  lemma FlowLevels(m: Machine)
    requires Shape(m)
    ensures IsFlowState(m.state) <==> m.flowLevel > 0
  {
    var all := m.states + [m.state];
    assert all[|all| - 1] == m.state;
  }

  /** In front of the ':' of a complex key in braces: a new line where the line has become too long, or a space. */
  function BeforeColon(c: Config, m: Machine): Text {
    if c.canonical || m.out.column > c.bestWidth then c.bestLineBreak + Spaces(IndentOf(m)) else [SPACE]
  }

  predicate ColonAt(k: Text, pre: Text) {
    |pre| + 2 <= |k| && k[..|pre|] == pre && k[|pre|] == COLON && IsSeparation(k[|pre| + 1])
  }

  lemma ComplexValueFollows(c: Config, m: Machine, events: seq<Event>, end: Machine)
    requires ConfigOk(c) && Shape(m) && Ends(c, m, events, end) && Inline(m.out) && m.state.ExpectFlowMappingValue?
    ensures Grown(m, end)
    ensures ColonAt(RestBehind(m, end), BeforeColon(c, m))
  {
    hide ConfigOk, Shape, Ends, Node, IsSeparation, Indented;
    EndsStep(c, m, events, end);
    IndentWritten(c, m);
    var e, n := events[0], Handle(c, m, events[0], After(events)).value;
    var p := Writes(Wraps(c, m), [COLON], true, false, false);
    var pre := BeforeColon(c, m);
    FlowLevels(m);
    NodeGrows(c, Pushed(p, ExpectFlowMappingKey), e, After(events), VALUE);
    GrownTwice(Pushed(p, ExpectFlowMappingKey), n, end);
    NodeFollows(c, p, ExpectFlowMappingKey, e, After(events), VALUE, n, events[1..], end);
    assert p.out.text == m.out.text + (pre + [COLON]);
    ColonBehind(c, m, p, end, pre);
  }
}
