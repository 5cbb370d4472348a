/** The emitter accepts every stream of the event grammar whose anchors and tags are acceptable, and every
    node leaves its stacks as it found them. */
module EmitterStructure {
  import opened Options
  import opened Chars
  import opened EmitterMachine
  import opened EmitterOutput
  import E = Events

  type Event = E.Event

  // Trees with acceptable anchors and tags.

  predicate AnchorOk(a: E.Anchor) { a.Some? ==> IsAnchor(a.value) }

  predicate TagOk(tag: Option<Text>, implicit: bool) { if tag.None? then implicit else tag.value != [] }

  predicate NodeOk(n: E.Node) {
    match n
    case AliasNode(a) => a.Some? && AnchorOk(a)
    case ScalarNode(a, t, p, q, _) => AnchorOk(a) && TagOk(t, p || q)
    case SequenceNode(a, t, i, _, items) => AnchorOk(a) && TagOk(t, i) && ItemsOk(items)
    case MappingNode(a, t, i, _, pairs) => AnchorOk(a) && TagOk(t, i) && PairsOk(pairs)
  }

  predicate ItemsOk(l: E.Nodes) { l.NoNodes? || (NodeOk(l.head) && ItemsOk(l.tail)) }

  predicate PairsOk(l: E.Pairs) { l.NoPairs? || (NodeOk(l.key) && NodeOk(l.value) && PairsOk(l.tail)) }

  predicate DocumentsOk(docs: seq<E.Document>) { forall d <- docs :: NodeOk(d.root) }

  /** n is m with its top state entered and the stacks otherwise the same. */
  predicate Returned(m: Machine, n: Machine) {
    && m.states != [] && n.state == m.states[|m.states| - 1] && n.states == m.states[..|m.states| - 1]
    && SameLevel(m, n)
  }

  predicate SameLevel(m: Machine, n: Machine) {
    n.indents == m.indents && n.indent == m.indent && n.flowLevel == m.flowLevel
  }

  /** Inside a collection: its own indentation on top of the one outside. */
  predicate Inside(m: Machine, n: Machine, flow: bool) {
    && n.states == m.states && n.indents == m.indents + [m.indent] && n.flowLevel == m.flowLevel + if flow then 1 else 0
  }

  function First(n: E.Node): Event { E.NodeEvents(n)[0] }

  /** The event behind the first one of a node. */
  function Second(n: E.Node, next: Option<Event>): Option<Event> {
    if |E.NodeEvents(n)| > 1 then Some(E.NodeEvents(n)[1]) else next
  }

  // The start of a node.

  lemma AliasReturns(m: Machine, anchor: E.Anchor)
    requires m.states != [] && anchor.Some? && IsAnchor(anchor.value)
    ensures AliasWritten(m, anchor).Some? && Returned(m, AliasWritten(m, anchor).value)
  {
    hide Indicator, IsAnchor;
  }

  /** Anchor and tag are written, and nothing else changes. */
  predicate OutputOnly(m: Machine, n: Machine) {
    n.state == m.state && n.states == m.states && n.context == m.context && SameLevel(m, n)
  }

  lemma TagIsAccepted(c: Config, m: Machine, e: Event)
    requires e.Scalar? || e.SequenceStart? || e.MappingStart?
    requires AnchorOk(e.anchor) && TagOk(e.tag, if e.Scalar? then e.plainImplicit || e.quotedImplicit else e.implicit)
    ensures Tagged(c, m, e).Some? && OutputOnly(m, Tagged(c, m, e).value)
  {
    hide Indicator, IsAnchor;
  }

  lemma ScalarReturns(c: Config, m: Machine, e: Event)
    requires e.Scalar? && m.states != []
    ensures ScalarWritten(c, m, e).Some? && Returned(m, ScalarWritten(c, m, e).value)
  {
  }

  /** A collection is entered, in brackets if it is empty. */
  predicate SequenceEntered(m: Machine, n: Machine, next: Option<Event>) {
    if n.state == ExpectFirstFlowSequenceItem then Inside(m, n, true)
    else n.state == ExpectFirstBlockSequenceItem && Inside(m, n, false) && next != Some(E.SequenceEnd)
  }

  predicate MappingEntered(m: Machine, n: Machine, next: Option<Event>) {
    if n.state == ExpectFirstFlowMappingKey then Inside(m, n, true)
    else n.state == ExpectFirstBlockMappingKey && Inside(m, n, false) && next != Some(E.MappingEnd)
  }

  lemma CollectionEnters(c: Config, m: Machine, e: Event, next: Option<Event>)
    requires e.SequenceStart? || e.MappingStart?
    ensures Content(c, m, e, next).Some?
    ensures e.SequenceStart? ==> SequenceEntered(m, Content(c, m, e, next).value, next)
    ensures e.MappingStart? ==> MappingEntered(m, Content(c, m, e, next).value, next)
  {
    hide Indicator;
  }

  lemma NodeEnters(c: Config, m: Machine, n: E.Node, next: Option<Event>, context: Context)
    requires NodeOk(n) && m.states != []
    ensures
      var r := Node(c, m, First(n), next, context);
      r.Some? &&
      match n
      case AliasNode(_) => Returned(m, r.value)
      case ScalarNode(_, _, _, _, _) => Returned(m, r.value)
      case SequenceNode(_, _, _, _, _) => SequenceEntered(m, r.value, next)
      case MappingNode(_, _, _, _, _) => MappingEntered(m, r.value, next)
  {
    hide AliasWritten, Tagged, IsAnchor, ScalarWritten, OpensFlow;
    var e, k := First(n), m.(context := context);
    if n.AliasNode? {
      AliasReturns(k, e.name);
    } else {
      TagIsAccepted(c, k, e);
      var t := Tagged(c, k, e).value;
      if n.ScalarNode? {
        ScalarReturns(c, t, e);
      } else {
        CollectionEnters(c, t, e, next);
        hide Content;
      }
    }
  }

  lemma KeyPreparable(n: E.Node)
    requires NodeOk(n)
    ensures Preparable(First(n)) && !First(n).SequenceEnd? && !First(n).MappingEnd?
  {
    hide IsAnchor;
  }

  // Whole nodes.

  lemma NodeSplits(n: E.Node)
    ensures
      var all := E.NodeEvents(n);
      all != [] &&
      match n
      case AliasNode(_) => all[1..] == []
      case ScalarNode(_, _, _, _, _) => all[1..] == []
      case SequenceNode(_, _, _, _, items) => all[1..] == E.ItemsEvents(items) + [E.SequenceEnd]
      case MappingNode(_, _, _, _, pairs) => all[1..] == E.PairsEvents(pairs) + [E.MappingEnd]
  {
  }

  /** A node is accepted, and behind it the state pushed before it is entered. */
  lemma {:induction false} NodeRuns(c: Config, m: Machine, n: E.Node, next: Option<Event>, context: Context)
    returns (r: Machine)
    requires NodeOk(n) && m.states != []
    ensures Returned(m, r)
    ensures
      var entered := Node(c, m, First(n), Second(n, next), context);
      entered.Some? && Handled(c, entered.value, E.NodeEvents(n)[1..], next) == Some(r)
    decreases n, 1
  {
    NodeSplits(n);
    NodeEnters(c, m, n, Second(n, next), context);
    hide Node, NodeOk, Handle;
    var entered := Node(c, m, First(n), Second(n, next), context).value;
    match n
    case AliasNode(_) => r := entered;
    case ScalarNode(_, _, _, _, _) => r := entered;
    case SequenceNode(_, _, _, _, items) => r := ItemsRun(c, m, entered, items, next);
    case MappingNode(_, _, _, _, pairs) => r := PairsRun(c, m, entered, pairs, next);
  }

  /** A node in front of other events, in a state that pushes another one and expects it. */
  lemma {:induction false} NodeStep(c: Config, e: Machine, p: Machine, n: E.Node, rest: seq<Event>, next: Option<Event>,
                                    context: Context)
    returns (q: Machine)
    requires NodeOk(n) && p.states != [] && rest != []
    requires Handle(c, e, First(n), Second(n, Some(rest[0]))) == Node(c, p, First(n), Second(n, Some(rest[0])), context)
    ensures Returned(p, q) && Handled(c, e, E.NodeEvents(n) + rest, next) == Handled(c, q, rest, next)
    decreases n, 2
  {
    hide Node, Handle, NodeOk, Handled, E.NodeEvents;
    q := NodeRuns(c, p, n, Some(rest[0]), context);
    NodeInFront(n, rest);
    HandledStep(c, e, E.NodeEvents(n) + rest, next);
    var entered := Node(c, p, First(n), Second(n, Some(rest[0])), context).value;
    HandledJoin(c, entered, E.NodeEvents(n)[1..], rest, next);
  }

  lemma NodeInFront(n: E.Node, rest: seq<Event>)
    requires rest != []
    ensures
      var all := E.NodeEvents(n);
      && all != [] && (all + rest)[0] == First(n) && (all + rest)[1..] == all[1..] + rest
      && |all + rest| > 1 && Some((all + rest)[1]) == Second(n, Some(rest[0]))
  {
    NodeSplits(n);
    hide E.NodeEvents;
  }

  /** p is e with s to be entered behind the node that comes next. */
  predicate Before(e: Machine, p: Machine, s: State) { p.states == e.states + [s] && SameLevel(e, p) }

  lemma Passed(m: Machine, e: Machine, p: Machine, q: Machine, s: State, flow: bool)
    requires Inside(m, e, flow) && Before(e, p, s) && Returned(p, q)
    ensures q.state == s && Inside(m, q, flow)
  {
    assert p.states[..|p.states| - 1] == e.states;
  }

  lemma Pushes(e: Machine, w: Machine, s: State)
    requires w.states == e.states && SameLevel(e, w)
    ensures Before(e, Pushed(w, s), s) && Pushed(w, s).states != []
  {
  }

  /** Where a collection stands in front of an item or of its end; `more` if an item must come. */
  predicate AtItem(s: State, more: bool) {
    || s == ExpectFirstFlowSequenceItem || s == ExpectFlowSequenceItem || s == ExpectBlockSequenceItem
    || (s == ExpectFirstBlockSequenceItem && more)
  }

  predicate AtKey(s: State, more: bool) {
    || s == ExpectFirstFlowMappingKey || s == ExpectFlowMappingKey || s == ExpectBlockMappingKey
    || (s == ExpectFirstBlockMappingKey && more)
  }

  predicate AtValue(s: State) {
    || s == ExpectFlowMappingSimpleValue || s == ExpectFlowMappingValue
    || s == ExpectBlockMappingSimpleValue || s == ExpectBlockMappingValue
  }

  lemma {:induction false} ItemsRun(c: Config, m: Machine, e: Machine, items: E.Nodes, next: Option<Event>)
    returns (r: Machine)
    requires ItemsOk(items) && m.states != []
    requires AtItem(e.state, items.MoreNodes?) && Inside(m, e, IsFlowState(e.state))
    ensures Returned(m, r) && Handled(c, e, E.ItemsEvents(items) + [E.SequenceEnd], next) == Some(r)
    decreases items, 0
  {
    hide Node, NodeOk, Handle, Inside, Handled;
    if items.NoNodes? {
      assert [] + [E.SequenceEnd] == [E.SequenceEnd];
      HandledStep(c, e, [E.SequenceEnd], next);
      r := SequenceEnds(c, m, e, next);
      NothingHandled(c, r, [E.SequenceEnd], next);
    } else {
      var rest := E.ItemsEvents(items.tail) + [E.SequenceEnd];
      assert E.ItemsEvents(items) + [E.SequenceEnd] == E.NodeEvents(items.head) + rest;
      var p := ItemEnters(c, e, items.head, Second(items.head, Some(rest[0])));
      var q := NodeStep(c, e, p, items.head, rest, next, ITEM);
      var s := if IsFlowState(e.state) then ExpectFlowSequenceItem else ExpectBlockSequenceItem;
      Passed(m, e, p, q, s, IsFlowState(e.state));
      r := ItemsRun(c, m, q, items.tail, next);
    }
  }

  lemma NothingHandled(c: Config, m: Machine, events: seq<Event>, next: Option<Event>)
    requires |events| == 1
    ensures Handled(c, m, events[1..], next) == Some(m)
  {
  }

  lemma SequenceEnds(c: Config, m: Machine, e: Machine, next: Option<Event>) returns (r: Machine)
    requires m.states != [] && AtItem(e.state, false) && Inside(m, e, IsFlowState(e.state))
    ensures Returned(m, r) && Handle(c, e, E.SequenceEnd, next) == Some(r)
  {
    hide Node, Indicator, Indented;
    assert e.indents[..|e.indents| - 1] == m.indents;
    r := Handle(c, e, E.SequenceEnd, next).value;
  }

  lemma ItemEnters(c: Config, e: Machine, n: E.Node, next: Option<Event>) returns (p: Machine)
    requires NodeOk(n) && AtItem(e.state, true)
    ensures Before(e, p, if IsFlowState(e.state) then ExpectFlowSequenceItem else ExpectBlockSequenceItem)
    ensures p.states != []
    ensures Handle(c, e, First(n), next) == Node(c, p, First(n), next, ITEM)
  {
    KeyPreparable(n);
    hide Node, NodeOk, Indicator, Indented;
    var w := if e.state == ExpectFirstFlowSequenceItem then Wraps(c, e)
             else if e.state == ExpectFlowSequenceItem then Wraps(c, Writes(e, [COMMA], false, false, false))
             else Writes(WritesIndent(c, e), [DASH], true, false, true);
    var s := if IsFlowState(e.state) then ExpectFlowSequenceItem else ExpectBlockSequenceItem;
    p := Pushed(w, s);
    Pushes(e, w, s);
  }

  lemma {:induction false} PairsRun(c: Config, m: Machine, e: Machine, pairs: E.Pairs, next: Option<Event>)
    returns (r: Machine)
    requires PairsOk(pairs) && m.states != []
    requires AtKey(e.state, pairs.MorePairs?) && Inside(m, e, IsFlowState(e.state))
    ensures Returned(m, r) && Handled(c, e, E.PairsEvents(pairs) + [E.MappingEnd], next) == Some(r)
    decreases pairs, 0
  {
    hide Node, NodeOk, Handle, Inside, Handled;
    if pairs.NoPairs? {
      assert [] + [E.MappingEnd] == [E.MappingEnd];
      HandledStep(c, e, [E.MappingEnd], next);
      r := MappingEnds(c, m, e, next);
      NothingHandled(c, r, [E.MappingEnd], next);
    } else {
      var rest := E.PairsEvents(pairs.tail) + [E.MappingEnd];
      var value := E.NodeEvents(pairs.value) + rest;
      NodeSplits(pairs.value);
      assert E.PairsEvents(pairs) + [E.MappingEnd] == E.NodeEvents(pairs.key) + value;
      var p, s, context := KeyEnters(c, e, pairs.key, Second(pairs.key, Some(value[0])));
      var q := NodeStep(c, e, p, pairs.key, value, next, context);
      Passed(m, e, p, q, s, IsFlowState(e.state));
      var k := ValueEnters(c, q, pairs.value, Second(pairs.value, Some(rest[0])));
      var t := NodeStep(c, q, k, pairs.value, rest, next, VALUE);
      var last := if IsFlowState(e.state) then ExpectFlowMappingKey else ExpectBlockMappingKey;
      Passed(m, q, k, t, last, IsFlowState(e.state));
      r := PairsRun(c, m, t, pairs.tail, next);
    }
  }

  lemma MappingEnds(c: Config, m: Machine, e: Machine, next: Option<Event>) returns (r: Machine)
    requires m.states != [] && AtKey(e.state, false) && Inside(m, e, IsFlowState(e.state))
    ensures Returned(m, r) && Handle(c, e, E.MappingEnd, next) == Some(r)
  {
    hide Node, Indicator, Indented;
    assert e.indents[..|e.indents| - 1] == m.indents;
    r := Handle(c, e, E.MappingEnd, next).value;
  }

  lemma KeyEnters(c: Config, e: Machine, n: E.Node, next: Option<Event>)
      returns (p: Machine, s: State, context: Context)
    requires NodeOk(n) && AtKey(e.state, true)
    ensures Before(e, p, s) && p.states != [] && AtValue(s) && IsFlowState(s) == IsFlowState(e.state)
    ensures Handle(c, e, First(n), next) == Node(c, p, First(n), next, context)
  {
    KeyPreparable(n);
    hide Node, NodeOk, Indicator, Indented, IsSimpleKey, Preparable;
    if IsFlowState(e.state) {
      p, s, context := FlowKeyEnters(c, e, First(n), next);
    } else {
      p, s, context := BlockKeyEnters(c, e, First(n), next);
    }
  }

  lemma FlowKeyEnters(c: Config, e: Machine, key: Event, next: Option<Event>)
      returns (p: Machine, s: State, context: Context)
    requires (e.state == ExpectFirstFlowMappingKey || e.state == ExpectFlowMappingKey) && Preparable(key)
    requires !key.MappingEnd?
    ensures Before(e, p, s) && p.states != [] && (s == ExpectFlowMappingSimpleValue || s == ExpectFlowMappingValue)
    ensures Handle(c, e, key, next) == Node(c, p, key, next, context)
  {
    hide Node, Indicator, Indented, IsSimpleKey, Preparable;
    var w := Wraps(c, if e.state == ExpectFirstFlowMappingKey then e else Writes(e, [COMMA], false, false, false));
    if !c.canonical && IsSimpleKey(c, key, next) {
      s, context := ExpectFlowMappingSimpleValue, SIMPLE_KEY;
    } else {
      w, s, context := Writes(w, [QUESTION], true, false, false), ExpectFlowMappingValue, VALUE;
    }
    p := Pushed(w, s);
    Pushes(e, w, s);
  }

  lemma BlockKeyEnters(c: Config, e: Machine, key: Event, next: Option<Event>)
      returns (p: Machine, s: State, context: Context)
    requires e.state == ExpectFirstBlockMappingKey || e.state == ExpectBlockMappingKey
    requires Preparable(key) && !key.MappingEnd?
    ensures Before(e, p, s) && p.states != [] && (s == ExpectBlockMappingSimpleValue || s == ExpectBlockMappingValue)
    ensures Handle(c, e, key, next) == Node(c, p, key, next, context)
  {
    hide Node, Indicator, Indented, IsSimpleKey, Preparable;
    var w := WritesIndent(c, e);
    if IsSimpleKey(c, key, next) {
      s, context := ExpectBlockMappingSimpleValue, SIMPLE_KEY;
    } else {
      w, s, context := Writes(w, [QUESTION], true, false, true), ExpectBlockMappingValue, VALUE;
    }
    p := Pushed(w, s);
    Pushes(e, w, s);
  }

  lemma ValueEnters(c: Config, e: Machine, n: E.Node, next: Option<Event>) returns (p: Machine)
    requires AtValue(e.state)
    ensures Before(e, p, if IsFlowState(e.state) then ExpectFlowMappingKey else ExpectBlockMappingKey) && p.states != []
    ensures Handle(c, e, First(n), next) == Node(c, p, First(n), next, VALUE)
  {
    hide Node, Indicator, Indented;
    var simple := e.state == ExpectFlowMappingSimpleValue || e.state == ExpectBlockMappingSimpleValue;
    var w := if simple then Writes(e, [COLON], false, false, false)
             else if IsFlowState(e.state) then Writes(Wraps(c, e), [COLON], true, false, false)
             else Writes(WritesIndent(c, e), [COLON], true, false, true);
    var s := if IsFlowState(e.state) then ExpectFlowMappingKey else ExpectBlockMappingKey;
    p := Pushed(w, s);
    Pushes(e, w, s);
  }

  // Documents and streams.

  /** Between documents nothing is left on the stacks. */
  predicate Idle(m: Machine) { m.states == [] && m.indents == [] && m.indent == None && m.flowLevel == 0 }

  predicate BetweenDocuments(m: Machine) {
    Idle(m) && (m.state == ExpectFirstDocumentStart || m.state == ExpectDocumentStart)
  }

  /** A document is accepted, and behind its last event the stacks are empty. */
  lemma DocumentRuns(c: Config, m: Machine, d: E.Document, next: Option<Event>) returns (r: Machine)
    requires NodeOk(d.root) && BetweenDocuments(m)
    ensures Handled(c, m, E.DocumentEvents(d), next) == Some(r) && BetweenDocuments(r)
  {
    hide Node, NodeOk, Indicator, Indented, Handle, Handled, E.NodeEvents, E.DocumentEvents;
    var start, end := E.DocumentStart(d.explicitStart), E.DocumentEnd(d.explicitEnd);
    DocumentSplits(d);
    HandledStep(c, m, E.DocumentEvents(d), next);
    var s := DocumentOpens(c, m, start, Some(First(d.root)));
    var p := Pushed(s, ExpectDocumentEnd);
    RootEnters(c, s, First(d.root), Second(d.root, Some(end)));
    var q := NodeStep(c, s, p, d.root, [end], next, Context(true, false, false, false));
    HandledStep(c, q, [end], next);
    r := DocumentCloses(c, q, end, next);
    NothingHandled(c, r, [end], next);
  }

  lemma DocumentSplits(d: E.Document)
    ensures
      var all := E.DocumentEvents(d);
      && |all| > 1 && all[0] == E.DocumentStart(d.explicitStart) && all[1] == First(d.root)
      && all[1..] == E.NodeEvents(d.root) + [E.DocumentEnd(d.explicitEnd)]
  {
    NodeSplits(d.root);
    hide E.NodeEvents;
  }

  lemma DocumentOpens(c: Config, m: Machine, start: Event, next: Option<Event>) returns (s: Machine)
    requires BetweenDocuments(m) && start.DocumentStart?
    ensures Handle(c, m, start, next) == Some(s) && Idle(s) && s.state == ExpectDocumentRoot
  {
    hide Indicator, Indented;
    s := Handle(c, m, start, next).value;
  }

  lemma RootEnters(c: Config, s: Machine, e: Event, next: Option<Event>)
    requires s.state == ExpectDocumentRoot
    ensures Handle(c, s, e, next) == Node(c, Pushed(s, ExpectDocumentEnd), e, next, Context(true, false, false, false))
  {
    hide Node, Pushed;
  }

  lemma DocumentCloses(c: Config, q: Machine, end: Event, next: Option<Event>) returns (r: Machine)
    requires Idle(q) && q.state == ExpectDocumentEnd && end.DocumentEnd?
    ensures Handle(c, q, end, next) == Some(r) && Idle(r) && r.state == ExpectDocumentStart
  {
    hide Node, Indicator, Indented;
    r := Handle(c, q, end, next).value;
  }

  lemma {:induction false} DocumentsRun(c: Config, m: Machine, docs: seq<E.Document>, next: Option<Event>)
      returns (r: Machine)
    requires DocumentsOk(docs) && BetweenDocuments(m)
    ensures Handled(c, m, E.DocumentsEvents(docs), next) == Some(r) && BetweenDocuments(r)
    decreases |docs|
  {
    hide Node, NodeOk, Handle, E.DocumentEvents, BetweenDocuments;
    if docs == [] {
      r := m;
    } else {
      var rest := E.DocumentsEvents(docs[1..]);
      var n := DocumentRuns(c, m, docs[0], if rest == [] then next else Some(rest[0]));
      HandledJoin(c, m, E.DocumentEvents(docs[0]), rest, next);
      r := DocumentsRun(c, n, docs[1..], next);
    }
  }

  /** From the start of a stream to the end of any of its documents: nothing is left on the stacks there. */
  lemma StreamStarts(c: Config, docs: seq<E.Document>, next: Option<Event>) returns (r: Machine)
    requires DocumentsOk(docs)
    ensures Handled(c, INITIAL, [E.StreamStart] + E.DocumentsEvents(docs), next) == Some(r) && BetweenDocuments(r)
  {
    hide NodeOk, E.DocumentsEvents;
    var all := E.DocumentsEvents(docs);
    var m := INITIAL.(state := ExpectFirstDocumentStart);
    var first := if all == [] then next else Some(all[0]);
    assert Handled(c, INITIAL, [E.StreamStart], first) == Some(m);
    HandledJoin(c, INITIAL, [E.StreamStart], all, next);
    r := DocumentsRun(c, m, docs, next);
  }

  /** Every stream of the grammar whose anchors and tags are acceptable is emitted without an error, and the
      stacks are empty at the end. */
  lemma StreamRuns(c: Config, docs: seq<E.Document>) returns (r: Machine)
    requires DocumentsOk(docs)
    ensures Offline(c, E.StreamEvents(docs)) == Some(r) && Idle(r) && r.state == ExpectNothing
  {
    hide NodeOk, E.DocumentsEvents, Indicator, Indented;
    var n := StreamStarts(c, docs, Some(E.StreamEnd));
    HandledJoin(c, INITIAL, [E.StreamStart] + E.DocumentsEvents(docs), [E.StreamEnd], None);
    r := StreamEnds(c, n);
  }

  lemma StreamEnds(c: Config, m: Machine) returns (r: Machine)
    requires BetweenDocuments(m)
    ensures Handled(c, m, [E.StreamEnd], None) == Some(r) && Idle(r) && r.state == ExpectNothing
  {
    hide Indicator, Indented;
    r := Handle(c, m, E.StreamEnd, None).value;
  }
}
