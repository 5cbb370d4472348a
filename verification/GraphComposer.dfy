/** yaml/composer.py: nodes are put into the store while their events are consumed, and collections are
    filled in place. */
module GraphComposer {
  import opened Options
  import opened Chars
  import opened Events
  import opened Graphs
  import opened Serializing
  import C = ComposedTrees

  class Composer {
    const resolve: Resolver
    /** The events still to come from the parser. */
    var events: seq<Event>
    /** The nodes of the document, by identity. */
    var store: seq<GraphNode>
    var anchors: map<Text, Id>

    constructor (r: Resolver, es: seq<Event>)
      ensures resolve == r && events == es && anchors == map[]
    {
      resolve, events, store, anchors := r, es, [], map[];
    }

    ghost function State(): Composed
      reads this
    {
      Composed(store, anchors)
    }

    method GetEvent() returns (e: Event)
      requires events != []
      modifies this`events
      ensures e == old(events[0]) && events == old(events[1..])
    {
      e, events := events[0], events[1..];
    }

    /** The root of the next document, None where an error is raised: for an anchor given twice and for an alias
        without its anchor. Every node is stored under its number, with the tag given or the resolver's. */
    method ComposeDocument(ghost d: Document, ghost rest: seq<Event>) returns (root: Option<Id>)
      requires events == DocumentEvents(d) + rest
      modifies this
      ensures
        var r := Compose(d.root, resolve, Composed([], map[]));
        (root.Some? <==> r.Some?) &&
        (root.Some? ==> root.value == r.value.0 && store == r.value.1.store && anchors == map[] && events == rest)
      ensures root.Some? <==> C.AllAcceptable([], NodeEvents(d.root))
      ensures root.Some? ==> C.Denoted(d.root, []) == root && |store| == C.Started(NodeEvents(d.root))
                             && C.InStore(d.root, resolve, [], store)
    {
      hide C.AllAcceptable, C.InStore, C.Started, C.Denoted, Compose;
      C.DocumentComposes(d.root, resolve);
      store, anchors := [], map[];
      DocumentHead(d, rest);
      var start := GetEvent();
      root := ComposeNode(d.root, [DocumentEnd(d.explicitEnd)] + rest);
      if root.Some? {
        var end := GetEvent();
        anchors := map[];
      }
    }

    method ComposeNode(ghost t: Node, ghost rest: seq<Event>) returns (id: Option<Id>)
      requires events == NodeEvents(t) + rest && State().Ok()
      modifies this
      ensures
        var r := Compose(t, resolve, old(State()));
        (id.Some? <==> r.Some?) && (id.Some? ==> r.value == (id.value, State()) && events == rest)
      decreases t, 1
    {
      hide NodeEvents, ItemsEvents, PairsEvents, ComposeItems, ComposePairs;
      NodeHead(t, rest);
      if events[0].Alias? {
        var event := GetEvent();
        if event.name.None? || event.name.value !in anchors {
          return None;
        }
        return Some(anchors[event.name.value]);
      }
      var anchor := AnchorOf(events[0]);
      if anchor.Some? && anchor.value in anchors {
        return None;
      }
      if events[0].Scalar? {
        var n := ComposeScalarNode(anchor);
        id := Some(n);
      } else if events[0].SequenceStart? {
        id := ComposeSequenceNode(anchor, t, rest);
      } else {
        id := ComposeMappingNode(anchor, t, rest);
      }
    }

    method ComposeScalarNode(anchor: Anchor) returns (id: Id)
      requires events != [] && events[0].Scalar? && State().Ok()
      modifies this
      ensures events == old(events[1..]) && id == |old(store)|
      ensures var e := old(events[0]);
              State() == old(State()).Add(anchor,
                                          GraphNode.ScalarNode(ComposedTag(resolve, e.tag,
                                              ScalarQuery(e.value, e.plainImplicit, e.quotedImplicit)), e.value))
    {
      var event := GetEvent();
      var tag := event.tag;
      if tag == None || tag == Some(NON_SPECIFIC) {
        tag := Some(resolve(ScalarQuery(event.value, event.plainImplicit, event.quotedImplicit)));
      }
      id := Store(anchor, GraphNode.ScalarNode(tag.value, event.value));
    }

    /** A new node, known by its anchor if it has one. */
    method Store(anchor: Anchor, node: GraphNode) returns (id: Id)
      requires State().Ok()
      modifies this`store, this`anchors
      ensures id == |old(store)| && State() == old(State()).Add(anchor, node)
    {
      id := |store|;
      store := store + [node];
      if anchor.Some? {
        anchors := anchors[anchor.value := id];
      }
    }

    method ComposeSequenceNode(anchor: Anchor, ghost t: Node, ghost rest: seq<Event>) returns (id: Option<Id>)
      requires t.SequenceNode? && t.anchor == anchor && events == NodeEvents(t) + rest && State().Ok()
      requires !Duplicate(anchor, State())
      modifies this
      ensures
        var r := Compose(t, resolve, old(State()));
        (id.Some? <==> r.Some?) && (id.Some? ==> r.value == (id.value, State()) && events == rest)
      decreases t, 0
    {
      hide NodeEvents, ItemsEvents, Compose, ComposeItems;
      SequenceComposes(t, resolve, State());
      NodeHead(t, rest);
      var start := GetEvent();
      var tag := start.tag;
      if tag == None || tag == Some(NON_SPECIFIC) {
        tag := Some(resolve(SequenceQuery(start.implicit)));
      }
      var n := Store(anchor, GraphNode.SequenceNode(tag.value, start.flow, []));
      var ok := ComposeItemsOf(n, t.items, rest);
      if !ok {
        return None;
      }
      var end := GetEvent();
      id := Some(n);
    }

    /** The loop of compose_sequence_node, up to the end event. */
    method ComposeItemsOf(n: Id, ghost l: Nodes, ghost rest: seq<Event>) returns (ok: bool)
      requires State().Ok() && n < |store| && store[n].SequenceNode?
      requires events == ItemsEvents(l) + ([SequenceEnd] + rest)
      modifies this
      ensures
        var r := ComposeItems(l, resolve, n, old(State()));
        (ok <==> r.Some?) && (ok ==> r.value == State() && events == [SequenceEnd] + rest)
      decreases l
    {
      hide NodeEvents, ItemsEvents, Compose, ComposeItems;
      ghost var started, items, done := State(), l, [SequenceEnd] + rest;
      NoItems(resolve);
      ItemsHead(items, done);
      while !events[0].SequenceEnd?
        invariant State().Ok() && n < |store| && store[n].SequenceNode?
        invariant events == ItemsEvents(items) + done && events != [] && (events[0].SequenceEnd? <==> items.NoNodes?)
        invariant ComposeItems(items, resolve, n, State()) == ComposeItems(l, resolve, n, started)
        invariant items == l || items < l
        decreases items
      {
        ItemsCons(items, done);
        ComposeItemsStep(items, resolve, n, State());
        var item := ComposeNode(items.head, ItemsEvents(items.tail) + done);
        if item.None? {
          return false;
        }
        store := store[n := store[n].(items := store[n].items + [item.value])];
        items := items.tail;
        ItemsHead(items, done);
      }
      ItemsHead(items, done);
      ok := true;
    }

    method ComposeMappingNode(anchor: Anchor, ghost t: Node, ghost rest: seq<Event>) returns (id: Option<Id>)
      requires t.MappingNode? && t.anchor == anchor && events == NodeEvents(t) + rest && State().Ok()
      requires !Duplicate(anchor, State())
      modifies this
      ensures
        var r := Compose(t, resolve, old(State()));
        (id.Some? <==> r.Some?) && (id.Some? ==> r.value == (id.value, State()) && events == rest)
      decreases t, 0
    {
      hide NodeEvents, PairsEvents, Compose, ComposePairs;
      MappingComposes(t, resolve, State());
      NodeHead(t, rest);
      var start := GetEvent();
      var tag := start.tag;
      if tag == None || tag == Some(NON_SPECIFIC) {
        tag := Some(resolve(MappingQuery(start.implicit)));
      }
      var n := Store(anchor, GraphNode.MappingNode(tag.value, start.flow, []));
      var ok := ComposePairsOf(n, t.pairs, rest);
      if !ok {
        return None;
      }
      var end := GetEvent();
      id := Some(n);
    }

    /** The loop of compose_mapping_node, up to the end event. */
    method ComposePairsOf(n: Id, ghost l: Pairs, ghost rest: seq<Event>) returns (ok: bool)
      requires State().Ok() && n < |store| && store[n].MappingNode? && events == PairsEvents(l) + ([MappingEnd] + rest)
      modifies this
      ensures
        var r := ComposePairs(l, resolve, n, old(State()));
        (ok <==> r.Some?) && (ok ==> r.value == State() && events == [MappingEnd] + rest)
      decreases l
    {
      hide NodeEvents, PairsEvents, Compose, ComposePairs;
      ghost var started, pairs, done := State(), l, [MappingEnd] + rest;
      NoMorePairs(resolve);
      PairsHead(pairs, done);
      while !events[0].MappingEnd?
        invariant State().Ok() && n < |store| && store[n].MappingNode?
        invariant events == PairsEvents(pairs) + done && events != [] && (events[0].MappingEnd? <==> pairs.NoPairs?)
        invariant ComposePairs(pairs, resolve, n, State()) == ComposePairs(l, resolve, n, started)
        invariant pairs == l || pairs < l
        decreases pairs
      {
        PairsCons(pairs, done);
        ComposePairsStep(pairs, resolve, n, State());
        ghost var behind := PairsEvents(pairs.tail) + done;
        var key := ComposeNode(pairs.key, NodeEvents(pairs.value) + behind);
        if key.None? {
          return false;
        }
        var value := ComposeNode(pairs.value, behind);
        if value.None? {
          return false;
        }
        store := store[n := store[n].(pairs := store[n].pairs + [(key.value, value.value)])];
        pairs := pairs.tail;
        PairsHead(pairs, done);
      }
      PairsHead(pairs, done);
      ok := true;
    }
  }

  lemma DocumentHead(d: Document, rest: seq<Event>)
    ensures DocumentEvents(d) + rest != [] && (DocumentEvents(d) + rest)[0] == DocumentStart(d.explicitStart)
    ensures (DocumentEvents(d) + rest)[1..] == NodeEvents(d.root) + ([DocumentEnd(d.explicitEnd)] + rest)
    ensures ([DocumentEnd(d.explicitEnd)] + rest)[1..] == rest
  {
  }

  lemma NodeHead(t: Node, rest: seq<Event>)
    ensures
      var all := NodeEvents(t) + rest;
      all != [] &&
      match t
      case AliasNode(name) => all[0] == Alias(name) && all[1..] == rest
      case ScalarNode(a, tag, plain, quoted, value) => all[0] == Scalar(a, tag, plain, quoted, value)
          && all[1..] == rest
      case SequenceNode(a, tag, implicit, flow, items) =>
        all[0] == SequenceStart(a, tag, implicit, flow) && all[1..] == ItemsEvents(items) + ([SequenceEnd] + rest)
      case MappingNode(a, tag, implicit, flow, pairs) =>
        all[0] == MappingStart(a, tag, implicit, flow) && all[1..] == PairsEvents(pairs) + ([MappingEnd] + rest)
  {
  }

  /** The items end where the end event is. */
  lemma ItemsHead(items: Nodes, rest: seq<Event>)
    requires rest != [] && rest[0].SequenceEnd?
    ensures
      var all := ItemsEvents(items) + rest;
      all != [] && (all[0].SequenceEnd? <==> items.NoNodes?) && (items.NoNodes? ==> all == rest)
  {
    if items.MoreNodes? { NodeHead(items.head, []); }
  }

  lemma ItemsCons(items: Nodes, rest: seq<Event>)
    requires items.MoreNodes?
    ensures ItemsEvents(items) + rest == NodeEvents(items.head) + (ItemsEvents(items.tail) + rest)
  {
  }

  lemma PairsHead(pairs: Pairs, rest: seq<Event>)
    requires rest != [] && rest[0].MappingEnd?
    ensures
      var all := PairsEvents(pairs) + rest;
      all != [] && (all[0].MappingEnd? <==> pairs.NoPairs?) && (pairs.NoPairs? ==> all == rest)
  {
    if pairs.MorePairs? { NodeHead(pairs.key, []); }
  }

  lemma PairsCons(pairs: Pairs, rest: seq<Event>)
    requires pairs.MorePairs?
    ensures PairsEvents(pairs) + rest
            == NodeEvents(pairs.key) + (NodeEvents(pairs.value) + (PairsEvents(pairs.tail) + rest))
  {
  }

  lemma SequenceComposes(t: Node, resolve: Resolver, s: Composed)
    requires s.Ok() && t.SequenceNode? && !Duplicate(t.anchor, s)
    ensures
      var started := s.Add(t.anchor,
                           GraphNode.SequenceNode(ComposedTag(resolve, t.tag, SequenceQuery(t.implicit)), t.flow, []));
      var r := ComposeItems(t.items, resolve, |s.store|, started);
      Compose(t, resolve, s) == if r.None? then None else Some((|s.store|, r.value))
  {
  }

  lemma NoItems(resolve: Resolver)
    ensures forall id: Id, u: Composed | u.Ok() && id < |u.store| && u.store[id].SequenceNode? ::
              ComposeItems(NoNodes, resolve, id, u) == Some(u)
  {
  }

  lemma MappingComposes(t: Node, resolve: Resolver, s: Composed)
    requires s.Ok() && t.MappingNode? && !Duplicate(t.anchor, s)
    ensures
      var started := s.Add(t.anchor,
                           GraphNode.MappingNode(ComposedTag(resolve, t.tag, MappingQuery(t.implicit)), t.flow, []));
      var r := ComposePairs(t.pairs, resolve, |s.store|, started);
      Compose(t, resolve, s) == if r.None? then None else Some((|s.store|, r.value))
  {
  }

  lemma NoMorePairs(resolve: Resolver)
    ensures forall id: Id, u: Composed | u.Ok() && id < |u.store| && u.store[id].MappingNode? ::
              ComposePairs(NoPairs, resolve, id, u) == Some(u)
  {
  }
}
