/** What yaml/serializer.py writes for a node graph and what yaml/composer.py makes of it, as functions, and
    the isomorphism between the graphs at both ends. */
module Serializing {
  import opened Options
  import opened Anchors
  import opened Chars
  import opened Graphs
  import E = Events

  /** What the tag resolver is asked (yaml/resolver.py:143). */
  datatype Query =
    | ScalarQuery(value: Text, plain: bool, quoted: bool)
    | SequenceQuery(implicit: bool)
    | MappingQuery(implicit: bool)

  type Resolver = Query -> Text

  type AnchorMap = map<Id, Option<Text>>

  /** The event tree of node n, where `seen` have been written before. */
  function Tree(g: Graph, anchors: AnchorMap, resolve: Resolver, n: Id, seen: set<Id>): E.Node
    requires Closed(g) && ClosedUnder(g, anchors.Keys) && n in anchors && seen <= g.Keys
    decreases g.Keys - seen, 0
  {
    if n in seen then E.AliasNode(anchors[n])
    else
      match g[n]
      case ScalarNode(tag, value) =>
        E.ScalarNode(anchors[n], Some(tag), tag == resolve(ScalarQuery(value, true, false)),
                     tag == resolve(ScalarQuery(value, false, true)), value)
      case SequenceNode(tag, flow, items) =>
        assert Children(g[n]) == items;
        E.SequenceNode(anchors[n], Some(tag), tag == resolve(SequenceQuery(true)), flow,
                       ItemTrees(g, anchors, resolve, items, seen + {n}))
      case MappingNode(tag, flow, pairs) =>
        assert Children(g[n]) == Flat(pairs);
        E.MappingNode(anchors[n], Some(tag), tag == resolve(MappingQuery(true)), flow,
                      PairTrees(g, anchors, resolve, pairs, seen + {n}))
  }

  function ItemTrees(g: Graph, anchors: AnchorMap, resolve: Resolver, l: seq<Id>, seen: set<Id>): E.Nodes
    requires Closed(g) && ClosedUnder(g, anchors.Keys) && Elements(l) <= anchors.Keys && seen <= g.Keys
    decreases g.Keys - seen, |l|
  {
    if l == [] then E.NoNodes
    else
      assert l[0] in Elements(l);
      E.MoreNodes(Tree(g, anchors, resolve, l[0], seen),
                  ItemTrees(g, anchors, resolve, l[1..], seen + Elements(FirstMet(g, l[0], seen))))
  }

  function PairTrees(g: Graph, anchors: AnchorMap, resolve: Resolver, l: seq<(Id, Id)>, seen: set<Id>): E.Pairs
    requires Closed(g) && ClosedUnder(g, anchors.Keys) && Elements(Flat(l)) <= anchors.Keys && seen <= g.Keys
    decreases g.Keys - seen, |l|
  {
    if l == [] then E.NoPairs
    else
      assert Flat(l)[0] == l[0].0 && Flat(l)[1] == l[0].1 && Flat(l)[2..] == Flat(l[1..]);
      assert l[0].0 in Elements(Flat(l)) && l[0].1 in Elements(Flat(l)) && Elements(Flat(l)[2..]) <= Elements(Flat(l));
      var withKey := seen + Elements(FirstMet(g, l[0].0, seen));
      E.MorePairs(Tree(g, anchors, resolve, l[0].0, seen), Tree(g, anchors, resolve, l[0].1, withKey),
                  PairTrees(g, anchors, resolve, l[1..], withKey + Elements(FirstMet(g, l[0].1, withKey))))
  }

  /** The document the serializer writes for a graph and a root. */
  function Written(g: Graph, resolve: Resolver, root: Id): E.Node
    requires Closed(g) && root in g
  {
    AnchorsMarkSharedNodes(g, root);
    ReachableIsLeastClosed(g, root);
    Tree(g, AnchorsOf(g, root), resolve, root, {})
  }

  /** The nodes composed so far, and which of them have which anchor. */
  datatype Composed = Composed(store: seq<GraphNode>, anchors: map<Text, Id>) {
    predicate Ok() { forall a <- anchors :: anchors[a] < |store| }

    function Add(anchor: Option<Text>, n: GraphNode): (r: Composed)
      requires Ok()
      ensures r.Ok() && r.store == store + [n]
    {
      Composed(store + [n], if anchor.Some? then anchors[anchor.value := |store|] else anchors)
    }

    /** node.value.append, of a sequence and of a mapping */
    function AppendItem(id: Id, item: Id): (r: Composed)
      requires Ok() && id < |store| && store[id].SequenceNode?
      ensures r.Ok() && |r.store| == |store| && r.anchors == anchors
    {
      this.(store := store[id := store[id].(items := store[id].items + [item])])
    }

    function AppendPair(id: Id, key: Id, value: Id): (r: Composed)
      requires Ok() && id < |store| && store[id].MappingNode?
      ensures r.Ok() && |r.store| == |store| && r.anchors == anchors
    {
      this.(store := store[id := store[id].(pairs := store[id].pairs + [(key, value)])])
    }

    /** Everything stored stays, but for the collection at `id`. */
    predicate KeptIn(later: Composed, id: int) {
      |store| <= |later.store| && forall i :: 0 <= i < |store| && i != id ==> later.store[i] == store[i]
    }
  }

  const NON_SPECIFIC: Text := [33]

  function ComposedTag(resolve: Resolver, tag: Option<Text>, q: Query): Text {
    if tag == None || tag == Some(NON_SPECIFIC) then resolve(q) else tag.value
  }

  predicate Duplicate(anchor: Option<Text>, s: Composed) { anchor.Some? && anchor.value in s.anchors }

  /** The identity of the node composed from a tree; None for an alias without its anchor and for an
      anchor given twice. */
  function Compose(t: E.Node, resolve: Resolver, s: Composed): (r: Option<(Id, Composed)>)
    requires s.Ok()
    ensures r.Some? ==> r.value.1.Ok() && r.value.0 < |r.value.1.store| && s.KeptIn(r.value.1, -1)
  {
    match t
    case AliasNode(name) => if name.Some? && name.value in s.anchors then Some((s.anchors[name.value], s)) else None
    case ScalarNode(a, tag, plain, quoted, value) =>
      if Duplicate(a, s) then None
      else Some((|s.store|, s.Add(a, ScalarNode(ComposedTag(resolve, tag, ScalarQuery(value, plain, quoted)), value))))
    case SequenceNode(a, tag, implicit, flow, items) =>
      if Duplicate(a, s) then None
      else
        var id := |s.store|;
        var started := s.Add(a, SequenceNode(ComposedTag(resolve, tag, SequenceQuery(implicit)), flow, []));
        (match ComposeItems(items, resolve, id, started)
         case None => None
         case Some(done) => Some((id, done)))
    case MappingNode(a, tag, implicit, flow, pairs) =>
      if Duplicate(a, s) then None
      else
        var id := |s.store|;
        var started := s.Add(a, MappingNode(ComposedTag(resolve, tag, MappingQuery(implicit)), flow, []));
        (match ComposePairs(pairs, resolve, id, started)
         case None => None
         case Some(done) => Some((id, done)))
  }

  function ComposeItems(l: E.Nodes, resolve: Resolver, id: Id, s: Composed): (r: Option<Composed>)
    requires s.Ok() && id < |s.store| && s.store[id].SequenceNode?
    ensures r.Some? ==> r.value.Ok() && s.KeptIn(r.value, id)
  {
    match l
    case NoNodes => Some(s)
    case MoreNodes(head, tail) =>
      match Compose(head, resolve, s)
      case None => None
      case Some((item, t)) => ComposeItems(tail, resolve, id, t.AppendItem(id, item))
  }

  function ComposePairs(l: E.Pairs, resolve: Resolver, id: Id, s: Composed): (r: Option<Composed>)
    requires s.Ok() && id < |s.store| && s.store[id].MappingNode?
    ensures r.Some? ==> r.value.Ok() && s.KeptIn(r.value, id)
  {
    match l
    case NoPairs => Some(s)
    case MorePairs(key, value, tail) =>
      match Compose(key, resolve, s)
      case None => None
      case Some((k, t)) =>
        match Compose(value, resolve, t)
        case None => None
        case Some((v, u)) => ComposePairs(tail, resolve, id, u.AppendPair(id, k, v))
  }

  lemma ComposeItemsStep(l: E.Nodes, resolve: Resolver, id: Id, s: Composed)
    requires s.Ok() && id < |s.store| && s.store[id].SequenceNode? && l.MoreNodes?
    ensures
      var r := Compose(l.head, resolve, s);
      ComposeItems(l, resolve, id, s) ==
        if r.None? then None else ComposeItems(l.tail, resolve, id, r.value.1.AppendItem(id, r.value.0))
  {
  }

  lemma ComposePairsStep(l: E.Pairs, resolve: Resolver, id: Id, s: Composed)
    requires s.Ok() && id < |s.store| && s.store[id].MappingNode? && l.MorePairs?
    ensures
      var r := Compose(l.key, resolve, s);
      if r.None? then ComposePairs(l, resolve, id, s) == None
      else
        var q := Compose(l.value, resolve, r.value.1);
        ComposePairs(l, resolve, id, s) ==
          if q.None? then None else ComposePairs(l.tail, resolve, id, q.value.1.AppendPair(id, r.value.0, q.value.0))
  {
  }

  // The composed graph: the node composed as number i stands for names[i].

  predicate Names(names: seq<Id>, composed: Id, n: Id) { composed < |names| && names[composed] == n }

  predicate ItemsImage(names: seq<Id>, items: seq<Id>, composed: seq<Id>) {
    |composed| == |items| && forall i :: 0 <= i < |items| ==> Names(names, composed[i], items[i])
  }

  predicate PairsImage(names: seq<Id>, pairs: seq<(Id, Id)>, composed: seq<(Id, Id)>) {
    && |composed| == |pairs|
    && forall i :: 0 <= i < |pairs| ==>
       Names(names, composed[i].0, pairs[i].0) && Names(names, composed[i].1, pairs[i].1)
  }

  /** The tag of n as it comes back: as it was, unless it is the non-specific tag. */
  function TagBack(resolve: Resolver, n: GraphNode): Text {
    if n.tag != NON_SPECIFIC then n.tag
    else
      match n
      case ScalarNode(tag, value) =>
        resolve(ScalarQuery(value, tag == resolve(ScalarQuery(value, true, false)), tag
                            == resolve(ScalarQuery(value, false, true))))
      case SequenceNode(tag, _, _) => resolve(SequenceQuery(tag == resolve(SequenceQuery(true))))
      case MappingNode(tag, _, _) => resolve(MappingQuery(tag == resolve(MappingQuery(true))))
  }

  /** `composed` is n again, with its children renamed. */
  predicate IsImage(resolve: Resolver, names: seq<Id>, n: GraphNode, composed: GraphNode) {
    match n
    case ScalarNode(_, value) => composed == ScalarNode(TagBack(resolve, n), value)
    case SequenceNode(_, flow, items) =>
      composed.SequenceNode? && composed.tag == TagBack(resolve, n) && composed.flow == flow
      && ItemsImage(names, items, composed.items)
    case MappingNode(_, flow, pairs) =>
      composed.MappingNode? && composed.tag == TagBack(resolve, n) && composed.flow == flow
      && PairsImage(names, pairs, composed.pairs)
  }

  lemma ImageStays(resolve: Resolver, names: seq<Id>, more: seq<Id>, n: GraphNode, composed: GraphNode)
    requires IsImage(resolve, names, n, composed)
    ensures IsImage(resolve, names + more, n, composed)
  {
  }
}
