/** A node graph that is serialized, emitted and parsed is composed to an isomorphic graph: with the tags left out that
    the emitter leaves out, and the flags and styles the parser delivers instead. */
module GraphThroughText {
  import opened Options
  import opened Anchors
  import opened Chars
  import M = EmitterMachine
  import opened EmittedTrees
  import opened Graphs
  import opened Serializing
  import opened ScalarPlaces
  import EmittableGraphs
  import EmitterStructure
  import GraphRoundTrip
  import E = Events
  import G = Grammar
  import S = SyntaxTrees

  /** Every node has its tag, and the flags say when the resolver would answer it: what the serializer promises. */
  predicate Honest(t: E.Node, resolve: Resolver) {
    match t
    case AliasNode(name) => name.Some?
    case ScalarNode(_, tag, p, q, v) =>
      && tag.Some? && p == (tag.value == resolve(ScalarQuery(v, true, false)))
      && q == (tag.value == resolve(ScalarQuery(v, false, true)))
    case SequenceNode(_, tag, i, _, items) =>
      tag.Some? && i == (tag.value == resolve(SequenceQuery(true))) && ItemsHonest(items, resolve)
    case MappingNode(_, tag, i, _, pairs) =>
      tag.Some? && i == (tag.value == resolve(MappingQuery(true))) && PairsHonest(pairs, resolve)
  }

  predicate ItemsHonest(l: E.Nodes, resolve: Resolver) {
    l.MoreNodes? ==> Honest(l.head, resolve) && ItemsHonest(l.tail, resolve)
  }

  predicate PairsHonest(l: E.Pairs, resolve: Resolver) {
    l.MorePairs? ==> Honest(l.key, resolve) && Honest(l.value, resolve) && PairsHonest(l.tail, resolve)
  }

  /** The tags of the nodes of a tree, in the order in which they are started. */
  function TagsOf(t: E.Node): seq<Option<Text>> {
    match t
    case AliasNode(_) => []
    case ScalarNode(_, tag, _, _, _) => [tag]
    case SequenceNode(_, tag, _, _, items) => [tag] + ItemsTags(items)
    case MappingNode(_, tag, _, _, pairs) => [tag] + PairsTags(pairs)
  }

  function ItemsTags(l: E.Nodes): seq<Option<Text>> {
    if l.NoNodes? then [] else TagsOf(l.head) + ItemsTags(l.tail)
  }

  function PairsTags(l: E.Pairs): seq<Option<Text>> {
    if l.NoPairs? then [] else TagsOf(l.key) + TagsOf(l.value) + PairsTags(l.tail)
  }

  /** What the resolver answers for a node that stands there plain, or for a collection. */
  function Answer(resolve: Resolver, n: GraphNode): Text {
    match n
    case ScalarNode(_, value) => resolve(ScalarQuery(value, true, false))
    case SequenceNode(_, _, _) => resolve(SequenceQuery(true))
    case MappingNode(_, _, _) => resolve(MappingQuery(true))
  }

  /** The tag is the one it was; or that one was '!', and it is what the resolver answers. */
  predicate TagKept(resolve: Resolver, tag: Option<Text>, n: GraphNode) {
    Some(n.tag) == tag || (tag == Some([0x21]) && n.tag == Answer(resolve, n))
  }

  /** The same value, or the same children. */
  predicate SameContent(a: GraphNode, b: GraphNode) {
    match a
    case ScalarNode(_, value) => b.ScalarNode? && b.value == value
    case SequenceNode(_, _, items) => b.SequenceNode? && b.items == items
    case MappingNode(_, _, pairs) => b.MappingNode? && b.pairs == pairs
  }

  /** Two stores alike, the second one with the tags given. */
  predicate Alike(resolve: Resolver, tags: seq<Option<Text>>, a: Composed, b: Composed) {
    && a.Ok() && b.Ok() && |tags| == |a.store| == |b.store| && a.anchors == b.anchors
    && forall i :: 0 <= i < |tags| ==> SameContent(a.store[i], b.store[i]) && TagKept(resolve, tags[i], b.store[i])
  }

  /** The tag that is composed where the written one, or none, is delivered. */
  lemma DeliveredTag(c: M.Config, x: Choice, t: E.Node, p: Place, resolve: Resolver)
    requires Honest(t, resolve) && !t.AliasNode?
    ensures var d := Delivered(c, x, t, p);
            match t
            case ScalarNode(_, tag, _, _, v) =>
              TagKept(resolve, tag, ScalarNode(
                ComposedTag(resolve, d.tag, ScalarQuery(v, d.plainImplicit, d.quotedImplicit)), v))
            case SequenceNode(_, tag, _, _, _) =>
              TagKept(resolve, tag, SequenceNode(ComposedTag(resolve, d.tag, SequenceQuery(d.implicit)), d.flow, []))
            case MappingNode(_, tag, _, _, _) =>
              TagKept(resolve, tag, MappingNode(ComposedTag(resolve, d.tag, MappingQuery(d.implicit)), d.flow, []))
  {
    hide StyleAt, DeliveredItems, DeliveredPairs, ItemsHonest, PairsHonest, Indentless, InBrackets;
  }

  lemma AddAlike(resolve: Resolver, tags: seq<Option<Text>>, a: Composed, b: Composed, anchor: Option<Text>,
                 tag: Option<Text>, m: GraphNode, n: GraphNode)
    requires Alike(resolve, tags, a, b) && SameContent(m, n) && TagKept(resolve, tag, n)
    ensures Alike(resolve, tags + [tag], a.Add(anchor, m), b.Add(anchor, n))
    ensures Duplicate(anchor, a) == Duplicate(anchor, b)
  {
    hide SameContent, TagKept;
  }

  predicate BothAlike(resolve: Resolver, tags: seq<Option<Text>>, a: Option<(Id, Composed)>, b: Option<(Id, Composed)>)
  {
    (a.Some? <==> b.Some?) && (a.Some? ==> a.value.0 == b.value.0 && Alike(resolve, tags, a.value.1, b.value.1))
  }

  predicate StoresAlike(resolve: Resolver, tags: seq<Option<Text>>, a: Option<Composed>, b: Option<Composed>) {
    (a.Some? <==> b.Some?) && (a.Some? ==> Alike(resolve, tags, a.value, b.value))
  }

  /** A tree and what is delivered for it are composed alike. */
  lemma {:induction false} ComposedAlike(c: M.Config, x: Choice, t: E.Node, p: Place, resolve: Resolver,
                                         tags: seq<Option<Text>>, a: Composed, b: Composed)
    requires Honest(t, resolve) && Alike(resolve, tags, a, b)
    ensures BothAlike(resolve, tags + TagsOf(t), Compose(t, resolve, a), Compose(Delivered(c, x, t, p), resolve, b))
    decreases t, 0
  {
    hide Alike, SameContent, TagKept, ComposeItems, ComposePairs, DeliveredItems, DeliveredPairs, ItemsHonest,
         PairsHonest, ItemsTags, PairsTags, ComposedTag, TagWritten, InBrackets, Indentless, StyleAt;
    OkAlike(resolve, tags, a, b);
    var d := Delivered(c, x, t, p);
    if t.AliasNode? {
      assert tags + [] == tags;
    } else {
      DeliveredTag(c, x, t, p, resolve);
      match t
      case AliasNode(_) =>
      case ScalarNode(anchor, tag, pi, qi, v) =>
        var m := ScalarNode(ComposedTag(resolve, tag, ScalarQuery(v, pi, qi)), v);
        var n := ScalarNode(ComposedTag(resolve, d.tag, ScalarQuery(v, d.plainImplicit, d.quotedImplicit)), v);
        ContentSame(m, n);
        AddAlike(resolve, tags, a, b, anchor, tag, m, n);
      case SequenceNode(anchor, tag, i, f, items) =>
        var m := SequenceNode(ComposedTag(resolve, tag, SequenceQuery(i)), f, []);
        var n := SequenceNode(ComposedTag(resolve, d.tag, SequenceQuery(d.implicit)), d.flow, []);
        ContentSame(m, n);
        AddAlike(resolve, tags, a, b, anchor, tag, m, n);
        ItemsAlike(c, x, items, InBrackets(c, t, p), resolve, |a.store|, tags + [tag], a.Add(anchor, m),
                   b.Add(anchor, n));
        assert tags + [tag] + ItemsTags(items) == tags + TagsOf(t);
      case MappingNode(anchor, tag, i, f, pairs) =>
        var m := MappingNode(ComposedTag(resolve, tag, MappingQuery(i)), f, []);
        var n := MappingNode(ComposedTag(resolve, d.tag, MappingQuery(d.implicit)), d.flow, []);
        ContentSame(m, n);
        AddAlike(resolve, tags, a, b, anchor, tag, m, n);
        PairsAlike(c, x, pairs, InBrackets(c, t, p), resolve, |a.store|, tags + [tag], a.Add(anchor, m),
                   b.Add(anchor, n));
        assert tags + [tag] + PairsTags(pairs) == tags + TagsOf(t);
    }
  }

  lemma OkAlike(resolve: Resolver, tags: seq<Option<Text>>, a: Composed, b: Composed)
    requires Alike(resolve, tags, a, b)
    ensures a.Ok() && b.Ok() && |a.store| == |b.store| == |tags| && a.anchors == b.anchors
    ensures forall i :: 0 <= i < |a.store| ==> (a.store[i].SequenceNode? <==> b.store[i].SequenceNode?)
                                               && (a.store[i].MappingNode? <==> b.store[i].MappingNode?)
  {
  }

  lemma ContentSame(m: GraphNode, n: GraphNode)
    requires match m
             case ScalarNode(_, v) => n.ScalarNode? && n.value == v
             case SequenceNode(_, _, items) => n.SequenceNode? && n.items == items
             case MappingNode(_, _, pairs) => n.MappingNode? && n.pairs == pairs
    ensures SameContent(m, n)
  {
  }

  lemma ItemAlike(resolve: Resolver, tags: seq<Option<Text>>, a: Composed, b: Composed, id: Id, item: Id)
    requires Alike(resolve, tags, a, b) && id < |a.store| && a.store[id].SequenceNode?
    ensures b.store[id].SequenceNode? && Alike(resolve, tags, a.AppendItem(id, item), b.AppendItem(id, item))
  {
  }

  lemma PairAlike(resolve: Resolver, tags: seq<Option<Text>>, a: Composed, b: Composed, id: Id, k: Id, v: Id)
    requires Alike(resolve, tags, a, b) && id < |a.store| && a.store[id].MappingNode?
    ensures b.store[id].MappingNode? && Alike(resolve, tags, a.AppendPair(id, k, v), b.AppendPair(id, k, v))
  {
  }

  lemma {:induction false} ItemsAlike(c: M.Config, x: Choice, l: E.Nodes, flow: bool, resolve: Resolver, id: Id,
                                      tags: seq<Option<Text>>, a: Composed, b: Composed)
    requires ItemsHonest(l, resolve) && Alike(resolve, tags, a, b)
    requires a.Ok() && b.Ok() && id < |a.store| && id < |b.store| && a.store[id].SequenceNode?
    requires b.store[id].SequenceNode?
    ensures StoresAlike(resolve, tags + ItemsTags(l), ComposeItems(l, resolve, id, a),
                        ComposeItems(DeliveredItems(c, x, l, flow), resolve, id, b))
    decreases l, 0
  {
    hide Alike, Compose, Honest, Delivered, TagsOf;
    if l.NoNodes? {
      assert tags + [] == tags;
    } else {
      ComposedAlike(c, x, l.head, ItemPlace(flow), resolve, tags, a, b);
      var r, q := Compose(l.head, resolve, a), Compose(Delivered(c, x, l.head, ItemPlace(flow)), resolve, b);
      if r.Some? {
        ItemAlike(resolve, tags + TagsOf(l.head), r.value.1, q.value.1, id, r.value.0);
        ItemsAlike(c, x, l.tail, flow, resolve, id, tags + TagsOf(l.head), r.value.1.AppendItem(id, r.value.0),
                   q.value.1.AppendItem(id, r.value.0));
        assert tags + TagsOf(l.head) + ItemsTags(l.tail) == tags + ItemsTags(l);
      }
    }
  }

  lemma {:induction false} PairsAlike(c: M.Config, x: Choice, l: E.Pairs, flow: bool, resolve: Resolver, id: Id,
                                      tags: seq<Option<Text>>, a: Composed, b: Composed)
    requires PairsHonest(l, resolve) && Alike(resolve, tags, a, b)
    requires a.Ok() && b.Ok() && id < |a.store| && id < |b.store| && a.store[id].MappingNode?
    requires b.store[id].MappingNode?
    ensures StoresAlike(resolve, tags + PairsTags(l), ComposePairs(l, resolve, id, a),
                        ComposePairs(DeliveredPairs(c, x, l, flow), resolve, id, b))
    decreases l, 0
  {
    hide Alike, Compose, Honest, Delivered, TagsOf, Simple;
    if l.NoPairs? {
      assert tags + [] == tags;
    } else {
      var simple := Simple(c, l.key, flow);
      var dk, dv := Delivered(c, x, l.key, KeyPlace(simple, flow)), Delivered(c, x, l.value, ValuePlace(simple, flow));
      ComposedAlike(c, x, l.key, KeyPlace(simple, flow), resolve, tags, a, b);
      var r, q := Compose(l.key, resolve, a), Compose(dk, resolve, b);
      if r.Some? {
        var withKey := tags + TagsOf(l.key);
        OkAlike(resolve, withKey, r.value.1, q.value.1);
        ComposedAlike(c, x, l.value, ValuePlace(simple, flow), resolve, withKey, r.value.1, q.value.1);
        var u, w := Compose(l.value, resolve, r.value.1), Compose(dv, resolve, q.value.1);
        if u.Some? {
          var both := withKey + TagsOf(l.value);
          PairAlike(resolve, both, u.value.1, w.value.1, id, r.value.0, u.value.0);
          PairsAlike(c, x, l.tail, flow, resolve, id, both, u.value.1.AppendPair(id, r.value.0, u.value.0),
                     w.value.1.AppendPair(id, r.value.0, u.value.0));
          assert tags + TagsOf(l.key) + TagsOf(l.value) + PairsTags(l.tail) == tags + PairsTags(l);
        }
      }
    }
  }

  // The serializer's trees.

  function GraphTags(g: Graph, l: seq<Id>): seq<Option<Text>>
    requires Within(g, l)
  {
    seq(|l|, i requires 0 <= i < |l| => assert l[i] in l; Some(g[l[i]].tag))
  }

  lemma GraphTagsJoin(g: Graph, a: seq<Id>, b: seq<Id>)
    requires Within(g, a) && Within(g, b)
    ensures Within(g, a + b) && GraphTags(g, a + b) == GraphTags(g, a) + GraphTags(g, b)
  {
  }

  /** The tags of a serialized tree are those of the nodes met, in order, and its flags are honest. */
  lemma {:induction false} TreeTags(g: Graph, anchors: AnchorMap, resolve: Resolver, n: Id, seen: set<Id>)
    requires Closed(g) && ClosedUnder(g, anchors.Keys) && n in anchors && seen <= g.Keys
    requires EmitterStructure.NodeOk(Tree(g, anchors, resolve, n, seen))
    ensures TagsOf(Tree(g, anchors, resolve, n, seen)) == GraphTags(g, FirstMet(g, n, seen))
    ensures Honest(Tree(g, anchors, resolve, n, seen), resolve)
    decreases g.Keys - seen, 0
  {
    hide ItemsTags, PairsTags, ItemsHonest, PairsHonest, FirstMetAll, ItemTrees, PairTrees, M.IsAnchor;
    if n !in seen {
      ChildrenWithin(g, n);
      match g[n]
      case ScalarNode(_, _) =>
        NothingMet(g, seen + {n});
        assert [n] + [] == [n];
        assert GraphTags(g, [n]) == [Some(g[n].tag)];
      case SequenceNode(_, _, items) =>
        ItemTreesTags(g, anchors, resolve, items, seen + {n});
        GraphTagsJoin(g, [n], FirstMetAll(g, items, seen + {n}));
        assert GraphTags(g, [n]) == [Some(g[n].tag)];
      case MappingNode(_, _, pairs) =>
        PairTreesTags(g, anchors, resolve, pairs, seen + {n});
        GraphTagsJoin(g, [n], FirstMetAll(g, Flat(pairs), seen + {n}));
        assert GraphTags(g, [n]) == [Some(g[n].tag)];
    }
  }

  lemma {:induction false} ItemTreesTags(g: Graph, anchors: AnchorMap, resolve: Resolver, l: seq<Id>, seen: set<Id>)
    requires Closed(g) && ClosedUnder(g, anchors.Keys) && Elements(l) <= anchors.Keys && seen <= g.Keys && Within(g, l)
    requires EmitterStructure.ItemsOk(ItemTrees(g, anchors, resolve, l, seen))
    ensures ItemsTags(ItemTrees(g, anchors, resolve, l, seen)) == GraphTags(g, FirstMetAll(g, l, seen))
    ensures ItemsHonest(ItemTrees(g, anchors, resolve, l, seen), resolve)
    decreases g.Keys - seen, |l|
  {
    hide TagsOf, Honest, Tree, FirstMet, EmitterStructure.NodeOk;
    if l != [] {
      assert l[0] in Elements(l);
      var first := FirstMet(g, l[0], seen);
      TreeTags(g, anchors, resolve, l[0], seen);
      ItemTreesTags(g, anchors, resolve, l[1..], seen + Elements(first));
      GraphTagsJoin(g, first, FirstMetAll(g, l[1..], seen + Elements(first)));
    }
  }

  lemma {:induction false} PairTreesTags(g: Graph, anchors: AnchorMap, resolve: Resolver, l: seq<(Id, Id)>,
                                         seen: set<Id>)
    requires Closed(g) && ClosedUnder(g, anchors.Keys) && Elements(Flat(l)) <= anchors.Keys && seen <= g.Keys
    requires Within(g, Flat(l)) && EmitterStructure.PairsOk(PairTrees(g, anchors, resolve, l, seen))
    ensures PairsTags(PairTrees(g, anchors, resolve, l, seen)) == GraphTags(g, FirstMetAll(g, Flat(l), seen))
    ensures PairsHonest(PairTrees(g, anchors, resolve, l, seen), resolve)
    decreases g.Keys - seen, |l|
  {
    hide TagsOf, Honest, Tree, FirstMet, EmitterStructure.NodeOk, Flat;
    if l != [] {
      FlatFacts(l);
      assert forall m <- Flat(l[1..]) :: m in Elements(Flat(l[1..]));
      var withKey := seen + Elements(FirstMet(g, l[0].0, seen));
      var withBoth := withKey + Elements(FirstMet(g, l[0].1, withKey));
      TreeTags(g, anchors, resolve, l[0].0, seen);
      TreeTags(g, anchors, resolve, l[0].1, withKey);
      PairTreesTags(g, anchors, resolve, l[1..], withBoth);
      PairMet(g, l, seen);
      GraphTagsJoin(g, FirstMet(g, l[0].0, seen), FirstMet(g, l[0].1, withKey));
      GraphTagsJoin(g, FirstMet(g, l[0].0, seen) + FirstMet(g, l[0].1, withKey),
                    FirstMetAll(g, Flat(l[1..]), withBoth));
    } else {
      NothingMet(g, seen);
    }
  }

  lemma NothingMet(g: Graph, seen: set<Id>)
    requires Closed(g) && seen <= g.Keys
    ensures Flat([]) == [] && FirstMetAll(g, [], seen) == []
  {
  }

  /** The nodes met in a pair, and then those met in the others. */
  lemma PairMet(g: Graph, l: seq<(Id, Id)>, seen: set<Id>)
    requires Closed(g) && l != [] && Within(g, Flat(l)) && Within(g, Flat(l[1..])) && seen <= g.Keys
    requires l[0].0 in g && l[0].1 in g
    ensures var withKey := seen + Elements(FirstMet(g, l[0].0, seen));
            var withBoth := withKey + Elements(FirstMet(g, l[0].1, withKey));
            FirstMetAll(g, Flat(l), seen)
            == FirstMet(g, l[0].0, seen) + FirstMet(g, l[0].1, withKey) + FirstMetAll(g, Flat(l[1..]), withBoth)
  {
    hide FirstMet, FirstMetAll, Flat, Elements;
    FlatHead(l);
    var a, b := FirstMet(g, l[0].0, seen), [l[0].1] + Flat(l[1..]);
    assert Flat(l)[0] == l[0].0 && Flat(l)[1..] == b && b[1..] == Flat(l[1..]);
    assert forall m <- b :: m in Flat(l)[1..];
    MetHead(g, Flat(l), seen);
    MetHead(g, b, seen + Elements(a));
  }

  lemma MetHead(g: Graph, l: seq<Id>, seen: set<Id>)
    requires Closed(g) && l != [] && Within(g, l) && seen <= g.Keys
    ensures var first := FirstMet(g, l[0], seen);
            && seen + Elements(first) <= g.Keys
            && FirstMetAll(g, l, seen) == first + FirstMetAll(g, l[1..], seen + Elements(first))
  {
    hide FirstMet;
  }

  /** The node composed for n: its value or its children again, and its tag. */
  predicate ReadBack(resolve: Resolver, names: seq<Id>, n: GraphNode, composed: GraphNode) {
    && TagKept(resolve, Some(n.tag), composed)
    && match n
       case ScalarNode(_, value) => composed.ScalarNode? && composed.value == value
       case SequenceNode(_, _, items) => composed.SequenceNode? && ItemsImage(names, items, composed.items)
       case MappingNode(_, _, pairs) => composed.MappingNode? && PairsImage(names, pairs, composed.pairs)
  }

  /** Through the text and back: as many nodes as the root reaches, the i-th with the value, the children and the tag
      of the i-th reached; and a tag '!' may have become what the resolver answers. */
  lemma GraphComesThrough(c: M.Config, x: Choice, g: Graph, resolve: Resolver, root: Id)
    requires Closed(g) && root in g && EmittableGraphs.TagsGiven(g)
    ensures
      var r := Compose(Delivered(c, x, Written(g, resolve, root), ROOT), resolve, Composed([], map[]));
      var names := Reachable(g, root);
      && r.Some? && r.value.0 == 0 && names != [] && names[0] == root && |r.value.1.store| == |names|
      && forall i :: 0 <= i < |names| ==> ReadBack(resolve, names, g[names[i]], r.value.1.store[i])
  {
    hide Tree, FirstMet, Compose, Delivered, Honest, TagsOf, IsImage, EmitterStructure.NodeOk, AnchorsOf;
    var t, names := Written(g, resolve, root), Reachable(g, root);
    EmittableGraphs.WrittenOk(g, resolve, root);
    AnchorsMarkSharedNodes(g, root);
    ReachableIsLeastClosed(g, root);
    TreeTags(g, AnchorsOf(g, root), resolve, root, {});
    GraphRoundTrip.GraphRoundTrips(g, resolve, root);
    var start := Composed([], map[]);
    ComposedAlike(c, x, t, ROOT, resolve, [], start, start);
    assert [] + TagsOf(t) == TagsOf(t);
    var a, b := Compose(t, resolve, start).value.1, Compose(Delivered(c, x, t, ROOT), resolve, start).value.1;
    forall i | 0 <= i < |names| ensures ReadBack(resolve, names, g[names[i]], b.store[i]) {
      assert names[i] in names;
      ImageRead(resolve, names, g[names[i]], a.store[i], b.store[i]);
    }
  }

  /** The same with the parser in between: the tokens that spell the graph's document are parsed to one document, and
      what is composed of that is the graph. */
  lemma GraphIsParsedBack(c: M.Config, x: Choice, g: Graph, resolve: Resolver, root: Id, explicitStart: bool,
                          explicitEnd: bool, open: bool)
    requires Closed(g) && root in g && EmittableGraphs.TagsGiven(g)
    requires !LostAtFirst(c, x, E.Document(explicitStart, Written(g, resolve, root), explicitEnd))
    ensures
      var d := E.Document(explicitStart, Written(g, resolve, root), explicitEnd);
      var parsed := G.ParseStream(S.Spell(DocsFor(c, x, [d], open)));
      && parsed.Got? && |parsed.value| == 1
      && var r := Compose(parsed.value[0].root, resolve, Composed([], map[]));
         var names := Reachable(g, root);
         && r.Some? && r.value.0 == 0 && names != [] && names[0] == root && |r.value.1.store| == |names|
         && forall i :: 0 <= i < |names| ==> ReadBack(resolve, names, g[names[i]], r.value.1.store[i])
  {
    hide Written, Compose, Delivered, S.Spell, DocsFor, G.ParseStream, ReadBack, Reachable, EmitterStructure.NodeOk,
         LostAtFirst, S.DocsFit, StartOmitted;
    EmittableGraphs.WrittenOk(g, resolve, root);
    DocumentsDelivered(c, x, [E.Document(explicitStart, Written(g, resolve, root), explicitEnd)], open);
    GraphComesThrough(c, x, g, resolve, root);
  }

  lemma ImageRead(resolve: Resolver, names: seq<Id>, n: GraphNode, a: GraphNode, b: GraphNode)
    requires IsImage(resolve, names, n, a) && SameContent(a, b) && TagKept(resolve, Some(n.tag), b)
    ensures ReadBack(resolve, names, n, b)
  {
    hide TagKept, TagBack;
  }
}
