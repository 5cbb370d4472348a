/** The two recursive walks of yaml/serializer.py, over a graph that may be cyclic. */
module GraphSerializer {
  import opened Options
  import opened Anchors
  import opened Chars
  import opened Events
  import opened Graphs
  import opened Serializing

  class Serializer {
    /** The nodes, by identity. */
    const graph: Graph
    const resolve: Resolver
    const useExplicitStart: bool
    const useExplicitEnd: bool
    var serializedNodes: set<Id>
    var anchors: map<Id, Option<Text>>
    var lastAnchorId: nat
    /** What has been handed to `emit`. */
    var emitted: seq<Event>

    /** Between documents. */
    ghost predicate Valid()
      reads this
    {
      Closed(graph) && serializedNodes == {} && anchors == map[] && lastAnchorId == 0
    }

    constructor (g: Graph, r: Resolver, explicitStart: bool, explicitEnd: bool)
      requires Closed(g)
      ensures Valid() && graph == g && resolve == r && emitted == []
      ensures useExplicitStart == explicitStart && useExplicitEnd == explicitEnd
    {
      graph, resolve, useExplicitStart, useExplicitEnd := g, r, explicitStart, explicitEnd;
      serializedNodes, anchors, lastAnchorId, emitted := {}, map[], 0, [];
    }

    /** One document: the anchors are given before anything of it is written. */
    method Serialize(root: Id)
      requires Valid() && root in graph
      modifies this
      ensures Valid()
      ensures emitted == old(emitted)
                         + DocumentEvents(Document(useExplicitStart, Written(graph, resolve, root), useExplicitEnd))
    {
      hide Visit, Tree, NodeEvents, FirstMet, References, ClosedUnder;
      AnchorsMarkSharedNodes(graph, root);
      ReachableIsLeastClosed(graph, root);
      emitted := emitted + [DocumentStart(useExplicitStart)];
      AnchorNode(root);
      assert Anchoring(map[], 0) == old(Anchoring(anchors, lastAnchorId));
      assert anchors == AnchorsOf(graph, root);
      assert root in Elements(Reachable(graph, root));
      SerializeNode(root);
      emitted := emitted + [DocumentEnd(useExplicitEnd)];
      ghost var d := Document(useExplicitStart, Written(graph, resolve, root), useExplicitEnd);
      assert DocumentEvents(d)
             == [DocumentStart(useExplicitStart)] + NodeEvents(d.root) + [DocumentEnd(useExplicitEnd)];
      serializedNodes, anchors, lastAnchorId := {}, map[], 0;
    }

    method AnchorNode(n: Id)
      requires Closed(graph) && n in graph && anchors.Keys <= graph.Keys
      modifies this`anchors, this`lastAnchorId
      ensures Anchoring(anchors, lastAnchorId) == old(Visit(graph, n, Anchoring(anchors, lastAnchorId)))
      decreases graph.Keys - anchors.Keys, 0
    {
      if n in anchors {
        if anchors[n].None? {
          var anchor := GenerateAnchor();
          anchors := anchors[n := Some(anchor)];
        }
        return;
      }
      hide Visit, VisitAll, FirstMet, FirstMetAll, Elements, Flat;
      VisitNew(graph, n, Anchoring(anchors, lastAnchorId));
      anchors := anchors[n := None];
      match graph[n]
      case ScalarNode(_, _) => NothingVisited(graph, [], Anchoring(anchors, lastAnchorId));
      case SequenceNode(_, _, items) => AnchorItems(items);
      case MappingNode(_, _, pairs) => AnchorPairs(pairs);
    }

    /** The loop of anchor_node over the items of a sequence. */
    method AnchorItems(items: seq<Id>)
      requires Closed(graph) && Within(graph, items) && anchors.Keys <= graph.Keys
      modifies this`anchors, this`lastAnchorId
      ensures Anchoring(anchors, lastAnchorId) == old(VisitAll(graph, items, Anchoring(anchors, lastAnchorId)))
      decreases graph.Keys - anchors.Keys, 1
    {
      hide Visit, VisitAll, FirstMet, FirstMetAll, Elements;
      ghost var before := Anchoring(anchors, lastAnchorId);
      assert items[0..] == items;
      for i := 0 to |items|
        invariant before.anchors.Keys <= anchors.Keys <= graph.Keys && Within(graph, items[i..])
        invariant VisitAll(graph, items[i..], Anchoring(anchors, lastAnchorId)) == VisitAll(graph, items, before)
      {
        ItemVisit(graph, items, i, Anchoring(anchors, lastAnchorId));
        AnchorNode(items[i]);
      }
      NothingVisited(graph, items[|items|..], Anchoring(anchors, lastAnchorId));
    }

    /** The loop of anchor_node over the pairs of a mapping. */
    method AnchorPairs(pairs: seq<(Id, Id)>)
      requires Closed(graph) && Within(graph, Flat(pairs)) && anchors.Keys <= graph.Keys
      modifies this`anchors, this`lastAnchorId
      ensures Anchoring(anchors, lastAnchorId) == old(VisitAll(graph, Flat(pairs), Anchoring(anchors, lastAnchorId)))
      decreases graph.Keys - anchors.Keys, 1
    {
      hide Visit, VisitAll, FirstMet, FirstMetAll, Elements;
      ghost var before := Anchoring(anchors, lastAnchorId);
      assert pairs[0..] == pairs;
      for i := 0 to |pairs|
        invariant before.anchors.Keys <= anchors.Keys <= graph.Keys && Within(graph, Flat(pairs[i..]))
        invariant VisitAll(graph, Flat(pairs[i..]), Anchoring(anchors, lastAnchorId))
                  == VisitAll(graph, Flat(pairs), before)
      {
        FlatStep(graph, pairs, i, Anchoring(anchors, lastAnchorId));
        AnchorNode(pairs[i].0);
        AnchorNode(pairs[i].1);
      }
      NothingVisited(graph, Flat(pairs[|pairs|..]), Anchoring(anchors, lastAnchorId));
    }

    method GenerateAnchor() returns (anchor: Text)
      modifies this`lastAnchorId
      ensures lastAnchorId == old(lastAnchorId) + 1 && anchor == AnchorText(lastAnchorId)
    {
      lastAnchorId := lastAnchorId + 1;
      anchor := AnchorText(lastAnchorId);
    }

    method SerializeNode(n: Id)
      requires Closed(graph) && ClosedUnder(graph, anchors.Keys) && n in anchors && serializedNodes <= graph.Keys
      modifies this`serializedNodes, this`emitted
      ensures serializedNodes == old(serializedNodes) + Elements(FirstMet(graph, n, old(serializedNodes))) <= graph.Keys
      ensures emitted == old(emitted) + NodeEvents(Tree(graph, anchors, resolve, n, old(serializedNodes)))
      decreases graph.Keys - serializedNodes, 0
    {
      var alias := anchors[n];
      if n in serializedNodes {
        emitted := emitted + [Alias(alias)];
        return;
      }
      hide FirstMet, Tree, FirstMetAll, ItemTrees, PairTrees, ItemsEvents, PairsEvents, NodeEvents, Flat;
      ChildrenClosed(graph, anchors.Keys, n);
      ghost var seen := serializedNodes;
      FirstMetNew(graph, n, seen);
      TreeNew(graph, anchors, resolve, n, seen, emitted);
      serializedNodes := serializedNodes + {n};
      match graph[n]
      case ScalarNode(tag, value) =>
        var detected := resolve(ScalarQuery(value, true, false));
        var default := resolve(ScalarQuery(value, false, true));
        emitted := emitted + [Scalar(alias, Some(tag), tag == detected, tag == default, value)];
      case SequenceNode(tag, flow, items) =>
        var implicit := tag == resolve(SequenceQuery(true));
        emitted := emitted + [SequenceStart(alias, Some(tag), implicit, flow)];
        SerializeItems(items);
        emitted := emitted + [SequenceEnd];
      case MappingNode(tag, flow, pairs) =>
        var implicit := tag == resolve(MappingQuery(true));
        emitted := emitted + [MappingStart(alias, Some(tag), implicit, flow)];
        SerializePairs(pairs);
        emitted := emitted + [MappingEnd];
    }

    /** The loop of serialize_node over the items of a sequence. */
    method SerializeItems(items: seq<Id>)
      requires Closed(graph) && ClosedUnder(graph, anchors.Keys) && Elements(items) <= anchors.Keys
      requires serializedNodes <= graph.Keys
      modifies this`serializedNodes, this`emitted
      ensures serializedNodes == old(serializedNodes)
              + Elements(FirstMetAll(graph, items, old(serializedNodes))) <= graph.Keys
      ensures emitted == old(emitted) + ItemsEvents(ItemTrees(graph, anchors, resolve, items, old(serializedNodes)))
      decreases graph.Keys - serializedNodes, 1
    {
      hide FirstMet, Tree, FirstMetAll, ItemTrees, ItemsEvents, NodeEvents;
      ghost var seen, written := serializedNodes, emitted;
      for i := 0 to |items|
        invariant seen <= serializedNodes <= graph.Keys && Elements(items[i..]) <= anchors.Keys
        invariant serializedNodes + Elements(FirstMetAll(graph, items[i..], serializedNodes))
                  == seen + Elements(FirstMetAll(graph, items, seen))
        invariant emitted + ItemsEvents(ItemTrees(graph, anchors, resolve, items[i..], serializedNodes))
                  == written + ItemsEvents(ItemTrees(graph, anchors, resolve, items, seen))
      {
        ItemsStep(graph, anchors, resolve, items, i, serializedNodes, emitted);
        SerializeNode(items[i]);
      }
      ItemsDone(graph, anchors, resolve, items, serializedNodes, emitted);
    }

    /** The loop of serialize_node over the pairs of a mapping. */
    method SerializePairs(pairs: seq<(Id, Id)>)
      requires Closed(graph) && ClosedUnder(graph, anchors.Keys) && Elements(Flat(pairs)) <= anchors.Keys
      requires serializedNodes <= graph.Keys
      modifies this`serializedNodes, this`emitted
      ensures serializedNodes == old(serializedNodes)
              + Elements(FirstMetAll(graph, Flat(pairs), old(serializedNodes))) <= graph.Keys
      ensures emitted == old(emitted) + PairsEvents(PairTrees(graph, anchors, resolve, pairs, old(serializedNodes)))
      decreases graph.Keys - serializedNodes, 1
    {
      hide FirstMet, Tree, FirstMetAll, PairTrees, PairsEvents, NodeEvents, Flat;
      ghost var seen, written := serializedNodes, emitted;
      for i := 0 to |pairs|
        invariant seen <= serializedNodes <= graph.Keys && Elements(Flat(pairs[i..])) <= anchors.Keys
        invariant serializedNodes + Elements(FirstMetAll(graph, Flat(pairs[i..]), serializedNodes))
                  == seen + Elements(FirstMetAll(graph, Flat(pairs), seen))
        invariant emitted + PairsEvents(PairTrees(graph, anchors, resolve, pairs[i..], serializedNodes))
                  == written + PairsEvents(PairTrees(graph, anchors, resolve, pairs, seen))
      {
        PairsStep(graph, anchors, resolve, pairs, i, serializedNodes, emitted);
        SerializeNode(pairs[i].0);
        SerializeNode(pairs[i].1);
      }
      PairsDone(graph, anchors, resolve, pairs, serializedNodes, emitted);
    }
  }

  // How the functions unfold along the loops.

  lemma VisitNew(g: Graph, n: Id, s: Anchoring)
    requires Closed(g) && n in g && s.anchors.Keys <= g.Keys && n !in s.anchors
    ensures Within(g, Children(g[n])) && Visit(g, n, s) == VisitAll(g, Children(g[n]), Note(s, n))
    ensures g.Keys - Note(s, n).anchors.Keys < g.Keys - s.anchors.Keys
  {
    ChildrenWithin(g, n);
  }

  lemma ItemVisit(g: Graph, items: seq<Id>, i: nat, s: Anchoring)
    requires Closed(g) && i < |items| && Within(g, items[i..]) && s.anchors.Keys <= g.Keys
    ensures items[i] in g && Within(g, items[i + 1..])
    ensures VisitAll(g, items[i..], s) == VisitAll(g, items[i + 1..], Visit(g, items[i], s))
    ensures s.anchors.Keys <= Visit(g, items[i], s).anchors.Keys <= g.Keys
  {
    assert items[i..][1..] == items[i + 1..] && items[i..][0] == items[i];
  }

  lemma NothingVisited(g: Graph, l: seq<Id>, s: Anchoring)
    requires Closed(g) && Within(g, l) && s.anchors.Keys <= g.Keys
    ensures l == [] ==> VisitAll(g, l, s) == s
  {
  }

  lemma FlatStep(g: Graph, pairs: seq<(Id, Id)>, i: nat, s: Anchoring)
    requires Closed(g) && i < |pairs| && Within(g, Flat(pairs[i..])) && s.anchors.Keys <= g.Keys
    ensures pairs[i].0 in g && pairs[i].1 in g && Within(g, Flat(pairs[i + 1..]))
    ensures VisitAll(g, Flat(pairs[i..]), s)
            == VisitAll(g, Flat(pairs[i + 1..]), Visit(g, pairs[i].1, Visit(g, pairs[i].0, s)))
    ensures s.anchors.Keys <= Visit(g, pairs[i].0, s).anchors.Keys <= g.Keys
  {
    hide Visit;
    var l := pairs[i..];
    assert l[1..] == pairs[i + 1..];
    var tail := [l[0].1] + Flat(l[1..]);
    assert Flat(l) == [l[0].0] + tail;
    assert Flat(l)[1..] == tail && tail[1..] == Flat(l[1..]);
    assert Flat(l)[0] == l[0].0 && Flat(l)[1] == l[0].1;
  }

  lemma FirstMetNew(g: Graph, n: Id, seen: set<Id>)
    requires Closed(g) && n in g && seen <= g.Keys && n !in seen
    ensures Within(g, Children(g[n]))
    ensures Children(g[n]) == [] ==> seen + Elements(FirstMet(g, n, seen)) == seen + {n}
    ensures seen + Elements(FirstMet(g, n, seen)) == seen + {n} + Elements(FirstMetAll(g, Children(g[n]), seen + {n}))
  {
    ChildrenWithin(g, n);
    ElementsJoin([n], FirstMetAll(g, Children(g[n]), seen + {n}));
  }

  lemma ItemsStep(g: Graph, anchors: AnchorMap, resolve: Resolver, items: seq<Id>, i: nat, seen: set<Id>,
                  emitted: seq<Event>)
    requires Closed(g) && ClosedUnder(g, anchors.Keys) && i < |items| && Elements(items[i..]) <= anchors.Keys
    requires seen <= g.Keys
    ensures items[i] in anchors && Elements(items[i + 1..]) <= anchors.Keys
    ensures
      var t := Tree(g, anchors, resolve, items[i], seen);
      var later := seen + Elements(FirstMet(g, items[i], seen));
      && later <= g.Keys
      && seen + Elements(FirstMetAll(g, items[i..], seen)) == later + Elements(FirstMetAll(g, items[i + 1..], later))
      && emitted + ItemsEvents(ItemTrees(g, anchors, resolve, items[i..], seen)) ==
         emitted + NodeEvents(t) + ItemsEvents(ItemTrees(g, anchors, resolve, items[i + 1..], later))
  {
    hide Tree, FirstMet;
    var l := items[i..];
    assert l[0] in Elements(l) && l[1..] == items[i + 1..];
    var later := seen + Elements(FirstMet(g, l[0], seen));
    ElementsJoin(FirstMet(g, l[0], seen), FirstMetAll(g, l[1..], later));
    var t := Tree(g, anchors, resolve, items[i], seen);
    var rest := ItemsEvents(ItemTrees(g, anchors, resolve, items[i + 1..], later));
    assert emitted + (NodeEvents(t) + rest) == emitted + NodeEvents(t) + rest;
  }

  lemma ItemsDone(g: Graph, anchors: AnchorMap, resolve: Resolver, items: seq<Id>, seen: set<Id>, emitted: seq<Event>)
    requires Closed(g) && ClosedUnder(g, anchors.Keys) && seen <= g.Keys
    ensures Elements(items[|items|..]) == {} && seen + Elements(FirstMetAll(g, items[|items|..], seen)) == seen
    ensures emitted + ItemsEvents(ItemTrees(g, anchors, resolve, items[|items|..], seen)) == emitted
  {
  }

  lemma PairsStep(g: Graph, anchors: AnchorMap, resolve: Resolver, pairs: seq<(Id, Id)>, i: nat, seen: set<Id>,
                  emitted: seq<Event>)
    requires Closed(g) && ClosedUnder(g, anchors.Keys) && seen <= g.Keys
    requires i < |pairs| && Elements(Flat(pairs[i..])) <= anchors.Keys
    ensures pairs[i].0 in anchors && pairs[i].1 in anchors && Elements(Flat(pairs[i + 1..])) <= anchors.Keys
    ensures
      var key := Tree(g, anchors, resolve, pairs[i].0, seen);
      var keyed := seen + Elements(FirstMet(g, pairs[i].0, seen));
      keyed <= g.Keys &&
      var value := Tree(g, anchors, resolve, pairs[i].1, keyed);
      var later := keyed + Elements(FirstMet(g, pairs[i].1, keyed));
      && later <= g.Keys
      && seen + Elements(FirstMetAll(g, Flat(pairs[i..]), seen))
         == later + Elements(FirstMetAll(g, Flat(pairs[i + 1..]), later))
      && emitted + PairsEvents(PairTrees(g, anchors, resolve, pairs[i..], seen)) ==
         emitted + NodeEvents(key) + NodeEvents(value)
             + PairsEvents(PairTrees(g, anchors, resolve, pairs[i + 1..], later))
  {
    hide Tree, FirstMet, Elements;
    var l := pairs[i..];
    assert l[1..] == pairs[i + 1..];
    FlatFacts(l);
    MetPairElements(g, l, seen);
    var keyed := seen + Elements(FirstMet(g, l[0].0, seen));
    var later := keyed + Elements(FirstMet(g, l[0].1, keyed));
    var k, v := NodeEvents(Tree(g, anchors, resolve, l[0].0, seen)),
        NodeEvents(Tree(g, anchors, resolve, l[0].1, keyed));
    var rest := PairsEvents(PairTrees(g, anchors, resolve, l[1..], later));
    assert emitted + (k + v + rest) == emitted + k + v + rest;
  }

  lemma MetPairElements(g: Graph, l: seq<(Id, Id)>, seen: set<Id>)
    requires Closed(g) && l != [] && Elements(Flat(l)) <= g.Keys && seen <= g.Keys
    ensures l[0].0 in g && l[0].1 in g && Elements(Flat(l[1..])) <= g.Keys
    ensures
      var keyed := seen + Elements(FirstMet(g, l[0].0, seen));
      keyed <= g.Keys &&
      var later := keyed + Elements(FirstMet(g, l[0].1, keyed));
      && later <= g.Keys
      && seen + Elements(FirstMetAll(g, Flat(l), seen)) == later + Elements(FirstMetAll(g, Flat(l[1..]), later))
  {
    hide FirstMet;
    FlatFacts(l);
    var tail := [l[0].1] + Flat(l[1..]);
    assert Flat(l)[1..] == tail && tail[1..] == Flat(l[1..]);
    var first := FirstMet(g, l[0].0, seen);
    var keyed := seen + Elements(first);
    var second := FirstMet(g, l[0].1, keyed);
    ElementsJoin(first, FirstMetAll(g, tail, keyed));
    ElementsJoin(second, FirstMetAll(g, tail[1..], keyed + Elements(second)));
  }

  lemma PairsDone(g: Graph, anchors: AnchorMap, resolve: Resolver, pairs: seq<(Id, Id)>, seen: set<Id>,
                  emitted: seq<Event>)
    requires Closed(g) && ClosedUnder(g, anchors.Keys) && seen <= g.Keys
    ensures Elements(Flat(pairs[|pairs|..])) == {}
    ensures seen + Elements(FirstMetAll(g, Flat(pairs[|pairs|..]), seen)) == seen
    ensures emitted + PairsEvents(PairTrees(g, anchors, resolve, pairs[|pairs|..], seen)) == emitted
  {
  }

  /** The events of a node written for the first time, behind those written before. */
  lemma TreeNew(g: Graph, anchors: AnchorMap, resolve: Resolver, n: Id, seen: set<Id>, written: seq<Event>)
    requires Closed(g) && ClosedUnder(g, anchors.Keys) && n in anchors && seen <= g.Keys && n !in seen
    requires Elements(Children(g[n])) <= anchors.Keys
    ensures
      var later := written + NodeEvents(Tree(g, anchors, resolve, n, seen));
      match g[n]
      case ScalarNode(tag, value) =>
        later == written + [Scalar(anchors[n], Some(tag), tag == resolve(ScalarQuery(value, true, false)),
                                   tag == resolve(ScalarQuery(value, false, true)), value)]
      case SequenceNode(tag, flow, items) =>
        later == written + [SequenceStart(anchors[n], Some(tag), tag == resolve(SequenceQuery(true)), flow)]
                 + ItemsEvents(ItemTrees(g, anchors, resolve, items, seen + {n})) + [SequenceEnd]
      case MappingNode(tag, flow, pairs) =>
        later == written + [MappingStart(anchors[n], Some(tag), tag == resolve(MappingQuery(true)), flow)]
                 + PairsEvents(PairTrees(g, anchors, resolve, pairs, seen + {n})) + [MappingEnd]
  {
    match g[n]
    case ScalarNode(_, _) =>
    case SequenceNode(tag, flow, items) =>
      var start := [SequenceStart(anchors[n], Some(tag), tag == resolve(SequenceQuery(true)), flow)];
      var inner := ItemsEvents(ItemTrees(g, anchors, resolve, items, seen + {n}));
      assert written + (start + inner + [SequenceEnd]) == written + start + inner + [SequenceEnd];
    case MappingNode(tag, flow, pairs) =>
      var start := [MappingStart(anchors[n], Some(tag), tag == resolve(MappingQuery(true)), flow)];
      var inner := PairsEvents(PairTrees(g, anchors, resolve, pairs, seen + {n}));
      assert written + (start + inner + [MappingEnd]) == written + start + inner + [MappingEnd];
  }
}
