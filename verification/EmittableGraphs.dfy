/** What the serializer writes for a node graph, the emitter accepts: the layers fit together. */
module EmittableGraphs {
  import opened Options
  import opened Anchors
  import opened Graphs
  import opened Serializing
  import R = GraphRoundTrip
  import M = EmitterMachine
  import S = EmitterStructure
  import E = Events

  predicate TagsGiven(g: Graph) { forall n <- g :: g[n].tag != [] }

  predicate AnchorsAllowed(anchors: AnchorMap) {
    forall n <- anchors :: anchors[n].Some? ==> M.IsAnchor(anchors[n].value)
  }

  lemma {:induction false} DigitsAllowed(n: nat)
    ensures forall c <- Digits(n) :: M.IsAnchorCharacter(c)
  {
    if n >= 10 {
      DigitsAllowed(n / 10);
    }
  }

  lemma AnchorTextAllowed(n: nat)
    ensures M.IsAnchor(AnchorText(n))
  {
    DigitsAllowed(n);
  }

  lemma AnchorsOfAllowed(g: Graph, root: Id)
    requires Closed(g) && root in g
    ensures AnchorsAllowed(AnchorsOf(g, root))
  {
    var none := Anchoring(map[], 0);
    hide Visit, M.IsAnchor, AnchorText;
    VisitNumbers(g, root, none);
    var anchors := AnchorsOf(g, root);
    forall n <- anchors | anchors[n].Some?
      ensures M.IsAnchor(anchors[n].value)
    {
      assert IsNumbered(anchors[n].value, Visit(g, root, none).last);
      var k: nat :| anchors[n].value == AnchorText(k);
      AnchorTextAllowed(k);
    }
  }

  predicate Emittable(g: Graph, anchors: AnchorMap) {
    Closed(g) && ClosedUnder(g, anchors.Keys) && TagsGiven(g) && AnchorsAllowed(anchors)
  }

  lemma AliasHasAnchor(g: Graph, anchors: AnchorMap, n: Id, v: Anchoring)
    requires Closed(g) && n in g && v.anchors.Keys <= g.Keys && n in v.anchors
    requires Extends(anchors, Visit(g, n, v).anchors)
    ensures n in anchors && anchors[n].Some?
  {
    assert n in Visit(g, n, v).anchors && Visit(g, n, v).anchors[n].Some?;
  }

  /** Where the second walk has seen what the first one had seen at the same point, an alias has its anchor. */
  lemma {:induction false} TreeOk(g: Graph, anchors: AnchorMap, resolve: Resolver, n: Id, v: Anchoring)
    requires Emittable(g, anchors) && n in anchors && v.anchors.Keys <= g.Keys
    requires Extends(anchors, Visit(g, n, v).anchors)
    ensures S.NodeOk(Tree(g, anchors, resolve, n, v.anchors.Keys))
    decreases g.Keys - v.anchors.Keys, 0
  {
    hide M.IsAnchor, VisitAll, FirstMet, FirstMetAll, Elements, Flat, ItemTrees, PairTrees, S.ItemsOk, S.PairsOk,
         Extends;
    if n in v.anchors {
      AliasHasAnchor(g, anchors, n, v);
    } else {
      hide ClosedUnder, Children;
      ChildrenClosed(g, anchors.Keys, n);
      var w := Note(v, n);
      assert w.anchors.Keys == v.anchors.Keys + {n};
      hide Visit;
      match g[n]
      case ScalarNode(_, _) =>
      case SequenceNode(_, _, items) => ItemTreesOk(g, anchors, resolve, items, w);
      case MappingNode(_, _, pairs) => PairTreesOk(g, anchors, resolve, pairs, w);
    }
  }

  lemma {:induction false} ItemTreesOk(g: Graph, anchors: AnchorMap, resolve: Resolver, l: seq<Id>, v: Anchoring)
    requires Emittable(g, anchors) && Elements(l) <= anchors.Keys && v.anchors.Keys <= g.Keys
    requires Extends(anchors, VisitAll(g, l, v).anchors)
    ensures S.ItemsOk(ItemTrees(g, anchors, resolve, l, v.anchors.Keys))
    decreases g.Keys - v.anchors.Keys, |l|
  {
    if l != [] {
      hide Visit, Tree, FirstMet, S.NodeOk, Emittable, Extends;
      assert l[0] in Elements(l) && Elements(l[1..]) <= Elements(l);
      R.ExtendsHead(g, anchors, l, v);
      TreeOk(g, anchors, resolve, l[0], v);
      ItemTreesOk(g, anchors, resolve, l[1..], Visit(g, l[0], v));
    }
  }

  lemma {:induction false} PairTreesOk(g: Graph, anchors: AnchorMap, resolve: Resolver, l: seq<(Id, Id)>, v: Anchoring)
    requires Emittable(g, anchors) && Elements(Flat(l)) <= anchors.Keys && v.anchors.Keys <= g.Keys
    requires Extends(anchors, VisitAll(g, Flat(l), v).anchors)
    ensures S.PairsOk(PairTrees(g, anchors, resolve, l, v.anchors.Keys))
    decreases g.Keys - v.anchors.Keys, |l|
  {
    if l != [] {
      hide Visit, VisitAll, Tree, FirstMet, S.NodeOk, Emittable, Extends, Flat;
      FlatFacts(l);
      R.VisitPair(g, anchors, l, v);
      var withKey := Visit(g, l[0].0, v);
      TreeOk(g, anchors, resolve, l[0].0, v);
      TreeOk(g, anchors, resolve, l[0].1, withKey);
      PairTreesOk(g, anchors, resolve, l[1..], Visit(g, l[0].1, withKey));
    }
  }

  lemma WrittenOk(g: Graph, resolve: Resolver, root: Id)
    requires Closed(g) && root in g && TagsGiven(g)
    ensures S.NodeOk(Written(g, resolve, root))
  {
    hide Visit, Tree, S.NodeOk, References, FirstMet, AnchorsAllowed, TagsGiven;
    AnchorsMarkSharedNodes(g, root);
    ReachableIsLeastClosed(g, root);
    assert root in Elements(Reachable(g, root));
    AnchorsOfAllowed(g, root);
    var none := Anchoring(map[], 0);
    assert none.anchors.Keys == {};
    TreeOk(g, AnchorsOf(g, root), resolve, root, none);
  }

  /** The document of any node graph whose tags are given is emitted without an error, shared and cyclic nodes
      and all, and the emitter's stacks are empty behind it. */
  lemma GraphIsEmitted(c: M.Config, g: Graph, resolve: Resolver, root: Id, explicitStart: bool, explicitEnd: bool)
    returns (r: M.Machine)
    requires Closed(g) && root in g && TagsGiven(g)
    ensures M.Offline(c, E.StreamEvents([E.Document(explicitStart, Written(g, resolve, root), explicitEnd)])) == Some(r)
    ensures S.Idle(r) && r.state.ExpectNothing?
  {
    hide Written, S.NodeOk, M.Offline, E.StreamEvents;
    WrittenOk(g, resolve, root);
    r := S.StreamRuns(c, [E.Document(explicitStart, Written(g, resolve, root), explicitEnd)]);
  }
}
