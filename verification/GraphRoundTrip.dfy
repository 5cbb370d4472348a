/** Composing what was serialized from a node graph gives an isomorphic graph, cycles and sharing included. */
module GraphRoundTrip {
  import opened Options
  import opened Anchors
  import opened Chars
  import opened Graphs
  import opened Serializing

  /** After the nodes `names` have been written and composed, in this order: each is stored under its
      number, its anchor names it, and but for the collections still open it is the image of its node. */
  predicate Related(g: Graph, anchors: AnchorMap, resolve: Resolver, names: seq<Id>, s: Composed, open: set<Id>) {
    && s.Ok() && |s.store| == |names| && Distinct(names) && Elements(names) <= anchors.Keys <= g.Keys
    && (forall i | 0 <= i < |names| :: AnchorKnown(anchors, names, s, i))
    && (forall a <- s.anchors :: anchors[names[s.anchors[a]]] == Some(a))
    && (forall i | 0 <= i < |names| && i !in open :: IsImage(resolve, names, g[names[i]], s.store[i]))
  }

  predicate AnchorKnown(anchors: AnchorMap, names: seq<Id>, s: Composed, i: Id)
    requires i < |names| && Elements(names) <= anchors.Keys
  {
    var n := names[i];
    assert n in Elements(names);
    anchors[n].Some? ==> anchors[n].value in s.anchors && s.anchors[anchors[n].value] == i
  }

  /** The rest of the first walk has given `anchors` their final values. */
  predicate Serializable(g: Graph, anchors: AnchorMap) {
    Closed(g) && ClosedUnder(g, anchors.Keys) && DistinctAnchors(anchors)
  }

  predicate InStep(v: Anchoring, names: seq<Id>) { v.anchors.Keys == Elements(names) }

  lemma NewName(names: seq<Id>, n: Id)
    requires Distinct(names) && n !in Elements(names)
    ensures Distinct(names + [n]) && Elements(names + [n]) == Elements(names) + {n}
  {
    DistinctJoin(names, [n]);
    ElementsJoin(names, [n]);
  }

  lemma AnchorIsNew(g: Graph, anchors: AnchorMap, resolve: Resolver, n: Id, names: seq<Id>, s: Composed, open: set<Id>)
    requires Related(g, anchors, resolve, names, s, open) && n in anchors && n !in Elements(names)
    requires DistinctAnchors(anchors)
    ensures !Duplicate(anchors[n], s)
  {
    forall a <- s.anchors
      ensures anchors[n] != Some(a)
    {
      assert names[s.anchors[a]] in Elements(names);
    }
  }

  /** A new node enters the store, open when it is a collection. */
  lemma NewNode(g: Graph, anchors: AnchorMap, resolve: Resolver, n: Id, names: seq<Id>, s: Composed, open: set<Id>,
                node: GraphNode)
    requires Related(g, anchors, resolve, names, s, open) && n in anchors && n !in Elements(names)
    requires DistinctAnchors(anchors)
    ensures !Duplicate(anchors[n], s)
    ensures Related(g, anchors, resolve, names + [n], s.Add(anchors[n], node), open + {|names|})
  {
    hide IsImage;
    NewName(names, n);
    assert !Duplicate(anchors[n], s) by { AnchorIsNew(g, anchors, resolve, n, names, s, open); }
    var t := s.Add(anchors[n], node);
    forall i | 0 <= i < |names + [n]|
      ensures AnchorKnown(anchors, names + [n], t, i)
    {
      if i < |names| {
        assert AnchorKnown(anchors, names, s, i) && names[i] in Elements(names);
      }
    }
    forall i | 0 <= i < |names + [n]| && i !in open + {|names|}
      ensures IsImage(resolve, names + [n], g[(names + [n])[i]], t.store[i])
    {
      ImageStays(resolve, names, [n], g[names[i]], s.store[i]);
    }
  }

  /** What is stored under an open number does not matter. */
  lemma OpenChanges(g: Graph, anchors: AnchorMap, resolve: Resolver, names: seq<Id>, s: Composed, t: Composed,
                    open: set<Id>, id: Id)
    requires Related(g, anchors, resolve, names, s, open) && id in open
    requires t.Ok() && |t.store| == |s.store| && t.anchors == s.anchors && s.KeptIn(t, id)
    ensures Related(g, anchors, resolve, names, t, open)
  {
    hide IsImage;
    forall i | 0 <= i < |names|
      ensures AnchorKnown(anchors, names, t, i)
    {
      assert AnchorKnown(anchors, names, s, i);
    }
  }

  /** A collection whose items are all there is no longer open. */
  lemma Closes(g: Graph, anchors: AnchorMap, resolve: Resolver, names: seq<Id>, s: Composed, open: set<Id>, id: Id)
    requires Related(g, anchors, resolve, names, s, open + {id})
    requires id < |names| && IsImage(resolve, names, g[names[id]], s.store[id])
    ensures Related(g, anchors, resolve, names, s, open)
  {
    hide IsImage;
  }

  /** Node n, written after `names`, is composed to its image, and so is all that it reaches. */
  predicate NodeComes(g: Graph, anchors: AnchorMap, resolve: Resolver, n: Id, names: seq<Id>, s: Composed,
                      open: set<Id>)
    requires Serializable(g, anchors) && n in anchors && Elements(names) <= anchors.Keys && s.Ok()
  {
    var r := Compose(Tree(g, anchors, resolve, n, Elements(names)), resolve, s);
    var later := names + FirstMet(g, n, Elements(names));
    r.Some? && Names(later, r.value.0, n) && Related(g, anchors, resolve, later, r.value.1, open)
  }

  /** The items l, written after `names`, are appended to the sequence stored under `id`. */
  predicate ItemsCome(g: Graph, anchors: AnchorMap, resolve: Resolver, l: seq<Id>, names: seq<Id>, s: Composed,
                      open: set<Id>, id: Id, done: seq<Id>)
    requires Serializable(g, anchors) && Elements(l) <= anchors.Keys && Elements(names) <= anchors.Keys && s.Ok()
    requires id < |s.store| && s.store[id].SequenceNode?
  {
    var r := ComposeItems(ItemTrees(g, anchors, resolve, l, Elements(names)), resolve, id, s);
    var later := names + FirstMetAll(g, l, Elements(names));
    && r.Some? && Related(g, anchors, resolve, later, r.value, open) && id < |r.value.store|
    && IsSequence(later, r.value.store[id], s.store[id].tag, s.store[id].flow, done + l)
  }

  predicate PairsCome(g: Graph, anchors: AnchorMap, resolve: Resolver, l: seq<(Id, Id)>, names: seq<Id>, s: Composed,
                      open: set<Id>, id: Id, done: seq<(Id, Id)>)
    requires Serializable(g, anchors) && Elements(Flat(l)) <= anchors.Keys && Elements(names) <= anchors.Keys && s.Ok()
    requires id < |s.store| && s.store[id].MappingNode?
  {
    var r := ComposePairs(PairTrees(g, anchors, resolve, l, Elements(names)), resolve, id, s);
    var later := names + FirstMetAll(g, Flat(l), Elements(names));
    && r.Some? && Related(g, anchors, resolve, later, r.value, open) && id < |r.value.store|
    && IsMapping(later, r.value.store[id], s.store[id].tag, s.store[id].flow, done + l)
  }

  predicate IsSequence(names: seq<Id>, n: GraphNode, tag: Text, flow: Option<bool>, items: seq<Id>) {
    n.SequenceNode? && n.tag == tag && n.flow == flow && ItemsImage(names, items, n.items)
  }

  predicate IsMapping(names: seq<Id>, n: GraphNode, tag: Text, flow: Option<bool>, pairs: seq<(Id, Id)>) {
    n.MappingNode? && n.tag == tag && n.flow == flow && PairsImage(names, pairs, n.pairs)
  }

  lemma {:induction false} NodeRoundTrip(g: Graph, anchors: AnchorMap, resolve: Resolver, n: Id, names: seq<Id>,
                                         v: Anchoring, s: Composed, open: set<Id>)
    requires Serializable(g, anchors) && n in anchors && Related(g, anchors, resolve, names, s, open)
    requires InStep(v, names) && Extends(anchors, Visit(g, n, v).anchors)
    ensures Elements(names) <= anchors.Keys && NodeComes(g, anchors, resolve, n, names, s, open)
    decreases g.Keys - Elements(names), 0
  {
    hide Related, Compose, Tree, FirstMet, FirstMetAll, IsImage, Extends, ItemsCome, PairsCome, VisitAll, Elements;
    RelatedFacts(g, anchors, resolve, names, s, open);
    if n in Elements(names) {
      AliasRoundTrip(g, anchors, resolve, n, names, v, s, open);
    } else {
      var id := |names|;
      NewName(names, n);
      ChildrenClosed(g, anchors.Keys, n);
      match g[n]
      case ScalarNode(tag, value) =>
        ScalarRoundTrip(g, anchors, resolve, n, names, s, open);
      case SequenceNode(tag, flow, items) =>
        var node := SequenceNode(TagBack(resolve, g[n]), flow, []);
        NewNode(g, anchors, resolve, n, names, s, open, node);
        ItemsRoundTrip(g, anchors, resolve, items, names + [n], Note(v, n), s.Add(anchors[n], node), open + {id}, id,
                       []);
        SequenceStep(g, anchors, resolve, n, names, s, open);
      case MappingNode(tag, flow, pairs) =>
        var node := MappingNode(TagBack(resolve, g[n]), flow, []);
        NewNode(g, anchors, resolve, n, names, s, open, node);
        PairsRoundTrip(g, anchors, resolve, pairs, names + [n], Note(v, n), s.Add(anchors[n], node), open + {id}, id,
                       []);
        MappingStep(g, anchors, resolve, n, names, s, open);
    }
  }

  lemma ScalarRoundTrip(g: Graph, anchors: AnchorMap, resolve: Resolver, n: Id, names: seq<Id>, s: Composed,
                        open: set<Id>)
    requires Serializable(g, anchors) && n in anchors && n !in Elements(names)
    requires Related(g, anchors, resolve, names, s, open) && g[n].ScalarNode?
    ensures Elements(names) <= anchors.Keys && NodeComes(g, anchors, resolve, n, names, s, open)
  {
    hide Related;
    RelatedFacts(g, anchors, resolve, names, s, open);
    var node := ScalarNode(TagBack(resolve, g[n]), g[n].value);
    NewNode(g, anchors, resolve, n, names, s, open, node);
    RelatedFacts(g, anchors, resolve, names + [n], s.Add(anchors[n], node), open + {|names|});
    Closes(g, anchors, resolve, names + [n], s.Add(anchors[n], node), open, |names|);
    assert FirstMet(g, n, Elements(names)) == [n];
  }

  lemma SequenceStep(g: Graph, anchors: AnchorMap, resolve: Resolver, n: Id, names: seq<Id>, s: Composed, open: set<Id>)
    requires Serializable(g, anchors) && n in anchors && n !in Elements(names) && g[n].SequenceNode?
    requires Related(g, anchors, resolve, names, s, open) && !Duplicate(anchors[n], s)
    requires Elements(names + [n]) == Elements(names) + {n} <= anchors.Keys && Elements(g[n].items) <= anchors.Keys
    requires ItemsCome(g, anchors, resolve, g[n].items, names + [n],
                       s.Add(anchors[n], SequenceNode(TagBack(resolve, g[n]), g[n].flow, [])), open + {|names|},
                           |names|, [])
    ensures NodeComes(g, anchors, resolve, n, names, s, open)
  {
    hide Related, ComposeItems, ItemTrees, FirstMetAll, ItemsImage;
    RelatedFacts(g, anchors, resolve, names, s, open);
    var named := names + [n];
    var started := s.Add(anchors[n], SequenceNode(TagBack(resolve, g[n]), g[n].flow, []));
    var done := ComposeItems(ItemTrees(g, anchors, resolve, g[n].items, Elements(named)), resolve, |names|,
                             started).value;
    var later := named + FirstMetAll(g, g[n].items, Elements(named));
    assert [] + g[n].items == g[n].items && later[|names|] == n;
    assert later == names + FirstMet(g, n, Elements(names));
    Closes(g, anchors, resolve, later, done, open, |names|);
    assert Tree(g, anchors, resolve, n, Elements(names)).items
           == ItemTrees(g, anchors, resolve, g[n].items, Elements(named));
  }

  lemma MappingStep(g: Graph, anchors: AnchorMap, resolve: Resolver, n: Id, names: seq<Id>, s: Composed, open: set<Id>)
    requires Serializable(g, anchors) && n in anchors && n !in Elements(names) && g[n].MappingNode?
    requires Related(g, anchors, resolve, names, s, open) && !Duplicate(anchors[n], s)
    requires Elements(names + [n]) == Elements(names) + {n} <= anchors.Keys
    requires Elements(Flat(g[n].pairs)) <= anchors.Keys
    requires PairsCome(g, anchors, resolve, g[n].pairs, names + [n],
                       s.Add(anchors[n], MappingNode(TagBack(resolve, g[n]), g[n].flow, [])), open + {|names|}, |names|,
                           [])
    ensures NodeComes(g, anchors, resolve, n, names, s, open)
  {
    hide Related, ComposePairs, PairTrees, FirstMetAll, PairsImage;
    RelatedFacts(g, anchors, resolve, names, s, open);
    var named := names + [n];
    var started := s.Add(anchors[n], MappingNode(TagBack(resolve, g[n]), g[n].flow, []));
    var done := ComposePairs(PairTrees(g, anchors, resolve, g[n].pairs, Elements(named)), resolve, |names|,
                             started).value;
    var later := named + FirstMetAll(g, Flat(g[n].pairs), Elements(named));
    assert [] + g[n].pairs == g[n].pairs && later[|names|] == n;
    assert later == names + FirstMet(g, n, Elements(names));
    Closes(g, anchors, resolve, later, done, open, |names|);
    assert Tree(g, anchors, resolve, n, Elements(names)).pairs
           == PairTrees(g, anchors, resolve, g[n].pairs, Elements(named));
  }

  lemma {:induction false} ItemsRoundTrip(g: Graph, anchors: AnchorMap, resolve: Resolver, l: seq<Id>, names: seq<Id>,
                                          v: Anchoring, s: Composed, open: set<Id>, id: Id, done: seq<Id>)
    requires Serializable(g, anchors) && Elements(l) <= anchors.Keys && Related(g, anchors, resolve, names, s, open)
    requires id in open && id < |names| && |s.store| == |names|
    requires s.store[id].SequenceNode? && ItemsImage(names, done, s.store[id].items)
    requires InStep(v, names) && Extends(anchors, VisitAll(g, l, v).anchors)
    ensures Elements(names) <= anchors.Keys && ItemsCome(g, anchors, resolve, l, names, s, open, id, done)
    decreases g.Keys - Elements(names), |l|
  {
    hide Related, Compose, Tree, FirstMet, Elements, FirstMetAll, ComposeItems, ItemsImage, IsImage, Extends, ItemTrees,
         ItemsCome, VisitAll, Visit, Names, ClosedUnder, Closed, DistinctAnchors;
    RelatedFacts(g, anchors, resolve, names, s, open);
    if l == [] {
      NoItemsCome(g, anchors, resolve, names, s, open, id, done);
    } else {
      HeadAndTail(l);
      ElementsWithin(g, l);
      var rest := Visit(g, l[0], v);
      ExtendsHead(g, anchors, l, v);
      NodeRoundTrip(g, anchors, resolve, l[0], names, v, s, open);
      NodeFacts(g, anchors, resolve, l[0], names, v, s, open);
      var later := names + FirstMet(g, l[0], Elements(names));
      var (item, t) := Compose(Tree(g, anchors, resolve, l[0], Elements(names)), resolve, s).value;
      var u := t.AppendItem(id, item);
      OpenChanges(g, anchors, resolve, later, t, u, open, id);
      ImageGrows(names, FirstMet(g, l[0], Elements(names)), done, s.store[id].items, l[0], item);
      ItemsRoundTrip(g, anchors, resolve, l[1..], later, rest, u, open, id, done + [l[0]]);
      ItemsStep(g, anchors, resolve, l, names, s, open, id, done);
    }
  }

  lemma NoItemsCome(g: Graph, anchors: AnchorMap, resolve: Resolver, names: seq<Id>, s: Composed, open: set<Id>, id: Id,
                    done: seq<Id>)
    requires Serializable(g, anchors) && Related(g, anchors, resolve, names, s, open)
    requires id < |s.store| && s.store[id].SequenceNode? && ItemsImage(names, done, s.store[id].items)
    ensures ItemsCome(g, anchors, resolve, [], names, s, open, id, done)
  {
    hide Related;
    RelatedFacts(g, anchors, resolve, names, s, open);
    assert names + [] == names && done + [] == done;
  }

  lemma NoPairsCome(g: Graph, anchors: AnchorMap, resolve: Resolver, names: seq<Id>, s: Composed, open: set<Id>, id: Id,
                    done: seq<(Id, Id)>)
    requires Serializable(g, anchors) && Related(g, anchors, resolve, names, s, open)
    requires id < |s.store| && s.store[id].MappingNode? && PairsImage(names, done, s.store[id].pairs)
    ensures PairsCome(g, anchors, resolve, [], names, s, open, id, done)
  {
    hide Related;
    RelatedFacts(g, anchors, resolve, names, s, open);
    assert names + [] == names && done + [] == done;
  }

  lemma HeadAndTail(l: seq<Id>)
    requires l != []
    ensures l[0] in Elements(l) && Elements(l[1..]) <= Elements(l)
  {
  }

  lemma ExtendsHead(g: Graph, anchors: AnchorMap, l: seq<Id>, v: Anchoring)
    requires Closed(g) && Within(g, l) && v.anchors.Keys <= g.Keys && l != []
    requires Extends(anchors, VisitAll(g, l, v).anchors)
    ensures Extends(anchors, Visit(g, l[0], v).anchors)
    ensures VisitAll(g, l, v) == VisitAll(g, l[1..], Visit(g, l[0], v))
  {
    hide Visit;
    VisitAllExtends(g, l[1..], Visit(g, l[0], v));
  }

  lemma ImageGrows(names: seq<Id>, more: seq<Id>, done: seq<Id>, composed: seq<Id>, n: Id, item: Id)
    requires ItemsImage(names, done, composed) && Names(names + more, item, n)
    ensures ItemsImage(names + more, done + [n], composed + [item])
  {
  }

  lemma ElementsWithin(g: Graph, l: seq<Id>)
    requires Elements(l) <= g.Keys
    ensures Within(g, l)
  {
  }

  lemma ItemsUnfold(g: Graph, anchors: AnchorMap, resolve: Resolver, l: seq<Id>, seen: set<Id>, id: Id, s: Composed)
    requires Serializable(g, anchors) && l != [] && Elements(l) <= anchors.Keys && l[0] in anchors
    requires Elements(l[1..]) <= anchors.Keys && seen <= anchors.Keys && s.Ok()
    requires id < |s.store| && s.store[id].SequenceNode?
    ensures
      var r := Compose(Tree(g, anchors, resolve, l[0], seen), resolve, s);
      var later := seen + Elements(FirstMet(g, l[0], seen));
      ComposeItems(ItemTrees(g, anchors, resolve, l, seen), resolve, id, s) ==
        if r.None? then None
        else ComposeItems(ItemTrees(g, anchors, resolve, l[1..], later), resolve, id,
                          r.value.1.AppendItem(id, r.value.0))
  {
    hide Compose, Tree, FirstMet, Elements;
  }

  lemma PairsUnfold(g: Graph, anchors: AnchorMap, resolve: Resolver, l: seq<(Id, Id)>, seen: set<Id>, id: Id,
                    s: Composed)
    requires Serializable(g, anchors) && l != [] && Elements(Flat(l)) <= anchors.Keys && l[0].0 in anchors
    requires l[0].1 in anchors
    requires Elements(Flat(l[1..])) <= anchors.Keys && seen <= anchors.Keys && s.Ok()
    requires id < |s.store| && s.store[id].MappingNode?
    ensures
      var r := Compose(Tree(g, anchors, resolve, l[0].0, seen), resolve, s);
      var keyed := seen + Elements(FirstMet(g, l[0].0, seen));
      keyed <= g.Keys &&
      (r.Some? ==>
         var q := Compose(Tree(g, anchors, resolve, l[0].1, keyed), resolve, r.value.1);
         var later := keyed + Elements(FirstMet(g, l[0].1, keyed));
         q.Some? ==>
           ComposePairs(PairTrees(g, anchors, resolve, l, seen), resolve, id, s) ==
           ComposePairs(PairTrees(g, anchors, resolve, l[1..], later), resolve, id,
                        q.value.1.AppendPair(id, r.value.0, q.value.0)))
  {
    hide Compose, Tree, FirstMet, Flat;
  }

  lemma ItemsStep(g: Graph, anchors: AnchorMap, resolve: Resolver, l: seq<Id>, names: seq<Id>, s: Composed,
                  open: set<Id>, id: Id, done: seq<Id>)
    requires Serializable(g, anchors) && l != [] && Elements(l) <= anchors.Keys && l[0] in anchors
    requires Elements(l[1..]) <= anchors.Keys && Elements(names) <= anchors.Keys && s.Ok()
    requires id < |s.store| && s.store[id].SequenceNode?
    requires
      var r := Compose(Tree(g, anchors, resolve, l[0], Elements(names)), resolve, s);
      var later := names + FirstMet(g, l[0], Elements(names));
      && r.Some? && Elements(later) == Elements(names) + Elements(FirstMet(g, l[0], Elements(names))) <= anchors.Keys
      && ItemsCome(g, anchors, resolve, l[1..], later, r.value.1.AppendItem(id, r.value.0), open, id, done + [l[0]])
    ensures ItemsCome(g, anchors, resolve, l, names, s, open, id, done)
  {
    hide Related, Compose, ComposeItems, Tree, ItemTrees, FirstMet, FirstMetAll, ItemsImage, Elements;
    assert done + [l[0]] + l[1..] == done + l;
    assert Within(g, l) by { ElementsWithin(g, l); }
    MetHead(g, l, names);
    ItemsUnfold(g, anchors, resolve, l, Elements(names), id, s);
  }

  /** Key and value, written after `names`, are composed and appended to the mapping stored under `id`. */
  predicate PairComes(g: Graph, anchors: AnchorMap, resolve: Resolver, pair: (Id, Id), names: seq<Id>, s: Composed,
                      open: set<Id>, id: Id, done: seq<(Id, Id)>)
    requires Serializable(g, anchors) && pair.0 in anchors && pair.1 in anchors && Elements(names) <= anchors.Keys
    requires s.Ok() && id < |s.store| && s.store[id].MappingNode?
  {
    var r := Compose(Tree(g, anchors, resolve, pair.0, Elements(names)), resolve, s);
    var keyed := names + FirstMet(g, pair.0, Elements(names));
    && r.Some? && Elements(keyed) == Elements(names) + Elements(FirstMet(g, pair.0, Elements(names))) <= anchors.Keys
    && var q := Compose(Tree(g, anchors, resolve, pair.1, Elements(keyed)), resolve, r.value.1);
       var later := keyed + FirstMet(g, pair.1, Elements(keyed));
       && q.Some? && Elements(later) == Elements(keyed) + Elements(FirstMet(g, pair.1, Elements(keyed))) <= anchors.Keys
       && id < |q.value.1.store| && q.value.1.store[id] == s.store[id]
       && var x := q.value.1.AppendPair(id, r.value.0, q.value.0);
          && Related(g, anchors, resolve, later, x, open)
          && PairsImage(later, done + [pair], x.store[id].pairs)
  }

  lemma {:induction false} PairRoundTrip(g: Graph, anchors: AnchorMap, resolve: Resolver, pair: (Id, Id),
                                         names: seq<Id>,
                                         v: Anchoring, s: Composed, open: set<Id>, id: Id, done: seq<(Id, Id)>)
    requires Serializable(g, anchors) && pair.0 in anchors && pair.1 in anchors
    requires Related(g, anchors, resolve, names, s, open) && InStep(v, names) && Elements(names) <= g.Keys
    requires id in open && id < |names| && |s.store| == |names|
    requires s.store[id].MappingNode? && PairsImage(names, done, s.store[id].pairs)
    requires Extends(anchors, Visit(g, pair.0, v).anchors)
    requires Extends(anchors, Visit(g, pair.1, Visit(g, pair.0, v)).anchors)
    ensures Elements(names) <= anchors.Keys && s.Ok() && PairComes(g, anchors, resolve, pair, names, s, open, id, done)
    decreases g.Keys - Elements(names), 1
  {
    hide Related, Compose, Tree, FirstMet, Elements, PairsImage, IsImage, Extends, Visit, Names, NodeComes, ClosedUnder,
         Closed, DistinctAnchors;
    RelatedFacts(g, anchors, resolve, names, s, open);
    NodeRoundTrip(g, anchors, resolve, pair.0, names, v, s, open);
    NodeFacts(g, anchors, resolve, pair.0, names, v, s, open);
    var keyed := names + FirstMet(g, pair.0, Elements(names));
    var (k, t) := Compose(Tree(g, anchors, resolve, pair.0, Elements(names)), resolve, s).value;
    NodeRoundTrip(g, anchors, resolve, pair.1, keyed, Visit(g, pair.0, v), t, open);
    NodeFacts(g, anchors, resolve, pair.1, keyed, Visit(g, pair.0, v), t, open);
    var later := keyed + FirstMet(g, pair.1, Elements(keyed));
    var (w, u) := Compose(Tree(g, anchors, resolve, pair.1, Elements(keyed)), resolve, t).value;
    OpenChanges(g, anchors, resolve, later, u, u.AppendPair(id, k, w), open, id);
    PairImageGrows(names, FirstMet(g, pair.0, Elements(names)), FirstMet(g, pair.1, Elements(keyed)), done,
                   s.store[id].pairs, pair, k, w);
  }

  /** What is known behind a node that came. */
  lemma NodeFacts(g: Graph, anchors: AnchorMap, resolve: Resolver, n: Id, names: seq<Id>, v: Anchoring, s: Composed,
                  open: set<Id>)
    requires Serializable(g, anchors) && n in anchors && Elements(names) <= anchors.Keys <= g.Keys && s.Ok()
    requires InStep(v, names) && NodeComes(g, anchors, resolve, n, names, s, open)
    ensures
      var r := Compose(Tree(g, anchors, resolve, n, Elements(names)), resolve, s);
      var later := names + FirstMet(g, n, Elements(names));
      && r.Some? && Names(later, r.value.0, n) && Related(g, anchors, resolve, later, r.value.1, open)
      && |r.value.1.store| == |later| && anchors.Keys <= g.Keys && InStep(Visit(g, n, v), later)
      && Elements(later) == Elements(names) + Elements(FirstMet(g, n, Elements(names))) <= anchors.Keys
  {
    hide Related, Compose, Tree, FirstMet, Elements, Visit, Names;
    var later := names + FirstMet(g, n, Elements(names));
    RelatedFacts(g, anchors, resolve, later, Compose(Tree(g, anchors, resolve, n, Elements(names)), resolve, s).value.1,
                 open);
    ElementsJoin(names, FirstMet(g, n, Elements(names)));
  }

  lemma {:induction false} PairsRoundTrip(g: Graph, anchors: AnchorMap, resolve: Resolver, l: seq<(Id, Id)>,
                                          names: seq<Id>,
                                          v: Anchoring, s: Composed, open: set<Id>, id: Id, done: seq<(Id, Id)>)
    requires Serializable(g, anchors) && Elements(Flat(l)) <= anchors.Keys
    requires Related(g, anchors, resolve, names, s, open)
    requires id in open && id < |names| && |s.store| == |names|
    requires s.store[id].MappingNode? && PairsImage(names, done, s.store[id].pairs)
    requires InStep(v, names) && Extends(anchors, VisitAll(g, Flat(l), v).anchors)
    ensures Elements(names) <= anchors.Keys && PairsCome(g, anchors, resolve, l, names, s, open, id, done)
    decreases g.Keys - Elements(names), |l| + 1
  {
    hide Related, Compose, Tree, FirstMet, Elements, FirstMetAll, ComposePairs, PairsImage, IsImage, Extends, PairTrees,
         PairsCome, Flat, VisitAll, Visit, Names, ClosedUnder, Closed, DistinctAnchors;
    RelatedFacts(g, anchors, resolve, names, s, open);
    if l == [] {
      NoPairsCome(g, anchors, resolve, names, s, open, id, done);
    } else {
      var (key, value) := l[0];
      FlatFacts(l);
      VisitPair(g, anchors, l, v);
      var withKey := Visit(g, key, v);
      var rest := Visit(g, value, withKey);
      PairRoundTrip(g, anchors, resolve, l[0], names, v, s, open, id, done);
      var keyed := names + FirstMet(g, key, Elements(names));
      var (k, t) := Compose(Tree(g, anchors, resolve, key, Elements(names)), resolve, s).value;
      var later := keyed + FirstMet(g, value, Elements(keyed));
      var (w, u) := Compose(Tree(g, anchors, resolve, value, Elements(keyed)), resolve, t).value;
      var x := u.AppendPair(id, k, w);
      RelatedFacts(g, anchors, resolve, later, x, open);
      PairsRoundTrip(g, anchors, resolve, l[1..], later, rest, x, open, id, done + [l[0]]);
      PairsStep(g, anchors, resolve, l, names, s, open, id, done);
    }
  }

  lemma PairImageGrows(names: seq<Id>, more: seq<Id>, most: seq<Id>, done: seq<(Id, Id)>, composed: seq<(Id, Id)>,
                       pair: (Id, Id), key: Id, value: Id)
    requires PairsImage(names, done, composed)
    requires Names(names + more, key, pair.0) && Names(names + more + most, value, pair.1)
    ensures PairsImage(names + more + most, done + [pair], composed + [(key, value)])
  {
  }

  lemma PairsStep(g: Graph, anchors: AnchorMap, resolve: Resolver, l: seq<(Id, Id)>, names: seq<Id>, s: Composed,
                  open: set<Id>, id: Id, done: seq<(Id, Id)>)
    requires Serializable(g, anchors) && l != [] && Elements(Flat(l)) <= anchors.Keys && l[0].0 in anchors
    requires l[0].1 in anchors
    requires Elements(Flat(l[1..])) <= anchors.Keys && Elements(names) <= anchors.Keys && s.Ok()
    requires id < |s.store| && s.store[id].MappingNode?
    requires PairComes(g, anchors, resolve, l[0], names, s, open, id, done)
    requires
      var (key, t) := Compose(Tree(g, anchors, resolve, l[0].0, Elements(names)), resolve, s).value;
      var keyed := names + FirstMet(g, l[0].0, Elements(names));
      var (value, u) := Compose(Tree(g, anchors, resolve, l[0].1, Elements(keyed)), resolve, t).value;
      var later := keyed + FirstMet(g, l[0].1, Elements(keyed));
      PairsCome(g, anchors, resolve, l[1..], later, u.AppendPair(id, key, value), open, id, done + [l[0]])
    ensures PairsCome(g, anchors, resolve, l, names, s, open, id, done)
  {
    hide Related, Compose, ComposePairs, Tree, PairTrees, FirstMet, FirstMetAll, PairsImage, Elements, Flat;
    assert done + [l[0]] + l[1..] == done + l;
    MetPair(g, l, names);
    PairsUnfold(g, anchors, resolve, l, Elements(names), id, s);
  }

  lemma VisitPair(g: Graph, anchors: AnchorMap, l: seq<(Id, Id)>, v: Anchoring)
    requires Closed(g) && l != [] && Elements(Flat(l)) <= g.Keys && v.anchors.Keys <= g.Keys
    requires Extends(anchors, VisitAll(g, Flat(l), v).anchors)
    ensures l[0].0 in g && l[0].1 in g && Elements(Flat(l[1..])) <= g.Keys
    ensures VisitAll(g, Flat(l), v) == VisitAll(g, Flat(l[1..]), Visit(g, l[0].1, Visit(g, l[0].0, v)))
    ensures Extends(anchors, Visit(g, l[0].0, v).anchors)
    ensures Extends(anchors, Visit(g, l[0].1, Visit(g, l[0].0, v)).anchors)
  {
    hide Visit, VisitAll, Extends;
    FlatFacts(l);
    var tail := [l[0].1] + Flat(l[1..]);
    assert Flat(l)[1..] == tail && tail[1..] == Flat(l[1..]);
    ExtendsHead(g, anchors, Flat(l), v);
    ExtendsHead(g, anchors, tail, Visit(g, l[0].0, v));
  }

  lemma MetHead(g: Graph, l: seq<Id>, names: seq<Id>)
    requires Closed(g) && l != [] && Within(g, l) && Elements(names) <= g.Keys
    ensures
      var later := names + FirstMet(g, l[0], Elements(names));
      && Elements(later) <= g.Keys
      && names + FirstMetAll(g, l, Elements(names)) == later + FirstMetAll(g, l[1..], Elements(later))
  {
    hide FirstMet, Elements;
    var first := FirstMet(g, l[0], Elements(names));
    MetWithin(g, l[0], Elements(names));
    ElementsJoin(names, first);
    MetAllHead(g, l, Elements(names));
    assert names + first + FirstMetAll(g, l[1..], Elements(names + first))
           == names + (first + FirstMetAll(g, l[1..], Elements(names + first)));
  }

  lemma MetWithin(g: Graph, n: Id, seen: set<Id>)
    requires Closed(g) && n in g && seen <= g.Keys
    ensures Elements(FirstMet(g, n, seen)) <= g.Keys
  {
    hide FirstMet;
  }

  lemma MetAllHead(g: Graph, l: seq<Id>, seen: set<Id>)
    requires Closed(g) && l != [] && Within(g, l) && seen <= g.Keys && Elements(FirstMet(g, l[0], seen)) <= g.Keys
    ensures Within(g, l[1..])
    ensures var first := FirstMet(g, l[0], seen);
            FirstMetAll(g, l, seen) == first + FirstMetAll(g, l[1..], seen + Elements(first))
  {
    hide FirstMet, Elements;
  }

  lemma MetPair(g: Graph, l: seq<(Id, Id)>, names: seq<Id>)
    requires Closed(g) && l != [] && Elements(Flat(l)) <= g.Keys && Elements(names) <= g.Keys
    ensures l[0].0 in g && l[0].1 in g && Elements(Flat(l[1..])) <= g.Keys
    ensures
      var keyed := names + FirstMet(g, l[0].0, Elements(names));
      Elements(keyed) <= g.Keys &&
      var later := keyed + FirstMet(g, l[0].1, Elements(keyed));
      && Elements(later) <= g.Keys
      && names + FirstMetAll(g, Flat(l), Elements(names)) == later + FirstMetAll(g, Flat(l[1..]), Elements(later))
  {
    hide FirstMet, FirstMetAll;
    FlatFacts(l);
    var tail := [l[0].1] + Flat(l[1..]);
    assert Flat(l)[1..] == tail && tail[1..] == Flat(l[1..]);
    MetHead(g, Flat(l), names);
    MetHead(g, tail, names + FirstMet(g, l[0].0, Elements(names)));
  }

  /** A node met again has its anchor, and the alias finds it. */
  lemma AliasRoundTrip(g: Graph, anchors: AnchorMap, resolve: Resolver, n: Id, names: seq<Id>, v: Anchoring,
                       s: Composed, open: set<Id>)
    requires Serializable(g, anchors) && Related(g, anchors, resolve, names, s, open) && n in Elements(names)
    requires InStep(v, names) && Extends(anchors, Visit(g, n, v).anchors)
    ensures Elements(names) <= anchors.Keys && NodeComes(g, anchors, resolve, n, names, s, open)
  {
    var i :| 0 <= i < |names| && names[i] == n;
    assert AnchorKnown(anchors, names, s, i);
    assert Visit(g, n, v).anchors[n].Some?;
    assert names + [] == names;
  }

  lemma RelatedFacts(g: Graph, anchors: AnchorMap, resolve: Resolver, names: seq<Id>, s: Composed, open: set<Id>)
    requires Related(g, anchors, resolve, names, s, open)
    ensures |s.store| == |names| && s.Ok() && Distinct(names) && Elements(names) <= anchors.Keys <= g.Keys
  {
  }

  lemma NothingRelated(g: Graph, anchors: AnchorMap, resolve: Resolver)
    requires anchors.Keys <= g.Keys
    ensures Elements([]) == {} && InStep(Anchoring(map[], 0), [])
    ensures Related(g, anchors, resolve, [], Composed([], map[]), {})
  {
  }

  lemma RootMet(g: Graph, root: Id)
    requires Closed(g) && root in g
    ensures root in Elements(Reachable(g, root)) && Elements(Reachable(g, root)) <= g.Keys
  {
  }

  lemma RootFirst(g: Graph, root: Id)
    requires Closed(g) && root in g
    ensures Reachable(g, root) != [] && Reachable(g, root)[0] == root
  {
  }

  /** Composing what was serialized: as many nodes as the root reaches, the i-th the image of the i-th
      reached, and the root first. */
  lemma GraphRoundTrips(g: Graph, resolve: Resolver, root: Id)
    requires Closed(g) && root in g
    ensures
      var r := Compose(Written(g, resolve, root), resolve, Composed([], map[]));
      var names := Reachable(g, root);
      && r.Some? && r.value.0 == 0 && names != [] && names[0] == root && |r.value.1.store| == |names|
      && forall i :: 0 <= i < |names| ==> IsImage(resolve, names, g[names[i]], r.value.1.store[i])
  {
    hide FirstMet, Tree, IsImage, Compose, Elements, Serializable, AnchorsOf, AnchorKnown;
    RootRoundTrip(g, resolve, root);
    RootFirst(g, root);
  }

  lemma RootRoundTrip(g: Graph, resolve: Resolver, root: Id)
    requires Closed(g) && root in g
    ensures
      var r := Compose(Written(g, resolve, root), resolve, Composed([], map[]));
      var names := Reachable(g, root);
      r.Some? && Names(names, r.value.0, root) && Related(g, AnchorsOf(g, root), resolve, names, r.value.1, {})
  {
    hide Visit, FirstMet, Tree, IsImage, Compose, DistinctAnchors, References, Elements, Related;
    var anchors := AnchorsOf(g, root);
    var none, start := Anchoring(map[], 0), Composed([], map[]);
    AnchorsMarkSharedNodes(g, root);
    ReachableIsLeastClosed(g, root);
    NothingRelated(g, anchors, resolve);
    RootMet(g, root);
    NodeRoundTrip(g, anchors, resolve, root, [], none, start, {});
    assert [] + Reachable(g, root) == Reachable(g, root);
  }
}
