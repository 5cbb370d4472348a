/** What the composer makes of any event tree, read off the events: which trees it refuses, which number a node has,
    what an alias stands for, and the tag of every node. */
module ComposedTrees {
  import opened Options
  import opened Chars
  import opened Events
  import opened Graphs
  import opened Serializing

  predicate StartsNode(e: Event) { e.Scalar? || e.SequenceStart? || e.MappingStart? }

  /** How many nodes are started. */
  function Started(es: seq<Event>): nat {
    if es == [] then 0 else Started(es[..|es| - 1]) + if StartsNode(es[|es| - 1]) then 1 else 0
  }

  /** The number of the node that was given the anchor, the last one if there are more. */
  function NumberOf(es: seq<Event>, name: Text): (r: Option<nat>)
    ensures r.Some? ==> r.value < Started(es)
  {
    if es == [] then None
    else
      var e, before := es[|es| - 1], es[..|es| - 1];
      if StartsNode(e) && AnchorOf(e) == Some(name) then Some(Started(before)) else NumberOf(before, name)
  }

  /** Behind these events an anchor must be new, and the anchor of an alias must be there. */
  predicate Acceptable(before: seq<Event>, e: Event) {
    && (e.Alias? ==> e.name.Some? && NumberOf(before, e.name.value).Some?)
    && (StartsNode(e) && AnchorOf(e).Some? ==> NumberOf(before, AnchorOf(e).value).None?)
  }

  predicate AllAcceptable(before: seq<Event>, es: seq<Event>) {
    forall i :: 0 <= i < |es| ==> Acceptable(before + es[..i], es[i])
  }

  /** The number of the node that a tree behind these events stands for. */
  function Denoted(t: Node, before: seq<Event>): Option<nat> {
    match t
    case AliasNode(name) => if name.Some? then NumberOf(before, name.value) else None
    case _ => Some(Started(before))
  }

  /** The tag that is given, unless none or '!' is; then what the resolver answers. */
  predicate TagRight(resolve: Resolver, tag: Option<Text>, q: Query, actual: Text) {
    && (tag.Some? && tag.value != [0x21] ==> actual == tag.value)
    && (tag.None? || tag.value == [0x21] ==> actual == resolve(q))
  }

  /** The node of the tree and those below it are in the store under their numbers. */
  predicate InStore(t: Node, resolve: Resolver, before: seq<Event>, store: seq<GraphNode>)
    decreases t
  {
    t.AliasNode? ||
    (Started(before) < |store| &&
     var n := store[Started(before)];
     match t
     case ScalarNode(_, tag, p, q, v) => n.ScalarNode? && n.value == v
         && TagRight(resolve, tag, ScalarQuery(v, p, q), n.tag)
     case SequenceNode(a, tag, i, f, items) =>
       n.SequenceNode? && n.flow == f && TagRight(resolve, tag, SequenceQuery(i), n.tag)
       && ItemsInStore(items, resolve, before + [SequenceStart(a, tag, i, f)], store, n.items)
     case MappingNode(a, tag, i, f, pairs) =>
       n.MappingNode? && n.flow == f && TagRight(resolve, tag, MappingQuery(i), n.tag)
       && PairsInStore(pairs, resolve, before + [MappingStart(a, tag, i, f)], store, n.pairs))
  }

  predicate ItemsInStore(l: Nodes, resolve: Resolver, before: seq<Event>, store: seq<GraphNode>, ids: seq<Id>)
    decreases l
  {
    match l
    case NoNodes => ids == []
    case MoreNodes(head, tail) =>
      && ids != [] && Denoted(head, before) == Some(ids[0]) && InStore(head, resolve, before, store)
      && ItemsInStore(tail, resolve, before + NodeEvents(head), store, ids[1..])
  }

  predicate PairsInStore(l: Pairs, resolve: Resolver, before: seq<Event>, store: seq<GraphNode>, ids: seq<(Id, Id)>)
    decreases l
  {
    match l
    case NoPairs => ids == []
    case MorePairs(key, value, tail) =>
      var behind := before + NodeEvents(key);
      && ids != [] && Denoted(key, before) == Some(ids[0].0) && Denoted(value, behind) == Some(ids[0].1)
      && InStore(key, resolve, before, store) && InStore(value, resolve, behind, store)
      && PairsInStore(tail, resolve, behind + NodeEvents(value), store, ids[1..])
  }

  // How the events add up.

  lemma StartedMore(es: seq<Event>, e: Event)
    ensures Started(es + [e]) == Started(es) + (if StartsNode(e) then 1 else 0)
    ensures forall name: Text :: NumberOf(es + [e], name) ==
                                 if StartsNode(e) && AnchorOf(e) == Some(name)
                                   then Some(Started(es)) else NumberOf(es, name)
  {
    assert (es + [e])[..|es|] == es;
  }

  lemma {:induction false} StartedGrows(es: seq<Event>, more: seq<Event>)
    ensures Started(es) <= Started(es + more)
  {
    if more == [] {
      assert es + more == es;
    } else {
      var l := more[..|more| - 1];
      StartedGrows(es, l);
      StartedMore(es + l, more[|more| - 1]);
      assert es + l + [more[|more| - 1]] == es + more;
    }
  }

  lemma AcceptableJoin(before: seq<Event>, a: seq<Event>, b: seq<Event>)
    ensures AllAcceptable(before, a + b) <==> AllAcceptable(before, a) && AllAcceptable(before + a, b)
  {
    hide Acceptable;
    forall i | 0 <= i < |a + b|
      ensures before + (a + b)[..i] == if i < |a| then before + a[..i] else before + a + b[..i - |a|]
    {
      if i < |a| {
        assert (a + b)[..i] == a[..i];
      } else {
        assert (a + b)[..i] == a + b[..i - |a|];
      }
    }
    if AllAcceptable(before, a + b) {
      assert forall i :: 0 <= i < |a| ==> (a + b)[i] == a[i];
      forall i | 0 <= i < |b| ensures Acceptable(before + a + b[..i], b[i]) {
        assert (a + b)[|a| + i] == b[i];
      }
    }
  }

  lemma AcceptableOne(before: seq<Event>, e: Event)
    ensures AllAcceptable(before, [e]) <==> Acceptable(before, e)
  {
    assert before + [e][..0] == before;
  }

  lemma Assoc(a: seq<Event>, b: seq<Event>, c: seq<Event>)
    ensures a + b + c == a + (b + c)
  {
  }

  lemma NothingBehind(a: seq<Event>)
    ensures a + [] == a && AllAcceptable(a, [])
  {
  }

  // The store behind some events.

  /** As many nodes as were started, and the anchors that were given. */
  ghost predicate Behind(s: Composed, es: seq<Event>) {
    && s.Ok() && |s.store| == Started(es)
    && forall name: Text ::
         if name in s.anchors then NumberOf(es, name) == Some(s.anchors[name]) else NumberOf(es, name) == None
  }

  /** The node started by e is added. */
  lemma BehindStart(s: Composed, es: seq<Event>, e: Event, n: GraphNode)
    requires Behind(s, es) && StartsNode(e)
    ensures Acceptable(es, e) <==> !Duplicate(AnchorOf(e), s)
    ensures Behind(s.Add(AnchorOf(e), n), es + [e])
  {
    StartedMore(es, e);
  }

  lemma BehindOther(s: Composed, es: seq<Event>, e: Event)
    requires Behind(s, es) && !StartsNode(e)
    ensures Behind(s, es + [e])
  {
    StartedMore(es, e);
  }

  /** What is stored from number `from` on, before number `to`, is the same. */
  predicate Same(a: seq<GraphNode>, b: seq<GraphNode>, from: nat, to: nat) {
    to <= |a| && to <= |b| && forall i :: from <= i < to ==> b[i] == a[i]
  }

  /** A tree in the store depends on its own nodes only. */
  lemma {:induction false} StaysInStore(t: Node, resolve: Resolver, before: seq<Event>, a: seq<GraphNode>,
                                        b: seq<GraphNode>)
    requires InStore(t, resolve, before, a) && Same(a, b, Started(before), Started(before + NodeEvents(t)))
    ensures InStore(t, resolve, before, b)
    decreases t, 0
  {
    hide Started, NumberOf, ItemsEvents, PairsEvents, ItemsInStore, PairsInStore, TagRight, Denoted;
    if !t.AliasNode? {
      var e := NodeEvents(t)[0];
      StartedMore(before, e);
      match t
      case ScalarNode(_, _, _, _, _) =>
      case SequenceNode(_, _, _, _, items) =>
        OuterGrows(before, e, ItemsEvents(items), SequenceEnd);
        ItemsStay(items, resolve, before + [e], a, b, a[Started(before)].items);
      case MappingNode(_, _, _, _, pairs) =>
        OuterGrows(before, e, PairsEvents(pairs), MappingEnd);
        PairsStay(pairs, resolve, before + [e], a, b, a[Started(before)].pairs);
    }
  }

  lemma OuterGrows(before: seq<Event>, e: Event, inner: seq<Event>, end: Event)
    ensures before + ([e] + inner + [end]) == before + [e] + inner + [end]
    ensures Started(before + [e] + inner) <= Started(before + [e] + inner + [end])
    ensures Started(before + [e]) <= Started(before + [e] + inner)
  {
    hide Started;
    StartedGrows(before + [e], inner);
    StartedGrows(before + [e] + inner, [end]);
    Assoc(before, [e] + inner, [end]);
    Assoc(before, [e], inner);
  }

  lemma {:induction false} ItemsStay(l: Nodes, resolve: Resolver, before: seq<Event>, a: seq<GraphNode>,
                                     b: seq<GraphNode>, ids: seq<Id>)
    requires ItemsInStore(l, resolve, before, a, ids) && Same(a, b, Started(before), Started(before + ItemsEvents(l)))
    ensures ItemsInStore(l, resolve, before, b, ids)
    decreases l, 0
  {
    hide Started, NumberOf, NodeEvents, InStore, Denoted;
    if l.MoreNodes? {
      Assoc(before, NodeEvents(l.head), ItemsEvents(l.tail));
      StartedGrows(before, NodeEvents(l.head));
      StartedGrows(before + NodeEvents(l.head), ItemsEvents(l.tail));
      StaysInStore(l.head, resolve, before, a, b);
      ItemsStay(l.tail, resolve, before + NodeEvents(l.head), a, b, ids[1..]);
    }
  }

  lemma {:induction false} PairsStay(l: Pairs, resolve: Resolver, before: seq<Event>, a: seq<GraphNode>,
                                     b: seq<GraphNode>, ids: seq<(Id, Id)>)
    requires PairsInStore(l, resolve, before, a, ids) && Same(a, b, Started(before), Started(before + PairsEvents(l)))
    ensures PairsInStore(l, resolve, before, b, ids)
    decreases l, 0
  {
    hide Started, NumberOf, NodeEvents, InStore, Denoted;
    if l.MorePairs? {
      var k, v, rest := NodeEvents(l.key), NodeEvents(l.value), PairsEvents(l.tail);
      Assoc(before, k + v, rest);
      Assoc(before, k, v);
      StartedGrows(before, k);
      StartedGrows(before + k, v);
      StartedGrows(before + k + v, rest);
      StaysInStore(l.key, resolve, before, a, b);
      StaysInStore(l.value, resolve, before + k, a, b);
      PairsStay(l.tail, resolve, before + k + v, a, b, ids[1..]);
    }
  }

  // Composing.

  /** A tree is composed exactly if its anchors are acceptable, and then it is in the store as it should be. */
  lemma {:induction false} TreeComposes(t: Node, resolve: Resolver, s: Composed, before: seq<Event>)
    requires Behind(s, before)
    ensures
      var r := Compose(t, resolve, s);
      && (r.Some? <==> AllAcceptable(before, NodeEvents(t)))
      && (r.Some? ==> && Behind(r.value.1, before + NodeEvents(t)) && Denoted(t, before) == Some(r.value.0)
                      && InStore(t, resolve, before, r.value.1.store))
    decreases t, 1
  {
    hide Started, NumberOf, Behind, AllAcceptable, Acceptable, InStore, Compose, ComposeItems, ComposePairs,
         ItemsEvents, PairsEvents;
    match t
    case AliasNode(_) => AliasComposes(t, resolve, s, before);
    case ScalarNode(_, _, _, _, _) => ScalarComposes(t, resolve, s, before);
    case SequenceNode(a, tag, i, f, items) =>
      var e, n := SequenceStart(a, tag, i, f),
          GraphNode.SequenceNode(ComposedTag(resolve, tag, SequenceQuery(i)), f, []);
      OkBehind(s, before);
      BehindStart(s, before, e, n);
      ItemsCompose(items, resolve, |s.store|, s.Add(a, n), before + [e]);
      SequenceComposes(t, resolve, s, before);
    case MappingNode(a, tag, i, f, pairs) =>
      var e, n := MappingStart(a, tag, i, f), GraphNode.MappingNode(ComposedTag(resolve, tag, MappingQuery(i)), f, []);
      OkBehind(s, before);
      BehindStart(s, before, e, n);
      PairsCompose(pairs, resolve, |s.store|, s.Add(a, n), before + [e]);
      MappingComposes(t, resolve, s, before);
  }

  lemma OkBehind(s: Composed, before: seq<Event>)
    requires Behind(s, before)
    ensures s.Ok() && |s.store| == Started(before)
  {
  }

  lemma AliasComposes(t: Node, resolve: Resolver, s: Composed, before: seq<Event>)
    requires Behind(s, before) && t.AliasNode?
    ensures
      var r := Compose(t, resolve, s);
      && (r.Some? <==> AllAcceptable(before, NodeEvents(t)))
      && (r.Some? ==> && Behind(r.value.1, before + NodeEvents(t)) && Denoted(t, before) == Some(r.value.0)
                      && InStore(t, resolve, before, r.value.1.store))
  {
    hide Started, NumberOf, AllAcceptable;
    AcceptableOne(before, Alias(t.name));
    BehindOther(s, before, Alias(t.name));
  }

  lemma ScalarComposes(t: Node, resolve: Resolver, s: Composed, before: seq<Event>)
    requires Behind(s, before) && t.ScalarNode?
    ensures
      var r := Compose(t, resolve, s);
      && (r.Some? <==> AllAcceptable(before, NodeEvents(t)))
      && (r.Some? ==> && Behind(r.value.1, before + NodeEvents(t)) && Denoted(t, before) == Some(r.value.0)
                      && InStore(t, resolve, before, r.value.1.store))
  {
    hide Started, NumberOf, AllAcceptable, Acceptable;
    var e := NodeEvents(t)[0];
    var q := ScalarQuery(t.value, t.plainImplicit, t.quotedImplicit);
    AcceptableOne(before, e);
    BehindStart(s, before, e, GraphNode.ScalarNode(ComposedTag(resolve, t.tag, q), t.value));
  }

  /** The collection stored under `id`, with more items. */
  predicate SequenceGrown(a: GraphNode, b: GraphNode, more: seq<Id>) {
    a.SequenceNode? && b == a.(items := a.items + more)
  }

  predicate MappingGrown(a: GraphNode, b: GraphNode, more: seq<(Id, Id)>) {
    a.MappingNode? && b == a.(pairs := a.pairs + more)
  }

  /** The items of the sequence `id`, which was started before them. */
  ghost predicate ItemsDone(l: Nodes, resolve: Resolver, id: Id, s: Composed, before: seq<Event>)
    requires s.Ok() && id < |s.store| && s.store[id].SequenceNode?
  {
    var r := ComposeItems(l, resolve, id, s);
    && (r.Some? <==> AllAcceptable(before, ItemsEvents(l)))
    && (r.Some? ==> && Behind(r.value, before + ItemsEvents(l)) && |s.store| <= |r.value.store|
                    && exists ids: seq<Id> ::
                         SequenceGrown(s.store[id], r.value.store[id], ids)
                         && ItemsInStore(l, resolve, before, r.value.store, ids))
  }

  ghost predicate PairsDone(l: Pairs, resolve: Resolver, id: Id, s: Composed, before: seq<Event>)
    requires s.Ok() && id < |s.store| && s.store[id].MappingNode?
  {
    var r := ComposePairs(l, resolve, id, s);
    && (r.Some? <==> AllAcceptable(before, PairsEvents(l)))
    && (r.Some? ==> && Behind(r.value, before + PairsEvents(l)) && |s.store| <= |r.value.store|
                    && exists ids: seq<(Id, Id)> ::
                         MappingGrown(s.store[id], r.value.store[id], ids)
                         && PairsInStore(l, resolve, before, r.value.store, ids))
  }

  lemma SequenceComposes(t: Node, resolve: Resolver, s: Composed, before: seq<Event>)
    requires Behind(s, before) && t.SequenceNode?
    requires var e := SequenceStart(t.anchor, t.tag, t.implicit, t.flow);
             var n := GraphNode.SequenceNode(ComposedTag(resolve, t.tag, SequenceQuery(t.implicit)), t.flow, []);
             && (Acceptable(before, e) <==> !Duplicate(t.anchor, s)) && s.Ok() && |s.store| == Started(before)
             && ItemsDone(t.items, resolve, |s.store|, s.Add(t.anchor, n), before + [e])
    ensures
      var r := Compose(t, resolve, s);
      && (r.Some? <==> AllAcceptable(before, NodeEvents(t)))
      && (r.Some? ==> && Behind(r.value.1, before + NodeEvents(t)) && Denoted(t, before) == Some(r.value.0)
                      && InStore(t, resolve, before, r.value.1.store))
  {
    hide Started, NumberOf, Behind, AllAcceptable, Acceptable, ComposeItems, ItemsEvents, ItemsInStore;
    var e, inner := SequenceStart(t.anchor, t.tag, t.implicit, t.flow), ItemsEvents(t.items);
    var n := GraphNode.SequenceNode(ComposedTag(resolve, t.tag, SequenceQuery(t.implicit)), t.flow, []);
    AcceptableCollection(before, e, inner, SequenceEnd);
    var r := ComposeItems(t.items, resolve, |s.store|, s.Add(t.anchor, n));
    if r.Some? && AllAcceptable(before + [e], inner) {
      BehindOther(r.value, before + [e] + inner, SequenceEnd);
      var ids: seq<Id> :| SequenceGrown(n, r.value.store[|s.store|], ids)
        && ItemsInStore(t.items, resolve, before + [e], r.value.store, ids);
      assert [] + ids == ids;
    }
  }

  lemma AcceptableCollection(before: seq<Event>, e: Event, inner: seq<Event>, end: Event)
    requires end.SequenceEnd? || end.MappingEnd?
    ensures AllAcceptable(before, [e] + inner + [end])
            <==> Acceptable(before, e) && AllAcceptable(before + [e], inner)
    ensures before + ([e] + inner + [end]) == before + [e] + inner + [end]
  {
    hide AllAcceptable, NumberOf, Started;
    AcceptableJoin(before, [e] + inner, [end]);
    AcceptableJoin(before, [e], inner);
    AcceptableOne(before, e);
    AcceptableOne(before + ([e] + inner), end);
    Assoc(before, [e] + inner, [end]);
    Assoc(before, [e], inner);
  }

  lemma MappingComposes(t: Node, resolve: Resolver, s: Composed, before: seq<Event>)
    requires Behind(s, before) && t.MappingNode?
    requires var e := MappingStart(t.anchor, t.tag, t.implicit, t.flow);
             var n := GraphNode.MappingNode(ComposedTag(resolve, t.tag, MappingQuery(t.implicit)), t.flow, []);
             && (Acceptable(before, e) <==> !Duplicate(t.anchor, s)) && s.Ok() && |s.store| == Started(before)
             && PairsDone(t.pairs, resolve, |s.store|, s.Add(t.anchor, n), before + [e])
    ensures
      var r := Compose(t, resolve, s);
      && (r.Some? <==> AllAcceptable(before, NodeEvents(t)))
      && (r.Some? ==> && Behind(r.value.1, before + NodeEvents(t)) && Denoted(t, before) == Some(r.value.0)
                      && InStore(t, resolve, before, r.value.1.store))
  {
    hide Started, NumberOf, Behind, AllAcceptable, Acceptable, ComposePairs, PairsEvents, PairsInStore;
    var e, inner := MappingStart(t.anchor, t.tag, t.implicit, t.flow), PairsEvents(t.pairs);
    var n := GraphNode.MappingNode(ComposedTag(resolve, t.tag, MappingQuery(t.implicit)), t.flow, []);
    AcceptableCollection(before, e, inner, MappingEnd);
    var r := ComposePairs(t.pairs, resolve, |s.store|, s.Add(t.anchor, n));
    if r.Some? && AllAcceptable(before + [e], inner) {
      BehindOther(r.value, before + [e] + inner, MappingEnd);
      var ids: seq<(Id, Id)> :| MappingGrown(n, r.value.store[|s.store|], ids)
        && PairsInStore(t.pairs, resolve, before + [e], r.value.store, ids);
      assert [] + ids == ids;
    }
  }

  lemma {:induction false} ItemsCompose(l: Nodes, resolve: Resolver, id: Id, s: Composed, before: seq<Event>)
    requires Behind(s, before) && id < |s.store| && s.store[id].SequenceNode?
    ensures ItemsDone(l, resolve, id, s, before)
    decreases l, 0
  {
    hide Started, NumberOf, Behind, AllAcceptable, Acceptable, InStore, Compose, NodeEvents, Denoted;
    OkBehind(s, before);
    if l.NoNodes? {
      NothingBehind(before);
      assert SequenceGrown(s.store[id], s.store[id], []) by { assert s.store[id].items + [] == s.store[id].items; }
      assert ItemsInStore(l, resolve, before, s.store, []);
    } else {
      TreeComposes(l.head, resolve, s, before);
      AcceptableJoin(before, NodeEvents(l.head), ItemsEvents(l.tail));
      var r := Compose(l.head, resolve, s);
      if r.Some? {
        var (item, t) := r.value;
        var u, behind := t.AppendItem(id, item), before + NodeEvents(l.head);
        AppendedBehind(t, behind, id, item);
        ItemsCompose(l.tail, resolve, id, u, behind);
        OneMoreItem(l, resolve, id, s, before, item, t);
      }
    }
  }

  lemma AppendedBehind(s: Composed, es: seq<Event>, id: Id, item: Id)
    requires Behind(s, es) && id < |s.store| && s.store[id].SequenceNode?
    ensures Behind(s.AppendItem(id, item), es) && s.AppendItem(id, item).store[id].SequenceNode?
  {
  }

  lemma OneMoreItem(l: Nodes, resolve: Resolver, id: Id, s: Composed, before: seq<Event>, item: Id, t: Composed)
    requires Behind(s, before) && id < |s.store| && s.store[id].SequenceNode? && s.Ok() && l.MoreNodes?
    requires Compose(l.head, resolve, s) == Some((item, t)) && Behind(t, before + NodeEvents(l.head))
    requires Denoted(l.head, before) == Some(item) && InStore(l.head, resolve, before, t.store)
    requires AllAcceptable(before, ItemsEvents(l))
             <==> AllAcceptable(before + NodeEvents(l.head), ItemsEvents(l.tail))
    requires t.Ok() && ItemsDone(l.tail, resolve, id, t.AppendItem(id, item), before + NodeEvents(l.head))
    ensures ItemsDone(l, resolve, id, s, before)
  {
    hide Started, NumberOf, AllAcceptable, Acceptable, InStore, Compose, NodeEvents, Denoted;
    var u, behind := t.AppendItem(id, item), before + NodeEvents(l.head);
    var r := ComposeItems(l.tail, resolve, id, u);
    Assoc(before, NodeEvents(l.head), ItemsEvents(l.tail));
    if r.Some? {
      var ids: seq<Id> :| SequenceGrown(u.store[id], r.value.store[id], ids)
        && ItemsInStore(l.tail, resolve, behind, r.value.store, ids);
      assert s.store[id].items + [item] + ids == s.store[id].items + ([item] + ids);
      assert SequenceGrown(s.store[id], r.value.store[id], [item] + ids);
      assert Same(t.store, r.value.store, Started(before), Started(behind));
      StaysInStore(l.head, resolve, before, t.store, r.value.store);
      assert ([item] + ids)[1..] == ids;
      assert ItemsInStore(l, resolve, before, r.value.store, [item] + ids);
    }
  }

  lemma {:induction false} PairsCompose(l: Pairs, resolve: Resolver, id: Id, s: Composed, before: seq<Event>)
    requires Behind(s, before) && id < |s.store| && s.store[id].MappingNode?
    ensures PairsDone(l, resolve, id, s, before)
    decreases l, 0
  {
    hide Started, NumberOf, Behind, AllAcceptable, Acceptable, InStore, Compose, NodeEvents, Denoted;
    OkBehind(s, before);
    if l.NoPairs? {
      NothingBehind(before);
      assert MappingGrown(s.store[id], s.store[id], []) by { assert s.store[id].pairs + [] == s.store[id].pairs; }
      assert PairsInStore(l, resolve, before, s.store, []);
    } else {
      var key, value, rest := NodeEvents(l.key), NodeEvents(l.value), PairsEvents(l.tail);
      TreeComposes(l.key, resolve, s, before);
      AcceptableJoin(before, key + value, rest);
      AcceptableJoin(before, key, value);
      Assoc(before, key, value);
      var r := Compose(l.key, resolve, s);
      if r.Some? {
        var (k, t) := r.value;
        TreeComposes(l.value, resolve, t, before + key);
        var q := Compose(l.value, resolve, t);
        if q.Some? {
          var (v, u) := q.value;
          PairBehind(u, before + key + value, id, k, v);
          PairsCompose(l.tail, resolve, id, u.AppendPair(id, k, v), before + key + value);
          OneMorePair(l, resolve, id, s, before, k, t, v, u);
        }
      }
    }
  }

  lemma PairBehind(s: Composed, es: seq<Event>, id: Id, k: Id, v: Id)
    requires Behind(s, es) && id < |s.store| && s.store[id].MappingNode?
    ensures Behind(s.AppendPair(id, k, v), es) && s.AppendPair(id, k, v).store[id].MappingNode?
  {
  }

  lemma OneMorePair(l: Pairs, resolve: Resolver, id: Id, s: Composed, before: seq<Event>, k: Id, t: Composed, v: Id,
                    u: Composed)
    requires Behind(s, before) && id < |s.store| && s.store[id].MappingNode? && s.Ok() && l.MorePairs?
    requires Compose(l.key, resolve, s) == Some((k, t)) && Behind(t, before + NodeEvents(l.key)) && t.Ok()
    requires Compose(l.value, resolve, t) == Some((v, u)) && u.Ok()
    requires Behind(u, before + NodeEvents(l.key) + NodeEvents(l.value))
    requires Denoted(l.key, before) == Some(k) && InStore(l.key, resolve, before, t.store)
    requires Denoted(l.value, before + NodeEvents(l.key)) == Some(v)
    requires InStore(l.value, resolve, before + NodeEvents(l.key), u.store)
    requires AllAcceptable(before, PairsEvents(l))
             <==> AllAcceptable(before + NodeEvents(l.key) + NodeEvents(l.value), PairsEvents(l.tail))
    requires PairsDone(l.tail, resolve, id, u.AppendPair(id, k, v), before + NodeEvents(l.key) + NodeEvents(l.value))
    ensures PairsDone(l, resolve, id, s, before)
  {
    hide Started, NumberOf, AllAcceptable, Acceptable, InStore, Compose, NodeEvents, Denoted, Behind, ComposePairs;
    ComposePairsStep(l, resolve, id, s);
    OkBehind(s, before);
    OkBehind(t, before + NodeEvents(l.key));
    OkBehind(u, before + NodeEvents(l.key) + NodeEvents(l.value));
    var key, value, rest := NodeEvents(l.key), NodeEvents(l.value), PairsEvents(l.tail);
    var w := u.AppendPair(id, k, v);
    var r := ComposePairs(l.tail, resolve, id, w);
    Assoc(before, key + value, rest);
    Assoc(before, key, value);
    if r.Some? {
      var ids: seq<(Id, Id)> :| MappingGrown(w.store[id], r.value.store[id], ids)
        && PairsInStore(l.tail, resolve, before + key + value, r.value.store, ids);
      assert s.store[id].pairs + [(k, v)] + ids == s.store[id].pairs + ([(k, v)] + ids);
      assert MappingGrown(s.store[id], r.value.store[id], [(k, v)] + ids);
      StartedGrows(before, key);
      assert Same(t.store, r.value.store, Started(before), Started(before + key));
      assert Same(u.store, r.value.store, Started(before + key), Started(before + key + value));
      StaysInStore(l.key, resolve, before, t.store, r.value.store);
      StaysInStore(l.value, resolve, before + key, u.store, r.value.store);
      assert ([(k, v)] + ids)[1..] == ids;
      assert PairsInStore(l, resolve, before, r.value.store, [(k, v)] + ids);
    }
  }

  /** A document: refused exactly for an anchor given twice or an alias whose anchor does not come before it; and
      otherwise every node has its number, its tag, its value or the numbers of its children. */
  lemma DocumentComposes(t: Node, resolve: Resolver)
    ensures
      var r := Compose(t, resolve, Composed([], map[]));
      && (r.Some? <==> AllAcceptable([], NodeEvents(t)))
      && (r.Some? ==> && |r.value.1.store| == Started(NodeEvents(t)) && Denoted(t, []) == Some(r.value.0)
                      && InStore(t, resolve, [], r.value.1.store))
  {
    hide NodeEvents, AllAcceptable, InStore, Compose, Denoted;
    TreeComposes(t, resolve, Composed([], map[]), []);
    assert [] + NodeEvents(t) == NodeEvents(t);
  }
}
