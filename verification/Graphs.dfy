/** Node graphs (yaml/nodes.py), in which a node may be shared and may reach itself, and the order in
    which the serializer walks over them. */
module Graphs {
  import opened Options
  import opened Chars

  type Id = nat

  /** A node; the nodes inside a collection are given by their identities. */
  datatype GraphNode =
    | ScalarNode(tag: Text, value: Text)
    | SequenceNode(tag: Text, flow: Option<bool>, items: seq<Id>)
    | MappingNode(tag: Text, flow: Option<bool>, pairs: seq<(Id, Id)>)

  type Graph = map<Id, GraphNode>

  function Flat(pairs: seq<(Id, Id)>): seq<Id> {
    if pairs == [] then [] else [pairs[0].0, pairs[0].1] + Flat(pairs[1..])
  }

  /** The nodes a node refers to, in order: of a mapping every key and then its value. */
  function Children(n: GraphNode): seq<Id> {
    match n
    case ScalarNode(_, _) => []
    case SequenceNode(_, _, items) => items
    case MappingNode(_, _, pairs) => Flat(pairs)
  }

  predicate ClosedUnder(g: Graph, nodes: set<Id>) {
    && nodes <= g.Keys
    && forall n <- nodes :: forall c <- Children(g[n]) :: c in nodes
  }

  predicate Closed(g: Graph) { ClosedUnder(g, g.Keys) }

  predicate Within(g: Graph, l: seq<Id>) { forall n <- l :: n in g }

  lemma ChildrenWithin(g: Graph, n: Id)
    requires Closed(g) && n in g
    ensures Within(g, Children(g[n]))
  {
  }

  lemma ChildrenClosed(g: Graph, nodes: set<Id>, n: Id)
    requires ClosedUnder(g, nodes) && n in nodes
    ensures nodes <= g.Keys && n in g && Elements(Children(g[n])) <= nodes
  {
  }

  /** The nodes met for the first time in a walk from n, in that order, when `seen` have been met before. */
  function FirstMet(g: Graph, n: Id, seen: set<Id>): (r: seq<Id>)
    requires Closed(g) && n in g && seen <= g.Keys
    ensures forall m <- r :: m in g && m !in seen
    ensures n in seen || n in r
    decreases g.Keys - seen, 0
  {
    if n in seen then []
    else
      ChildrenWithin(g, n);
      [n] + FirstMetAll(g, Children(g[n]), seen + {n})
  }

  function FirstMetAll(g: Graph, l: seq<Id>, seen: set<Id>): (r: seq<Id>)
    requires Closed(g) && Within(g, l) && seen <= g.Keys
    ensures forall m <- r :: m in g && m !in seen
    decreases g.Keys - seen, |l|
  {
    if l == [] then []
    else
      var first := FirstMet(g, l[0], seen);
      first + FirstMetAll(g, l[1..], seen + Elements(first))
  }

  function Elements(s: seq<Id>): set<Id> { set m | m in s }

  lemma ElementsJoin(a: seq<Id>, b: seq<Id>)
    ensures Elements(a + b) == Elements(a) + Elements(b)
  {
  }

  predicate Distinct(s: seq<Id>) { forall i, j :: 0 <= i < j < |s| ==> s[i] != s[j] }

  lemma FlatFacts(l: seq<(Id, Id)>)
    requires l != []
    ensures Flat(l) == [l[0].0] + ([l[0].1] + Flat(l[1..]))
    ensures l[0].0 in Elements(Flat(l)) && l[0].1 in Elements(Flat(l)) && Elements(Flat(l[1..])) <= Elements(Flat(l))
  {
    FlatHead(l);
    hide Flat;
    var tail := [l[0].1] + Flat(l[1..]);
    ElementsJoin([l[0].0], tail);
    ElementsJoin([l[0].1], Flat(l[1..]));
    assert l[0].0 in Elements([l[0].0]) && l[0].1 in Elements([l[0].1]);
    hide Elements;
  }

  lemma FlatHead(l: seq<(Id, Id)>)
    requires l != []
    ensures Flat(l) == [l[0].0] + ([l[0].1] + Flat(l[1..]))
  {
  }

  lemma DistinctJoin(a: seq<Id>, b: seq<Id>)
    requires Distinct(a) && Distinct(b) && Elements(a) !! Elements(b)
    ensures Distinct(a + b)
  {
    forall i, j | 0 <= i < j < |a + b|
      ensures (a + b)[i] != (a + b)[j]
    {
      assert i < |a| <= j ==> a[i] in Elements(a) && b[j - |a|] in Elements(b);
    }
  }

  // The walk meets exactly the nodes that can be reached, each once.

  lemma {:induction false} MetOnce(g: Graph, n: Id, seen: set<Id>)
    requires Closed(g) && n in g && seen <= g.Keys
    ensures Distinct(FirstMet(g, n, seen))
    decreases g.Keys - seen, 0
  {
    if n !in seen {
      MetOnceAll(g, Children(g[n]), seen + {n});
    }
  }

  lemma {:induction false} MetOnceAll(g: Graph, l: seq<Id>, seen: set<Id>)
    requires Closed(g) && Within(g, l) && seen <= g.Keys
    ensures Distinct(FirstMetAll(g, l, seen))
    decreases g.Keys - seen, |l|
  {
    if l != [] {
      MetOnce(g, l[0], seen);
      var first := FirstMet(g, l[0], seen);
      MetOnceAll(g, l[1..], seen + Elements(first));
      DistinctJoin(first, FirstMetAll(g, l[1..], seen + Elements(first)));
    }
  }

  /** Nothing outside a closed set is met. */
  lemma {:induction false} MetInside(g: Graph, n: Id, seen: set<Id>, nodes: set<Id>)
    requires Closed(g) && n in g && seen <= g.Keys && ClosedUnder(g, nodes) && n in nodes
    ensures Elements(FirstMet(g, n, seen)) <= nodes
    decreases g.Keys - seen, 0
  {
    if n !in seen {
      MetInsideAll(g, Children(g[n]), seen + {n}, nodes);
    }
  }

  lemma {:induction false} MetInsideAll(g: Graph, l: seq<Id>, seen: set<Id>, nodes: set<Id>)
    requires Closed(g) && Within(g, l) && seen <= g.Keys && ClosedUnder(g, nodes) && forall m <- l :: m in nodes
    ensures Elements(FirstMetAll(g, l, seen)) <= nodes
    decreases g.Keys - seen, |l|
  {
    if l != [] {
      MetInside(g, l[0], seen, nodes);
      MetInsideAll(g, l[1..], seen + Elements(FirstMet(g, l[0], seen)), nodes);
    }
  }

  predicate ChildrenIn(g: Graph, l: seq<Id>, nodes: set<Id>)
    requires Within(g, l)
  {
    forall m <- l :: Elements(Children(g[m])) <= nodes
  }

  /** The children of every node met are met. */
  lemma {:induction false} MetClosed(g: Graph, n: Id, seen: set<Id>)
    requires Closed(g) && n in g && seen <= g.Keys
    ensures ChildrenIn(g, FirstMet(g, n, seen), seen + Elements(FirstMet(g, n, seen)))
    decreases g.Keys - seen, 0
  {
    if n !in seen {
      MetClosedAll(g, Children(g[n]), seen + {n});
    }
  }

  lemma {:induction false} MetClosedAll(g: Graph, l: seq<Id>, seen: set<Id>)
    requires Closed(g) && Within(g, l) && seen <= g.Keys
    ensures
      var r := FirstMetAll(g, l, seen);
      Elements(l) <= seen + Elements(r) && ChildrenIn(g, r, seen + Elements(r))
    decreases g.Keys - seen, |l|
  {
    if l != [] {
      var first := FirstMet(g, l[0], seen);
      MetClosed(g, l[0], seen);
      MetClosedAll(g, l[1..], seen + Elements(first));
      ElementsJoin(first, FirstMetAll(g, l[1..], seen + Elements(first)));
      ElementsJoin([l[0]], l[1..]);
      assert [l[0]] + l[1..] == l;
    }
  }

  /** The nodes reachable from a root, each once: the least set with the root that is closed under the
      children of its nodes. */
  function Reachable(g: Graph, root: Id): seq<Id>
    requires Closed(g) && root in g
  {
    FirstMet(g, root, {})
  }

  lemma ReachableIsLeastClosed(g: Graph, root: Id)
    requires Closed(g) && root in g
    ensures Distinct(Reachable(g, root))
    ensures root in Reachable(g, root) && ClosedUnder(g, Elements(Reachable(g, root)))
    ensures forall nodes | ClosedUnder(g, nodes) && root in nodes :: Elements(Reachable(g, root)) <= nodes
  {
    MetOnce(g, root, {});
    MetClosed(g, root, {});
    forall nodes | ClosedUnder(g, nodes) && root in nodes
      ensures Elements(Reachable(g, root)) <= nodes
    {
      MetInside(g, root, {}, nodes);
    }
  }
}
