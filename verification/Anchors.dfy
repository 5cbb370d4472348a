/** The first walk of yaml/serializer.py, which gives anchors to the nodes that are reached more than once. */
module Anchors {
  import opened Options
  import opened Chars
  import opened Graphs

  // 'id%03d' % n

  function Digits(n: nat): (t: Text)
    ensures t != []
  {
    if n < 10 then [48 + n] else Digits(n / 10) + [48 + n % 10]
  }

  function Zeros(n: nat): Text { seq(n, i => 48) }

  function AnchorText(n: nat): Text {
    [105, 100] + Zeros(if |Digits(n)| < 3 then 3 - |Digits(n)| else 0) + Digits(n)
  }

  function Number(t: Text): int {
    if t == [] then 0 else 10 * Number(t[..|t| - 1]) + t[|t| - 1] - 48
  }

  lemma {:induction false} NumberOfZeros(n: nat, t: Text)
    ensures Number(Zeros(n) + t) == Number(t)
    decreases n + |t|
  {
    if t != [] {
      assert (Zeros(n) + t)[..n + |t| - 1] == Zeros(n) + t[..|t| - 1];
      NumberOfZeros(n, t[..|t| - 1]);
    } else if n > 0 {
      assert (Zeros(n) + t)[..n - 1] == Zeros(n - 1) + [];
      NumberOfZeros(n - 1, []);
    }
  }

  lemma {:induction false} NumberOfDigits(n: nat)
    ensures Number(Digits(n)) == n
  {
    if n >= 10 {
      var d := Digits(n);
      assert d[..|d| - 1] == Digits(n / 10);
      NumberOfDigits(n / 10);
    } else {
      assert Digits(n)[..0] == [];
    }
  }

  /** Different numbers make different anchors. */
  lemma AnchorTextInjective(m: nat, n: nat)
    requires AnchorText(m) == AnchorText(n)
    ensures m == n
  {
    forall k: nat
      ensures Number(AnchorText(k)[2..]) == k
    {
      var zeros := if |Digits(k)| < 3 then 3 - |Digits(k)| else 0;
      assert AnchorText(k)[2..] == Zeros(zeros) + Digits(k);
      NumberOfZeros(zeros, Digits(k));
      NumberOfDigits(k);
    }
    assert Number(AnchorText(m)[2..]) == Number(AnchorText(n)[2..]);
  }

  /** The serializer's `anchors`, None for a node reached once, and `last_anchor_id`. */
  datatype Anchoring = Anchoring(anchors: map<Id, Option<Text>>, last: nat)

  function Note(s: Anchoring, n: Id): (r: Anchoring)
    requires n !in s.anchors
    ensures r.anchors.Keys == s.anchors.Keys + {n}
  {
    s.(anchors := s.anchors[n := None])
  }

  function Visit(g: Graph, n: Id, s: Anchoring): (r: Anchoring)
    requires Closed(g) && n in g && s.anchors.Keys <= g.Keys
    ensures r.anchors.Keys == s.anchors.Keys + Elements(FirstMet(g, n, s.anchors.Keys)) <= g.Keys
    decreases g.Keys - s.anchors.Keys, 0
  {
    if n in s.anchors then
      if s.anchors[n].None? then Anchoring(s.anchors[n := Some(AnchorText(s.last + 1))], s.last + 1) else s
    else
      ChildrenWithin(g, n);
      VisitAll(g, Children(g[n]), Note(s, n))
  }

  function VisitAll(g: Graph, l: seq<Id>, s: Anchoring): (r: Anchoring)
    requires Closed(g) && Within(g, l) && s.anchors.Keys <= g.Keys
    ensures r.anchors.Keys == s.anchors.Keys + Elements(FirstMetAll(g, l, s.anchors.Keys)) <= g.Keys
    decreases g.Keys - s.anchors.Keys, |l|
  {
    if l == [] then s else VisitAll(g, l[1..], Visit(g, l[0], s))
  }

  /** Anchors once given stay. */
  predicate Extends(final: map<Id, Option<Text>>, m: map<Id, Option<Text>>) {
    && m.Keys <= final.Keys
    && forall n <- m :: m[n].Some? ==> final[n] == m[n]
  }

  lemma {:induction false} VisitExtends(g: Graph, n: Id, s: Anchoring)
    requires Closed(g) && n in g && s.anchors.Keys <= g.Keys
    ensures Extends(Visit(g, n, s).anchors, s.anchors)
    decreases g.Keys - s.anchors.Keys, 0
  {
    if n !in s.anchors {
      VisitAllExtends(g, Children(g[n]), Note(s, n));
    }
  }

  lemma {:induction false} VisitAllExtends(g: Graph, l: seq<Id>, s: Anchoring)
    requires Closed(g) && Within(g, l) && s.anchors.Keys <= g.Keys
    ensures Extends(VisitAll(g, l, s).anchors, s.anchors)
    decreases g.Keys - s.anchors.Keys, |l|
  {
    if l != [] {
      VisitExtends(g, l[0], s);
      VisitAllExtends(g, l[1..], Visit(g, l[0], s));
    }
  }

  // Anchors are distinct.

  ghost predicate IsNumbered(t: Text, last: nat) { exists k: nat :: k <= last && t == AnchorText(k) }

  predicate DistinctAnchors(m: map<Id, Option<Text>>) {
    forall i <- m, j <- m :: i != j && m[i].Some? ==> m[i] != m[j]
  }

  ghost predicate WellNumbered(s: Anchoring) {
    DistinctAnchors(s.anchors) && forall n <- s.anchors :: s.anchors[n].Some? ==> IsNumbered(s.anchors[n].value, s.last)
  }

  lemma NextIsNew(s: Anchoring, n: Id)
    requires WellNumbered(s) && n in s.anchors && s.anchors[n].None?
    ensures WellNumbered(Anchoring(s.anchors[n := Some(AnchorText(s.last + 1))], s.last + 1))
  {
    var r := Anchoring(s.anchors[n := Some(AnchorText(s.last + 1))], s.last + 1);
    forall m <- r.anchors | r.anchors[m].Some?
      ensures IsNumbered(r.anchors[m].value, r.last) && (m != n ==> r.anchors[m] != r.anchors[n])
    {
      if m == n {
        assert r.anchors[m].value == AnchorText(r.last);
      } else {
        var k: nat :| k <= s.last && s.anchors[m].value == AnchorText(k);
        if AnchorText(k) == AnchorText(r.last) { AnchorTextInjective(k, r.last); }
      }
    }
  }

  lemma {:induction false} VisitNumbers(g: Graph, n: Id, s: Anchoring)
    requires Closed(g) && n in g && s.anchors.Keys <= g.Keys && WellNumbered(s)
    ensures WellNumbered(Visit(g, n, s))
    decreases g.Keys - s.anchors.Keys, 0
  {
    if n in s.anchors {
      if s.anchors[n].None? { NextIsNew(s, n); }
    } else {
      VisitAllNumbers(g, Children(g[n]), Note(s, n));
    }
  }

  lemma {:induction false} VisitAllNumbers(g: Graph, l: seq<Id>, s: Anchoring)
    requires Closed(g) && Within(g, l) && s.anchors.Keys <= g.Keys && WellNumbered(s)
    ensures WellNumbered(VisitAll(g, l, s))
    decreases g.Keys - s.anchors.Keys, |l|
  {
    if l != [] {
      VisitNumbers(g, l[0], s);
      VisitAllNumbers(g, l[1..], Visit(g, l[0], s));
    }
  }

  // A node has an anchor exactly when it is reached more than once.

  /** How often each node is referred to from the collections in l. */
  function References(g: Graph, l: seq<Id>): multiset<Id>
    requires Within(g, l)
  {
    if l == [] then multiset{} else multiset(Children(g[l[0]])) + References(g, l[1..])
  }

  lemma {:induction false} ReferencesJoin(g: Graph, a: seq<Id>, b: seq<Id>)
    requires Within(g, a) && Within(g, b)
    ensures References(g, a + b) == References(g, a) + References(g, b)
  {
    if a == [] {
      assert a + b == b;
    } else {
      assert (a + b)[1..] == a[1..] + b;
      ReferencesJoin(g, a[1..], b);
    }
  }

  /** `times` counts how often each node has been reached. */
  ghost predicate Counts(s: Anchoring, times: multiset<Id>) {
    forall n: Id :: CountsAt(s, times, n)
  }

  predicate CountsAt(s: Anchoring, times: multiset<Id>, n: Id) {
    && (n in s.anchors <==> times[n] >= 1)
    && (n in s.anchors ==> (s.anchors[n].Some? <==> times[n] >= 2))
  }

  lemma {:induction false} VisitCounts(g: Graph, n: Id, s: Anchoring, times: multiset<Id>)
    requires Closed(g) && n in g && s.anchors.Keys <= g.Keys && Counts(s, times)
    ensures Counts(Visit(g, n, s), times + multiset{n} + References(g, FirstMet(g, n, s.anchors.Keys)))
    decreases g.Keys - s.anchors.Keys, 0
  {
    assert CountsAt(s, times, n);
    var once := times + multiset{n};
    if n in s.anchors {
      assert References(g, []) == multiset{};
      assert once + multiset{} == once;
      forall m: Id ensures CountsAt(Visit(g, n, s), once, m) { assert CountsAt(s, times, m); }
    } else {
      var t := Note(s, n);
      forall m: Id ensures CountsAt(t, once, m) { assert CountsAt(s, times, m); }
      VisitAllCounts(g, Children(g[n]), t, once);
      var rest := FirstMetAll(g, Children(g[n]), t.anchors.Keys);
      assert t.anchors.Keys == s.anchors.Keys + {n};
      assert ([n] + rest)[1..] == rest;
      assert once + (multiset(Children(g[n])) + References(g, rest))
             == once + multiset(Children(g[n])) + References(g, rest);
    }
  }

  lemma {:induction false} VisitAllCounts(g: Graph, l: seq<Id>, s: Anchoring, times: multiset<Id>)
    requires Closed(g) && Within(g, l) && s.anchors.Keys <= g.Keys && Counts(s, times)
    ensures Counts(VisitAll(g, l, s), times + multiset(l) + References(g, FirstMetAll(g, l, s.anchors.Keys)))
    decreases g.Keys - s.anchors.Keys, |l|
  {
    if l == [] {
      assert times + multiset(l) + References(g, []) == times;
    } else {
      var first := FirstMet(g, l[0], s.anchors.Keys);
      var r := Visit(g, l[0], s);
      VisitCounts(g, l[0], s, times);
      var times1 := times + multiset{l[0]} + References(g, first);
      VisitAllCounts(g, l[1..], r, times1);
      var rest := FirstMetAll(g, l[1..], r.anchors.Keys);
      ReferencesJoin(g, first, rest);
      assert l == [l[0]] + l[1..];
      assert times1 + multiset(l[1..]) + References(g, rest)
             == times + multiset(l) + (References(g, first) + References(g, rest));
    }
  }

  lemma NothingCounted()
    ensures Counts(Anchoring(map[], 0), multiset{})
  {
  }

  lemma CountedAt(s: Anchoring, times: multiset<Id>, n: Id)
    requires Counts(s, times)
    ensures CountsAt(s, times, n)
  {
  }

  /** The anchors of a document. */
  function AnchorsOf(g: Graph, root: Id): map<Id, Option<Text>>
    requires Closed(g) && root in g
  {
    Visit(g, root, Anchoring(map[], 0)).anchors
  }

  /** The walk reaches exactly the reachable nodes; a node has an anchor exactly when it is reached more
      than once, the root counting as reached from outside; and no two anchors are the same. */
  lemma AnchorsMarkSharedNodes(g: Graph, root: Id)
    requires Closed(g) && root in g
    ensures AnchorsOf(g, root).Keys == Elements(Reachable(g, root))
    ensures forall n <- AnchorsOf(g, root) ::
              AnchorsOf(g, root)[n].Some? <==> (multiset{root} + References(g, Reachable(g, root)))[n] >= 2
    ensures DistinctAnchors(AnchorsOf(g, root))
  {
    var none := Anchoring(map[], 0);
    hide Visit, Counts, FirstMet, References, IsNumbered, Elements;
    assert none.anchors.Keys == {};
    assert Counts(none, multiset{}) by { NothingCounted(); }
    VisitCounts(g, root, none, multiset{});
    VisitNumbers(g, root, none);
    var times := multiset{root} + References(g, Reachable(g, root));
    assert multiset{} + multiset{root} + References(g, Reachable(g, root)) == times;
    forall n <- AnchorsOf(g, root)
      ensures AnchorsOf(g, root)[n].Some? <==> times[n] >= 2
    {
      CountedAt(Visit(g, root, none), times, n);
    }
  }
}
