/** What flattening computes when no mapping merges itself: the pairs by a recursive definition, and which
    of several values a key gets. */
module MergePrecedence {
  import opened Options
  import opened Graphs
  import opened MergeKeys

  /** Ranks that fall along merges: no mapping merges itself, directly or through others. */
  type Ranks = seq<nat>

  predicate Below(s: Store, rank: Ranks, v: Id, bound: nat)
    requires |rank| == |s|
  {
    v < |s| &&
    match s[v]
    case ScalarNode(_, _) => true
    case SequenceNode(_, _, items) => ItemsBelow(s, rank, items, bound)
    case MappingNode(_, _, _) => rank[v] < bound
  }

  predicate ItemsBelow(s: Store, rank: Ranks, items: seq<Id>, bound: nat)
    requires |rank| == |s|
  {
    forall i | 0 <= i < |items| :: items[i] < |s| && (s[items[i]].MappingNode? ==> rank[items[i]] < bound)
  }

  predicate MergesBelow(s: Store, rank: Ranks, l: Pairs, bound: nat)
    requires |rank| == |s|
  {
    forall i | 0 <= i < |l| && IsMerge(s, l[i]) :: Below(s, rank, l[i].1, bound)
  }

  predicate Acyclic(s: Store, rank: Ranks) {
    |rank| == |s| && forall n | 0 <= n < |s| && s[n].MappingNode? :: MergesBelow(s, rank, s[n].pairs, rank[n])
  }

  predicate Ranked(s: Store, rank: Ranks) { Valid(s) && Acyclic(s, rank) }

  function Own(s: Store, l: Pairs): Pairs {
    if l == [] then [] else (if IsMerge(s, l[0]) then [] else [l[0]]) + Own(s, l[1..])
  }

  /** The pairs of mapping n with everything it merges; None where something else is to be merged. */
  function Flat(s: Store, rank: Ranks, n: Id): Option<Pairs>
    requires Ranked(s, rank) && IsMapping(s, n)
    decreases rank[n], 3, 0
  {
    match Merged(s, rank, s[n].pairs, rank[n])
    case None => None
    case Some(m) => Some(m + Own(s, s[n].pairs))
  }

  function Merged(s: Store, rank: Ranks, l: Pairs, bound: nat): Option<Pairs>
    requires Ranked(s, rank) && MergesBelow(s, rank, l, bound)
    decreases bound, 2, |l|
  {
    if l == [] then Some([])
    else if !IsMerge(s, l[0]) then Merged(s, rank, l[1..], bound)
    else Both(Brings(s, rank, l[0].1, bound), Merged(s, rank, l[1..], bound))
  }

  function Both(a: Option<Pairs>, b: Option<Pairs>): Option<Pairs> {
    if a.None? || b.None? then None else Some(a.value + b.value)
  }

  function Brings(s: Store, rank: Ranks, v: Id, bound: nat): Option<Pairs>
    requires Ranked(s, rank) && Below(s, rank, v, bound)
    decreases bound, 1, 0
  {
    match s[v]
    case ScalarNode(_, _) => None
    case SequenceNode(_, _, items) => BringsAll(s, rank, items, bound)
    case MappingNode(_, _, _) => Flat(s, rank, v)
  }

  /** The mappings of a list, the last one in front. */
  function BringsAll(s: Store, rank: Ranks, items: seq<Id>, bound: nat): Option<Pairs>
    requires Ranked(s, rank) && ItemsBelow(s, rank, items, bound)
    decreases bound, 0, |items|
  {
    if items == [] then Some([])
    else if !s[items[0]].MappingNode? then None
    else Both(BringsAll(s, rank, items[1..], bound), Flat(s, rank, items[0]))
  }

  // Nodes of lower rank may have been flattened already: that changes nothing.

  /** Of rank below b, each node is as it was or has its flattened pairs. */
  predicate KeptAt(s: Store, u: Store, rank: Ranks, m: Id)
    requires Ranked(s, rank) && |u| == |s| && IsMapping(s, m)
  {
    && u[m].MappingNode?
    && (u[m].pairs == s[m].pairs || (Flat(s, rank, m) == Some(u[m].pairs) && Clean(u, u[m].pairs)))
  }

  predicate SameKinds(s: Store, u: Store) {
    |u| == |s| && forall i | 0 <= i < |s| :: NodeMayBecome(s[i], u[i])
  }

  predicate KeptBelow(s: Store, u: Store, rank: Ranks, b: nat)
    requires Ranked(s, rank)
  {
    && SameKinds(s, u) && Ranked(u, rank)
    && forall m | 0 <= m < |s| && IsMapping(s, m) && rank[m] < b :: KeptAt(s, u, rank, m)
  }

  /** From rank b on no node but n has other pairs. */
  predicate UnchangedFrom(s: Store, u: Store, rank: Ranks, b: nat, n: int)
    requires |rank| == |s| == |u|
  {
    forall m | 0 <= m < |s| && IsMapping(s, m) && rank[m] >= b && m != n :: u[m].MappingNode?
        && u[m].pairs == s[m].pairs
  }

  lemma {:induction false} OwnOfClean(s: Store, l: Pairs)
    requires Clean(s, l)
    ensures Own(s, l) == l
  {
    if l != [] {
      assert IsClean(s, l[0]);
      OwnOfClean(s, l[1..]);
    }
  }

  lemma {:induction false} MergedOfClean(s: Store, rank: Ranks, l: Pairs, bound: nat)
    requires Ranked(s, rank) && MergesBelow(s, rank, l, bound) && Clean(s, l)
    ensures Merged(s, rank, l, bound) == Some([])
  {
    if l != [] {
      assert IsClean(s, l[0]);
      MergedOfClean(s, rank, l[1..], bound);
    }
  }

  lemma {:induction false} OwnKept(s: Store, u: Store, l: Pairs)
    requires SameKinds(s, u)
    ensures Own(u, l) == Own(s, l)
  {
    TagsDiffer();
    if l != [] { OwnKept(s, u, l[1..]); }
  }

  lemma {:induction false} FlatKept(s: Store, u: Store, rank: Ranks, b: nat, n: Id)
    requires Ranked(s, rank) && KeptBelow(s, u, rank, b) && IsMapping(s, n) && rank[n] < b
    ensures IsMapping(u, n) && Flat(u, rank, n) == Flat(s, rank, n)
    decreases rank[n], 3, 0
  {
    assert KeptAt(s, u, rank, n);
    if u[n].pairs == s[n].pairs {
      MergedKept(s, u, rank, b, s[n].pairs, rank[n]);
      OwnKept(s, u, s[n].pairs);
    } else {
      MergedOfClean(u, rank, u[n].pairs, rank[n]);
      OwnOfClean(u, u[n].pairs);
      assert [] + u[n].pairs == u[n].pairs;
    }
  }

  lemma {:induction false} MergedKept(s: Store, u: Store, rank: Ranks, b: nat, l: Pairs, bound: nat)
    requires Ranked(s, rank) && KeptBelow(s, u, rank, b) && MergesBelow(s, rank, l, bound) && bound <= b
    ensures MergesBelow(u, rank, l, bound) && Merged(u, rank, l, bound) == Merged(s, rank, l, bound)
    decreases bound, 2, |l|
  {
    TagsDiffer();
    if l == [] {
    } else {
      MergedKept(s, u, rank, b, l[1..], bound);
      if IsMerge(s, l[0]) {
        BringsKept(s, u, rank, b, l[0].1, bound);
      }
      assert l == [l[0]] + l[1..];
      MergesBelowJoin(u, rank, l, bound);
    }
  }

  lemma MergesBelowJoin(s: Store, rank: Ranks, l: Pairs, bound: nat)
    requires |rank| == |s| && l != [] && MergesBelow(s, rank, l[1..], bound)
    requires IsMerge(s, l[0]) ==> Below(s, rank, l[0].1, bound)
    ensures MergesBelow(s, rank, l, bound)
  {
    forall i | 0 <= i < |l| && IsMerge(s, l[i])
      ensures Below(s, rank, l[i].1, bound)
    {
      if i > 0 { assert l[i] == l[1..][i - 1]; }
    }
  }

  lemma {:induction false} BringsKept(s: Store, u: Store, rank: Ranks, b: nat, v: Id, bound: nat)
    requires Ranked(s, rank) && KeptBelow(s, u, rank, b) && Below(s, rank, v, bound) && bound <= b
    ensures Below(u, rank, v, bound) && Brings(u, rank, v, bound) == Brings(s, rank, v, bound)
    decreases bound, 1, 0
  {
    assert NodeMayBecome(s[v], u[v]);
    match s[v]
    case ScalarNode(_, _) =>
    case SequenceNode(_, _, items) => BringsAllKept(s, u, rank, b, items, bound);
    case MappingNode(_, _, _) => FlatKept(s, u, rank, b, v);
  }

  lemma {:induction false} BringsAllKept(s: Store, u: Store, rank: Ranks, b: nat, items: seq<Id>, bound: nat)
    requires Ranked(s, rank) && KeptBelow(s, u, rank, b) && ItemsBelow(s, rank, items, bound) && bound <= b
    ensures ItemsBelow(u, rank, items, bound) && BringsAll(u, rank, items, bound) == BringsAll(s, rank, items, bound)
    decreases bound, 0, |items|
  {
    forall i | 0 <= i < |items|
      ensures items[i] < |u| && (u[items[i]].MappingNode? ==> rank[items[i]] < bound)
    {
      assert NodeMayBecome(s[items[i]], u[items[i]]);
    }
    if items != [] {
      BringsAllKept(s, u, rank, b, items[1..], bound);
      if s[items[0]].MappingNode? { FlatKept(s, u, rank, b, items[0]); }
    }
  }

  lemma KeptTrans(s: Store, t: Store, u: Store, rank: Ranks, b: nat)
    requires Ranked(s, rank) && KeptBelow(s, t, rank, b) && KeptBelow(t, u, rank, b)
    ensures KeptBelow(s, u, rank, b)
  {
    hide Flat;
    TagsDiffer();
    forall m | 0 <= m < |s| && IsMapping(s, m) && rank[m] < b
      ensures KeptAt(s, u, rank, m)
    {
      assert KeptAt(s, t, rank, m) && KeptAt(t, u, rank, m);
      FlatKept(s, t, rank, b, m);
    }
  }

  // Flattening in place computes the flattened pairs, and changes them for no other node.

  /** `u` comes out of s by flattening nodes of rank below b. */
  predicate FlattenedBelow(s: Store, u: Store, rank: Ranks, b: nat)
    requires Ranked(s, rank)
  {
    KeptBelow(s, u, rank, b) && UnchangedFrom(s, u, rank, b, -1)
  }

  lemma {:induction false} FlattenIsFlat(s: Store, rank: Ranks, n: Id)
    requires Ranked(s, rank) && IsMapping(s, n)
    ensures Flatten(s, n).Some? <==> Flat(s, rank, n).Some?
    ensures Flatten(s, n).Some? ==>
              && Some(Flatten(s, n).value[n].pairs) == Flat(s, rank, n)
              && FlattenedBelow(s, Flatten(s, n).value, rank, rank[n] + 1)
    decreases Total(s, |s|), 1, 0
  {
    hide Merged, KeptBelow, LoopIsFlat;
    assert s[n].pairs[0..] == s[n].pairs;
    FlattenFromIsFlat(s, rank, n, 0, []);
    WholeLoop(s, rank, n, Flatten(s, n));
  }

  lemma WholeLoop(s: Store, rank: Ranks, n: Id, r: Option<Store>)
    requires Ranked(s, rank) && IsMapping(s, n) && LoopIsFlat(s, rank, n, 0, [], r)
    requires r.Some? ==> Clean(r.value, r.value[n].pairs)
    ensures r.Some? <==> Flat(s, rank, n).Some?
    ensures r.Some? ==> Some(r.value[n].pairs) == Flat(s, rank, n) && FlattenedBelow(s, r.value, rank, rank[n] + 1)
  {
    hide Merged, Own, KeptBelow, UnchangedFrom;
    var l := s[n].pairs;
    assert l[0..] == l && l[..0] == [];
    if r.Some? {
      var m, own := Merged(s, rank, l, rank[n]).value, Own(s, l);
      assert [] + m + ([] + own) == m + own;
      KeptOneMore(s, r.value, rank, n);
    }
  }

  lemma KeptOneMore(s: Store, u: Store, rank: Ranks, n: Id)
    requires Ranked(s, rank) && IsMapping(s, n) && IsMapping(u, n) && |u| == |s|
    requires KeptBelow(s, u, rank, rank[n]) && UnchangedFrom(s, u, rank, rank[n], n)
    requires Clean(u, u[n].pairs) && Flat(s, rank, n) == Some(u[n].pairs)
    ensures FlattenedBelow(s, u, rank, rank[n] + 1)
  {
    hide Flat;
    forall k | 0 <= k < |s| && IsMapping(s, k) && rank[k] < rank[n] + 1
      ensures KeptAt(s, u, rank, k)
    {
      if rank[k] < rank[n] { assert KeptAt(s, u, rank, k); }
    }
  }

  /** What the loop makes of the entries from `index` on. */
  predicate LoopIsFlat(s: Store, rank: Ranks, n: Id, index: nat, merge: Pairs, r: Option<Store>)
    requires Ranked(s, rank) && IsMapping(s, n) && index <= |s[n].pairs|
    requires MergesBelow(s, rank, s[n].pairs[index..], rank[n])
  {
    var l := s[n].pairs;
    var m := Merged(s, rank, l[index..], rank[n]);
    && (r.Some? <==> m.Some?)
    && (r.Some? ==> |r.value| == |s| && IsMapping(r.value, n)
                    && r.value[n].pairs == merge + m.value + (l[..index] + Own(s, l[index..]))
                    && KeptBelow(s, r.value, rank, rank[n]) && UnchangedFrom(s, r.value, rank, rank[n], n))
  }

  lemma {:induction false} FlattenFromIsFlat(s: Store, rank: Ranks, n: Id, index: nat, merge: Pairs)
    requires Ranked(s, rank) && IsMapping(s, n) && PairsIn(s, merge) && Clean(s, merge)
    requires index <= |s[n].pairs| && CleanUpTo(s, s[n].pairs, index)
    ensures MergesBelow(s, rank, s[n].pairs[index..], rank[n])
    ensures LoopIsFlat(s, rank, n, index, merge, FlattenFrom(s, n, index, merge))
    decreases Total(s, |s|), 0, |s[n].pairs| - index, 1
  {
    hide LoopIsFlat, Merged, Brings, KeptBelow, Own, Gather, UnchangedFrom, Flat, Clean, PairsIn, FlattenFrom;
    if index == |s[n].pairs| {
      EndIsFlat(s, rank, n, merge);
    } else if IsMerge(s, s[n].pairs[index]) {
      MergeEntryIsFlat(s, rank, n, index, merge);
    } else {
      EntryIsFlat(s, rank, n, index, merge);
    }
  }

  lemma {:induction false} MergeEntryIsFlat(s: Store, rank: Ranks, n: Id, index: nat, merge: Pairs)
    requires Ranked(s, rank) && IsMapping(s, n) && PairsIn(s, merge) && Clean(s, merge)
    requires index < |s[n].pairs| && CleanUpTo(s, s[n].pairs, index) && IsMerge(s, s[n].pairs[index])
    ensures MergesBelow(s, rank, s[n].pairs[index..], rank[n])
    ensures LoopIsFlat(s, rank, n, index, merge, FlattenFrom(s, n, index, merge))
    decreases Total(s, |s|), 0, |s[n].pairs| - index, 0
  {
    hide LoopIsFlat, Merged, Brings, KeptBelow, Own, Gather, UnchangedFrom, Flat, Clean, CleanUpTo, PairsIn;
    var l, b := s[n].pairs, rank[n];
    MergesBelowDrop(s, rank, l, index, b);
    DeletedValid(s, n, index);
    var t, v := Deleted(s, n, index), l[index].1;
    TotalAfterDelete(s, n, index);
    DeletedKept(s, rank, n, index);
    BringsKept(s, t, rank, b, v, b);
    GatherIsBrings(t, rank, v, b);
    if Gather(t, v).Some? {
      var (u, more) := Gather(t, v).value;
      Gathered(s, n, index, merge, u, more);
      FlattenedRanked(t, u, rank, b);
      StillThere(t, u, rank, b, n);
      FlattenFromIsFlat(u, rank, n, index, merge + more);
      MergeStep(s, rank, n, index, merge, t, u, more, FlattenFrom(u, n, index, merge + more));
    } else {
      MergeFails(s, rank, n, index, merge);
    }
  }

  lemma {:induction false} EntryIsFlat(s: Store, rank: Ranks, n: Id, index: nat, merge: Pairs)
    requires Ranked(s, rank) && IsMapping(s, n) && PairsIn(s, merge) && Clean(s, merge)
    requires index < |s[n].pairs| && CleanUpTo(s, s[n].pairs, index) && !IsMerge(s, s[n].pairs[index])
    ensures MergesBelow(s, rank, s[n].pairs[index..], rank[n])
    ensures LoopIsFlat(s, rank, n, index, merge, FlattenFrom(s, n, index, merge))
    decreases Total(s, |s|), 0, |s[n].pairs| - index, 0
  {
    hide LoopIsFlat, Merged, Brings, KeptBelow, Own, Gather, UnchangedFrom, Flat, Clean, CleanUpTo, PairsIn;
    var k := s[n].pairs[index].0;
    MergesBelowDrop(s, rank, s[n].pairs, index, rank[n]);
    DeletedValid(s, n, index);
    var t := if s[k].tag == VALUE then SetTag(s, k, STR) else s;
    Passed(s, n, index, merge);
    TaggedKept(s, t, rank, rank[n]);
    FlattenedRanked(s, t, rank, rank[n]);
    FlattenFromIsFlat(t, rank, n, index + 1, merge);
    PassStep(s, rank, n, index, merge, t, FlattenFrom(t, n, index + 1, merge));
  }

  lemma StillThere(s: Store, u: Store, rank: Ranks, b: nat, n: Id)
    requires Ranked(s, rank) && FlattenedBelow(s, u, rank, b) && IsMapping(s, n) && rank[n] >= b
    ensures IsMapping(u, n) && u[n].pairs == s[n].pairs
  {
    hide Flat;
  }

  lemma FlattenedRanked(s: Store, u: Store, rank: Ranks, b: nat)
    requires Ranked(s, rank) && FlattenedBelow(s, u, rank, b)
    ensures Ranked(u, rank)
  {
  }

  /** A merge entry that brings nothing but an error. */
  lemma MergeFails(s: Store, rank: Ranks, n: Id, index: nat, merge: Pairs)
    requires Ranked(s, rank) && IsMapping(s, n) && index < |s[n].pairs| && IsMerge(s, s[n].pairs[index])
    requires Below(s, rank, s[n].pairs[index].1, rank[n]) && Brings(s, rank, s[n].pairs[index].1, rank[n]).None?
    requires MergesBelow(s, rank, s[n].pairs[index..], rank[n])
    ensures LoopIsFlat(s, rank, n, index, merge, None)
  {
    hide Brings, KeptBelow, Own;
    assert s[n].pairs[index..][0] == s[n].pairs[index];
  }

  lemma MergeStep(s: Store, rank: Ranks, n: Id, index: nat, merge: Pairs, t: Store, u: Store, more: Pairs,
                  r: Option<Store>)
    requires Ranked(s, rank) && IsMapping(s, n) && index < |s[n].pairs| && IsMerge(s, s[n].pairs[index])
    requires MergesBelow(s, rank, s[n].pairs[index..], rank[n])
    requires Below(s, rank, s[n].pairs[index].1, rank[n]) && Brings(s, rank, s[n].pairs[index].1, rank[n]) == Some(more)
    requires t == Deleted(s, n, index) && KeptBelow(s, t, rank, rank[n]) && UnchangedFrom(s, t, rank, rank[n], n)
    requires Ranked(u, rank) && FlattenedBelow(t, u, rank, rank[n]) && IsMapping(u, n)
    requires u[n].pairs == s[n].pairs[..index] + s[n].pairs[index + 1..]
    requires MergesBelow(u, rank, u[n].pairs[index..], rank[n]) && LoopIsFlat(u, rank, n, index, merge + more, r)
    ensures LoopIsFlat(s, rank, n, index, merge, r)
  {
    hide Brings, KeptBelow, Merged, Own;
    KeptTrans(s, t, u, rank, rank[n]);
    MergeTail(s, rank, n, index, u, more);
    if r.Some? {
      KeptTrans(s, u, r.value, rank, rank[n]);
      var m := Merged(u, rank, u[n].pairs[index..], rank[n]).value;
      assert merge + more + m == merge + (more + m);
    }
  }

  /** What is behind a merge entry is the same once the entry is gone. */
  lemma MergeTail(s: Store, rank: Ranks, n: Id, index: nat, u: Store, more: Pairs)
    requires Ranked(s, rank) && IsMapping(s, n) && index < |s[n].pairs| && IsMerge(s, s[n].pairs[index])
    requires MergesBelow(s, rank, s[n].pairs[index..], rank[n])
    requires Below(s, rank, s[n].pairs[index].1, rank[n]) && Brings(s, rank, s[n].pairs[index].1, rank[n]) == Some(more)
    requires Ranked(u, rank) && KeptBelow(s, u, rank, rank[n]) && IsMapping(u, n)
    requires u[n].pairs == s[n].pairs[..index] + s[n].pairs[index + 1..]
    requires MergesBelow(u, rank, u[n].pairs[index..], rank[n])
    ensures u[n].pairs[..index] == s[n].pairs[..index]
    ensures Own(s, s[n].pairs[index..]) == Own(u, u[n].pairs[index..])
    ensures
      var m := Merged(u, rank, u[n].pairs[index..], rank[n]);
      Merged(s, rank, s[n].pairs[index..], rank[n]) == if m.None? then None else Some(more + m.value)
  {
    hide Brings, KeptBelow;
    var l, b := s[n].pairs, rank[n];
    var tail := l[index + 1..];
    assert l[index..][1..] == tail && l[index..][0] == l[index] && u[n].pairs[index..] == tail
           && u[n].pairs[..index] == l[..index];
    MergesBelowDrop(s, rank, l, index + 1, b);
    MergedKept(s, u, rank, b, tail, b);
    KeptKinds(s, u, rank, b);
    OwnKept(s, u, tail);
  }

  lemma KeptKinds(s: Store, u: Store, rank: Ranks, b: nat)
    requires Ranked(s, rank) && KeptBelow(s, u, rank, b)
    ensures SameKinds(s, u)
  {
  }

  lemma PassStep(s: Store, rank: Ranks, n: Id, index: nat, merge: Pairs, t: Store, r: Option<Store>)
    requires Ranked(s, rank) && IsMapping(s, n) && index < |s[n].pairs| && !IsMerge(s, s[n].pairs[index])
    requires MergesBelow(s, rank, s[n].pairs[index..], rank[n])
    requires FlattenedBelow(s, t, rank, rank[n]) && IsMapping(t, n) && t[n].pairs == s[n].pairs
    requires MergesBelow(t, rank, t[n].pairs[index + 1..], rank[n]) && LoopIsFlat(t, rank, n, index + 1, merge, r)
    ensures LoopIsFlat(s, rank, n, index, merge, r)
  {
    hide KeptBelow;
    var l, b := s[n].pairs, rank[n];
    var tail := l[index + 1..];
    assert l[index..][1..] == tail && l[index..][0] == l[index];
    MergesBelowDrop(s, rank, l, index + 1, b);
    MergedKept(s, t, rank, b, tail, b);
    KeptKinds(s, t, rank, b);
    OwnKept(s, t, tail);
    if r.Some? {
      KeptTrans(s, t, r.value, rank, b);
      var own := Own(s, tail);
      assert l[..index + 1] == l[..index] + [l[index]];
      assert l[..index + 1] + own == l[..index] + ([l[index]] + own);
    }
  }

  lemma MergesBelowDrop(s: Store, rank: Ranks, l: Pairs, index: nat, b: nat)
    requires |rank| == |s| && index <= |l| && MergesBelow(s, rank, l, b)
    ensures MergesBelow(s, rank, l[index..], b)
  {
    forall i | 0 <= i < |l[index..]| && IsMerge(s, l[index..][i])
      ensures Below(s, rank, l[index..][i].1, b)
    {
      assert l[index..][i] == l[index + i];
    }
  }

  /** Only merge entries go away, and kinds stay: the ranks still fall. */
  lemma RankedStays(s: Store, u: Store, rank: Ranks, n: Id)
    requires Ranked(s, rank) && SameKinds(s, u) && Valid(u) && IsMapping(s, n)
    requires MergesBelow(s, rank, u[n].pairs, rank[n])
    requires forall m | 0 <= m < |s| && IsMapping(s, m) && m != n :: u[m].pairs == s[m].pairs
    ensures Ranked(u, rank)
  {
    forall m | 0 <= m < |u| && u[m].MappingNode?
      ensures MergesBelow(u, rank, u[m].pairs, rank[m])
    {
      assert NodeMayBecome(s[m], u[m]);
      assert MergesBelow(s, rank, u[m].pairs, rank[m]);
      MergesBelowStays(s, u, rank, u[m].pairs, rank[m]);
    }
  }

  lemma MergesBelowStays(s: Store, u: Store, rank: Ranks, l: Pairs, b: nat)
    requires |rank| == |s| && SameKinds(s, u) && MergesBelow(s, rank, l, b)
    ensures MergesBelow(u, rank, l, b)
  {
    TagsDiffer();
    forall i | 0 <= i < |l| && IsMerge(u, l[i])
      ensures Below(u, rank, l[i].1, b)
    {
      assert NodeMayBecome(s[l[i].0], u[l[i].0]) && IsMerge(s, l[i]);
      var v := l[i].1;
      assert Below(s, rank, v, b) && NodeMayBecome(s[v], u[v]);
      if s[v].SequenceNode? {
        forall j | 0 <= j < |s[v].items|
          ensures s[v].items[j] < |u| && (u[s[v].items[j]].MappingNode? ==> rank[s[v].items[j]] < b)
        {
          assert NodeMayBecome(s[s[v].items[j]], u[s[v].items[j]]);
        }
      }
    }
  }

  lemma DeletedKept(s: Store, rank: Ranks, n: Id, i: nat)
    requires Ranked(s, rank) && IsMapping(s, n) && i < |s[n].pairs|
    ensures KeptBelow(s, Deleted(s, n, i), rank, rank[n])
    ensures UnchangedFrom(s, Deleted(s, n, i), rank, rank[n], n)
  {
    hide Flat;
    var t, l := Deleted(s, n, i), s[n].pairs;
    DeletedValid(s, n, i);
    forall j | 0 <= j < |t[n].pairs| && IsMerge(s, t[n].pairs[j])
      ensures Below(s, rank, t[n].pairs[j].1, rank[n])
    {
      assert t[n].pairs[j] == if j < i then l[j] else l[j + 1];
    }
    RankedStays(s, t, rank, n);
  }

  lemma TaggedKept(s: Store, t: Store, rank: Ranks, b: nat)
    requires Ranked(s, rank) && Became(s, t)
    requires forall m | 0 <= m < |s| && IsMapping(s, m) :: t[m].MappingNode? && t[m].pairs == s[m].pairs
    ensures KeptBelow(s, t, rank, b) && UnchangedFrom(s, t, rank, b, -1)
  {
    hide Flat;
    forall m | 0 <= m < |t| && t[m].MappingNode?
      ensures MergesBelow(t, rank, t[m].pairs, rank[m])
    {
      assert NodeMayBecome(s[m], t[m]);
      MergesBelowStays(s, t, rank, s[m].pairs, rank[m]);
    }
  }

  lemma EndIsFlat(s: Store, rank: Ranks, n: Id, merge: Pairs)
    requires Ranked(s, rank) && IsMapping(s, n) && PairsIn(s, merge) && Clean(s, merge)
    requires CleanUpTo(s, s[n].pairs, |s[n].pairs|) && MergesBelow(s, rank, s[n].pairs[|s[n].pairs|..], rank[n])
    ensures LoopIsFlat(s, rank, n, |s[n].pairs|, merge, FlattenFrom(s, n, |s[n].pairs|, merge))
  {
    hide KeptBelow, UnchangedFrom, Flat, FlattenFrom, Merged, Own, Clean, CleanUpTo, PairsIn, Valid;
    EndKept(s, rank, n, merge);
    EndValue(s, n, merge);
    NothingBehind(s, rank, s[n].pairs, rank[n], merge);
  }

  lemma NothingBehind(s: Store, rank: Ranks, l: Pairs, b: nat, merge: Pairs)
    requires Ranked(s, rank) && MergesBelow(s, rank, l[|l|..], b)
    ensures Merged(s, rank, l[|l|..], b) == Some([])
    ensures merge + [] + (l[..|l|] + Own(s, l[|l|..])) == (if merge == [] then l else merge + l)
  {
    assert l[..|l|] == l && l[|l|..] == [];
  }

  lemma EndValue(s: Store, n: Id, merge: Pairs)
    requires Valid(s) && IsMapping(s, n) && PairsIn(s, merge) && Clean(s, merge)
    requires CleanUpTo(s, s[n].pairs, |s[n].pairs|)
    ensures FlattenFrom(s, n, |s[n].pairs|, merge)
            == Some(if merge == [] then s else SetPairs(s, n, merge + s[n].pairs))
  {
  }

  lemma EndKept(s: Store, rank: Ranks, n: Id, merge: Pairs)
    requires Ranked(s, rank) && IsMapping(s, n) && PairsIn(s, merge) && Clean(s, merge)
    requires CleanUpTo(s, s[n].pairs, |s[n].pairs|)
    ensures
      var r := SetPairs(s, n, merge + s[n].pairs);
      && KeptBelow(s, r, rank, rank[n]) && UnchangedFrom(s, r, rank, rank[n], n)
      && KeptBelow(s, s, rank, rank[n]) && UnchangedFrom(s, s, rank, rank[n], n)
  {
    hide Flat, Merges, Total;
    var l := s[n].pairs;
    Finished(s, n, merge);
    var r := SetPairs(s, n, merge + l);
    CleanJoinNoMerge(s, rank, merge, l, rank[n]);
    RankedStays(s, r, rank, n);
  }

  lemma CleanJoinNoMerge(s: Store, rank: Ranks, a: Pairs, b: Pairs, bound: nat)
    requires |rank| == |s| && Clean(s, a) && Clean(s, b)
    ensures MergesBelow(s, rank, a + b, bound)
  {
    forall i | 0 <= i < |a + b| ensures !IsMerge(s, (a + b)[i]) {
      assert IsClean(s, if i < |a| then a[i] else b[i - |a|]);
    }
  }

  lemma {:induction false} GatherIsBrings(s: Store, rank: Ranks, v: Id, b: nat)
    requires Ranked(s, rank) && Below(s, rank, v, b)
    ensures Gather(s, v).Some? <==> Brings(s, rank, v, b).Some?
    ensures Gather(s, v).Some? ==>
              Some(Gather(s, v).value.1) == Brings(s, rank, v, b) && FlattenedBelow(s, Gather(s, v).value.0, rank, b)
    decreases Total(s, |s|), 3, 0
  {
    assert NodeIn(s, s[v]);
    match s[v]
    case ScalarNode(_, _) =>
    case SequenceNode(_, _, items) => GatherAllIsBringsAll(s, rank, items, b);
    case MappingNode(_, _, _) =>
      FlattenIsFlat(s, rank, v);
      if Flatten(s, v).Some? { FlattenedLower(s, Flatten(s, v).value, rank, rank[v] + 1, b); }
  }

  lemma FlattenedLower(s: Store, u: Store, rank: Ranks, c: nat, b: nat)
    requires Ranked(s, rank) && FlattenedBelow(s, u, rank, c) && c <= b
    ensures FlattenedBelow(s, u, rank, b)
  {
    hide Flat;
    forall m | 0 <= m < |s| && IsMapping(s, m) && rank[m] < b
      ensures KeptAt(s, u, rank, m)
    {
      if rank[m] < c { assert KeptAt(s, u, rank, m); }
    }
  }

  lemma {:induction false} GatherAllIsBringsAll(s: Store, rank: Ranks, items: seq<Id>, b: nat)
    requires Ranked(s, rank) && ItemsIn(s, items) && ItemsBelow(s, rank, items, b)
    ensures GatherAll(s, items).Some? <==> BringsAll(s, rank, items, b).Some?
    ensures GatherAll(s, items).Some? ==>
              Some(GatherAll(s, items).value.1) == BringsAll(s, rank, items, b)
              && FlattenedBelow(s, GatherAll(s, items).value.0, rank, b)
    decreases Total(s, |s|), 2, |items|
  {
    if items == [] {
      assert Valid(s) && Became(s, s) by { BecameSame(s); }
      TaggedKept(s, s, rank, b);
    } else if s[items[0]].MappingNode? {
      var first := items[0];
      FlattenIsFlat(s, rank, first);
      if Flatten(s, first).Some? {
        var t := Flatten(s, first).value;
        FlattenedLower(s, t, rank, rank[first] + 1, b);
        assert forall i | 0 <= i < |items[1..]| :: items[1..][i] == items[i + 1];
        BringsAllKept(s, t, rank, b, items[1..], b);
        GatherAllIsBringsAll(t, rank, items[1..], b);
        if GatherAll(t, items[1..]).Some? {
          KeptTrans(s, t, GatherAll(t, items[1..]).value.0, rank, b);
        }
      }
    }
  }

  lemma BecameSame(s: Store)
    requires Valid(s)
    ensures Became(s, s)
  {
  }

  /** On a graph in which no mapping merges itself, flattening n gives it its flattened pairs, fails when
      there are none, and changes the flattened pairs of no mapping. */
  lemma FlattenComputesFlat(s: Store, rank: Ranks, n: Id, m: Id)
    requires Ranked(s, rank) && IsMapping(s, n) && IsMapping(s, m)
    ensures Flatten(s, n).Some? <==> Flat(s, rank, n).Some?
    ensures Flatten(s, n).Some? ==>
              var r := Flatten(s, n).value;
              && Some(r[n].pairs) == Flat(s, rank, n)
              && Ranked(r, rank) && IsMapping(r, m) && Flat(r, rank, m) == Flat(s, rank, m)
  {
    hide Merged, KeptAt;
    FlattenIsFlat(s, rank, n);
    if Flatten(s, n).Some? {
      var r, c := Flatten(s, n).value, rank[n] + 1;
      FlattenedLower(s, r, rank, c, if c <= rank[m] then rank[m] + 1 else c);
      FlatKept(s, r, rank, if c <= rank[m] then rank[m] + 1 else c, m);
    }
  }

  // Which value a key gets.

  /** The object constructed from a key node; None where it is not hashable. */
  type Keys = Id -> Option<int>

  /** The value of key k in the dictionary made of the pairs, where a later pair replaces an earlier one. */
  function Lookup(keys: Keys, l: Pairs, k: int): Option<Id> {
    if l == [] then None
    else
      var later := Lookup(keys, l[1..], k);
      if later.Some? then later else if keys(l[0].0) == Some(k) then Some(l[0].1) else None
  }

  function OrElse(a: Option<Id>, b: Option<Id>): Option<Id> { if a.Some? then a else b }

  /** The value of key k in mapping n: an explicit one before a merged one. */
  function ValueOf(s: Store, rank: Ranks, keys: Keys, n: Id, k: int): Option<Id>
    requires Ranked(s, rank) && IsMapping(s, n)
    decreases rank[n], 3, 0
  {
    OrElse(Lookup(keys, Own(s, s[n].pairs), k), MergedValue(s, rank, keys, s[n].pairs, rank[n], k))
  }

  /** A later merge key before an earlier one. */
  function MergedValue(s: Store, rank: Ranks, keys: Keys, l: Pairs, bound: nat, k: int): Option<Id>
    requires Ranked(s, rank) && MergesBelow(s, rank, l, bound)
    decreases bound, 2, |l|
  {
    if l == [] then None
    else
      var later := MergedValue(s, rank, keys, l[1..], bound, k);
      if IsMerge(s, l[0]) then OrElse(later, BroughtValue(s, rank, keys, l[0].1, bound, k)) else later
  }

  function BroughtValue(s: Store, rank: Ranks, keys: Keys, v: Id, bound: nat, k: int): Option<Id>
    requires Ranked(s, rank) && Below(s, rank, v, bound)
    decreases bound, 1, 0
  {
    match s[v]
    case ScalarNode(_, _) => None
    case SequenceNode(_, _, items) => FirstValue(s, rank, keys, items, bound, k)
    case MappingNode(_, _, _) => ValueOf(s, rank, keys, v, k)
  }

  /** An earlier mapping of a list before a later one. */
  function FirstValue(s: Store, rank: Ranks, keys: Keys, items: seq<Id>, bound: nat, k: int): Option<Id>
    requires Ranked(s, rank) && ItemsBelow(s, rank, items, bound)
    decreases bound, 0, |items|
  {
    if items == [] || !s[items[0]].MappingNode? then None
    else OrElse(ValueOf(s, rank, keys, items[0], k), FirstValue(s, rank, keys, items[1..], bound, k))
  }

  lemma {:induction false} LookupJoin(keys: Keys, a: Pairs, b: Pairs, k: int)
    ensures Lookup(keys, a + b, k) == OrElse(Lookup(keys, b, k), Lookup(keys, a, k))
  {
    if a == [] {
      assert a + b == b;
    } else {
      assert (a + b)[1..] == a[1..] + b;
      LookupJoin(keys, a[1..], b, k);
    }
  }

  /** The flattened pairs give every key the value it has by precedence. */
  lemma {:induction false} FlatPrecedence(s: Store, rank: Ranks, keys: Keys, n: Id, k: int)
    requires Ranked(s, rank) && IsMapping(s, n) && Flat(s, rank, n).Some?
    ensures Lookup(keys, Flat(s, rank, n).value, k) == ValueOf(s, rank, keys, n, k)
    decreases rank[n], 3, 0
  {
    MergedPrecedence(s, rank, keys, s[n].pairs, rank[n], k);
    LookupJoin(keys, Merged(s, rank, s[n].pairs, rank[n]).value, Own(s, s[n].pairs), k);
  }

  lemma {:induction false} MergedPrecedence(s: Store, rank: Ranks, keys: Keys, l: Pairs, bound: nat, k: int)
    requires Ranked(s, rank) && MergesBelow(s, rank, l, bound) && Merged(s, rank, l, bound).Some?
    ensures Lookup(keys, Merged(s, rank, l, bound).value, k) == MergedValue(s, rank, keys, l, bound, k)
    decreases bound, 2, |l|
  {
    if l != [] {
      MergedPrecedence(s, rank, keys, l[1..], bound, k);
      if IsMerge(s, l[0]) {
        BroughtPrecedence(s, rank, keys, l[0].1, bound, k);
        LookupJoin(keys, Brings(s, rank, l[0].1, bound).value, Merged(s, rank, l[1..], bound).value, k);
      }
    }
  }

  lemma {:induction false} BroughtPrecedence(s: Store, rank: Ranks, keys: Keys, v: Id, bound: nat, k: int)
    requires Ranked(s, rank) && Below(s, rank, v, bound) && Brings(s, rank, v, bound).Some?
    ensures Lookup(keys, Brings(s, rank, v, bound).value, k) == BroughtValue(s, rank, keys, v, bound, k)
    decreases bound, 1, 0
  {
    match s[v]
    case ScalarNode(_, _) =>
    case SequenceNode(_, _, items) => ListPrecedence(s, rank, keys, items, bound, k);
    case MappingNode(_, _, _) => FlatPrecedence(s, rank, keys, v, k);
  }

  lemma {:induction false} ListPrecedence(s: Store, rank: Ranks, keys: Keys, items: seq<Id>, bound: nat, k: int)
    requires Ranked(s, rank) && ItemsBelow(s, rank, items, bound) && BringsAll(s, rank, items, bound).Some?
    ensures Lookup(keys, BringsAll(s, rank, items, bound).value, k) == FirstValue(s, rank, keys, items, bound, k)
    decreases bound, 0, |items|
  {
    if items != [] {
      ListPrecedence(s, rank, keys, items[1..], bound, k);
      FlatPrecedence(s, rank, keys, items[0], k);
      LookupJoin(keys, BringsAll(s, rank, items[1..], bound).value, Flat(s, rank, items[0]).value, k);
    }
  }
}
