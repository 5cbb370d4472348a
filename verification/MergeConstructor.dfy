/** yaml/constructor.py: flatten_mapping rewrites the nodes in place, construct_mapping makes the
    dictionary. */
module MergeConstructor {
  import opened Options
  import opened Graphs
  import opened MergeKeys
  import opened MergePrecedence

  class SafeConstructor {
    /** The nodes, by identity. */
    var store: Store
    /** construct_object on the nodes that are keys. */
    const keys: Keys

    constructor (s: Store, k: Keys)
      requires Valid(s)
      ensures store == s && keys == k
    {
      store, keys := s, k;
    }

    /** False where an error is raised. */
    method FlattenMapping(n: Id) returns (ok: bool)
      requires Valid(store) && IsMapping(store, n)
      modifies this
      ensures ok <==> old(Flatten(store, n)).Some?
      ensures ok ==> Some(store) == old(Flatten(store, n)) && Valid(store)
      decreases Total(store, |store|), 0
    {
      hide Total, Flatten, Gather, GatherAll, Merges;
      assert Flatten(store, n) == FlattenFrom(store, n, 0, []) by { FlattenStarts(store, n); }
      ghost var size := |store|;
      var merge: Pairs := [];
      var index := 0;
      while index < |store[n].pairs|
        invariant Valid(store) && |store| == size && IsMapping(store, n) && PairsIn(store, merge) && Clean(store, merge)
        invariant CleanUpTo(store, store[n].pairs, index)
        invariant FlattenFrom(store, n, index, merge) == old(Flatten(store, n))
        invariant Total(store, size) <= old(Total(store, size))
        decreases Total(store, size), |store[n].pairs| - index
      {
        var (k, v) := store[n].pairs[index];
        ghost var s := store;
        DeletedValid(s, n, index);
        if store[k].tag == MERGE {
          TotalAfterDelete(s, n, index);
          store := SetPairs(store, n, store[n].pairs[..index] + store[n].pairs[index + 1..]);
          assert NodeIn(store, store[v]);
          GatherUnfolds(store, v);
          ghost var deleted := store;
          if store[v].MappingNode? {
            var ok := FlattenMapping(v);
            if !ok {
              return false;
            }
            Gathered(s, n, index, merge, store, store[v].pairs);
            merge := merge + store[v].pairs;
          } else if store[v].SequenceNode? {
            var ok, more := FlattenAll(store[v].items);
            if !ok {
              return false;
            }
            Gathered(s, n, index, merge, store, more);
            merge := merge + more;
          } else {
            return false;
          }
        } else {
          Passed(s, n, index, merge);
          if store[k].tag == VALUE {
            store := SetTag(store, k, STR);
          }
          index := index + 1;
        }
      }
      Finished(store, n, merge);
      if merge != [] {
        store := SetPairs(store, n, merge + store[n].pairs);
      }
      ok := true;
    }

    /** The mappings of a list to merge, each flattened; their pairs are put together in reverse. */
    method FlattenAll(items: seq<Id>) returns (ok: bool, more: Pairs)
      requires Valid(store) && ItemsIn(store, items)
      modifies this
      ensures ok <==> old(GatherAll(store, items)).Some?
      ensures ok ==> Some((store, more)) == old(GatherAll(store, items)) && Valid(store)
      decreases Total(store, |store|), 1
    {
      hide Total, Flatten, GatherAll;
      ghost var size := |store|;
      var submerge: seq<Pairs> := [];
      WithNothing(GatherAll(store, items));
      assert items[0..] == items;
      for i := 0 to |items|
        invariant Valid(store) && |store| == size && ItemsIn(store, items[i..])
        invariant Total(store, size) <= old(Total(store, size))
        invariant old(GatherAll(store, items)) == WithEarlier(GatherAll(store, items[i..]), Backwards(submerge))
      {
        GatherAllUnfolds(store, items, i);
        if !store[items[i]].MappingNode? {
          return false, [];
        }
        ghost var s := store;
        var ok := FlattenMapping(items[i]);
        if !ok {
          return false, [];
        }
        BackwardsPush(submerge, store[items[i]].pairs);
        WithEarlierTwice(GatherAll(store, items[i + 1..]), store[items[i]].pairs, Backwards(submerge));
        submerge := submerge + [store[items[i]].pairs];
      }
      GatherNothing(store, items[|items|..]);
      more := [];
      var j := |submerge|;
      while j > 0
        invariant 0 <= j <= |submerge| && more == Backwards(submerge[j..])
      {
        j := j - 1;
        assert submerge[j..][1..] == submerge[j + 1..];
        more := more + submerge[j];
      }
      assert submerge[0..] == submerge && [] + more == more;
      ok := true;
    }

    /** construct_mapping: the dictionary of n from the keys' objects to the value nodes; None where an error
        is raised. */
    method ConstructMapping(n: Id) returns (mapping: Option<map<int, Id>>)
      requires Valid(store) && n < |store|
      modifies this
      ensures
        var r := old(if IsMapping(store, n) then Flatten(store, n) else None);
        mapping.Some? <==> r.Some? && Hashable(keys, r.value[n].pairs)
      ensures mapping.Some? ==> old(IsMapping(store, n)) && Some(store) == old(Flatten(store, n))
      ensures mapping.Some? ==> IsDictOf(keys, mapping.value, store[n].pairs)
    {
      if !store[n].MappingNode? {
        return None;
      }
      hide Flatten;
      var ok := FlattenMapping(n);
      if !ok {
        return None;
      }
      hide IsDictOf;
      var d: map<int, Id> := map[];
      var l := store[n].pairs;
      ghost var flat := store;
      EmptyDict(keys);
      for i := 0 to |l|
        invariant store == flat && IsDictOf(keys, d, l[..i]) && Hashable(keys, l[..i])
      {
        var key := keys(l[i].0);
        if key.None? {
          assert l[i] in l;
          return None;
        }
        assert l[..i + 1] == l[..i] + [l[i]];
        DictStep(keys, d, l[..i], l[i]);
        d := d[key.value := l[i].1];
      }
      assert l[..|l|] == l;
      mapping := Some(d);
    }
  }

  predicate Hashable(keys: Keys, l: Pairs) { forall p <- l :: keys(p.0).Some? }

  /** The dictionary in which every key has the value of the last of its pairs. */
  ghost predicate IsDictOf(keys: Keys, d: map<int, Id>, l: Pairs) {
    forall k :: Agrees(d, k, Lookup(keys, l, k))
  }

  lemma EmptyDict(keys: Keys)
    ensures IsDictOf(keys, map[], [])
  {
  }

  lemma DictStep(keys: Keys, d: map<int, Id>, l: Pairs, p: (Id, Id))
    requires IsDictOf(keys, d, l) && keys(p.0).Some?
    ensures IsDictOf(keys, d[keys(p.0).value := p.1], l + [p])
  {
    var e := d[keys(p.0).value := p.1];
    forall k
      ensures Agrees(e, k, Lookup(keys, l + [p], k))
    {
      assert Agrees(d, k, Lookup(keys, l, k));
      LookupJoin(keys, l, [p], k);
    }
  }

  predicate Agrees(d: map<int, Id>, k: int, found: Option<Id>) {
    (k in d <==> found.Some?) && (k in d ==> d[k] == found.value)
  }

  function WithEarlier(r: Option<(Store, Pairs)>, earlier: Pairs): Option<(Store, Pairs)> {
    if r.None? then None else Some((r.value.0, r.value.1 + earlier))
  }

  function Backwards(l: seq<Pairs>): Pairs {
    if l == [] then [] else Backwards(l[1..]) + l[0]
  }

  lemma {:induction false} BackwardsPush(l: seq<Pairs>, p: Pairs)
    ensures Backwards(l + [p]) == p + Backwards(l)
  {
    if l == [] {
      assert (l + [p])[1..] == [] && [] + p == p && p + [] == p;
    } else {
      assert (l + [p])[1..] == l[1..] + [p];
      BackwardsPush(l[1..], p);
      assert p + Backwards(l[1..]) + l[0] == p + (Backwards(l[1..]) + l[0]);
    }
  }

  lemma WithEarlierTwice(r: Option<(Store, Pairs)>, a: Pairs, b: Pairs)
    ensures WithEarlier(WithEarlier(r, a), b) == WithEarlier(r, a + b)
  {
    if r.Some? { assert r.value.1 + a + b == r.value.1 + (a + b); }
  }

  lemma WithNothing(r: Option<(Store, Pairs)>)
    ensures WithEarlier(r, Backwards([])) == r
  {
    if r.Some? { assert r.value.1 + [] == r.value.1; }
  }

  lemma GatherNothing(s: Store, items: seq<Id>)
    requires Valid(s) && items == []
    ensures GatherAll(s, items) == Some((s, []))
  {
  }

  lemma GatherAllUnfolds(s: Store, items: seq<Id>, i: nat)
    requires Valid(s) && i < |items| && ItemsIn(s, items[i..])
    ensures items[i] < |s| && ItemsIn(s, items[i + 1..])
    ensures !s[items[i]].MappingNode? ==> GatherAll(s, items[i..]) == None
    ensures s[items[i]].MappingNode? ==>
              var t := Flatten(s, items[i]);
              GatherAll(s, items[i..]) ==
                if t.None? then None else WithEarlier(GatherAll(t.value, items[i + 1..]), t.value[items[i]].pairs)
  {
    assert items[i..][0] == items[i] && items[i..][1..] == items[i + 1..];
    var rest := items[i + 1..];
    forall j | 0 <= j < |rest| ensures rest[j] < |s| { assert rest[j] == items[i..][j + 1]; }
  }

  lemma FlattenStarts(s: Store, n: Id)
    requires Valid(s) && IsMapping(s, n)
    ensures Flatten(s, n) == FlattenFrom(s, n, 0, [])
  {
  }

  lemma GatherUnfolds(s: Store, v: Id)
    requires Valid(s) && v < |s|
    ensures s[v].ScalarNode? ==> Gather(s, v) == None
    ensures s[v].SequenceNode? ==> ItemsIn(s, s[v].items) && Gather(s, v) == GatherAll(s, s[v].items)
    ensures s[v].MappingNode? ==>
              Gather(s, v) == if Flatten(s, v).None? then None
                              else Some((Flatten(s, v).value, Flatten(s, v).value[v].pairs))
  {
    assert NodeIn(s, s[v]);
  }

  /** Where no mapping merges itself, the dictionary constructed from n has for every key the value that
      comes first by precedence, and no other keys. */
  lemma ConstructedByPrecedence(s: Store, rank: Ranks, keys: Keys, n: Id, d: map<int, Id>, k: int)
    requires Ranked(s, rank) && IsMapping(s, n) && Flatten(s, n).Some?
    requires IsDictOf(keys, d, Flatten(s, n).value[n].pairs)
    ensures Agrees(d, k, ValueOf(s, rank, keys, n, k))
  {
    hide MergePrecedence.Flat, ValueOf;
    FlattenComputesFlat(s, rank, n, n);
    FlatPrecedence(s, rank, keys, n, k);
    assert Agrees(d, k, Lookup(keys, Flatten(s, n).value[n].pairs, k));
  }
}
