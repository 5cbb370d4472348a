/** Merge keys (yaml/constructor.py:180-213): flattening a mapping node in a store of nodes that may be
    cyclic, as a function. */
module MergeKeys {
  import opened Options
  import opened Chars
  import opened Graphs

  type Pairs = seq<(Id, Id)>
  type Store = seq<GraphNode>

  /** The tags tag:yaml.org,2002:merge, ...:value and ...:str. */
  const PREFIX: Text := [116, 97, 103, 58, 121, 97, 109, 108, 46, 111, 114, 103, 44, 50, 48, 48, 50, 58]
  const MERGE: Text := PREFIX + [109, 101, 114, 103, 101]
  const VALUE: Text := PREFIX + [118, 97, 108, 117, 101]
  const STR: Text := PREFIX + [115, 116, 114]

  lemma TagsDiffer()
    ensures MERGE != VALUE && MERGE != STR && VALUE != STR
  {
    assert MERGE[|PREFIX|] != VALUE[|PREFIX|] && MERGE[|PREFIX|] != STR[|PREFIX|] && VALUE[|PREFIX|] != STR[|PREFIX|];
  }

  predicate PairsIn(s: Store, l: Pairs) { forall p <- l :: p.0 < |s| && p.1 < |s| }

  predicate ItemsIn(s: Store, items: seq<Id>) { forall i | 0 <= i < |items| :: items[i] < |s| }

  predicate NodeIn(s: Store, n: GraphNode) {
    match n
    case ScalarNode(_, _) => true
    case SequenceNode(_, _, items) => ItemsIn(s, items)
    case MappingNode(_, _, pairs) => PairsIn(s, pairs)
  }

  predicate Valid(s: Store) { forall i | 0 <= i < |s| :: NodeIn(s, s[i]) }

  predicate IsMerge(s: Store, p: (Id, Id)) { p.0 < |s| && s[p.0].tag == MERGE }

  /** Keys that flattening leaves as they are. */
  predicate IsClean(s: Store, p: (Id, Id)) { p.0 < |s| && s[p.0].tag != MERGE && s[p.0].tag != VALUE }

  predicate Clean(s: Store, l: Pairs) { forall p <- l :: IsClean(s, p) }

  function Merges(s: Store, l: Pairs): nat {
    if l == [] then 0 else (if IsMerge(s, l[0]) then 1 else 0) + Merges(s, l[1..])
  }

  function MergesOf(s: Store, n: GraphNode): nat { if n.MappingNode? then Merges(s, n.pairs) else 0 }

  /** The merge entries of the first k nodes. */
  function Total(s: Store, k: nat): nat
    requires k <= |s|
  {
    if k == 0 then 0 else Total(s, k - 1) + MergesOf(s, s[k - 1])
  }

  /** One node, later: only its pairs and a value tag may have changed. */
  predicate NodeMayBecome(a: GraphNode, b: GraphNode) {
    && (b.tag == a.tag || (a.tag == VALUE && b.tag == STR))
    && match a
       case ScalarNode(_, v) => b.ScalarNode? && b.value == v
       case SequenceNode(_, f, items) => b.SequenceNode? && b.flow == f && b.items == items
       case MappingNode(_, f, _) => b.MappingNode? && b.flow == f
  }

  /** What every flattening leaves: a mapping it has changed is clean. */
  predicate Became(s: Store, r: Store) {
    && |r| == |s| && Valid(r)
    && forall i | 0 <= i < |s| ::
         NodeMayBecome(s[i], r[i]) && (s[i].MappingNode? ==> r[i].pairs == s[i].pairs || Clean(r, r[i].pairs))
  }

  predicate IsMapping(s: Store, n: Id) { n < |s| && s[n].MappingNode? }

  function SetPairs(s: Store, n: Id, l: Pairs): Store
    requires IsMapping(s, n)
  {
    s[n := s[n].(pairs := l)]
  }

  function SetTag(s: Store, n: Id, tag: Text): Store
    requires n < |s|
  {
    s[n := s[n].(tag := tag)]
  }

  // How the number of merge entries changes.

  lemma {:induction false} CleanMergesNothing(s: Store, l: Pairs)
    requires Clean(s, l)
    ensures Merges(s, l) == 0
  {
    if l != [] {
      assert IsClean(s, l[0]);
      CleanMergesNothing(s, l[1..]);
    }
  }

  lemma {:induction false} MergesJoin(s: Store, a: Pairs, b: Pairs)
    ensures Merges(s, a + b) == Merges(s, a) + Merges(s, b)
  {
    if a == [] {
      assert a + b == b;
    } else {
      assert (a + b)[1..] == a[1..] + b;
      MergesJoin(s, a[1..], b);
    }
  }

  lemma {:induction false} MergesKept(s: Store, r: Store, l: Pairs)
    requires |r| == |s| && forall i | 0 <= i < |s| :: NodeMayBecome(s[i], r[i])
    ensures Merges(r, l) == Merges(s, l)
  {
    TagsDiffer();
    if l != [] { MergesKept(s, r, l[1..]); }
  }

  /** Only node n has other pairs. */
  lemma {:induction false} TotalChanges(s: Store, r: Store, n: Id, k: nat)
    requires k <= |s| == |r| && IsMapping(s, n) && forall i | 0 <= i < |s| :: NodeMayBecome(s[i], r[i])
    requires forall i | 0 <= i < |s| && i != n && s[i].MappingNode? :: r[i].MappingNode? && r[i].pairs == s[i].pairs
    ensures Total(r, k) == Total(s, k) + (if n < k then MergesOf(r, r[n]) - MergesOf(s, s[n]) else 0)
  {
    if k > 0 {
      TotalChanges(s, r, n, k - 1);
      if s[k - 1].MappingNode? { MergesKept(s, r, s[k - 1].pairs); }
    }
  }

  lemma TotalAfterDelete(s: Store, n: Id, i: nat)
    requires IsMapping(s, n) && i < |s[n].pairs| && IsMerge(s, s[n].pairs[i])
    ensures
      var l := s[n].pairs;
      Total(SetPairs(s, n, l[..i] + l[i + 1..]), |s|) == Total(s, |s|) - 1
  {
    var l := s[n].pairs;
    var r := SetPairs(s, n, l[..i] + l[i + 1..]);
    MergesKept(s, r, r[n].pairs);
    TotalChanges(s, r, n, |s|);
    assert l == l[..i] + ([l[i]] + l[i + 1..]);
    MergesJoin(s, l[..i], l[i + 1..]);
    MergesJoin(s, l[..i], [l[i]] + l[i + 1..]);
    MergesJoin(s, [l[i]], l[i + 1..]);
  }

  lemma TotalAfterMerge(s: Store, n: Id, merge: Pairs)
    requires IsMapping(s, n) && Clean(s, merge)
    ensures Total(SetPairs(s, n, merge + s[n].pairs), |s|) == Total(s, |s|)
  {
    var r := SetPairs(s, n, merge + s[n].pairs);
    MergesKept(s, r, r[n].pairs);
    TotalChanges(s, r, n, |s|);
    MergesJoin(s, merge, s[n].pairs);
    CleanMergesNothing(s, merge);
  }

  lemma TotalAfterTag(s: Store, n: Id, k: Id)
    requires IsMapping(s, n) && k < |s| && s[k].tag == VALUE
    ensures Total(SetTag(s, k, STR), |s|) == Total(s, |s|)
  {
    var r := SetTag(s, k, STR);
    MergesKept(s, r, r[n].pairs);
    TotalChanges(s, r, n, |s|);
  }

  lemma BecameTrans(s: Store, t: Store, r: Store)
    requires Became(s, t) && Became(t, r)
    ensures Became(s, r)
  {
    TagsDiffer();
    forall i | 0 <= i < |s| && s[i].MappingNode?
      ensures r[i].pairs == s[i].pairs || Clean(r, r[i].pairs)
    {
      if r[i].pairs == t[i].pairs && Clean(t, t[i].pairs) { CleanStays(t, r, t[i].pairs); }
    }
  }

  lemma CleanStays(s: Store, r: Store, l: Pairs)
    requires Became(s, r) && Clean(s, l)
    ensures Clean(r, l)
  {
    TagsDiffer();
  }

  // Flattening.

  /** flatten_mapping; None where an error is raised. */
  function Flatten(s: Store, n: Id): (r: Option<Store>)
    requires Valid(s) && IsMapping(s, n)
    ensures r.Some? ==> Became(s, r.value) && Clean(r.value, r.value[n].pairs) && Total(r.value, |s|) <= Total(s, |s|)
    decreases Total(s, |s|), 1, 0
  {
    FlattenFrom(s, n, 0, [])
  }

  predicate CleanUpTo(s: Store, l: Pairs, index: nat) { forall i | 0 <= i < index && i < |l| :: IsClean(s, l[i]) }

  /** The loop of flatten_mapping, from `index` on and with `merge` gathered before. */
  function FlattenFrom(s: Store, n: Id, index: nat, merge: Pairs): (r: Option<Store>)
    requires Valid(s) && IsMapping(s, n) && PairsIn(s, merge) && Clean(s, merge) && CleanUpTo(s, s[n].pairs, index)
    ensures r.Some? ==> Became(s, r.value) && Clean(r.value, r.value[n].pairs)
    ensures r.Some? ==> Total(r.value, |s|) <= Total(s, |s|)
    decreases Total(s, |s|), 0, if index < |s[n].pairs| then |s[n].pairs| - index else 0
  {
    if index >= |s[n].pairs| then
      Finished(s, n, merge);
      Some(if merge == [] then s else SetPairs(s, n, merge + s[n].pairs))
    else
      var (k, v) := s[n].pairs[index];
      DeletedValid(s, n, index);
      if s[k].tag == MERGE then
        var t := Deleted(s, n, index);
        TotalAfterDelete(s, n, index);
        (match Gather(t, v)
         case None => None
         case Some((u, more)) =>
           Gathered(s, n, index, merge, u, more);
           var r := FlattenFrom(u, n, index, merge + more);
           if r.Some? then BecameAround(s, n, index, u, r.value); r else None)
      else
        var t := if s[k].tag == VALUE then SetTag(s, k, STR) else s;
        Passed(s, n, index, merge);
        var r := FlattenFrom(t, n, index + 1, merge);
        if r.Some? then BecameTrans(s, t, r.value); r else None
  }

  function Deleted(s: Store, n: Id, i: nat): Store
    requires IsMapping(s, n) && i < |s[n].pairs|
  {
    SetPairs(s, n, s[n].pairs[..i] + s[n].pairs[i + 1..])
  }

  /** What merging node v brings, with the nodes it comes from flattened. */
  function Gather(s: Store, v: Id): (r: Option<(Store, Pairs)>)
    requires Valid(s) && v < |s|
    ensures r.Some? ==> Became(s, r.value.0) && PairsIn(r.value.0, r.value.1) && Clean(r.value.0, r.value.1)
    ensures r.Some? ==> Total(r.value.0, |s|) <= Total(s, |s|)
    decreases Total(s, |s|), 3, 0
  {
    match s[v]
    case MappingNode(_, _, _) =>
      (match Flatten(s, v)
       case None => None
       case Some(t) =>
         assert NodeIn(t, t[v]);
         Some((t, t[v].pairs)))
    case SequenceNode(_, _, items) => GatherAll(s, items)
    case ScalarNode(_, _) => None
  }

  /** The mappings of a list are flattened in order; their pairs come in the opposite order. */
  function GatherAll(s: Store, items: seq<Id>): (r: Option<(Store, Pairs)>)
    requires Valid(s) && ItemsIn(s, items)
    ensures r.Some? ==> Became(s, r.value.0) && PairsIn(r.value.0, r.value.1) && Clean(r.value.0, r.value.1)
    ensures r.Some? ==> Total(r.value.0, |s|) <= Total(s, |s|)
    decreases Total(s, |s|), 2, |items|
  {
    if items == [] then Some((s, []))
    else if !s[items[0]].MappingNode? then None
    else
      match Flatten(s, items[0])
      case None => None
      case Some(t) =>
        match GatherAll(t, items[1..])
        case None => None
        case Some((u, later)) =>
          BecameTrans(s, t, u);
          CleanStays(t, u, t[items[0]].pairs);
          assert NodeIn(t, t[items[0]]);
          Some((u, later + t[items[0]].pairs))
  }

  // What the steps of the loop keep.

  lemma SetPairsValid(s: Store, n: Id, l: Pairs)
    requires Valid(s) && IsMapping(s, n) && PairsIn(s, l)
    ensures Valid(SetPairs(s, n, l))
  {
    hide PairsIn, ItemsIn;
    var r := SetPairs(s, n, l);
    forall i | 0 <= i < |s| ensures NodeIn(r, r[i]) {
      assert NodeIn(s, s[i]);
      InWider(s, r, s[i]);
      InWider(s, r, r[i]);
    }
  }

  lemma InWider(s: Store, r: Store, n: GraphNode)
    requires |r| == |s| && NodeIn(s, n)
    ensures NodeIn(r, n)
  {
  }

  lemma Finished(s: Store, n: Id, merge: Pairs)
    requires Valid(s) && IsMapping(s, n) && PairsIn(s, merge) && Clean(s, merge) && Clean(s, s[n].pairs)
    ensures Became(s, s) && Became(s, SetPairs(s, n, merge + s[n].pairs))
    ensures Total(SetPairs(s, n, merge + s[n].pairs), |s|) == Total(s, |s|)
    ensures Clean(SetPairs(s, n, merge + s[n].pairs), merge + s[n].pairs)
  {
    hide Merges, Total, Clean, PairsIn;
    TotalAfterMerge(s, n, merge);
    assert NodeIn(s, s[n]);
    var l := merge + s[n].pairs;
    CleanJoin(s, merge, s[n].pairs);
    SetPairsValid(s, n, l);
    hide Valid;
    SameTags(s, SetPairs(s, n, l), l);
  }

  lemma CleanJoin(s: Store, a: Pairs, b: Pairs)
    requires PairsIn(s, a) && PairsIn(s, b) && Clean(s, a) && Clean(s, b)
    ensures PairsIn(s, a + b) && Clean(s, a + b)
  {
  }

  lemma SameTags(s: Store, r: Store, l: Pairs)
    requires |r| == |s| && (forall i | 0 <= i < |s| :: r[i].tag == s[i].tag) && PairsIn(s, l) && Clean(s, l)
    ensures PairsIn(r, l) && Clean(r, l)
  {
  }

  lemma DeletedValid(s: Store, n: Id, i: nat)
    requires Valid(s) && IsMapping(s, n) && i < |s[n].pairs|
    ensures Valid(Deleted(s, n, i)) && s[n].pairs[i].0 < |s| && s[n].pairs[i].1 < |s|
  {
    assert NodeIn(s, s[n]);
    var r := Deleted(s, n, i);
    forall j | 0 <= j < |s| ensures NodeIn(r, r[j]) { assert NodeIn(s, s[j]); }
  }

  /** Back in the loop behind a merge entry: the prefix is clean, even where n itself has been flattened. */
  lemma Gathered(s: Store, n: Id, i: nat, merge: Pairs, u: Store, more: Pairs)
    requires Valid(s) && IsMapping(s, n) && i < |s[n].pairs| && PairsIn(s, merge) && Clean(s, merge)
    requires CleanUpTo(s, s[n].pairs, i) && Became(Deleted(s, n, i), u) && PairsIn(u, more) && Clean(u, more)
    ensures IsMapping(u, n) && PairsIn(u, merge + more) && Clean(u, merge + more) && CleanUpTo(u, u[n].pairs, i)
  {
    TagsDiffer();
    var t := Deleted(s, n, i);
    assert Clean(t, merge);
    CleanStays(t, u, merge);
    forall j | 0 <= j < i && j < |u[n].pairs|
      ensures IsClean(u, u[n].pairs[j])
    {
      if u[n].pairs == t[n].pairs { assert u[n].pairs[j] == s[n].pairs[j]; }
    }
  }

  /** Whatever the merge entry deleted has led to, in the end n is clean. */
  lemma BecameAround(s: Store, n: Id, i: nat, u: Store, r: Store)
    requires Valid(s) && IsMapping(s, n) && i < |s[n].pairs|
    requires Became(Deleted(s, n, i), u) && Became(u, r) && Clean(r, r[n].pairs)
    ensures Became(s, r)
  {
    BecameTrans(Deleted(s, n, i), u, r);
  }

  /** The loop passes an entry that is no merge entry. */
  lemma Passed(s: Store, n: Id, i: nat, merge: Pairs)
    requires Valid(s) && IsMapping(s, n) && i < |s[n].pairs| && PairsIn(s, merge) && Clean(s, merge)
    requires CleanUpTo(s, s[n].pairs, i) && s[n].pairs[i].0 < |s| && s[s[n].pairs[i].0].tag != MERGE
    ensures
      var k := s[n].pairs[i].0;
      var t := if s[k].tag == VALUE then SetTag(s, k, STR) else s;
      && Became(s, t) && Total(t, |s|) == Total(s, |s|) && PairsIn(t, merge) && Clean(t, merge)
      && IsMapping(t, n) && t[n].pairs == s[n].pairs && CleanUpTo(t, t[n].pairs, i + 1)
  {
    TagsDiffer();
    var k := s[n].pairs[i].0;
    var t := if s[k].tag == VALUE then SetTag(s, k, STR) else s;
    forall j | 0 <= j < |s| ensures NodeIn(t, t[j]) { assert NodeIn(s, s[j]); }
    if s[k].tag == VALUE { TotalAfterTag(s, n, k); }
    CleanStays(s, t, merge);
  }

  /** Flattening a clean node changes nothing, so flattening twice is flattening once. */
  lemma CleanStaysAsItIs(s: Store, n: Id)
    requires Valid(s) && IsMapping(s, n) && Clean(s, s[n].pairs)
    ensures Flatten(s, n) == Some(s)
  {
    CleanLoop(s, n, 0);
  }

  lemma {:induction false} CleanLoop(s: Store, n: Id, index: nat)
    requires Valid(s) && IsMapping(s, n) && Clean(s, s[n].pairs)
    ensures FlattenFrom(s, n, index, []) == Some(s)
    decreases |s[n].pairs| - index
  {
    if index < |s[n].pairs| {
      assert IsClean(s, s[n].pairs[index]);
      CleanLoop(s, n, index + 1);
    }
  }

  /** On every graph, also where mappings merge themselves: the node is left without merge keys, the other
      mappings are left alone or without merge keys too, and flattening again changes nothing. */
  lemma FlattenSettles(s: Store, n: Id)
    requires Valid(s) && IsMapping(s, n) && Flatten(s, n).Some?
    ensures
      var r := Flatten(s, n).value;
      Clean(r, r[n].pairs) && Became(s, r) && Flatten(r, n) == Some(r)
  {
    CleanStaysAsItIs(Flatten(s, n).value, n);
  }
}
