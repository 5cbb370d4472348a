/** How far the emitter looks ahead (yaml/emitter.py:120-144), and where it need not wait. */
module EmitterLookahead {
  import opened Events

  function Step(e: Event): int {
    if e.DocumentStart? || e.SequenceStart? || e.MappingStart? then 1
    else if e.DocumentEnd? || e.SequenceEnd? || e.MappingEnd? then -1
    else 0
  }

  /** The level, counted from the start, falls below zero, or the stream ends. */
  predicate Falls(l: seq<Event>, level: int) {
    l != [] && (l[0].StreamEnd? || level + Step(l[0]) < 0 || Falls(l[1..], level + Step(l[0])))
  }

  function Lookahead(e: Event): nat {
    if e.DocumentStart? then 1 else if e.SequenceStart? then 2 else if e.MappingStart? then 3 else 0
  }

  /** need_more_events */
  predicate NeedsMore(events: seq<Event>) {
    events == [] || (Lookahead(events[0]) > 0 && !Falls(events[1..], 0) && |events| < Lookahead(events[0]) + 1)
  }

  /** An event that is handled has the next one behind it, if its handler looks at that. */
  lemma NextKnown(events: seq<Event>)
    requires !NeedsMore(events)
    ensures events != [] && (|events| > 1 || Lookahead(events[0]) == 0)
  {
  }

  lemma QueueIsShort(events: seq<Event>)
    requires NeedsMore(events)
    ensures |events| <= 3
  {
  }

  lemma EndWaitsForNothing(events: seq<Event>)
    requires events != [] && events[|events| - 1].StreamEnd?
    ensures !NeedsMore(events)
  {
    if |events| > 1 { EndFalls(events[1..], 0); }
  }

  lemma {:induction false} EndFalls(l: seq<Event>, level: int)
    requires l != [] && l[|l| - 1].StreamEnd?
    ensures Falls(l, level)
  {
    if |l| > 1 { EndFalls(l[1..], level + Step(l[0])); }
  }

  // Levels.

  function Level(l: seq<Event>): int { if l == [] then 0 else Step(l[0]) + Level(l[1..]) }

  lemma {:induction false} LevelJoin(a: seq<Event>, b: seq<Event>)
    ensures Level(a + b) == Level(a) + Level(b)
  {
    if a == [] {
      assert a + b == b;
    } else {
      assert (a + b)[1..] == a[1..] + b;
      LevelJoin(a[1..], b);
    }
  }

  lemma {:induction false} LowFalls(l: seq<Event>, level: int)
    requires level >= 0 && level + Level(l) < 0
    ensures Falls(l, level)
  {
    if level + Step(l[0]) >= 0 { LowFalls(l[1..], level + Step(l[0])); }
  }

  /** What is opened is closed, and nothing else is. */
  ghost predicate Nested(l: seq<Event>) {
    Level(l) == 0 && forall n | 0 <= n <= |l| :: Level(l[..n]) >= 0
  }

  lemma NestedJoin(a: seq<Event>, b: seq<Event>)
    requires Nested(a) && Nested(b)
    ensures Nested(a + b)
  {
    LevelJoin(a, b);
    forall n | 0 <= n <= |a + b| ensures Level((a + b)[..n]) >= 0 {
      if n <= |a| {
        assert (a + b)[..n] == a[..n];
      } else {
        assert (a + b)[..n] == a + b[..n - |a|];
        LevelJoin(a, b[..n - |a|]);
      }
    }
  }

  lemma LevelOfOne(e: Event)
    ensures Level([e]) == Step(e)
  {
    assert [e][1..] == [];
  }

  lemma NestedAround(start: Event, l: seq<Event>, end: Event)
    requires Nested(l) && Step(start) >= 0 && Step(start) + Step(end) == 0
    ensures Nested([start] + l + [end])
  {
    var all := [start] + l + [end];
    LevelOfOne(start);
    LevelOfOne(end);
    LevelJoin([start] + l, [end]);
    LevelJoin([start], l);
    forall n | 0 <= n <= |all| ensures Level(all[..n]) >= 0 {
      if n == |all| {
        assert all[..n] == all;
      } else if n > 0 {
        assert all[..n] == [start] + l[..n - 1];
        LevelJoin([start], l[..n - 1]);
      }
    }
  }

  lemma NothingNested()
    ensures Nested([])
  {
  }

  lemma OneNested(e: Event)
    requires Step(e) == 0
    ensures Nested([e])
  {
    LevelOfOne(e);
    forall n | 0 <= n <= 1 ensures Level([e][..n]) >= 0 {
      assert n == 0 || [e][..n] == [e];
    }
  }

  predicate IsInner(e: Event) { !e.DocumentStart? && !e.DocumentEnd? && !e.StreamStart? && !e.StreamEnd? }

  /** The events of a node are nested, and no document or stream starts or ends in them. */
  ghost predicate NodeLike(l: seq<Event>) { Nested(l) && forall e <- l :: IsInner(e) }

  lemma {:induction false} NodeNested(n: Node)
    ensures NodeLike(NodeEvents(n))
    decreases n
  {
    hide Nested;
    match n
    case AliasNode(a) => OneNested(Alias(a));
    case ScalarNode(a, t, p, q, v) => OneNested(Scalar(a, t, p, q, v));
    case SequenceNode(a, t, i, f, items) =>
      ItemsNested(items);
      NestedAround(SequenceStart(a, t, i, f), ItemsEvents(items), SequenceEnd);
    case MappingNode(a, t, i, f, pairs) =>
      PairsNested(pairs);
      NestedAround(MappingStart(a, t, i, f), PairsEvents(pairs), MappingEnd);
  }

  lemma {:induction false} ItemsNested(l: Nodes)
    ensures NodeLike(ItemsEvents(l))
    decreases l
  {
    hide Nested, NodeEvents;
    if l.NoNodes? {
      NothingNested();
    } else {
      NodeNested(l.head);
      ItemsNested(l.tail);
      NestedJoin(NodeEvents(l.head), ItemsEvents(l.tail));
    }
  }

  lemma {:induction false} PairsNested(l: Pairs)
    ensures NodeLike(PairsEvents(l))
    decreases l
  {
    hide Nested, NodeEvents;
    if l.NoPairs? {
      NothingNested();
    } else {
      NodeNested(l.key);
      NodeNested(l.value);
      PairsNested(l.tail);
      NestedJoin(NodeEvents(l.key), NodeEvents(l.value));
      NestedJoin(NodeEvents(l.key) + NodeEvents(l.value), PairsEvents(l.tail));
    }
  }

  lemma DocumentNested(d: Document)
    ensures Nested(DocumentEvents(d))
    ensures forall i | 0 <= i < |DocumentEvents(d)| - 1 :: !DocumentEvents(d)[i].DocumentEnd?
  {
    hide Nested, NodeEvents;
    NodeNested(d.root);
    NestedAround(DocumentStart(d.explicitStart), NodeEvents(d.root), DocumentEnd(d.explicitEnd));
    var all := DocumentEvents(d);
    forall i | 0 <= i < |all| - 1 ensures !all[i].DocumentEnd? {
      if i > 0 { assert all[i] == NodeEvents(d.root)[i - 1] && NodeEvents(d.root)[i - 1] in NodeEvents(d.root); }
    }
  }

  lemma {:induction false} DocumentsNested(docs: seq<Document>)
    ensures Nested(DocumentsEvents(docs))
    decreases |docs|
  {
    hide Nested, DocumentEvents;
    if docs == [] {
      NothingNested();
    } else {
      DocumentNested(docs[0]);
      DocumentsNested(docs[1..]);
      NestedJoin(DocumentEvents(docs[0]), DocumentsEvents(docs[1..]));
    }
  }

  // The ends of documents.

  /** Up to the end of a document there are whole documents. */
  lemma {:induction false} DocumentEndPlace(docs: seq<Document>, i: nat) returns (k: nat)
    requires i < |DocumentsEvents(docs)| && DocumentsEvents(docs)[i].DocumentEnd?
    ensures k <= |docs| && DocumentsEvents(docs)[..i + 1] == DocumentsEvents(docs[..k])
    decreases |docs|
  {
    hide DocumentEvents;
    var first, rest := DocumentEvents(docs[0]), DocumentsEvents(docs[1..]);
    DocumentNested(docs[0]);
    if i < |first| {
      assert i == |first| - 1;
      k := 1;
      OneDocument(docs);
      assert (first + rest)[..i + 1] == first;
    } else {
      var n := DocumentEndPlace(docs[1..], i - |first|);
      k := n + 1;
      FirstDocuments(docs, n);
      assert (first + rest)[..i + 1] == first + rest[..i - |first| + 1];
    }
  }

  lemma OneDocument(docs: seq<Document>)
    requires docs != []
    ensures DocumentsEvents(docs[..1]) == DocumentEvents(docs[0])
  {
    assert docs[..1][1..] == [];
    assert DocumentEvents(docs[0]) + [] == DocumentEvents(docs[0]);
  }

  lemma FirstDocuments(docs: seq<Document>, n: nat)
    requires n < |docs|
    ensures DocumentsEvents(docs[..n + 1]) == DocumentEvents(docs[0]) + DocumentsEvents(docs[1..][..n])
  {
    assert docs[..n + 1][1..] == docs[1..][..n];
  }

  /** The stream up to the end of one of its documents. */
  lemma StreamUpTo(docs: seq<Document>, i: nat) returns (k: nat)
    requires i < |StreamEvents(docs)| && StreamEvents(docs)[i].DocumentEnd?
    ensures k <= |docs| && StreamEvents(docs)[..i + 1] == [StreamStart] + DocumentsEvents(docs[..k])
    ensures Level(StreamEvents(docs)[..i + 1]) == 0
  {
    hide DocumentsEvents;
    var all := DocumentsEvents(docs);
    assert 0 < i <= |all| && StreamEvents(docs)[i] == all[i - 1];
    k := DocumentEndPlace(docs, i - 1);
    assert StreamEvents(docs)[..i + 1] == [StreamStart] + all[..i];
    DocumentsNested(docs[..k]);
    LevelOfOne(StreamStart);
    LevelJoin([StreamStart], DocumentsEvents(docs[..k]));
  }

  lemma StreamLevels(docs: seq<Document>, n: nat)
    requires n <= |StreamEvents(docs)|
    ensures Level(StreamEvents(docs)[..n]) >= 0
  {
    DocumentsNested(docs);
    NestedAround(StreamStart, DocumentsEvents(docs), StreamEnd);
  }

  /** Nothing waits any longer when the end of a document is there. */
  lemma DocumentEndEndsWaits(docs: seq<Document>, j: nat, i: nat)
    requires j <= i < |StreamEvents(docs)| && StreamEvents(docs)[i].DocumentEnd?
    ensures !NeedsMore(StreamEvents(docs)[j..i + 1])
  {
    hide StreamEvents;
    var all := StreamEvents(docs);
    var events := all[j..i + 1];
    if Lookahead(events[0]) > 0 {
      var k := StreamUpTo(docs, i);
      StreamLevels(docs, j);
      assert all[..i + 1] == all[..j] + ([events[0]] + events[1..]);
      LevelJoin(all[..j], [events[0]] + events[1..]);
      LevelJoin([events[0]], events[1..]);
      LevelOfOne(events[0]);
      LowFalls(events[1..], 0);
    }
  }
}
