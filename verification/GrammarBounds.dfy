/** How many events the grammar makes of a token list: at most four to a token, whether or not there is an
    error, although empty scalars and several ends have no token of their own. */
module GrammarBounds {
  import opened Options
  import opened Continuations
  import opened Events
  import opened Grammar
  import T = TokenNesting

  /** At most four events for every token from p on, and `slack` more (or fewer, when negative). */
  predicate NodeBounded(ts: seq<Lexed>, p: nat, r: Parsed<Node>, slack: int) {
    match r
    case Got(n, q) => |NodeEvents(n)| <= 4 * (q - p) + slack
    case Error(e) => |e| <= 4 * (|ts| - p)
  }

  predicate ItemsBounded(ts: seq<Lexed>, p: nat, r: Parsed<Nodes>, slack: int, errorSlack: int) {
    match r
    case Got(l, q) => |ItemsEvents(l)| <= 4 * (q - p) + slack
    case Error(e) => |e| <= 4 * (|ts| - p) + errorSlack
  }

  predicate PairsBounded(ts: seq<Lexed>, p: nat, r: Parsed<Pairs>, slack: int, errorSlack: int) {
    match r
    case Got(l, q) => |PairsEvents(l)| <= 4 * (q - p) + slack
    case Error(e) => |e| <= 4 * (|ts| - p) + errorSlack
  }

  lemma {:induction false} NodeBound(ts: seq<Lexed>, p: nat, h: Handles, block: bool, indentless: bool)
    requires Framed(ts) && 0 < p < |ts|
    ensures NodeBounded(ts, p, ParseNode(ts, p, h, block, indentless), 0)
    decreases |ts| - p, 2
  {
    NodeCases(ts, h, p, block, indentless);
    hide ParseNode, SequenceOf, MappingOf, ScalarOf, Implicit, NodeBounded, ItemsBounded, PairsBounded;
    hide ParseProperties, ParseIndentless, ParseFlowSequence, ParseFlowMapping, ParseBlockSequence, ParseBlockMapping;
    var r := ParseProperties(ts, p, h);
    ErrorBound(ts, p);
    if ts[p].kind.Alias? {
      OneEventBound(ts, p, AliasNode(Some(ts[p].text)), p + 1);
    } else if r.Got? {
      var a, q := r.value, r.next;
      if indentless && ts[q].kind.BlockEntry? {
        BlockNodeBound(ts, p, q, h, a);
      } else if ts[q].kind.Scalar? {
        ScalarIsNode(a, ts[q]);
        OneEventBound(ts, p, ScalarOf(a, ts[q]), q + 1);
      } else if ts[q].kind.FlowSequenceStart? || ts[q].kind.FlowMappingStart? {
        FlowNodeBound(ts, p, q, h, a);
      } else if block && (ts[q].kind.BlockSequenceStart? || ts[q].kind.BlockMappingStart?) {
        BlockNodeBound(ts, p, q, h, a);
      } else if a.anchor.Some? || a.tag.Some? {
        OneEventBound(ts, p, ScalarNode(a.anchor, a.tag, Implicit(a.tag), false, []), q);
      }
    }
  }

  lemma {:induction false} FlowNodeBound(ts: seq<Lexed>, p: nat, q: nat, h: Handles, a: Properties)
    requires Framed(ts) && 0 < p <= q < |ts|
    ensures ts[q].kind.FlowSequenceStart? ==>
              NodeBounded(ts, p, SequenceOf(a, Some(true), ParseFlowSequence(ts, q + 1, h, true)), 0)
    ensures ts[q].kind.FlowMappingStart? ==>
              NodeBounded(ts, p, MappingOf(a, Some(true), ParseFlowMapping(ts, q + 1, h, true)), 0)
    decreases |ts| - q, 0
  {
    hide SequenceOf, MappingOf, NodeBounded, ItemsBounded, PairsBounded, ParseFlowSequence, ParseFlowMapping;
    if ts[q].kind.FlowSequenceStart? {
      FlowSequenceBound(ts, q + 1, h, true);
      SequenceBound(ts, p, q + 1, a, Some(true), ParseFlowSequence(ts, q + 1, h, true));
    } else if ts[q].kind.FlowMappingStart? {
      FlowMappingBound(ts, q + 1, h, true);
      MappingBound(ts, p, q + 1, a, Some(true), ParseFlowMapping(ts, q + 1, h, true), -3);
    }
  }

  lemma {:induction false} BlockNodeBound(ts: seq<Lexed>, p: nat, q: nat, h: Handles, a: Properties)
    requires Framed(ts) && 0 < p <= q < |ts|
    ensures ts[q].kind.BlockEntry? ==> NodeBounded(ts, p, SequenceOf(a, None, ParseIndentless(ts, q, h)), 0)
    ensures ts[q].kind.BlockSequenceStart? ==>
              NodeBounded(ts, p, SequenceOf(a, Some(false), ParseBlockSequence(ts, q + 1, h)), 0)
    ensures ts[q].kind.BlockMappingStart? ==>
              NodeBounded(ts, p, MappingOf(a, Some(false), ParseBlockMapping(ts, q + 1, h)), 0)
    decreases |ts| - q, 1
  {
    hide SequenceOf, MappingOf, NodeBounded, ItemsBounded, PairsBounded, ParseIndentless, ParseBlockSequence,
         ParseBlockMapping;
    if ts[q].kind.BlockEntry? {
      IndentlessBound(ts, q, h);
      SequenceBound(ts, p, q, a, None, ParseIndentless(ts, q, h));
    } else if ts[q].kind.BlockSequenceStart? {
      BlockSequenceBound(ts, q + 1, h);
      SequenceBound(ts, p, q + 1, a, Some(false), ParseBlockSequence(ts, q + 1, h));
    } else if ts[q].kind.BlockMappingStart? {
      BlockMappingBound(ts, q + 1, h);
      MappingBound(ts, p, q + 1, a, Some(false), ParseBlockMapping(ts, q + 1, h), -4);
    }
  }

  lemma ScalarIsNode(a: Properties, t: Lexed)
    ensures ScalarOf(a, t).ScalarNode?
  {
  }

  lemma ErrorBound(ts: seq<Lexed>, p: nat)
    requires p < |ts|
    ensures NodeBounded(ts, p, Error([]), 0)
  {
  }

  lemma OneEventBound(ts: seq<Lexed>, p: nat, n: Node, q: nat)
    requires p < q && (n.ScalarNode? || n.AliasNode?)
    ensures NodeBounded(ts, p, Got(n, q), 0)
  {
  }

  lemma SequenceBound(ts: seq<Lexed>, p: nat, q: nat, a: Properties, flow: Option<bool>, r: Parsed<Nodes>)
    requires p <= q && (ItemsBounded(ts, q, r, -3, -3) || (p < q && ItemsBounded(ts, q, r, -4, 0)))
    ensures NodeBounded(ts, p, SequenceOf(a, flow, r), 0)
  {
  }

  lemma MappingBound(ts: seq<Lexed>, p: nat, q: nat, a: Properties, flow: Option<bool>, r: Parsed<Pairs>, slack: int)
    requires p < q && slack <= -3 && PairsBounded(ts, q, r, slack, 0)
    ensures NodeBounded(ts, p, MappingOf(a, flow, r), 0)
  {
  }

  lemma {:induction false} OptionalBound(ts: seq<Lexed>, p: nat, h: Handles, block: bool, indentless: bool,
                                         stops: set<T.Kind>)
    requires Framed(ts) && 0 < p < |ts|
    ensures NodeBounded(ts, p, ParseOptional(ts, p, h, block, indentless, stops), 1)
    decreases |ts| - p, 3
  {
    hide ParseNode;
    NodeBound(ts, p, h, block, indentless);
  }

  lemma {:induction false} MarkedBound(ts: seq<Lexed>, p: nat, h: Handles, mark: T.Kind, block: bool,
                                       stops: set<T.Kind>)
    requires Framed(ts) && 0 < p < |ts| && mark != T.StreamEnd
    ensures NodeBounded(ts, p, ParseMarked(ts, p, h, mark, block, stops), 1)
    decreases |ts| - p, 3
  {
    hide ParseOptional;
    if ts[p].kind == mark {
      OptionalBound(ts, p + 1, h, block, block, stops);
    }
  }

  lemma {:induction false} BlockSequenceBound(ts: seq<Lexed>, p: nat, h: Handles)
    requires Framed(ts) && 0 < p < |ts|
    ensures ItemsBounded(ts, p, ParseBlockSequence(ts, p, h), -4, 0)
    decreases |ts| - p, 3
  {
    hide ParseOptional, NodeEvents;
    if ts[p].kind.BlockEntry? {
      OptionalBound(ts, p + 1, h, true, false, {T.BlockEntry, T.BlockEnd});
      match ParseOptional(ts, p + 1, h, true, false, {T.BlockEntry, T.BlockEnd})
      case Error(e) =>
      case Got(n, q) => BlockSequenceBound(ts, q, h);
    }
  }

  lemma {:induction false} IndentlessBound(ts: seq<Lexed>, p: nat, h: Handles)
    requires Framed(ts) && 0 < p < |ts|
    ensures ItemsBounded(ts, p, ParseIndentless(ts, p, h), if ts[p].kind.BlockEntry? then -3 else 0, -3)
    decreases |ts| - p, 0
  {
    hide ParseOptional, NodeEvents;
    if ts[p].kind.BlockEntry? {
      OptionalBound(ts, p + 1, h, true, false, {T.BlockEntry, T.Key, T.Value, T.BlockEnd});
      match ParseOptional(ts, p + 1, h, true, false, {T.BlockEntry, T.Key, T.Value, T.BlockEnd})
      case Error(e) =>
      case Got(n, q) => IndentlessBound(ts, q, h);
    }
  }

  lemma {:induction false} BlockMappingBound(ts: seq<Lexed>, p: nat, h: Handles)
    requires Framed(ts) && 0 < p < |ts|
    ensures PairsBounded(ts, p, ParseBlockMapping(ts, p, h), -4, 0)
    decreases |ts| - p, 3
  {
    hide ParseOptional, ParseMarked, NodeEvents;
    if ts[p].kind.Key? {
      OptionalBound(ts, p + 1, h, true, true, BLOCK_STOPS);
      match ParseOptional(ts, p + 1, h, true, true, BLOCK_STOPS)
      case Error(e) =>
      case Got(k, q) =>
        MarkedBound(ts, q, h, T.Value, true, BLOCK_STOPS);
        match ParseMarked(ts, q, h, T.Value, true, BLOCK_STOPS)
        case Error(e) =>
        case Got(v, s) => BlockMappingBound(ts, s, h);
    }
  }

  lemma {:induction false} SinglePairBound(ts: seq<Lexed>, p: nat, h: Handles)
    requires Framed(ts) && 0 < p < |ts| && ts[p].kind.Key?
    ensures NodeBounded(ts, p, ParseSinglePair(ts, p, h), 0)
    decreases |ts| - p, 3
  {
    hide ParseOptional, ParseMarked;
    OptionalBound(ts, p + 1, h, false, false, SEQUENCE_STOPS);
    match ParseOptional(ts, p + 1, h, false, false, SEQUENCE_STOPS)
    case Error(e) =>
    case Got(k, q) =>
      MarkedBound(ts, q, h, T.Value, false, SEQUENCE_VALUE_STOPS);
      match ParseMarked(ts, q, h, T.Value, false, SEQUENCE_VALUE_STOPS)
      case Error(e) =>
      case Got(v, s) => SinglePairEvents(k, v);
  }

  lemma {:induction false} FlowSequenceBound(ts: seq<Lexed>, p: nat, h: Handles, first: bool)
    requires Framed(ts) && 0 < p < |ts|
    ensures ItemsBounded(ts, p, ParseFlowSequence(ts, p, h, first), -4, 0)
    decreases |ts| - p, 4
  {
    hide ParseNode, ParseSinglePair, NodeEvents;
    if !ts[p].kind.FlowSequenceEnd? && SkipEntry(ts, p, first).Some? {
      var q := SkipEntry(ts, p, first).value;
      if ts[q].kind.Key? {
        SinglePairBound(ts, q, h);
        if ParseSinglePair(ts, q, h).Got? { FlowSequenceBound(ts, ParseSinglePair(ts, q, h).next, h, false); }
      } else if !ts[q].kind.FlowSequenceEnd? {
        NodeBound(ts, q, h, false, false);
        if ParseNode(ts, q, h, false,
                     false).Got? { FlowSequenceBound(ts, ParseNode(ts, q, h, false, false).next, h, false); }
      }
    }
  }

  /** A pair in front of others, when its own events are few. */
  lemma PairBound(ts: seq<Lexed>, p: nat, k: Node, v: Node, q: nat, r: Parsed<Pairs>, slack: int)
    requires p <= q <= |ts| && |NodeEvents(k)| + |NodeEvents(v)| <= 4 * (q - p) + slack + 4
    requires PairsBounded(ts, q, r, -4, -3)
    ensures PairsBounded(ts, p, ConsPair(k, v, r), slack, slack + 1)
  {
    hide NodeEvents;
  }

  lemma NoPairsEvents()
    ensures PairsEvents(NoPairs) == []
  {
  }

  lemma {:induction false} FlowMappingBound(ts: seq<Lexed>, p: nat, h: Handles, first: bool)
    requires Framed(ts) && 0 < p < |ts|
    ensures PairsBounded(ts, p, ParseFlowMapping(ts, p, h, first), if first then -3 else -4, if first then 0 else -3)
    decreases |ts| - p, 4
  {
    hide ParseNode, ParseOptional, ParseMarked, NodeEvents, PairsEvents;
    NoPairsEvents();
    if !ts[p].kind.FlowMappingEnd? && SkipEntry(ts, p, first).Some? {
      var q := SkipEntry(ts, p, first).value;
      if ts[q].kind.Key? {
        OptionalBound(ts, q + 1, h, false, false, MAPPING_STOPS);
        match ParseOptional(ts, q + 1, h, false, false, MAPPING_STOPS)
        case Error(e) =>
        case Got(k, s) =>
          MarkedBound(ts, s, h, T.Value, false, MAPPING_VALUE_STOPS);
          match ParseMarked(ts, s, h, T.Value, false, MAPPING_VALUE_STOPS)
          case Error(e) =>
          case Got(v, u) =>
            FlowMappingBound(ts, u, h, false);
            PairBound(ts, q, k, v, u, ParseFlowMapping(ts, u, h, false), -6);
      } else if !ts[q].kind.FlowMappingEnd? {
        NodeBound(ts, q, h, false, false);
        match ParseNode(ts, q, h, false, false)
        case Error(e) =>
        case Got(k, s) =>
          EmptyScalarEvents();
          FlowMappingBound(ts, s, h, false);
          PairBound(ts, q, k, EmptyScalar(), s, ParseFlowMapping(ts, s, h, false), -3);
      }
    }
  }

  lemma EmptyScalarEvents()
    ensures |NodeEvents(EmptyScalar())| == 1
  {
  }

  predicate DocumentsBounded(ts: seq<Lexed>, p: nat, r: Parsed<seq<Document>>, slack: int, errorSlack: int) {
    match r
    case Got(docs, _) => |DocumentsEvents(docs)| <= 4 * (|ts| - p) + slack
    case Error(e) => |e| <= 4 * (|ts| - p) + errorSlack
  }

  lemma {:induction false} DocumentsBound(ts: seq<Lexed>, p: nat)
    requires Framed(ts) && 0 < p < |ts|
    ensures DocumentsBounded(ts, p, ParseDocuments(ts, p), -4, -3)
    decreases |ts| - p, 0
  {
    hide ParseDocument, ParseDirectives;
    var q := SkipDocumentEnds(ts, p);
    if !ts[q].kind.StreamEnd? {
      var d := ParseDirectives(ts, q, false, map[]);
      if d.Some? && ts[d.value.1].kind.DocumentStart? {
        DocumentBound(ts, d.value.1 + 1, d.value.0, true);
      }
    }
  }

  lemma {:induction false} DocumentBound(ts: seq<Lexed>, p: nat, h: Handles, explicit: bool)
    requires Framed(ts) && 0 < p < |ts|
    ensures DocumentsBounded(ts, p, ParseDocument(ts, p, h, explicit), -1, 1)
    decreases |ts| - p, 1
  {
    hide ParseNode, ParseOptional, ParseDocuments, NodeEvents;
    var node := if explicit then ParseOptional(ts, p, h, true, false, CONTENT_STOPS)
        else ParseNode(ts, p, h, true, false);
    if explicit {
      OptionalBound(ts, p, h, true, false, CONTENT_STOPS);
    } else {
      NodeBound(ts, p, h, true, false);
    }
    if node.Got? {
      var end := ts[node.next].kind.DocumentEnd?;
      var next := if end then node.next + 1 else node.next;
      DocumentsBound(ts, next);
      var r := ParseDocuments(ts, next);
      if r.Got? {
        assert ([Document(explicit, node.value, end)] + r.value)[1..] == r.value;
      }
    }
  }

  /** At most four events to a token, with an error or without. */
  lemma StreamBound(ts: seq<Lexed>)
    requires Framed(ts)
    ensures
      match ParseStream(ts)
      case Got(docs, _) => |StreamEvents(docs)| <= 4 * |ts|
      case Error(e) => |[StreamStart] + e| <= 4 * |ts|
  {
    hide ParseDocument, ParseDocuments;
    DocumentsBound(ts, 1);
    DocumentBound(ts, 1, DEFAULT_TAGS, false);
  }
}
