/** What is still to be parsed in a state of the parser's stack machine, in terms of the grammar: the
    meaning of a state, and of a stack of them. */
module Continuations {
  import opened Options
  import opened Events
  import opened Grammar
  import T = TokenNesting

  /** The methods that `state` and `states` of the parser hold. */
  datatype State =
    | AtStreamStart | AtImplicitDocumentStart | AtDocumentStart | AtDocumentEnd | AtDocumentContent | AtBlockNode
    | BlockSequenceFirstEntry | BlockSequenceEntry | IndentlessSequenceEntry
    | BlockMappingFirstKey | BlockMappingKey | BlockMappingValue
    | FlowSequenceFirstEntry | FlowSequenceEntry
    | FlowSequenceMappingKey | FlowSequenceMappingValue | FlowSequenceMappingEnd
    | FlowMappingFirstKey | FlowMappingKey | FlowMappingValue | FlowMappingEmptyValue

  type Todo = Parsed<seq<Event>>

  function Prepend(e: seq<Event>, r: Todo): (t: Todo)
    ensures t.Got? == r.Got? && (r.Got? ==> t.next == r.next)
  {
    match r
    case Got(v, q) => Got(e + v, q)
    case Error(f) => Error(e + f)
  }

  lemma PrependPrepend(a: seq<Event>, b: seq<Event>, r: Todo)
    ensures Prepend(a, Prepend(b, r)) == Prepend(a + b, r)
    ensures Prepend([], r) == r
  {
    match r
    case Got(v, q) => assert a + (b + v) == a + b + v && [] + v == v;
    case Error(f) => assert a + (b + f) == a + b + f && [] + f == f;
  }

  function SequenceOf(a: Properties, flow: Option<bool>, r: Parsed<Nodes>): Parsed<Node> {
    match r
    case Error(e) => Error([SequenceStart(a.anchor, a.tag, Implicit(a.tag), flow)] + e)
    case Got(items, next) => Got(SequenceNode(a.anchor, a.tag, Implicit(a.tag), flow, items), next)
  }

  function MappingOf(a: Properties, flow: Option<bool>, r: Parsed<Pairs>): Parsed<Node> {
    match r
    case Error(e) => Error([MappingStart(a.anchor, a.tag, Implicit(a.tag), flow)] + e)
    case Got(pairs, next) => Got(MappingNode(a.anchor, a.tag, Implicit(a.tag), flow, pairs), next)
  }

  /** ParseNode, case by case. */
  lemma NodeCases(ts: seq<Lexed>, h: Handles, p: nat, block: bool, indentless: bool)
    requires Framed(ts) && 0 < p < |ts|
    ensures
      var n := ParseNode(ts, p, h, block, indentless);
      if ts[p].kind.Alias? then n == Got(AliasNode(Some(ts[p].text)), p + 1)
      else
        var r := ParseProperties(ts, p, h);
        if r.Error? then n == Error([])
        else
          var a, q := r.value, r.next;
          if indentless && ts[q].kind.BlockEntry? then n == SequenceOf(a, None, ParseIndentless(ts, q, h))
          else if ts[q].kind.Scalar? then n == Got(ScalarOf(a, ts[q]), q + 1)
          else if ts[q].kind.FlowSequenceStart?
            then n == SequenceOf(a, Some(true), ParseFlowSequence(ts, q + 1, h, true))
          else if ts[q].kind.FlowMappingStart? then n == MappingOf(a, Some(true), ParseFlowMapping(ts, q + 1, h, true))
          else if block && ts[q].kind.BlockSequenceStart? then
            n == SequenceOf(a, Some(false), ParseBlockSequence(ts, q + 1, h))
          else if block && ts[q].kind.BlockMappingStart? then
            n == MappingOf(a, Some(false), ParseBlockMapping(ts, q + 1, h))
          else if a.anchor.Some? || a.tag.Some?
            then n == Got(ScalarNode(a.anchor, a.tag, Implicit(a.tag), false, []), q)
          else n == Error([])
  {
    hide ParseProperties, ParseBlockSequence, ParseIndentless, ParseBlockMapping, ParseFlowSequence, ParseFlowMapping;
    hide ScalarOf, Implicit;
  }

  function NodeTodo(r: Parsed<Node>): (t: Todo)
    ensures if r.Got? then t.Got? && t.next == r.next else t == Error(r.emitted)
  {
    match r
    case Got(n, q) => Got(NodeEvents(n), q)
    case Error(e) => Error(e)
  }

  function ItemsTodo(r: Parsed<Nodes>): (t: Todo)
    ensures if r.Got? then t.Got? && t.next == r.next else t == Error(r.emitted)
  {
    match r
    case Got(l, q) => Got(ItemsEvents(l) + [SequenceEnd], q)
    case Error(e) => Error(e)
  }

  function PairsTodo(r: Parsed<Pairs>): (t: Todo)
    ensures if r.Got? then t.Got? && t.next == r.next else t == Error(r.emitted)
  {
    match r
    case Got(l, q) => Got(PairsEvents(l) + [MappingEnd], q)
    case Error(e) => Error(e)
  }

  function DocumentsTodo(r: Parsed<seq<Document>>): (t: Todo)
    ensures t.Got? == r.Got? && (r.Got? ==> t.next == r.next)
  {
    match r
    case Got(docs, q) => Got(DocumentsEvents(docs) + [StreamEnd], q)
    case Error(e) => Error(e)
  }

  predicate Ready(ts: seq<Lexed>, s: State, p: nat) {
    && Framed(ts) && p < |ts|
    && (p == 0 <==> s.AtStreamStart?)
    && (!IsContinuation(s) ==>
          && (s.AtImplicitDocumentStart? ==> p == 1)
          && (s.BlockSequenceFirstEntry? ==> ts[p].kind.BlockSequenceStart?)
          && (s.BlockMappingFirstKey? ==> ts[p].kind.BlockMappingStart?)
          && (s.FlowSequenceFirstEntry? ==> ts[p].kind.FlowSequenceStart?)
          && (s.FlowMappingFirstKey? ==> ts[p].kind.FlowMappingStart?)
          && (s.FlowSequenceMappingKey? ==> ts[p].kind.Key?))
  }

  predicate IsDocumentLevel(s: State) {
    s.AtStreamStart? || s.AtImplicitDocumentStart? || s.AtDocumentStart? || s.AtDocumentEnd?
  }

  /** The states a collection leaves on the stack while one of its nodes is parsed. */
  predicate IsContinuation(s: State) {
    || s.BlockSequenceEntry? || s.IndentlessSequenceEntry? || s.BlockMappingKey? || s.BlockMappingValue?
    || s.FlowSequenceEntry? || s.FlowSequenceMappingValue? || s.FlowSequenceMappingEnd?
    || s.FlowMappingKey? || s.FlowMappingValue? || s.FlowMappingEmptyValue?
  }

  predicate IsFlowState(s: State) {
    || s.FlowSequenceFirstEntry? || s.FlowSequenceEntry? || s.FlowSequenceMappingKey? || s.FlowSequenceMappingEnd?
    || s.FlowMappingFirstKey? || s.FlowMappingKey? || s.FlowMappingEmptyValue?
  }

  function Rank(s: State): nat {
    if s.FlowSequenceMappingKey? then 2
    else if s.FlowSequenceMappingValue? || s.BlockMappingValue? || s.FlowMappingValue? then 1
    else 0
  }

  /** What r says, and then what the state s means. */
  function Chain(ts: seq<Lexed>, h: Handles, r: Todo, s: State): (c: Todo)
    requires Framed(ts) && IsContinuation(s) && (r.Got? ==> 0 < r.next < |ts|)
    ensures c.Got? ==> r.Got? && r.next <= c.next < |ts|
    decreases Rank(s), 2
  {
    match r
    case Error(e) => Error(e)
    case Got(v, q) => Prepend(v, Meaning(ts, h, s, q))
  }

  /** To the end of the stream. */
  function DocumentMeaning(ts: seq<Lexed>, s: State, p: nat): (r: Todo)
    requires Ready(ts, s, p) && IsDocumentLevel(s)
    ensures r.Got? ==> r.next == |ts|
  {
    if s.AtStreamStart? then Prepend([StreamStart], DocumentsTodo(ParseStream(ts)))
    else if s.AtImplicitDocumentStart? then DocumentsTodo(ParseStream(ts))
    else if s.AtDocumentStart? then DocumentsTodo(ParseDocuments(ts, p))
    else
      var end := ts[p].kind.DocumentEnd?;
      Prepend([DocumentEnd(end)], DocumentsTodo(ParseDocuments(ts, if end then p + 1 else p)))
  }

  /** The events until the state is left, and the position then; to the end of the stream for the states
      of the document level. */
  function Meaning(ts: seq<Lexed>, h: Handles, s: State, p: nat): (r: Todo)
    requires Ready(ts, s, p)
    ensures r.Got? ==> p <= r.next <= |ts| && (r.next == |ts| <==> IsDocumentLevel(s))
    decreases Rank(s), 1
  {
    match s
    case AtStreamStart | AtImplicitDocumentStart | AtDocumentStart | AtDocumentEnd => DocumentMeaning(ts, s, p)
    case AtDocumentContent => NodeTodo(ParseOptional(ts, p, h, true, false, CONTENT_STOPS))
    case AtBlockNode => NodeTodo(ParseNode(ts, p, h, true, false))
    case BlockSequenceFirstEntry | BlockSequenceEntry | IndentlessSequenceEntry => BlockMeaning(ts, h, s, p)
    case BlockMappingFirstKey | BlockMappingKey => BlockMeaning(ts, h, s, p)
    case BlockMappingValue | FlowSequenceMappingValue | FlowMappingValue => ValueMeaning(ts, h, s, p)
    case _ => FlowMeaning(ts, h, s, p)
  }

  function BlockMeaning(ts: seq<Lexed>, h: Handles, s: State, p: nat): (r: Todo)
    requires Ready(ts, s, p)
    requires || s.BlockSequenceFirstEntry? || s.BlockSequenceEntry? || s.IndentlessSequenceEntry?
             || s.BlockMappingFirstKey? || s.BlockMappingKey?
    ensures r.Got? ==> p <= r.next < |ts|
  {
    match s
    case BlockSequenceFirstEntry => ItemsTodo(ParseBlockSequence(ts, p + 1, h))
    case BlockSequenceEntry => ItemsTodo(ParseBlockSequence(ts, p, h))
    case IndentlessSequenceEntry => ItemsTodo(ParseIndentless(ts, p, h))
    case BlockMappingFirstKey => PairsTodo(ParseBlockMapping(ts, p + 1, h))
    case BlockMappingKey => PairsTodo(ParseBlockMapping(ts, p, h))
  }

  /** The other states of a flow collection. */
  function FlowMeaning(ts: seq<Lexed>, h: Handles, s: State, p: nat): (r: Todo)
    requires Ready(ts, s, p) && IsFlowState(s)
    ensures r.Got? ==> p <= r.next < |ts|
    decreases Rank(s), 0
  {
    match s
    case FlowSequenceFirstEntry => ItemsTodo(ParseFlowSequence(ts, p + 1, h, true))
    case FlowSequenceEntry => ItemsTodo(ParseFlowSequence(ts, p, h, false))
    case FlowSequenceMappingKey =>
      Chain(ts, h, NodeTodo(ParseOptional(ts, p + 1, h, false, false, SEQUENCE_STOPS)), FlowSequenceMappingValue)
    case FlowSequenceMappingEnd => Prepend([MappingEnd], ItemsTodo(ParseFlowSequence(ts, p, h, false)))
    case FlowMappingFirstKey => PairsTodo(ParseFlowMapping(ts, p + 1, h, true))
    case FlowMappingKey => PairsTodo(ParseFlowMapping(ts, p, h, false))
    case FlowMappingEmptyValue => Prepend(NodeEvents(EmptyScalar()), PairsTodo(ParseFlowMapping(ts, p, h, false)))
  }

  /** A state that waits for a value: the value, and then the state behind it. */
  function ValueMeaning(ts: seq<Lexed>, h: Handles, s: State, p: nat): (r: Todo)
    requires Framed(ts) && 0 < p < |ts|
    requires s.BlockMappingValue? || s.FlowSequenceMappingValue? || s.FlowMappingValue?
    ensures r.Got? ==> p <= r.next < |ts|
    decreases 1, 0
  {
    if s.BlockMappingValue? then
      Chain(ts, h, NodeTodo(ParseMarked(ts, p, h, T.Value, true, BLOCK_STOPS)), BlockMappingKey)
    else if s.FlowSequenceMappingValue? then
      Chain(ts, h, NodeTodo(ParseMarked(ts, p, h, T.Value, false, SEQUENCE_VALUE_STOPS)), FlowSequenceMappingEnd)
    else Chain(ts, h, NodeTodo(ParseMarked(ts, p, h, T.Value, false, MAPPING_VALUE_STOPS)), FlowMappingKey)
  }

  /** A stack of states: the end of the document at the bottom, collections above it. */
  predicate Stacked(stack: seq<State>) {
    stack == [] || (stack[0].AtDocumentEnd? && forall i :: 1 <= i < |stack| ==> IsContinuation(stack[i]))
  }

  predicate At(ts: seq<Lexed>, stack: seq<State>, p: nat) {
    Framed(ts) && if stack == [] then p == |ts| else 0 < p < |ts|
  }

  /** What a stack of states means: the top state first. */
  function Denote(ts: seq<Lexed>, h: Handles, stack: seq<State>, p: nat): Todo
    requires Stacked(stack) && At(ts, stack, p)
    decreases |stack|, 0
  {
    if stack == [] then Got([], p)
    else After(ts, h, Meaning(ts, h, stack[|stack| - 1], p), stack[..|stack| - 1])
  }

  /** What r says, and then what the stack means. */
  function After(ts: seq<Lexed>, h: Handles, r: Todo, stack: seq<State>): Todo
    requires Stacked(stack) && (r.Got? ==> At(ts, stack, r.next))
    decreases |stack|, 1
  {
    match r
    case Error(e) => Error(e)
    case Got(v, q) => Prepend(v, Denote(ts, h, stack, q))
  }

  lemma AfterPrepend(ts: seq<Lexed>, h: Handles, e: seq<Event>, r: Todo, stack: seq<State>)
    requires Stacked(stack) && (r.Got? ==> At(ts, stack, r.next))
    ensures After(ts, h, Prepend(e, r), stack) == Prepend(e, After(ts, h, r, stack))
  {
    if r.Got? {
      PrependPrepend(e, r.value, Denote(ts, h, stack, r.next));
    }
  }

  /** Pushing a state: what it means comes behind what is parsed first. */
  lemma ChainAfter(ts: seq<Lexed>, h: Handles, r: Todo, s: State, stack: seq<State>)
    requires Framed(ts) && IsContinuation(s) && (r.Got? ==> 0 < r.next < |ts|) && stack != [] && Stacked(stack)
    ensures Stacked(stack + [s])
    ensures After(ts, h, Chain(ts, h, r, s), stack) == After(ts, h, r, stack + [s])
  {
    var pushed := stack + [s];
    assert pushed[..|pushed| - 1] == stack;
    if r.Got? {
      AfterPrepend(ts, h, r.value, Meaning(ts, h, s, r.next), stack);
    }
  }

  /** One mark is kept for every collection that has its own end token. */
  function Mark(s: State): nat {
    if (IsContinuation(s) && !s.IndentlessSequenceEntry?) || s.FlowSequenceMappingKey? then 1 else 0
  }

  function Marks(stack: seq<State>): nat {
    if stack == [] then 0 else Marks(stack[..|stack| - 1]) + Mark(stack[|stack| - 1])
  }

  lemma MarksPush(stack: seq<State>, s: State)
    ensures Marks(stack + [s]) == Marks(stack) + Mark(s)
  {
    assert (stack + [s])[..|stack|] == stack;
  }

  // How each state unfolds: one node, then the state that follows.

  lemma BlockSequenceUnfolds(ts: seq<Lexed>, h: Handles, p: nat)
    requires Framed(ts) && 0 < p < |ts| && ts[p].kind.BlockEntry?
    ensures Meaning(ts, h, BlockSequenceEntry, p) ==
              Chain(ts, h, NodeTodo(ParseOptional(ts, p + 1, h, true, false, {T.BlockEntry, T.BlockEnd})),
                    BlockSequenceEntry)
  {
    match ParseOptional(ts, p + 1, h, true, false, {T.BlockEntry, T.BlockEnd})
    case Error(e) =>
    case Got(n, q) => ItemsUnfold(n, ParseBlockSequence(ts, q, h));
  }

  function ConsItem(n: Node, r: Parsed<Nodes>): Parsed<Nodes> {
    match r
    case Error(e) => Error(NodeEvents(n) + e)
    case Got(items, q) => Got(MoreNodes(n, items), q)
  }

  function ConsPair(k: Node, v: Node, r: Parsed<Pairs>): Parsed<Pairs> {
    match r
    case Error(e) => Error(NodeEvents(k) + NodeEvents(v) + e)
    case Got(pairs, q) => Got(MorePairs(k, v, pairs), q)
  }

  lemma ItemsUnfold(n: Node, r: Parsed<Nodes>)
    ensures Prepend(NodeEvents(n), ItemsTodo(r)) == ItemsTodo(ConsItem(n, r))
  {
    if r.Got? {
      assert NodeEvents(n) + (ItemsEvents(r.value) + [SequenceEnd])
             == NodeEvents(n) + ItemsEvents(r.value) + [SequenceEnd];
    }
  }

  lemma IndentlessUnfolds(ts: seq<Lexed>, h: Handles, p: nat)
    requires Framed(ts) && 0 < p < |ts| && ts[p].kind.BlockEntry?
    ensures Meaning(ts, h, IndentlessSequenceEntry, p) ==
              Chain(ts, h, NodeTodo(ParseOptional(ts, p + 1, h, true, false,
                                                  {T.BlockEntry, T.Key, T.Value, T.BlockEnd})),
                    IndentlessSequenceEntry)
  {
    match ParseOptional(ts, p + 1, h, true, false, {T.BlockEntry, T.Key, T.Value, T.BlockEnd})
    case Error(e) =>
    case Got(n, q) => ItemsUnfold(n, ParseIndentless(ts, q, h));
  }

  lemma PairsUnfold(k: Node, v: Node, r: Parsed<Pairs>)
    ensures Prepend(NodeEvents(k), Prepend(NodeEvents(v), PairsTodo(r))) == PairsTodo(ConsPair(k, v, r))
  {
    PrependPrepend(NodeEvents(k), NodeEvents(v), PairsTodo(r));
    if r.Got? {
      var kv := NodeEvents(k) + NodeEvents(v);
      assert kv + (PairsEvents(r.value) + [MappingEnd]) == kv + PairsEvents(r.value) + [MappingEnd];
    }
  }

  lemma BlockMappingUnfolds(ts: seq<Lexed>, h: Handles, p: nat)
    requires Framed(ts) && 0 < p < |ts| && ts[p].kind.Key?
    ensures Meaning(ts, h, BlockMappingKey, p) ==
              Chain(ts, h, NodeTodo(ParseOptional(ts, p + 1, h, true, true, BLOCK_STOPS)), BlockMappingValue)
  {
    hide NodeEvents, PairsEvents, ItemsEvents, ParseOptional, ParseMarked, ParseNode, PairsTodo;
    match ParseOptional(ts, p + 1, h, true, true, BLOCK_STOPS)
    case Error(e) =>
    case Got(k, q) =>
      match ParseMarked(ts, q, h, T.Value, true, BLOCK_STOPS)
      case Error(e) =>
      case Got(v, s) => PairsUnfold(k, v, ParseBlockMapping(ts, s, h));
  }

  /** An entry of a flow sequence that is a node. */
  lemma FlowSequenceUnfolds(ts: seq<Lexed>, h: Handles, p: nat, q: nat, first: bool)
    requires Framed(ts) && 0 < p < |ts| && !ts[p].kind.FlowSequenceEnd? && SkipEntry(ts, p, first) == Some(q)
    requires !ts[q].kind.FlowSequenceEnd? && !ts[q].kind.Key?
    ensures ItemsTodo(ParseFlowSequence(ts, p, h, first)) ==
              Chain(ts, h, NodeTodo(ParseNode(ts, q, h, false, false)), FlowSequenceEntry)
  {
    match ParseNode(ts, q, h, false, false)
    case Error(e) =>
    case Got(n, s) => ItemsUnfold(n, ParseFlowSequence(ts, s, h, false));
  }

  /** Behind the key of a pair in a flow collection. */
  lemma ValueMeans(ts: seq<Lexed>, h: Handles, p: nat)
    requires Framed(ts) && 0 < p < |ts|
    ensures Meaning(ts, h, FlowMappingValue, p) ==
              Chain(ts, h, NodeTodo(ParseMarked(ts, p, h, T.Value, false, MAPPING_VALUE_STOPS)), FlowMappingKey)
    ensures Meaning(ts, h, FlowSequenceMappingValue, p) ==
              Chain(ts, h, NodeTodo(ParseMarked(ts, p, h, T.Value, false, SEQUENCE_VALUE_STOPS)),
                    FlowSequenceMappingEnd)
  {
    hide Chain, NodeTodo, ParseMarked;
  }

  /** Behind a whole pair in a flow collection. */
  lemma NextEntryMeans(ts: seq<Lexed>, h: Handles, p: nat)
    requires Framed(ts) && 0 < p < |ts|
    ensures Meaning(ts, h, FlowMappingKey, p) == PairsTodo(ParseFlowMapping(ts, p, h, false))
    ensures Meaning(ts, h, FlowSequenceMappingEnd, p)
            == Prepend([MappingEnd], ItemsTodo(ParseFlowSequence(ts, p, h, false)))
  {
    hide PairsTodo, ItemsTodo, Prepend, ParseFlowMapping, ParseFlowSequence;
  }

  /** An entry of a flow sequence that is a single pair. */
  lemma SinglePairUnfolds(ts: seq<Lexed>, h: Handles, p: nat, q: nat, first: bool)
    requires Framed(ts) && 0 < p < |ts| && !ts[p].kind.FlowSequenceEnd? && SkipEntry(ts, p, first) == Some(q)
    requires ts[q].kind.Key?
    ensures ItemsTodo(ParseFlowSequence(ts, p, h, first)) ==
              Prepend([MappingStart(None, None, true, Some(true))], Meaning(ts, h, FlowSequenceMappingKey, q))
  {
    hide NodeEvents, PairsEvents, ItemsEvents, ParseOptional, ParseMarked, ParseNode, ItemsTodo, Meaning,
         ParseFlowSequence;
    var start := [MappingStart(None, None, true, Some(true))];
    FlowSequenceStep(ts, h, p, q, first);
    KeyMeans(ts, h, q);
    match ParseOptional(ts, q + 1, h, false, false, SEQUENCE_STOPS)
    case Error(e) =>
    case Got(k, s) =>
      ValueMeans(ts, h, s);
      match ParseMarked(ts, s, h, T.Value, false, SEQUENCE_VALUE_STOPS)
      case Error(e) => assert start + (NodeEvents(k) + e) == start + NodeEvents(k) + e;
      case Got(v, u) =>
        NextEntryMeans(ts, h, u);
        SinglePairTodo(k, v, ParseFlowSequence(ts, u, h, false));
  }

  lemma SinglePairTodo(k: Node, v: Node, r: Parsed<Nodes>)
    ensures
      var n := MappingNode(None, None, true, Some(true), MorePairs(k, v, NoPairs));
      var start := [MappingStart(None, None, true, Some(true))];
      Prepend(NodeEvents(n), ItemsTodo(r)) ==
      Prepend(start, Prepend(NodeEvents(k), Prepend(NodeEvents(v), Prepend([MappingEnd], ItemsTodo(r)))))
  {
    hide NodeEvents, ItemsTodo, Prepend;
    var start, todo := [MappingStart(None, None, true, Some(true))], ItemsTodo(r);
    SinglePairEvents(k, v);
    PrependPrepend(NodeEvents(v), [MappingEnd], todo);
    PrependPrepend(NodeEvents(k), NodeEvents(v) + [MappingEnd], todo);
    PrependPrepend(start, NodeEvents(k) + (NodeEvents(v) + [MappingEnd]), todo);
  }

  /** One entry of a flow sequence, and the rest. */
  lemma FlowSequenceStep(ts: seq<Lexed>, h: Handles, p: nat, q: nat, first: bool)
    requires Framed(ts) && 0 < p < |ts| && !ts[p].kind.FlowSequenceEnd? && SkipEntry(ts, p, first) == Some(q)
    requires ts[q].kind.Key?
    ensures
      var n := ParseSinglePair(ts, q, h);
      ItemsTodo(ParseFlowSequence(ts, p, h, first)) ==
        if n.Error? then Error(n.emitted)
        else Prepend(NodeEvents(n.value), ItemsTodo(ParseFlowSequence(ts, n.next, h, false)))
  {
    hide NodeEvents, ItemsEvents, ParseSinglePair, ParseNode, ItemsTodo, Prepend;
    match ParseSinglePair(ts, q, h)
    case Error(e) =>
    case Got(n, s) => ItemsUnfold(n, ParseFlowSequence(ts, s, h, false));
  }

  lemma KeyMeans(ts: seq<Lexed>, h: Handles, p: nat)
    requires Framed(ts) && 0 < p < |ts| && ts[p].kind.Key?
    ensures Meaning(ts, h, FlowSequenceMappingKey, p) ==
              Chain(ts, h, NodeTodo(ParseOptional(ts, p + 1, h, false, false, SEQUENCE_STOPS)),
                    FlowSequenceMappingValue)
  {
    hide Chain, NodeTodo, ParseOptional;
  }

  lemma SinglePairEvents(k: Node, v: Node)
    ensures NodeEvents(MappingNode(None, None, true, Some(true), MorePairs(k, v, NoPairs))) ==
              [MappingStart(None, None, true, Some(true))] + (NodeEvents(k) + (NodeEvents(v) + [MappingEnd]))
  {
    assert PairsEvents(MorePairs(k, v, NoPairs)) == NodeEvents(k) + NodeEvents(v) + [];
  }

  /** An entry of a flow mapping with a KEY. */
  lemma FlowMappingUnfolds(ts: seq<Lexed>, h: Handles, p: nat, q: nat, first: bool)
    requires Framed(ts) && 0 < p < |ts| && !ts[p].kind.FlowMappingEnd? && SkipEntry(ts, p, first) == Some(q)
    requires ts[q].kind.Key?
    ensures PairsTodo(ParseFlowMapping(ts, p, h, first)) ==
              Chain(ts, h, NodeTodo(ParseOptional(ts, q + 1, h, false, false, MAPPING_STOPS)), FlowMappingValue)
  {
    hide NodeEvents, PairsEvents, ItemsEvents, ParseOptional, ParseMarked, ParseNode, PairsTodo, Meaning;
    match ParseOptional(ts, q + 1, h, false, false, MAPPING_STOPS)
    case Error(e) =>
    case Got(k, s) =>
      ValueMeans(ts, h, s);
      match ParseMarked(ts, s, h, T.Value, false, MAPPING_VALUE_STOPS)
      case Error(e) =>
      case Got(v, u) =>
        NextEntryMeans(ts, h, u);
        PairsUnfold(k, v, ParseFlowMapping(ts, u, h, false));
  }

  /** An entry of a flow mapping that is only a key. */
  lemma FlowKeyUnfolds(ts: seq<Lexed>, h: Handles, p: nat, q: nat, first: bool)
    requires Framed(ts) && 0 < p < |ts| && !ts[p].kind.FlowMappingEnd? && SkipEntry(ts, p, first) == Some(q)
    requires !ts[q].kind.FlowMappingEnd? && !ts[q].kind.Key?
    ensures PairsTodo(ParseFlowMapping(ts, p, h, first)) ==
              Chain(ts, h, NodeTodo(ParseNode(ts, q, h, false, false)), FlowMappingEmptyValue)
  {
    hide NodeEvents, PairsEvents, ItemsEvents, ParseOptional, ParseMarked, ParseNode, PairsTodo;
    match ParseNode(ts, q, h, false, false)
    case Error(e) =>
    case Got(k, s) => PairsUnfold(k, EmptyScalar(), ParseFlowMapping(ts, s, h, false));
  }
}
