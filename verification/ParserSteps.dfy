/** What each state of yaml/parser.py does to what is still to be parsed: one event, and then the state, the
    stack and the position it leaves. */
module ParserSteps {
  import opened Options
  import opened Chars
  import opened Continuations
  import opened Events
  import opened Grammar
  import T = TokenNesting

  const EMPTY_EVENT := Scalar(None, None, true, false, [])

  // What one step of the machine does to the meaning of its stack.

  /** An empty scalar in front of the state s. */
  lemma EmptyStep(ts: seq<Lexed>, h: Handles, s: State, stack: seq<State>, p: nat)
    requires Framed(ts) && IsContinuation(s) && 0 < p < |ts| && stack != [] && Stacked(stack)
    ensures NodeTodo(Got(EmptyScalar(), p)) == Got([EMPTY_EVENT], p)
    ensures After(ts, h, Chain(ts, h, Got([EMPTY_EVENT], p), s), stack) ==
              Prepend([EMPTY_EVENT], After(ts, h, Meaning(ts, h, s, p), stack))
  {
    hide Meaning, Denote, After, Chain;
    ChainGot(ts, h, [EMPTY_EVENT], p, s);
    AfterPrepend(ts, h, [EMPTY_EVENT], Meaning(ts, h, s, p), stack);
  }

  lemma ChainGot(ts: seq<Lexed>, h: Handles, v: seq<Event>, p: nat, s: State)
    requires Framed(ts) && IsContinuation(s) && 0 < p < |ts|
    ensures Chain(ts, h, Got(v, p), s) == Prepend(v, Meaning(ts, h, s, p))
  {
    hide Meaning;
  }

  /** The last event of what is parsed in a state: the top of the stack is next. */
  lemma LastStep(ts: seq<Lexed>, h: Handles, e: Event, stack: seq<State>, p: nat)
    requires Framed(ts) && 0 < p < |ts| && stack != [] && Stacked(stack)
    ensures After(ts, h, Got([e], p), stack) == Prepend([e], Denote(ts, h, stack, p))
  {
  }

  /** The start of a collection, whose own state follows. */
  lemma StartStep(ts: seq<Lexed>, h: Handles, e: Event, s: State, stack: seq<State>, p: nat)
    requires Ready(ts, s, p) && !IsDocumentLevel(s) && stack != [] && Stacked(stack)
    ensures After(ts, h, Prepend([e], Meaning(ts, h, s, p)), stack)
            == Prepend([e], After(ts, h, Meaning(ts, h, s, p), stack))
  {
    AfterPrepend(ts, h, [e], Meaning(ts, h, s, p), stack);
  }

  /** An optional node in front of the state s: an empty scalar, or a node with s pushed below it. */
  lemma OptionalStep(ts: seq<Lexed>, h: Handles, p: nat, block: bool, indentless: bool, stops: set<T.Kind>, s: State,
                     stack: seq<State>)
    requires Framed(ts) && 0 < p < |ts| && IsContinuation(s) && stack != [] && Stacked(stack)
    ensures Stacked(stack + [s]) && Marks(stack + [s]) == Marks(stack) + Mark(s)
    ensures
      After(ts, h, Chain(ts, h, NodeTodo(ParseOptional(ts, p, h, block, indentless, stops)), s), stack) ==
        if ts[p].kind in stops then Prepend([EMPTY_EVENT], After(ts, h, Meaning(ts, h, s, p), stack))
        else After(ts, h, NodeTodo(ParseNode(ts, p, h, block, indentless)), stack + [s])
  {
    hide Meaning, Denote, After, Chain, ParseNode;
    EmptyStep(ts, h, s, stack, p);
    ChainAfter(ts, h, NodeTodo(ParseNode(ts, p, h, block, indentless)), s, stack);
    MarksPush(stack, s);
  }

  /** The value behind its indicator, in front of the state s. */
  lemma MarkedStep(ts: seq<Lexed>, h: Handles, p: nat, block: bool, stops: set<T.Kind>, s: State, stack: seq<State>)
    requires Framed(ts) && 0 < p < |ts| && IsContinuation(s) && stack != [] && Stacked(stack)
    ensures Stacked(stack + [s]) && Marks(stack + [s]) == Marks(stack) + Mark(s)
    ensures
      After(ts, h, Chain(ts, h, NodeTodo(ParseMarked(ts, p, h, T.Value, block, stops)), s), stack) ==
        if !ts[p].kind.Value? then Prepend([EMPTY_EVENT], After(ts, h, Meaning(ts, h, s, p), stack))
        else if ts[p + 1].kind in stops then Prepend([EMPTY_EVENT], After(ts, h, Meaning(ts, h, s, p + 1), stack))
        else After(ts, h, NodeTodo(ParseNode(ts, p + 1, h, block, block)), stack + [s])
  {
    hide Meaning, Denote, After, Chain, ParseNode, ParseOptional;
    EmptyStep(ts, h, s, stack, p);
    if ts[p].kind.Value? {
      OptionalStep(ts, h, p + 1, block, block, stops, s, stack);
    } else {
      MarksPush(stack, s);
      ChainAfter(ts, h, NodeTodo(Got(EmptyScalar(), p)), s, stack);
    }
  }

  // Where a node starts a collection.

  /** The state and the event a collection starts with, for the token at q behind its properties. */
  function Opens(ts: seq<Lexed>, q: nat, a: Properties, block: bool, indentless: bool): Option<(Event, State)>
    requires q < |ts|
  {
    var implicit := Implicit(a.tag);
    if indentless && ts[q].kind.BlockEntry? then
      Some((SequenceStart(a.anchor, a.tag, implicit, None), IndentlessSequenceEntry))
    else if ts[q].kind.FlowSequenceStart? then
      Some((SequenceStart(a.anchor, a.tag, implicit, Some(true)), FlowSequenceFirstEntry))
    else if ts[q].kind.FlowMappingStart? then
      Some((MappingStart(a.anchor, a.tag, implicit, Some(true)), FlowMappingFirstKey))
    else if block && ts[q].kind.BlockSequenceStart? then
      Some((SequenceStart(a.anchor, a.tag, implicit, Some(false)), BlockSequenceFirstEntry))
    else if block && ts[q].kind.BlockMappingStart? then
      Some((MappingStart(a.anchor, a.tag, implicit, Some(false)), BlockMappingFirstKey))
    else None
  }

  lemma SequenceUnfolds(a: Properties, flow: Option<bool>, r: Parsed<Nodes>)
    ensures NodeTodo(SequenceOf(a, flow, r))
            == Prepend([SequenceStart(a.anchor, a.tag, Implicit(a.tag), flow)], ItemsTodo(r))
  {
    if r.Got? {
      var start := [SequenceStart(a.anchor, a.tag, Implicit(a.tag), flow)];
      assert start + ItemsEvents(r.value) + [SequenceEnd] == start + (ItemsEvents(r.value) + [SequenceEnd]);
    }
  }

  lemma MappingUnfolds(a: Properties, flow: Option<bool>, r: Parsed<Pairs>)
    ensures NodeTodo(MappingOf(a, flow, r))
            == Prepend([MappingStart(a.anchor, a.tag, Implicit(a.tag), flow)], PairsTodo(r))
  {
    if r.Got? {
      var start := [MappingStart(a.anchor, a.tag, Implicit(a.tag), flow)];
      assert start + PairsEvents(r.value) + [MappingEnd] == start + (PairsEvents(r.value) + [MappingEnd]);
    }
  }

  /** What the first state of a collection means. */
  lemma FirstMeaning(ts: seq<Lexed>, h: Handles, q: nat)
    requires Framed(ts) && 0 < q < |ts|
    ensures Opened(ts, h, IndentlessSequenceEntry, q, ItemsTodo(ParseIndentless(ts, q, h))) || !ts[q].kind.BlockEntry?
    ensures ts[q].kind.FlowSequenceStart? ==>
              q + 1 < |ts| && Opened(ts, h, FlowSequenceFirstEntry, q, ItemsTodo(ParseFlowSequence(ts, q + 1, h, true)))
    ensures ts[q].kind.FlowMappingStart? ==>
              q + 1 < |ts| && Opened(ts, h, FlowMappingFirstKey, q, PairsTodo(ParseFlowMapping(ts, q + 1, h, true)))
    ensures ts[q].kind.BlockSequenceStart? ==>
              q + 1 < |ts| && Opened(ts, h, BlockSequenceFirstEntry, q, ItemsTodo(ParseBlockSequence(ts, q + 1, h)))
    ensures ts[q].kind.BlockMappingStart? ==>
              q + 1 < |ts| && Opened(ts, h, BlockMappingFirstKey, q, PairsTodo(ParseBlockMapping(ts, q + 1, h)))
  {
    hide ParseBlockSequence, ParseIndentless, ParseBlockMapping, ParseFlowSequence, ParseFlowMapping, ItemsTodo,
         PairsTodo;
  }

  predicate Opened(ts: seq<Lexed>, h: Handles, s: State, q: nat, r: Todo) {
    Ready(ts, s, q) && !IsDocumentLevel(s) && Mark(s) == 0 && Meaning(ts, h, s, q) == r
  }

  /** A node that is a collection is its first event and what the collection's state means. */
  lemma NodeOpens(ts: seq<Lexed>, h: Handles, p: nat, block: bool, indentless: bool)
    requires Framed(ts) && 0 < p < |ts| && !ts[p].kind.Alias? && ParseProperties(ts, p, h).Got?
    ensures
      var a := ParseProperties(ts, p, h);
      var o := Opens(ts, a.next, a.value, block, indentless);
      o.Some? ==>
        && Ready(ts, o.value.1, a.next) && !IsDocumentLevel(o.value.1) && Mark(o.value.1) == 0
        && NodeTodo(ParseNode(ts, p, h, block, indentless)) == Prepend([o.value.0], Meaning(ts, h, o.value.1, a.next))
  {
    hide ParseProperties, ParseBlockSequence, ParseIndentless, ParseBlockMapping, ParseFlowSequence, ParseFlowMapping;
    hide NodeTodo, ItemsTodo, PairsTodo, ParseNode, SequenceOf, MappingOf, Implicit, ScalarOf, Ready, Meaning, Mark,
         Prepend;
    NodeCases(ts, h, p, block, indentless);
    var a := ParseProperties(ts, p, h);
    var q := a.next;
    FirstMeaning(ts, h, q);
    if indentless && ts[q].kind.BlockEntry? {
      SequenceUnfolds(a.value, None, ParseIndentless(ts, q, h));
    } else if ts[q].kind.FlowSequenceStart? {
      SequenceUnfolds(a.value, Some(true), ParseFlowSequence(ts, q + 1, h, true));
    } else if ts[q].kind.FlowMappingStart? {
      MappingUnfolds(a.value, Some(true), ParseFlowMapping(ts, q + 1, h, true));
    } else if block && ts[q].kind.BlockSequenceStart? {
      SequenceUnfolds(a.value, Some(false), ParseBlockSequence(ts, q + 1, h));
    } else if block && ts[q].kind.BlockMappingStart? {
      MappingUnfolds(a.value, Some(false), ParseBlockMapping(ts, q + 1, h));
    }
  }

  /** A node that is no collection is one event, or an error. */
  lemma NodeIsOneEvent(ts: seq<Lexed>, h: Handles, p: nat, block: bool, indentless: bool)
    requires Framed(ts) && 0 < p < |ts|
    ensures
      var n := NodeTodo(ParseNode(ts, p, h, block, indentless));
      if ts[p].kind.Alias? then n == Got([Alias(Some(ts[p].text))], p + 1)
      else
        var a := ParseProperties(ts, p, h);
        if a.Error? then n == RAISED
        else if Opens(ts, a.next, a.value, block, indentless).Some? then true
        else if ts[a.next].kind.Scalar? then n == Got(NodeEvents(ScalarOf(a.value, ts[a.next])), a.next + 1)
        else if a.value.anchor.Some? || a.value.tag.Some? then
          n == Got([Scalar(a.value.anchor, a.value.tag, Implicit(a.value.tag), false, [])], a.next)
        else n == RAISED
  {
    hide ParseProperties, ParseBlockSequence, ParseIndentless, ParseBlockMapping, ParseFlowSequence, ParseFlowMapping;
    hide ParseNode, SequenceOf, MappingOf, Implicit, ScalarOf;
    NodeCases(ts, h, p, block, indentless);
  }

  /** An error, with nothing emitted before it. */
  const RAISED: Todo := Error([])

  /** Any node in front of the state s, which is pushed below it. */
  lemma ChainStep(ts: seq<Lexed>, h: Handles, r: Todo, s: State, stack: seq<State>)
    requires Framed(ts) && IsContinuation(s) && (r.Got? ==> 0 < r.next < |ts|) && stack != [] && Stacked(stack)
    ensures Stacked(stack + [s]) && Marks(stack + [s]) == Marks(stack) + Mark(s)
    ensures After(ts, h, Chain(ts, h, r, s), stack) == After(ts, h, r, stack + [s])
  {
    hide Meaning, Denote, After, Chain;
    ChainAfter(ts, h, r, s, stack);
    MarksPush(stack, s);
  }

  /** Where a flow mapping ends, or has no comma in front of an entry. */
  lemma FlowMappingStops(ts: seq<Lexed>, h: Handles, p: nat, first: bool)
    requires Framed(ts) && 0 < p < |ts|
    ensures
      var r := ParseFlowMapping(ts, p, h, first);
      if ts[p].kind.FlowMappingEnd? then r == Got(NoPairs, p + 1)
      else
        var q := SkipEntry(ts, p, first);
        if q.None? then PairsTodo(r) == RAISED else ts[q.value].kind.FlowMappingEnd? ==> r == Got(NoPairs, q.value + 1)
  {
  }

  /** An entry of a flow mapping: its key, then its value or the empty value. */
  lemma FlowMappingStep(ts: seq<Lexed>, h: Handles, p: nat, q: nat, first: bool, stack: seq<State>)
    requires Framed(ts) && 0 < p < |ts| && stack != [] && Stacked(stack)
    requires !ts[p].kind.FlowMappingEnd? && SkipEntry(ts, p, first) == Some(q) && !ts[q].kind.FlowMappingEnd?
    ensures
      var s := if ts[q].kind.Key? then FlowMappingValue else FlowMappingEmptyValue;
      Stacked(stack + [s]) && Marks(stack + [s]) == Marks(stack) + 1
    ensures
      After(ts, h, PairsTodo(ParseFlowMapping(ts, p, h, first)), stack) ==
        if !ts[q].kind.Key? then After(ts, h, NodeTodo(ParseNode(ts, q, h, false, false)),
                                       stack + [FlowMappingEmptyValue])
        else if ts[q + 1].kind in MAPPING_STOPS then
          Prepend([EMPTY_EVENT], After(ts, h, Meaning(ts, h, FlowMappingValue, q + 1), stack))
        else After(ts, h, NodeTodo(ParseNode(ts, q + 1, h, false, false)), stack + [FlowMappingValue])
  {
    hide Meaning, Denote, After, Chain, ParseNode, ParseOptional, ParseFlowMapping, PairsTodo;
    if ts[q].kind.Key? {
      FlowMappingUnfolds(ts, h, p, q, first);
      OptionalStep(ts, h, q + 1, false, false, MAPPING_STOPS, FlowMappingValue, stack);
    } else {
      FlowKeyUnfolds(ts, h, p, q, first);
      ChainStep(ts, h, NodeTodo(ParseNode(ts, q, h, false, false)), FlowMappingEmptyValue, stack);
    }
  }

  /** A document is its start, its content, and what the end of the document means. */
  lemma DocumentUnfolds(ts: seq<Lexed>, h0: Handles, h: Handles, p: nat, explicit: bool)
    requires Framed(ts) && 0 < p < |ts| && (explicit || p == 1)
    ensures
      var s := if explicit then AtDocumentContent else AtBlockNode;
      Ready(ts, s, p) && Stacked([AtDocumentEnd]) &&
      After(ts, h0, DocumentsTodo(ParseDocument(ts, p, h, explicit)), []) ==
        Prepend([DocumentStart(explicit)], After(ts, h, Meaning(ts, h, s, p), [AtDocumentEnd]))
  {
    hide Meaning, Ready, Grammar.ParseNode, ParseOptional, ParseDocument, ParseDocuments, Denote;
    hide ConsDocument, DocumentEvents, DocumentsEvents, DocumentsTodo;
    var node := if explicit then ParseOptional(ts, p, h, true, false, CONTENT_STOPS)
        else ParseNode(ts, p, h, true, false);
    AfterNothing(ts, h0, DocumentsTodo(ParseDocument(ts, p, h, explicit)));
    DocumentCases(ts, h, p, explicit);
    if node.Got? {
      var end := ts[node.next].kind.DocumentEnd?;
      var r := ParseDocuments(ts, if end then node.next + 1 else node.next);
      DocumentEndDenotes(ts, h, node.next);
      DocumentConsUnfolds(Document(explicit, node.value, end), r);
    }
  }

  lemma DocumentCases(ts: seq<Lexed>, h: Handles, p: nat, explicit: bool)
    requires Framed(ts) && 0 < p < |ts| && (explicit || p == 1)
    ensures
      var s := if explicit then AtDocumentContent else AtBlockNode;
      var node := if explicit then ParseOptional(ts, p, h, true, false, CONTENT_STOPS)
          else ParseNode(ts, p, h, true, false);
      && Ready(ts, s, p) && Meaning(ts, h, s, p) == NodeTodo(node)
      && DocumentsTodo(ParseDocument(ts, p, h, explicit)) ==
           match node {
             case Error(e) => Todo.Error([DocumentStart(explicit)] + e)
             case Got(n, q) =>
               var end := ts[q].kind.DocumentEnd?;
               DocumentsTodo(ConsDocument(Document(explicit, n, end), ParseDocuments(ts, if end then q + 1 else q)))
           }
  {
    hide Grammar.ParseNode, ParseOptional, ParseDocuments, DocumentEvents, DocumentsEvents;
  }

  lemma DocumentEndDenotes(ts: seq<Lexed>, h: Handles, p: nat)
    requires Framed(ts) && 0 < p < |ts|
    ensures
      var end := ts[p].kind.DocumentEnd?;
      && (end ==> p + 1 < |ts|)
      && Stacked([AtDocumentEnd])
      && Denote(ts, h, [AtDocumentEnd], p)
         == Prepend([DocumentEnd(end)], DocumentsTodo(ParseDocuments(ts, if end then p + 1 else p)))
  {
    hide ParseDocuments;
    assert [AtDocumentEnd][..0] == [];
    AfterNothing(ts, h, Meaning(ts, h, AtDocumentEnd, p));
  }

  /** What comes at the start of a document, behind any document end indicators. */
  lemma DocumentStartUnfolds(ts: seq<Lexed>, h: Handles, p: nat)
    requires Framed(ts) && 0 < p < |ts|
    ensures
      var q := SkipDocumentEnds(ts, p);
      var d := ParseDirectives(ts, q, false, map[]);
      var before := After(ts, h, Meaning(ts, h, AtDocumentStart, p), []);
      if ts[q].kind.StreamEnd? then q + 1 == |ts| && before == Got([StreamEnd], q + 1)
      else if d.None? || !ts[d.value.1].kind.DocumentStart? then before == RAISED
      else
        var (g, s) := d.value;
        Ready(ts, AtDocumentContent, s + 1) && Stacked([AtDocumentEnd]) &&
        before == Prepend([DocumentStart(true)],
                          After(ts, g, Meaning(ts, g, AtDocumentContent, s + 1), [AtDocumentEnd]))
  {
    hide ParseDocument, ParseDirectives;
    var q := SkipDocumentEnds(ts, p);
    var d := ParseDirectives(ts, q, false, map[]);
    AfterNothing(ts, h, DocumentsTodo(ParseDocuments(ts, p)));
    if ts[q].kind.StreamEnd? {
      assert DocumentsEvents([]) + [StreamEnd] == [StreamEnd];
    } else if d.Some? && ts[d.value.1].kind.DocumentStart? {
      DocumentUnfolds(ts, h, d.value.0, d.value.1 + 1, true);
    }
  }

  lemma AfterNothing(ts: seq<Lexed>, h: Handles, r: Todo)
    requires Framed(ts) && (r.Got? ==> r.next == |ts|)
    ensures After(ts, h, r, []) == r
  {
    if r.Got? { assert r.value + [] == r.value; }
  }

  function ConsDocument(d: Document, r: Parsed<seq<Document>>): Parsed<seq<Document>> {
    match r
    case Error(e) => Error(DocumentEvents(d) + e)
    case Got(docs, q) => Got([d] + docs, q)
  }

  lemma DocumentConsUnfolds(d: Document, r: Parsed<seq<Document>>)
    ensures DocumentsTodo(ConsDocument(d, r)) ==
              Prepend([DocumentStart(d.explicitStart)],
                      Prepend(NodeEvents(d.root), Prepend([DocumentEnd(d.explicitEnd)], DocumentsTodo(r))))
  {
    var head, content, last := [DocumentStart(d.explicitStart)], NodeEvents(d.root), [DocumentEnd(d.explicitEnd)];
    PrependPrepend(content, last, DocumentsTodo(r));
    PrependPrepend(head, content + last, DocumentsTodo(r));
    assert head + (content + last) == DocumentEvents(d);
    if r.Got? {
      assert ([d] + r.value)[1..] == r.value;
      assert DocumentEvents(d) + (DocumentsEvents(r.value) + [StreamEnd])
             == DocumentEvents(d) + DocumentsEvents(r.value) + [StreamEnd];
    }
  }

  // A step of the machine, as its methods see it.

  /** The machine in the state s, with a stack and a number of marks. */
  ghost predicate Standing(ts: seq<Lexed>, s: State, p: nat, stack: seq<State>, marks: nat) {
    && Ready(ts, s, p) && Stacked(stack) && (IsDocumentLevel(s) <==> stack == [])
    && marks == Marks(stack) + Mark(s)
  }

  /** What is still to come, by the grammar. */
  ghost function PendingOf(ts: seq<Lexed>, h: Handles, s: State, p: nat, stack: seq<State>, marks: nat): Todo
    requires Standing(ts, s, p, stack, marks)
  {
    After(ts, h, Meaning(ts, h, s, p), stack)
  }

  /** What was to come is the event e, and then what the machine has in the state s. */
  ghost predicate Moves(ts: seq<Lexed>, h: Handles, before: Todo, e: Event, s: State, p: nat, stack: seq<State>,
                        marks: nat) {
    Standing(ts, s, p, stack, marks) && before == Prepend([e], PendingOf(ts, h, s, p, stack, marks))
  }

  /** The same, with the state popped from the stack. */
  ghost predicate Pops(ts: seq<Lexed>, h: Handles, before: Todo, e: Event, p: nat, stack: seq<State>, marks: nat) {
    stack != [] && Moves(ts, h, before, e, stack[|stack| - 1], p, stack[..|stack| - 1], marks)
  }

  /** A node is next, and then what is on the stack. */
  ghost predicate Awaits(ts: seq<Lexed>, p: nat, stack: seq<State>, marks: nat) {
    Framed(ts) && 0 < p < |ts| && Stacked(stack) && stack != [] && marks == Marks(stack)
  }

  ghost function NodePending(ts: seq<Lexed>, h: Handles, p: nat, block: bool, indentless: bool, stack: seq<State>,
                             marks: nat)
    : Todo
    requires Awaits(ts, p, stack, marks)
  {
    After(ts, h, NodeTodo(ParseNode(ts, p, h, block, indentless)), stack)
  }

  lemma LastMoves(ts: seq<Lexed>, h: Handles, before: Todo, e: Event, p: nat, stack: seq<State>, marks: nat)
    requires Awaits(ts, p, stack, marks) && before == After(ts, h, Got([e], p), stack)
    ensures Pops(ts, h, before, e, p, stack, marks)
  {
    hide Meaning;
    LastStep(ts, h, e, stack, p);
  }

  /** The step to a state of a collection: an empty scalar, or a node with the state pushed below it. */
  lemma OptionalMoves(ts: seq<Lexed>, h: Handles, p: nat, block: bool, indentless: bool, stops: set<T.Kind>, s: State,
                      stack: seq<State>, marks: nat)
    requires marks >= Mark(s) && Awaits(ts, p, stack, marks - Mark(s)) && IsContinuation(s)
    ensures
      var before := After(ts, h, Chain(ts, h, NodeTodo(ParseOptional(ts, p, h, block, indentless, stops)), s), stack);
      if ts[p].kind in stops then Moves(ts, h, before, EMPTY_EVENT, s, p, stack, marks)
      else Awaits(ts, p, stack + [s], marks) && before == NodePending(ts, h, p, block, indentless, stack + [s], marks)
  {
    hide Meaning, Denote, After, Chain, ParseNode, ParseOptional, NodeTodo;
    OptionalStep(ts, h, p, block, indentless, stops, s, stack);
  }

  lemma MarkedMoves(ts: seq<Lexed>, h: Handles, p: nat, block: bool, stops: set<T.Kind>, s: State, stack: seq<State>,
                    marks: nat)
    requires marks >= Mark(s) && Awaits(ts, p, stack, marks - Mark(s)) && IsContinuation(s)
    ensures
      var before := After(ts, h, Chain(ts, h, NodeTodo(ParseMarked(ts, p, h, T.Value, block, stops)), s), stack);
      if !ts[p].kind.Value? then Moves(ts, h, before, EMPTY_EVENT, s, p, stack, marks)
      else if ts[p + 1].kind in stops then Moves(ts, h, before, EMPTY_EVENT, s, p + 1, stack, marks)
      else
        Awaits(ts, p + 1, stack + [s], marks)
        && before == NodePending(ts, h, p + 1, block, block, stack + [s], marks)
  {
    hide Meaning, Denote, After, Chain, ParseNode, ParseMarked, NodeTodo;
    MarkedStep(ts, h, p, block, stops, s, stack);
  }

  // The steps of the states.

  lemma StandingBounds(ts: seq<Lexed>, s: State, p: nat, stack: seq<State>, marks: nat)
    requires Standing(ts, s, p, stack, marks)
    ensures Framed(ts) && p < |ts| && (!ts[p].kind.StreamEnd? ==> p + 1 < |ts|)
    ensures !IsDocumentLevel(s) ==> marks >= Mark(s) && Awaits(ts, p, stack, marks - Mark(s))
  {
  }

  const SEQUENCE_ENTRY_STOPS := {T.BlockEntry, T.BlockEnd}
  const INDENTLESS_STOPS := {T.BlockEntry, T.Key, T.Value, T.BlockEnd}

  lemma BlockSequenceMoves(ts: seq<Lexed>, h: Handles, p: nat, stack: seq<State>, marks: nat)
    requires Standing(ts, BlockSequenceEntry, p, stack, marks)
    ensures
      var before := PendingOf(ts, h, BlockSequenceEntry, p, stack, marks);
      && p < |ts| && marks > 0
      && if ts[p].kind.BlockEntry? then
           && p + 1 < |ts|
           && if ts[p + 1].kind in SEQUENCE_ENTRY_STOPS then
                Moves(ts, h, before, EMPTY_EVENT, BlockSequenceEntry, p + 1, stack, marks)
              else
                && Awaits(ts, p + 1, stack + [BlockSequenceEntry], marks)
                && before == NodePending(ts, h, p + 1, true, false, stack + [BlockSequenceEntry], marks)
         else if ts[p].kind.BlockEnd? then Pops(ts, h, before, SequenceEnd, p + 1, stack, marks - 1)
         else before == RAISED
  {
    hide ParseOptional, Denote, Chain, Marks, Moves, Pops;
    StandingBounds(ts, BlockSequenceEntry, p, stack, marks);
    if ts[p].kind.BlockEntry? {
      hide Meaning, After;
      BlockSequenceUnfolds(ts, h, p);
      OptionalMoves(ts, h, p + 1, true, false, SEQUENCE_ENTRY_STOPS, BlockSequenceEntry, stack, marks);
    } else if ts[p].kind.BlockEnd? {
      hide After;
      assert [] + [SequenceEnd] == [SequenceEnd];
      LastMoves(ts, h, PendingOf(ts, h, BlockSequenceEntry, p, stack, marks), SequenceEnd, p + 1, stack, marks - 1);
    }
  }

  lemma IndentlessMoves(ts: seq<Lexed>, h: Handles, p: nat, stack: seq<State>, marks: nat)
    requires Standing(ts, IndentlessSequenceEntry, p, stack, marks)
    ensures
      var before := PendingOf(ts, h, IndentlessSequenceEntry, p, stack, marks);
      && p < |ts|
      && if ts[p].kind.BlockEntry? then
           && p + 1 < |ts|
           && if ts[p + 1].kind in INDENTLESS_STOPS then
                Moves(ts, h, before, EMPTY_EVENT, IndentlessSequenceEntry, p + 1, stack, marks)
              else
                && Awaits(ts, p + 1, stack + [IndentlessSequenceEntry], marks)
                && before == NodePending(ts, h, p + 1, true, false, stack + [IndentlessSequenceEntry], marks)
         else Pops(ts, h, before, SequenceEnd, p, stack, marks)
  {
    hide ParseOptional, Denote, Chain, Marks, Moves, Pops;
    StandingBounds(ts, IndentlessSequenceEntry, p, stack, marks);
    if ts[p].kind.BlockEntry? {
      hide Meaning, After;
      IndentlessUnfolds(ts, h, p);
      OptionalMoves(ts, h, p + 1, true, false, INDENTLESS_STOPS, IndentlessSequenceEntry, stack, marks);
    } else {
      hide After;
      assert [] + [SequenceEnd] == [SequenceEnd];
      LastMoves(ts, h, PendingOf(ts, h, IndentlessSequenceEntry, p, stack, marks), SequenceEnd, p, stack, marks);
    }
  }

  lemma BlockMappingMoves(ts: seq<Lexed>, h: Handles, p: nat, stack: seq<State>, marks: nat)
    requires Standing(ts, BlockMappingKey, p, stack, marks)
    ensures
      var before := PendingOf(ts, h, BlockMappingKey, p, stack, marks);
      && p < |ts| && marks > 0
      && if ts[p].kind.Key? then
           && p + 1 < |ts|
           && if ts[p + 1].kind in BLOCK_STOPS
              then Moves(ts, h, before, EMPTY_EVENT, BlockMappingValue, p + 1, stack, marks)
              else
                && Awaits(ts, p + 1, stack + [BlockMappingValue], marks)
                && before == NodePending(ts, h, p + 1, true, true, stack + [BlockMappingValue], marks)
         else if ts[p].kind.BlockEnd? then Pops(ts, h, before, MappingEnd, p + 1, stack, marks - 1)
         else before == RAISED
  {
    hide ParseOptional, Denote, Chain, Marks, Moves, Pops;
    StandingBounds(ts, BlockMappingKey, p, stack, marks);
    if ts[p].kind.Key? {
      hide Meaning, After;
      BlockMappingUnfolds(ts, h, p);
      OptionalMoves(ts, h, p + 1, true, true, BLOCK_STOPS, BlockMappingValue, stack, marks);
    } else if ts[p].kind.BlockEnd? {
      hide After;
      assert [] + [MappingEnd] == [MappingEnd];
      LastMoves(ts, h, PendingOf(ts, h, BlockMappingKey, p, stack, marks), MappingEnd, p + 1, stack, marks - 1);
    }
  }

  /** The states that wait for a value: its indicator, the tokens that stop it, and the state behind it. */
  function ValueStops(s: State): (set<T.Kind>, bool, State)
    requires s == BlockMappingValue || s == FlowSequenceMappingValue || s == FlowMappingValue
  {
    if s == BlockMappingValue then (BLOCK_STOPS, true, BlockMappingKey)
    else if s == FlowSequenceMappingValue then (SEQUENCE_VALUE_STOPS, false, FlowSequenceMappingEnd)
    else (MAPPING_VALUE_STOPS, false, FlowMappingKey)
  }

  lemma ValueMoves(ts: seq<Lexed>, h: Handles, s: State, p: nat, stack: seq<State>, marks: nat)
    requires s == BlockMappingValue || s == FlowSequenceMappingValue || s == FlowMappingValue
    requires Standing(ts, s, p, stack, marks)
    ensures
      var before := PendingOf(ts, h, s, p, stack, marks);
      var (stops, block, next) := ValueStops(s);
      && p < |ts|
      && if !ts[p].kind.Value? then Moves(ts, h, before, EMPTY_EVENT, next, p, stack, marks)
         else
           && p + 1 < |ts|
           && if ts[p + 1].kind in stops then Moves(ts, h, before, EMPTY_EVENT, next, p + 1, stack, marks)
              else
                && Awaits(ts, p + 1, stack + [next], marks)
                && before == NodePending(ts, h, p + 1, block, block, stack + [next], marks)
  {
    hide ParseMarked, Denote, After, Chain, Marks, Awaits;
    StandingBounds(ts, s, p, stack, marks);
    var (stops, block, next) := ValueStops(s);
    MarkedMoves(ts, h, p, block, stops, next, stack, marks);
  }

  lemma SinglePairKeyMoves(ts: seq<Lexed>, h: Handles, p: nat, stack: seq<State>, marks: nat)
    requires Standing(ts, FlowSequenceMappingKey, p, stack, marks)
    ensures
      var before := PendingOf(ts, h, FlowSequenceMappingKey, p, stack, marks);
      && p + 1 < |ts|
      && if ts[p + 1].kind in SEQUENCE_STOPS then
           Moves(ts, h, before, EMPTY_EVENT, FlowSequenceMappingValue, p + 1, stack, marks)
         else
           && Awaits(ts, p + 1, stack + [FlowSequenceMappingValue], marks)
           && before == NodePending(ts, h, p + 1, false, false, stack + [FlowSequenceMappingValue], marks)
  {
    hide ParseOptional, Denote, After, Chain, Marks;
    StandingBounds(ts, FlowSequenceMappingKey, p, stack, marks);
    OptionalMoves(ts, h, p + 1, false, false, SEQUENCE_STOPS, FlowSequenceMappingValue, stack, marks);
  }

  /** An event that takes the machine to the state s without a token. */
  lemma PassMoves(ts: seq<Lexed>, h: Handles, before: Todo, e: Event, s: State, p: nat, stack: seq<State>, marks: nat)
    requires Standing(ts, s, p, stack, marks) && !IsDocumentLevel(s)
    requires before == After(ts, h, Prepend([e], Meaning(ts, h, s, p)), stack)
    ensures Moves(ts, h, before, e, s, p, stack, marks)
  {
    hide Meaning, After;
    StartStep(ts, h, e, s, stack, p);
  }

  lemma PassingMoves(ts: seq<Lexed>, h: Handles, p: nat, stack: seq<State>, marks: nat)
    ensures Standing(ts, FlowSequenceMappingEnd, p, stack, marks) ==>
              Moves(ts, h, PendingOf(ts, h, FlowSequenceMappingEnd, p, stack, marks), MappingEnd, FlowSequenceEntry, p,
                    stack, marks)
    ensures Standing(ts, FlowMappingEmptyValue, p, stack, marks) ==>
              Moves(ts, h, PendingOf(ts, h, FlowMappingEmptyValue, p, stack, marks), EMPTY_EVENT, FlowMappingKey, p,
                    stack, marks)
  {
    hide ParseFlowSequence, ParseFlowMapping, After, Denote, Marks;
    if Standing(ts, FlowSequenceMappingEnd, p, stack, marks) {
      PassMoves(ts, h, PendingOf(ts, h, FlowSequenceMappingEnd, p, stack, marks), MappingEnd, FlowSequenceEntry, p,
                stack, marks);
    }
    if Standing(ts, FlowMappingEmptyValue, p, stack, marks) {
      PassMoves(ts, h, PendingOf(ts, h, FlowMappingEmptyValue, p, stack, marks), EMPTY_EVENT, FlowMappingKey, p, stack,
                marks);
    }
  }

  // Flow collections, which begin without a comma.

  ghost function FlowSequencePending(ts: seq<Lexed>, h: Handles, p: nat, first: bool, stack: seq<State>,
                                     marks: nat): Todo
    requires Standing(ts, FlowSequenceEntry, p, stack, marks)
  {
    After(ts, h, ItemsTodo(ParseFlowSequence(ts, p, h, first)), stack)
  }

  ghost function FlowMappingPending(ts: seq<Lexed>, h: Handles, p: nat, first: bool, stack: seq<State>,
                                    marks: nat): Todo
    requires Standing(ts, FlowMappingKey, p, stack, marks)
  {
    After(ts, h, PairsTodo(ParseFlowMapping(ts, p, h, first)), stack)
  }

  /** The first state of a collection is its other one behind the opening token, with a mark. */
  lemma FirstBlockMoves(ts: seq<Lexed>, h: Handles, s: State, p: nat, stack: seq<State>, marks: nat)
    requires Standing(ts, s, p, stack, marks) && (s == BlockSequenceFirstEntry || s == BlockMappingFirstKey)
    ensures
      var next := if s == BlockSequenceFirstEntry then BlockSequenceEntry else BlockMappingKey;
      && Standing(ts, next, p + 1, stack, marks + 1)
      && PendingOf(ts, h, s, p, stack, marks) == PendingOf(ts, h, next, p + 1, stack, marks + 1)
  {
    hide ParseBlockSequence, ParseBlockMapping, After, Denote, Marks;
  }

  lemma FirstFlowMoves(ts: seq<Lexed>, h: Handles, s: State, p: nat, stack: seq<State>, marks: nat)
    requires Standing(ts, s, p, stack, marks)
    ensures
      var before := PendingOf(ts, h, s, p, stack, marks);
      && (s == FlowSequenceFirstEntry ==>
            Standing(ts, FlowSequenceEntry, p + 1, stack, marks + 1)
            && before == FlowSequencePending(ts, h, p + 1, true, stack, marks + 1))
      && (s == FlowMappingFirstKey ==>
            Standing(ts, FlowMappingKey, p + 1, stack, marks + 1)
            && before == FlowMappingPending(ts, h, p + 1, true, stack, marks + 1))
  {
    hide ParseFlowSequence, ParseFlowMapping, After, Denote, Marks;
  }

  lemma FlowSequenceMoves(ts: seq<Lexed>, h: Handles, p: nat, first: bool, stack: seq<State>, marks: nat)
    requires Standing(ts, FlowSequenceEntry, p, stack, marks)
    ensures
      var before := FlowSequencePending(ts, h, p, first, stack, marks);
      && p < |ts| && marks > 0
      && if ts[p].kind.FlowSequenceEnd? then Pops(ts, h, before, SequenceEnd, p + 1, stack, marks - 1)
         else if !first && !ts[p].kind.FlowEntry? then before == RAISED
         else
           var q := if first then p else p + 1;
           && q < |ts|
           && if ts[q].kind.Key? then
                Moves(ts, h, before, MappingStart(None, None, true, Some(true)), FlowSequenceMappingKey, q, stack,
                      marks)
              else if ts[q].kind.FlowSequenceEnd? then Pops(ts, h, before, SequenceEnd, q + 1, stack, marks - 1)
              else
                && Awaits(ts, q, stack + [FlowSequenceEntry], marks)
                && before == NodePending(ts, h, q, false, false, stack + [FlowSequenceEntry], marks)
  {
    hide ParseFlowSequence, ParseSinglePair, Meaning, Denote, Chain, Marks, ParseNode, Moves, Pops, NodeTodo;
    StandingBounds(ts, FlowSequenceEntry, p, stack, marks);
    FlowSequenceStops(ts, h, p, first);
    assert [] + [SequenceEnd] == [SequenceEnd];
    var before := FlowSequencePending(ts, h, p, first, stack, marks);
    if ts[p].kind.FlowSequenceEnd? {
      LastMoves(ts, h, before, SequenceEnd, p + 1, stack, marks - 1);
    } else if first || ts[p].kind.FlowEntry? {
      hide After;
      var q := if first then p else p + 1;
      if ts[q].kind.Key? {
        SinglePairUnfolds(ts, h, p, q, first);
        PassMoves(ts, h, before, MappingStart(None, None, true, Some(true)), FlowSequenceMappingKey, q, stack, marks);
      } else if ts[q].kind.FlowSequenceEnd? {
        LastMoves(ts, h, before, SequenceEnd, q + 1, stack, marks - 1);
      } else {
        FlowSequenceUnfolds(ts, h, p, q, first);
        ChainStep(ts, h, NodeTodo(ParseNode(ts, q, h, false, false)), FlowSequenceEntry, stack);
      }
    }
  }

  lemma FlowMappingMoves(ts: seq<Lexed>, h: Handles, p: nat, first: bool, stack: seq<State>, marks: nat)
    requires Standing(ts, FlowMappingKey, p, stack, marks)
    ensures
      var before := FlowMappingPending(ts, h, p, first, stack, marks);
      && p < |ts| && marks > 0
      && if ts[p].kind.FlowMappingEnd? then Pops(ts, h, before, MappingEnd, p + 1, stack, marks - 1)
         else if !first && !ts[p].kind.FlowEntry? then before == RAISED
         else
           var q := if first then p else p + 1;
           && q < |ts|
           && if ts[q].kind.Key? then
                && q + 1 < |ts|
                && if ts[q + 1].kind in MAPPING_STOPS then
                     Moves(ts, h, before, EMPTY_EVENT, FlowMappingValue, q + 1, stack, marks)
                   else
                     && Awaits(ts, q + 1, stack + [FlowMappingValue], marks)
                     && before == NodePending(ts, h, q + 1, false, false, stack + [FlowMappingValue], marks)
              else if ts[q].kind.FlowMappingEnd? then Pops(ts, h, before, MappingEnd, q + 1, stack, marks - 1)
              else
                && Awaits(ts, q, stack + [FlowMappingEmptyValue], marks)
                && before == NodePending(ts, h, q, false, false, stack + [FlowMappingEmptyValue], marks)
  {
    hide ParseFlowMapping, Meaning, Denote, Chain, Marks, ParseNode, Pops, NodeTodo, Prepend;
    StandingBounds(ts, FlowMappingKey, p, stack, marks);
    FlowMappingStops(ts, h, p, first);
    assert [] + [MappingEnd] == [MappingEnd];
    var before := FlowMappingPending(ts, h, p, first, stack, marks);
    if ts[p].kind.FlowMappingEnd? {
      LastMoves(ts, h, before, MappingEnd, p + 1, stack, marks - 1);
    } else if first || ts[p].kind.FlowEntry? {
      hide After;
      var q := if first then p else p + 1;
      if ts[q].kind.FlowMappingEnd? {
        LastMoves(ts, h, before, MappingEnd, q + 1, stack, marks - 1);
      } else {
        FlowMappingStep(ts, h, p, q, first, stack);
      }
    }
  }

  /** Where a flow sequence ends, or has no comma in front of an entry. */
  lemma FlowSequenceStops(ts: seq<Lexed>, h: Handles, p: nat, first: bool)
    requires Framed(ts) && 0 < p < |ts|
    ensures
      var r := ParseFlowSequence(ts, p, h, first);
      if ts[p].kind.FlowSequenceEnd? then r == Got(NoNodes, p + 1)
      else
        var q := SkipEntry(ts, p, first);
        if q.None? then ItemsTodo(r) == RAISED else ts[q.value].kind.FlowSequenceEnd? ==> r == Got(NoNodes, q.value + 1)
  {
    hide ParseNode, ParseSinglePair;
  }

  // Nodes and documents.

  function ScalarEvent(anchor: Anchor, tag: Option<Text>, t: Lexed): Event {
    var resolves := (t.plain && tag.None?) || tag == Some(Str("!"));
    Scalar(anchor, tag, resolves, !resolves && tag.None?, t.text)
  }

  lemma ScalarIsOneEvent(a: Properties, t: Lexed)
    ensures NodeEvents(ScalarOf(a, t)) == [ScalarEvent(a.anchor, a.tag, t)]
  {
  }

  /** parse_node */
  lemma NodeMoves(ts: seq<Lexed>, h: Handles, p: nat, block: bool, indentless: bool, stack: seq<State>, marks: nat)
    requires Awaits(ts, p, stack, marks)
    ensures
      var before := NodePending(ts, h, p, block, indentless, stack, marks);
      && p < |ts|
      && if ts[p].kind.Alias? then Pops(ts, h, before, Alias(Some(ts[p].text)), p + 1, stack, marks)
         else
           var a := ParseProperties(ts, p, h);
           if a.Error? then before == RAISED
           else
             var o := Opens(ts, a.next, a.value, block, indentless);
             if o.Some? then Moves(ts, h, before, o.value.0, o.value.1, a.next, stack, marks)
             else if ts[a.next].kind.Scalar? then
               Pops(ts, h, before, ScalarEvent(a.value.anchor, a.value.tag, ts[a.next]), a.next + 1, stack, marks)
             else if a.value.anchor.Some? || a.value.tag.Some? then
               Pops(ts, h, before, Scalar(a.value.anchor, a.value.tag, Implicit(a.value.tag), false, []), a.next, stack,
                    marks)
             else before == RAISED
  {
    hide ParseNode, ParseProperties, Meaning, Denote, NodeTodo, Marks, Moves, Pops, ScalarOf, ScalarEvent, Implicit;
    NodeIsOneEvent(ts, h, p, block, indentless);
    var before := NodePending(ts, h, p, block, indentless, stack, marks);
    if ts[p].kind.Alias? {
      LastMoves(ts, h, before, Alias(Some(ts[p].text)), p + 1, stack, marks);
    } else if ParseProperties(ts, p, h).Got? {
      var a := ParseProperties(ts, p, h);
      var o := Opens(ts, a.next, a.value, block, indentless);
      NodeOpens(ts, h, p, block, indentless);
      hide After, Opens;
      if o.Some? {
        PassMoves(ts, h, before, o.value.0, o.value.1, a.next, stack, marks);
      } else if ts[a.next].kind.Scalar? {
        ScalarIsOneEvent(a.value, ts[a.next]);
        LastMoves(ts, h, before, ScalarEvent(a.value.anchor, a.value.tag, ts[a.next]), a.next + 1, stack, marks);
      } else if a.value.anchor.Some? || a.value.tag.Some? {
        LastMoves(ts, h, before, Scalar(a.value.anchor, a.value.tag, Implicit(a.value.tag), false, []), a.next, stack,
                  marks);
      }
    }
  }

  lemma ContentMoves(ts: seq<Lexed>, h: Handles, p: nat, stack: seq<State>, marks: nat)
    requires Standing(ts, AtDocumentContent, p, stack, marks)
    ensures
      var before := PendingOf(ts, h, AtDocumentContent, p, stack, marks);
      && p < |ts|
      && if ts[p].kind in CONTENT_STOPS then Pops(ts, h, before, EMPTY_EVENT, p, stack, marks)
         else Awaits(ts, p, stack, marks) && before == NodePending(ts, h, p, true, false, stack, marks)
  {
    hide ParseNode, Denote, After, Marks;
    StandingBounds(ts, AtDocumentContent, p, stack, marks);
    if ts[p].kind in CONTENT_STOPS {
      LastMoves(ts, h, PendingOf(ts, h, AtDocumentContent, p, stack, marks), EMPTY_EVENT, p, stack, marks);
    }
  }

  lemma BlockNodeMoves(ts: seq<Lexed>, h: Handles, p: nat, stack: seq<State>, marks: nat)
    requires Standing(ts, AtBlockNode, p, stack, marks)
    ensures Awaits(ts, p, stack, marks)
    ensures PendingOf(ts, h, AtBlockNode, p, stack, marks) == NodePending(ts, h, p, true, false, stack, marks)
  {
    hide ParseNode, Denote, After, Marks;
  }

  /** The states of the document level. */
  lemma StreamStartMoves(ts: seq<Lexed>, h: Handles, marks: nat)
    requires Standing(ts, AtStreamStart, 0, [], marks)
    ensures Moves(ts, h, PendingOf(ts, h, AtStreamStart, 0, [], marks), StreamStart, AtImplicitDocumentStart, 1, [],
                  marks)
  {
    hide ParseStream;
    AfterPrepend(ts, h, [StreamStart], DocumentsTodo(ParseStream(ts)), []);
  }

  lemma ImplicitMoves(ts: seq<Lexed>, h: Handles, p: nat, marks: nat)
    requires Standing(ts, AtImplicitDocumentStart, p, [], marks)
    ensures
      var before := PendingOf(ts, h, AtImplicitDocumentStart, p, [], marks);
      && p < |ts|
      && if ts[p].kind in {T.Directive, T.DocumentStart, T.StreamEnd} then
           Standing(ts, AtDocumentStart, p, [], marks) && before == PendingOf(ts, h, AtDocumentStart, p, [], marks)
         else Moves(ts, DEFAULT_TAGS, before, DocumentStart(false), AtBlockNode, p, [AtDocumentEnd], marks)
  {
    hide ParseNode, ParseDocuments, ParseDocument;
    if ts[p].kind !in {T.Directive, T.DocumentStart, T.StreamEnd} {
      DocumentUnfolds(ts, h, DEFAULT_TAGS, p, false);
      MarksOfDocument();
    }
  }

  lemma MarksOfDocument()
    ensures Marks([AtDocumentEnd]) == 0 && Marks([]) == 0
  {
    assert [AtDocumentEnd][..0] == [];
  }

  lemma DocumentStartMoves(ts: seq<Lexed>, h: Handles, p: nat, marks: nat)
    requires Standing(ts, AtDocumentStart, p, [], marks)
    ensures
      var before := PendingOf(ts, h, AtDocumentStart, p, [], marks);
      && Framed(ts) && 0 < p < |ts| && marks == 0
      && var q := SkipDocumentEnds(ts, p);
         var d := ParseDirectives(ts, q, false, map[]);
         if ts[q].kind.StreamEnd? then q + 1 == |ts| && before == Prepend([StreamEnd], Got([], q + 1))
         else if d.None? || !ts[d.value.1].kind.DocumentStart? then before == RAISED
         else Moves(ts, d.value.0, before, DocumentStart(true), AtDocumentContent, d.value.1 + 1, [AtDocumentEnd],
                    marks)
  {
    hide ParseDocuments, ParseDirectives, Meaning, Denote, After, SkipDocumentEnds;
    MarksOfDocument();
    DocumentStartUnfolds(ts, h, p);
    assert [StreamEnd] + [] == [StreamEnd];
  }

  lemma DocumentEndMoves(ts: seq<Lexed>, h: Handles, p: nat, marks: nat)
    requires Standing(ts, AtDocumentEnd, p, [], marks)
    ensures
      var before := PendingOf(ts, h, AtDocumentEnd, p, [], marks);
      && p < |ts|
      && var end := ts[p].kind.DocumentEnd?;
         Moves(ts, h, before, DocumentEnd(end), AtDocumentStart, if end then p + 1 else p, [], marks)
  {
    hide ParseDocuments, Denote;
    StandingBounds(ts, AtDocumentEnd, p, [], marks);
    var end := ts[p].kind.DocumentEnd?;
    AfterPrepend(ts, h, [DocumentEnd(end)], DocumentsTodo(ParseDocuments(ts, if end then p + 1 else p)), []);
  }

  lemma StandingAtStart(ts: seq<Lexed>, p: nat, stack: seq<State>, marks: nat)
    requires Standing(ts, AtStreamStart, p, stack, marks)
    ensures p == 0 && stack == [] && Framed(ts)
  {
  }

  lemma StandingAtLevel(ts: seq<Lexed>, s: State, p: nat, stack: seq<State>, marks: nat)
    requires Standing(ts, s, p, stack, marks) && IsDocumentLevel(s)
    ensures stack == [] && Framed(ts) && p < |ts| && marks == 0 && (s != AtStreamStart ==> 0 < p)
  {
  }

  lemma AwaitsBounds(ts: seq<Lexed>, p: nat, stack: seq<State>, marks: nat)
    requires Awaits(ts, p, stack, marks)
    ensures Framed(ts) && 0 < p < |ts| && stack != []
  {
  }
}
