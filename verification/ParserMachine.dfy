/** The parser of yaml/parser.py: a state machine with an explicit stack of states, which agrees event by
    event with the recursive-descent grammar. */
module ParserMachine {
  import opened Options
  import opened Chars
  import opened Continuations
  import opened Events
  import opened Grammar
  import opened GrammarBounds
  import opened ParserSteps
  import S = SyntaxTrees
  import TreesFound
  import TreesParse
  import T = TokenNesting

  class Parser {
    const tokens: seq<Lexed>
    /** The tokens got so far. */
    var taken: nat
    var state: Option<State>
    var states: seq<State>
    /** Positions of the tokens that opened the collections being parsed. */
    var marks: seq<nat>
    var tagHandles: Handles
    var yamlVersion: Option<int>
    var currentEvent: Option<Event>

    /** The machine in the state s. */
    ghost predicate In(s: State)
      reads this
    {
      Standing(tokens, s, taken, states, |marks|)
    }

    ghost predicate Valid()
      reads this
    {
      match state
      case Some(s) => In(s)
      case None => states == [] && marks == [] && taken == |tokens|
    }

    /** What is still to come, by the grammar, with the machine in the state s. */
    ghost function Pending(s: State): Todo
      requires In(s)
      reads this
    {
      PendingOf(tokens, tagHandles, s, taken, states, |marks|)
    }

    ghost function Left(): Todo
      requires Valid()
      reads this
    {
      match state
      case Some(s) => Pending(s)
      case None => Got([], taken)
    }

    /** A step that had `before` to do: its event comes first, or the error does. */
    ghost predicate Emits(r: Option<Event>, before: Todo)
      reads this
    {
      match r
      case Some(e) => Valid() && before == Prepend([e], Left())
      case None => before == RAISED
    }

    constructor (ts: seq<Lexed>)
      requires Framed(ts)
      ensures tokens == ts && Valid() && currentEvent == None
      ensures Left() == Prepend([StreamStart], DocumentsTodo(ParseStream(ts)))
    {
      tokens, taken := ts, 0;
      state, states, marks := Some(AtStreamStart), [], [];
      tagHandles, yamlVersion, currentEvent := map[], None, None;
      new;
      hide ParseStream;
      var r := DocumentsTodo(ParseStream(ts));
      if r.Got? {
        assert [StreamStart] + r.value + [] == [StreamStart] + r.value;
      }
    }

    /** self.state = self.states.pop(), behind the event e of what was to come. */
    method Pop(ghost before: Todo, ghost e: Event)
      requires Pops(tokens, tagHandles, before, e, taken, states, |marks|)
      modifies this`state, this`states
      ensures Emits(Some(e), before)
    {
      hide Standing, PendingOf;
      state, states := Some(states[|states| - 1]), states[..|states| - 1];
    }

    /** self.state is assigned, behind the event e of what was to come. */
    method Enter(s: State, ghost before: Todo, ghost e: Event)
      requires Moves(tokens, tagHandles, before, e, s, taken, states, |marks|)
      modifies this`state
      ensures Emits(Some(e), before)
    {
      hide Standing, PendingOf;
      state := Some(s);
    }

    method ParseStreamStart() returns (r: Option<Event>)
      requires In(AtStreamStart)
      modifies this`taken, this`state
      ensures Emits(r, old(Pending(AtStreamStart)))
    {
      hide Standing, Awaits, PendingOf, NodePending;
      StandingAtStart(tokens, taken, states, |marks|);
      StreamStartMoves(tokens, tagHandles, |marks|);
      taken := taken + 1;
      r := Some(StreamStart);
      state := Some(AtImplicitDocumentStart);
    }

    method ParseImplicitDocumentStart() returns (r: Option<Event>)
      requires In(AtImplicitDocumentStart)
      modifies this
      ensures currentEvent == old(currentEvent)
      ensures Emits(r, old(Pending(AtImplicitDocumentStart)))
    {
      hide Standing, Awaits, PendingOf, NodePending;
      StandingAtLevel(tokens, AtImplicitDocumentStart, taken, states, |marks|);
      ImplicitMoves(tokens, tagHandles, taken, |marks|);
      if tokens[taken].kind !in {T.Directive, T.DocumentStart, T.StreamEnd} {
        tagHandles := DEFAULT_TAGS;
        r := Some(DocumentStart(false));
        states := states + [AtDocumentEnd];
        assert states == [AtDocumentEnd];
        state := Some(AtBlockNode);
      } else {
        r := ParseDocumentStart();
      }
    }

    method ParseDocumentStart() returns (r: Option<Event>)
      requires In(AtDocumentStart)
      modifies this
      ensures currentEvent == old(currentEvent)
      ensures Emits(r, old(Pending(AtDocumentStart)))
    {
      hide Standing, Awaits, PendingOf, NodePending, ParseDirectives;
      StandingAtLevel(tokens, AtDocumentStart, taken, states, |marks|);
      ghost var p, h := taken, tagHandles;
      DocumentStartMoves(tokens, h, p, |marks|);
      while tokens[taken].kind.DocumentEnd?
        invariant p <= taken < |tokens| && SkipDocumentEnds(tokens, taken) == SkipDocumentEnds(tokens, p)
        invariant states == [] && marks == [] && tagHandles == h && currentEvent == old(currentEvent)
        decreases |tokens| - taken
      {
        taken := taken + 1;
      }
      if !tokens[taken].kind.StreamEnd? {
        var ok := ProcessDirectives();
        if !ok || !tokens[taken].kind.DocumentStart? {
          return None;
        }
        taken := taken + 1;
        r := Some(DocumentStart(true));
        states := states + [AtDocumentEnd];
        assert states == [AtDocumentEnd];
        state := Some(AtDocumentContent);
      } else {
        taken := taken + 1;
        r := Some(StreamEnd);
        assert states == [];
        assert marks == [];
        state := None;
      }
    }

    /** The default handles join after the directives; false where an error is raised. */
    method ProcessDirectives() returns (ok: bool)
      requires Framed(tokens) && 0 < taken < |tokens|
      modifies this`taken, this`tagHandles, this`yamlVersion
      ensures
        var d := ParseDirectives(tokens, old(taken), false, map[]);
        (ok <==> d.Some?) && (ok ==> 0 < taken < |tokens| && d.value == (tagHandles, taken))
    {
      yamlVersion, tagHandles := None, map[];
      while tokens[taken].kind.Directive?
        invariant old(taken) <= taken < |tokens|
        invariant ParseDirectives(tokens, old(taken), false, map[])
                  == ParseDirectives(tokens, taken, yamlVersion.Some?, tagHandles)
        decreases |tokens| - taken
      {
        var token := tokens[taken];
        taken := taken + 1;
        if token.name == Str("YAML") {
          if yamlVersion.Some? || token.major != 1 {
            return false;
          }
          yamlVersion := Some(token.major);
        } else if token.name == Str("TAG") && token.handle.Some? {
          if token.handle.value in tagHandles {
            return false;
          }
          tagHandles := tagHandles[token.handle.value := token.text];
        }
      }
      tagHandles := DEFAULT_TAGS + tagHandles;
      ok := true;
    }

    method ParseDocumentEnd() returns (r: Option<Event>)
      requires In(AtDocumentEnd)
      modifies this`taken, this`state
      ensures Emits(r, old(Pending(AtDocumentEnd)))
    {
      hide Standing, Awaits, PendingOf, NodePending;
      StandingAtLevel(tokens, AtDocumentEnd, taken, states, |marks|);
      DocumentEndMoves(tokens, tagHandles, taken, |marks|);
      var explicit := false;
      if tokens[taken].kind.DocumentEnd? {
        taken := taken + 1;
        explicit := true;
      }
      r := Some(DocumentEnd(explicit));
      state := Some(AtDocumentStart);
    }

    method ParseDocumentContent() returns (r: Option<Event>)
      requires In(AtDocumentContent)
      modifies this`taken, this`state, this`states
      ensures Emits(r, old(Pending(AtDocumentContent)))
    {
      hide Standing, Awaits, PendingOf, NodePending;
      ghost var before := Pending(AtDocumentContent);
      ContentMoves(tokens, tagHandles, taken, states, |marks|);
      if tokens[taken].kind in CONTENT_STOPS {
        r := Some(EMPTY_EVENT);
        Pop(before, r.value);
      } else {
        r := ParseNode(true, false);
      }
    }

    method ParseBlockNode() returns (r: Option<Event>)
      requires In(AtBlockNode)
      modifies this`taken, this`state, this`states
      ensures Emits(r, old(Pending(AtBlockNode)))
    {
      hide Standing, Awaits, PendingOf, NodePending;
      BlockNodeMoves(tokens, tagHandles, taken, states, |marks|);
      r := ParseNode(true, false);
    }

    /** The anchor and the tag of a node, in either order, the tag with its handle resolved; false where
        the handle is not defined. */
    method ParseAnchorAndTag() returns (anchor: Anchor, tag: Option<Text>, ok: bool)
      requires Framed(tokens) && 0 < taken < |tokens|
      modifies this`taken
      ensures
        var d := ParseProperties(tokens, old(taken), tagHandles);
        (ok <==> d.Got?) && (ok ==> d == Got(Properties(anchor, tag), taken))
    {
      anchor, tag := None, None;
      var name: Option<Lexed> := None;
      if tokens[taken].kind.Anchor? {
        anchor := Some(tokens[taken].text);
        taken := taken + 1;
        if tokens[taken].kind.Tag? {
          name := Some(tokens[taken]);
          taken := taken + 1;
        }
      } else if tokens[taken].kind.Tag? {
        name := Some(tokens[taken]);
        taken := taken + 1;
        if tokens[taken].kind.Anchor? {
          anchor := Some(tokens[taken].text);
          taken := taken + 1;
        }
      }
      if name.Some? {
        var handle := name.value.handle;
        if handle.Some? {
          if handle.value !in tagHandles {
            return None, None, false;
          }
          tag := Some(tagHandles[handle.value] + name.value.text);
        } else {
          tag := Some(name.value.text);
        }
      }
      ok := true;
    }

    /** parse_node, with the state that follows the node on top of the stack. */
    method ParseNode(block: bool, indentless: bool) returns (r: Option<Event>)
      requires Awaits(tokens, taken, states, |marks|)
      modifies this`taken, this`state, this`states
      ensures Emits(r, old(NodePending(tokens, tagHandles, taken, block, indentless, states, |marks|)))
    {
      AwaitsBounds(tokens, taken, states, |marks|);
      NodeMoves(tokens, tagHandles, taken, block, indentless, states, |marks|);
      hide Standing, Awaits, PendingOf, NodePending, Moves, Pops, Emits, ParseProperties, Opens, Str, Implicit;
      ghost var before := NodePending(tokens, tagHandles, taken, block, indentless, states, |marks|);
      if tokens[taken].kind.Alias? {
        var token := tokens[taken];
        taken := taken + 1;
        r := Some(Alias(Some(token.text)));
        Pop(before, r.value);
        return;
      }
      var anchor, tag, ok := ParseAnchorAndTag();
      if !ok {
        r := None;
        Raise(before);
        return;
      }
      var token := tokens[taken];
      var opens := Opens(tokens, taken, Properties(anchor, tag), block, indentless);
      if opens.Some? {
        r := Some(opens.value.0);
        Enter(opens.value.1, before, r.value);
      } else if token.kind == T.Scalar {
        taken := taken + 1;
        var resolves := (token.plain && tag.None?) || tag == Some(Str("!"));
        r := Some(Scalar(anchor, tag, resolves, !resolves && tag.None?, token.text));
        Pop(before, r.value);
      } else if anchor.Some? || tag.Some? {
        r := Some(Scalar(anchor, tag, Implicit(tag), false, []));
        Pop(before, r.value);
      } else {
        r := None;
        Raise(before);
      }
    }

    lemma Raise(before: Todo)
      requires before == RAISED
      ensures Emits(None, before)
    {
    }

    // Block sequences.

    method ParseBlockSequenceFirstEntry() returns (r: Option<Event>)
      requires In(BlockSequenceFirstEntry)
      modifies this`taken, this`state, this`states, this`marks
      ensures Emits(r, old(Pending(BlockSequenceFirstEntry)))
    {
      hide Standing, Awaits, PendingOf, NodePending, FlowSequencePending, FlowMappingPending, Emits, Mark;
      StandingBounds(tokens, BlockSequenceFirstEntry, taken, states, |marks|);
      FirstBlockMoves(tokens, tagHandles, BlockSequenceFirstEntry, taken, states, |marks|);
      marks := marks + [taken];
      taken := taken + 1;
      r := ParseBlockSequenceEntry();
    }

    method ParseBlockSequenceEntry() returns (r: Option<Event>)
      requires In(BlockSequenceEntry)
      modifies this`taken, this`state, this`states, this`marks
      ensures Emits(r, old(Pending(BlockSequenceEntry)))
    {
      hide Standing, Awaits, PendingOf, NodePending;
      ghost var before := Pending(BlockSequenceEntry);
      BlockSequenceMoves(tokens, tagHandles, taken, states, |marks|);
      if tokens[taken].kind.BlockEntry? {
        taken := taken + 1;
        if tokens[taken].kind !in SEQUENCE_ENTRY_STOPS {
          states := states + [BlockSequenceEntry];
          r := ParseNode(true, false);
        } else {
          state := Some(BlockSequenceEntry);
          r := Some(EMPTY_EVENT);
        }
        return;
      }
      if !tokens[taken].kind.BlockEnd? {
        return None;
      }
      taken := taken + 1;
      r := Some(SequenceEnd);
      marks := marks[..|marks| - 1];
      Pop(before, r.value);
    }

    // Block sequences without their own indentation.

    method ParseIndentlessSequenceEntry() returns (r: Option<Event>)
      requires In(IndentlessSequenceEntry)
      modifies this`taken, this`state, this`states
      ensures Emits(r, old(Pending(IndentlessSequenceEntry)))
    {
      hide Standing, Awaits, PendingOf, NodePending;
      ghost var before := Pending(IndentlessSequenceEntry);
      IndentlessMoves(tokens, tagHandles, taken, states, |marks|);
      if tokens[taken].kind.BlockEntry? {
        taken := taken + 1;
        if tokens[taken].kind !in INDENTLESS_STOPS {
          states := states + [IndentlessSequenceEntry];
          r := ParseNode(true, false);
        } else {
          state := Some(IndentlessSequenceEntry);
          r := Some(EMPTY_EVENT);
        }
        return;
      }
      r := Some(SequenceEnd);
      Pop(before, r.value);
    }

    // Block mappings.

    method ParseBlockMappingFirstKey() returns (r: Option<Event>)
      requires In(BlockMappingFirstKey)
      modifies this`taken, this`state, this`states, this`marks
      ensures Emits(r, old(Pending(BlockMappingFirstKey)))
    {
      hide Standing, Awaits, PendingOf, NodePending, FlowSequencePending, FlowMappingPending, Emits, Mark;
      StandingBounds(tokens, BlockMappingFirstKey, taken, states, |marks|);
      FirstBlockMoves(tokens, tagHandles, BlockMappingFirstKey, taken, states, |marks|);
      marks := marks + [taken];
      taken := taken + 1;
      r := ParseBlockMappingKey();
    }

    method ParseBlockMappingKey() returns (r: Option<Event>)
      requires In(BlockMappingKey)
      modifies this`taken, this`state, this`states, this`marks
      ensures Emits(r, old(Pending(BlockMappingKey)))
    {
      hide Standing, Awaits, PendingOf, NodePending;
      ghost var before := Pending(BlockMappingKey);
      BlockMappingMoves(tokens, tagHandles, taken, states, |marks|);
      if tokens[taken].kind.Key? {
        taken := taken + 1;
        if tokens[taken].kind !in BLOCK_STOPS {
          states := states + [BlockMappingValue];
          r := ParseNode(true, true);
        } else {
          state := Some(BlockMappingValue);
          r := Some(EMPTY_EVENT);
        }
        return;
      }
      if !tokens[taken].kind.BlockEnd? {
        return None;
      }
      taken := taken + 1;
      r := Some(MappingEnd);
      marks := marks[..|marks| - 1];
      Pop(before, r.value);
    }

    method ParseBlockMappingValue() returns (r: Option<Event>)
      requires In(BlockMappingValue)
      modifies this`taken, this`state, this`states
      ensures Emits(r, old(Pending(BlockMappingValue)))
    {
      hide Standing, Awaits, PendingOf, NodePending;
      ValueMoves(tokens, tagHandles, BlockMappingValue, taken, states, |marks|);
      if tokens[taken].kind.Value? {
        taken := taken + 1;
        if tokens[taken].kind !in BLOCK_STOPS {
          states := states + [BlockMappingKey];
          r := ParseNode(true, true);
        } else {
          state := Some(BlockMappingKey);
          r := Some(EMPTY_EVENT);
        }
      } else {
        state := Some(BlockMappingKey);
        r := Some(EMPTY_EVENT);
      }
    }

    // Flow sequences.

    method ParseFlowSequenceFirstEntry() returns (r: Option<Event>)
      requires In(FlowSequenceFirstEntry)
      modifies this`taken, this`state, this`states, this`marks
      ensures Emits(r, old(Pending(FlowSequenceFirstEntry)))
    {
      hide Standing, Awaits, PendingOf, NodePending, FlowSequencePending, FlowMappingPending, Emits, Mark;
      StandingBounds(tokens, FlowSequenceFirstEntry, taken, states, |marks|);
      FirstFlowMoves(tokens, tagHandles, FlowSequenceFirstEntry, taken, states, |marks|);
      marks := marks + [taken];
      taken := taken + 1;
      r := ParseFlowSequenceEntry(true);
    }

    method ParseFlowSequenceEntry(first: bool) returns (r: Option<Event>)
      requires In(FlowSequenceEntry)
      modifies this`taken, this`state, this`states, this`marks
      ensures Emits(r, old(FlowSequencePending(tokens, tagHandles, taken, first, states, |marks|)))
    {
      hide Standing, Awaits, PendingOf, NodePending, FlowSequencePending;
      ghost var before := FlowSequencePending(tokens, tagHandles, taken, first, states, |marks|);
      FlowSequenceMoves(tokens, tagHandles, taken, first, states, |marks|);
      if !tokens[taken].kind.FlowSequenceEnd? {
        if !first {
          if !tokens[taken].kind.FlowEntry? {
            return None;
          }
          taken := taken + 1;
        }
        if tokens[taken].kind.Key? {
          r := Some(MappingStart(None, None, true, Some(true)));
          state := Some(FlowSequenceMappingKey);
          return;
        } else if !tokens[taken].kind.FlowSequenceEnd? {
          states := states + [FlowSequenceEntry];
          r := ParseNode(false, false);
          return;
        }
      }
      taken := taken + 1;
      r := Some(SequenceEnd);
      marks := marks[..|marks| - 1];
      Pop(before, r.value);
    }

    method ParseFlowSequenceMappingKey() returns (r: Option<Event>)
      requires In(FlowSequenceMappingKey)
      modifies this`taken, this`state, this`states
      ensures Emits(r, old(Pending(FlowSequenceMappingKey)))
    {
      hide Standing, Awaits, PendingOf, NodePending;
      SinglePairKeyMoves(tokens, tagHandles, taken, states, |marks|);
      taken := taken + 1;
      if tokens[taken].kind !in SEQUENCE_STOPS {
        states := states + [FlowSequenceMappingValue];
        r := ParseNode(false, false);
      } else {
        state := Some(FlowSequenceMappingValue);
        r := Some(EMPTY_EVENT);
      }
    }

    method ParseFlowSequenceMappingValue() returns (r: Option<Event>)
      requires In(FlowSequenceMappingValue)
      modifies this`taken, this`state, this`states
      ensures Emits(r, old(Pending(FlowSequenceMappingValue)))
    {
      hide Standing, Awaits, PendingOf, NodePending;
      ValueMoves(tokens, tagHandles, FlowSequenceMappingValue, taken, states, |marks|);
      if tokens[taken].kind.Value? {
        taken := taken + 1;
        if tokens[taken].kind !in SEQUENCE_VALUE_STOPS {
          states := states + [FlowSequenceMappingEnd];
          r := ParseNode(false, false);
        } else {
          state := Some(FlowSequenceMappingEnd);
          r := Some(EMPTY_EVENT);
        }
      } else {
        state := Some(FlowSequenceMappingEnd);
        r := Some(EMPTY_EVENT);
      }
    }

    method ParseFlowSequenceMappingEnd() returns (r: Option<Event>)
      requires In(FlowSequenceMappingEnd)
      modifies this`state
      ensures Emits(r, old(Pending(FlowSequenceMappingEnd)))
    {
      hide Standing, Awaits, PendingOf, NodePending;
      PassingMoves(tokens, tagHandles, taken, states, |marks|);
      state := Some(FlowSequenceEntry);
      r := Some(MappingEnd);
    }

    // Flow mappings.

    method ParseFlowMappingFirstKey() returns (r: Option<Event>)
      requires In(FlowMappingFirstKey)
      modifies this`taken, this`state, this`states, this`marks
      ensures Emits(r, old(Pending(FlowMappingFirstKey)))
    {
      hide Standing, Awaits, PendingOf, NodePending, FlowSequencePending, FlowMappingPending, Emits, Mark;
      StandingBounds(tokens, FlowMappingFirstKey, taken, states, |marks|);
      FirstFlowMoves(tokens, tagHandles, FlowMappingFirstKey, taken, states, |marks|);
      marks := marks + [taken];
      taken := taken + 1;
      r := ParseFlowMappingKey(true);
    }

    method ParseFlowMappingKey(first: bool) returns (r: Option<Event>)
      requires In(FlowMappingKey)
      modifies this`taken, this`state, this`states, this`marks
      ensures Emits(r, old(FlowMappingPending(tokens, tagHandles, taken, first, states, |marks|)))
    {
      hide Standing, Awaits, PendingOf, NodePending, FlowMappingPending;
      ghost var before := FlowMappingPending(tokens, tagHandles, taken, first, states, |marks|);
      FlowMappingMoves(tokens, tagHandles, taken, first, states, |marks|);
      if !tokens[taken].kind.FlowMappingEnd? {
        if !first {
          if !tokens[taken].kind.FlowEntry? {
            return None;
          }
          taken := taken + 1;
        }
        if tokens[taken].kind.Key? {
          taken := taken + 1;
          if tokens[taken].kind !in MAPPING_STOPS {
            states := states + [FlowMappingValue];
            r := ParseNode(false, false);
          } else {
            state := Some(FlowMappingValue);
            r := Some(EMPTY_EVENT);
          }
          return;
        } else if !tokens[taken].kind.FlowMappingEnd? {
          states := states + [FlowMappingEmptyValue];
          r := ParseNode(false, false);
          return;
        }
      }
      taken := taken + 1;
      r := Some(MappingEnd);
      marks := marks[..|marks| - 1];
      Pop(before, r.value);
    }

    method ParseFlowMappingValue() returns (r: Option<Event>)
      requires In(FlowMappingValue)
      modifies this`taken, this`state, this`states
      ensures Emits(r, old(Pending(FlowMappingValue)))
    {
      hide Standing, Awaits, PendingOf, NodePending;
      ValueMoves(tokens, tagHandles, FlowMappingValue, taken, states, |marks|);
      if tokens[taken].kind.Value? {
        taken := taken + 1;
        if tokens[taken].kind !in MAPPING_VALUE_STOPS {
          states := states + [FlowMappingKey];
          r := ParseNode(false, false);
        } else {
          state := Some(FlowMappingKey);
          r := Some(EMPTY_EVENT);
        }
      } else {
        state := Some(FlowMappingKey);
        r := Some(EMPTY_EVENT);
      }
    }

    method ParseFlowMappingEmptyValue() returns (r: Option<Event>)
      requires In(FlowMappingEmptyValue)
      modifies this`state
      ensures Emits(r, old(Pending(FlowMappingEmptyValue)))
    {
      hide Standing, Awaits, PendingOf, NodePending;
      PassingMoves(tokens, tagHandles, taken, states, |marks|);
      state := Some(FlowMappingKey);
      r := Some(EMPTY_EVENT);
    }

    // The calls of the stage above.

    /** self.state() */
    method Step() returns (r: Option<Event>)
      requires Valid() && state.Some?
      modifies this
      ensures currentEvent == old(currentEvent)
      ensures Emits(r, old(Left()))
    {
      hide Denote, After;
      match state.value
      case AtStreamStart => r := ParseStreamStart();
      case AtImplicitDocumentStart => r := ParseImplicitDocumentStart();
      case AtDocumentStart => r := ParseDocumentStart();
      case AtDocumentEnd => r := ParseDocumentEnd();
      case AtDocumentContent => r := ParseDocumentContent();
      case AtBlockNode => r := ParseBlockNode();
      case BlockSequenceFirstEntry => r := ParseBlockSequenceFirstEntry();
      case BlockSequenceEntry => r := ParseBlockSequenceEntry();
      case IndentlessSequenceEntry => r := ParseIndentlessSequenceEntry();
      case BlockMappingFirstKey => r := ParseBlockMappingFirstKey();
      case BlockMappingKey => r := ParseBlockMappingKey();
      case BlockMappingValue => r := ParseBlockMappingValue();
      case FlowSequenceFirstEntry => r := ParseFlowSequenceFirstEntry();
      case FlowSequenceEntry =>
        r := ParseFlowSequenceEntry(false);
      case FlowSequenceMappingKey => r := ParseFlowSequenceMappingKey();
      case FlowSequenceMappingValue => r := ParseFlowSequenceMappingValue();
      case FlowSequenceMappingEnd => r := ParseFlowSequenceMappingEnd();
      case FlowMappingFirstKey => r := ParseFlowMappingFirstKey();
      case FlowMappingKey =>
        r := ParseFlowMappingKey(false);
      case FlowMappingValue => r := ParseFlowMappingValue();
      case FlowMappingEmptyValue => r := ParseFlowMappingEmptyValue();
    }

    /** What is to come, with the event peeked at. */
    ghost function Ahead(): Todo
      requires Valid()
      reads this
    {
      if currentEvent.Some? then Prepend([currentEvent.value], Left()) else Left()
    }

    /** The next event, which stays; false where an error is raised. */
    method PeekEvent() returns (r: Option<Event>, ok: bool)
      requires Valid()
      modifies this
      ensures !ok ==> old(Ahead()) == RAISED
      ensures ok ==> Valid() && r == currentEvent && Ahead() == old(Ahead())
      ensures ok && r.None? ==> Ahead() == Got([], |tokens|) && states == [] && marks == []
    {
      hide Standing, PendingOf;
      if currentEvent.None? && state.Some? {
        var next := Step();
        if next.None? {
          return None, false;
        }
        currentEvent := next;
      }
      return currentEvent, true;
    }

    method GetEvent() returns (r: Option<Event>, ok: bool)
      requires Valid()
      modifies this
      ensures !ok ==> old(Ahead()) == RAISED
      ensures ok ==> Valid() && currentEvent == None
      ensures ok && r.Some? ==> old(Ahead()) == Prepend([r.value], Ahead())
      ensures ok && r.None? ==> Ahead() == old(Ahead()) == Got([], |tokens|) && states == [] && marks == []
    {
      hide Standing, PendingOf;
      r, ok := PeekEvent();
      if ok {
        currentEvent := None;
      }
    }
  }

  function Size(r: Todo): nat {
    match r
    case Got(v, _) => |v|
    case Error(e) => |e|
  }

  /** All events of a token list, by stepping the machine; false where an error is raised. The lists accepted are
      the spellings of well-formed streams, and the events are those of the documents spelled. */
  method Parse(ts: seq<Lexed>) returns (events: seq<Event>, ok: bool)
    requires Framed(ts)
    ensures ok <==> ParseStream(ts).Got?
    ensures ok ==> events == StreamEvents(ParseStream(ts).value)
    ensures !ok ==> events == [StreamStart] + ParseStream(ts).emitted
    ensures |events| <= 4 * |ts|
    ensures forall docs: seq<S.Doc> :: S.DocsFit(docs) && S.Spell(docs) == ts ==>
              ok && events == StreamEvents(S.DocsOf(docs))
    ensures ok && TreesFound.AllProper(ts) ==> exists docs: seq<S.Doc> :: S.DocsFit(docs) && S.Spell(docs) == ts
  {
    hide ParseStream, Standing, PendingOf, S.DocsFit, S.Spell, S.DocsOf, TreesFound.AllProper;
    StreamBound(ts);
    SpelledParse(ts);
    var parser := new Parser(ts);
    ghost var all := Prepend([StreamStart], DocumentsTodo(ParseStream(ts)));
    events, ok := [], true;
    PrependPrepend([], [], all);
    while true
      invariant fresh(parser) && parser.Valid() && parser.tokens == ts
      invariant all == Prepend(events, parser.Ahead())
      decreases Size(parser.Ahead())
    {
      ghost var before := parser.Ahead();
      var next, good := parser.GetEvent();
      if !good || next.None? {
        ok := good;
        assert events + [] == events;
        ParsedAll(ts, events);
        return;
      }
      PrependPrepend(events, [next.value], parser.Ahead());
      events := events + [next.value];
    }
  }

  lemma SpelledParse(ts: seq<Lexed>)
    requires Framed(ts)
    ensures forall docs: seq<S.Doc> :: S.DocsFit(docs) && S.Spell(docs) == ts ==>
              ParseStream(ts) == Got(S.DocsOf(docs), |ts|)
    ensures TreesFound.AllProper(ts) ==>
              (ParseStream(ts).Got? <==> exists docs: seq<S.Doc> :: S.DocsFit(docs) && S.Spell(docs) == ts)
  {
    hide ParseStream, S.DocsFit, S.Spell, TreesFound.AllProper;
    forall docs: seq<S.Doc> | S.DocsFit(docs) && S.Spell(docs) == ts
      ensures ParseStream(ts) == Got(S.DocsOf(docs), |ts|)
    {
      TreesParse.StreamParses(docs);
    }
    if TreesFound.AllProper(ts) { TreesFound.AcceptedIsSpelled(ts); }
  }

  lemma ParsedAll(ts: seq<Lexed>, events: seq<Event>)
    requires Framed(ts)
    ensures
      var all := Prepend([StreamStart], DocumentsTodo(ParseStream(ts)));
      && (all == Got(events, |ts|) ==> ParseStream(ts).Got? && events == StreamEvents(ParseStream(ts).value))
      && (all == Error(events) ==> ParseStream(ts).Error? && events == [StreamStart] + ParseStream(ts).emitted)
  {
    hide ParseStream;
    var r := ParseStream(ts);
    if r.Got? {
      assert [StreamStart] + (DocumentsEvents(r.value) + [StreamEnd])
             == [StreamStart] + DocumentsEvents(r.value) + [StreamEnd];
    }
  }
}
