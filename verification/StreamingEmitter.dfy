/** The emitter of yaml/emitter.py: it holds back an event until it knows enough of the future, and writes the
    same as if it knew all of it. */
module StreamingEmitter {
  import opened Options
  import opened Chars
  import opened EmitterLookahead
  import opened EmitterMachine
  import opened EmitterOutput
  import opened EmitterStructure
  import opened ScalarPlaces
  import E = Events
  import EmittedTokens

  lemma NextMattersToNode(c: Config, m: Machine, e: Event, a: Option<Event>, b: Option<Event>, context: Context)
    requires Lookahead(e) == 0
    ensures Node(c, m, e, a, context) == Node(c, m, e, b, context)
    ensures IsSimpleKey(c, e, a) == IsSimpleKey(c, e, b)
  {
    hide Indicator, Tagged, WithAnchor, Increased, Popped;
  }

  /** Only the events that wait look at the next one. */
  lemma NextMatters(c: Config, m: Machine, e: Event, a: Option<Event>, b: Option<Event>)
    requires Lookahead(e) == 0
    ensures Handle(c, m, e, a) == Handle(c, m, e, b)
  {
    hide Node, FlowSequenceItem, FlowMappingKey, FlowMappingValue, BlockSequenceItem, BlockMappingKey,
         BlockMappingValue;
    NextMattersToNode(c, Pushed(m, ExpectDocumentEnd), e, a, b, Context(true, false, false, false));
    NextMattersToItem(c, m, e, a, b, m.state == ExpectFirstFlowSequenceItem || m.state == ExpectFirstBlockSequenceItem);
    NextMattersToKey(c, m, e, a, b, m.state == ExpectFirstFlowMappingKey || m.state == ExpectFirstBlockMappingKey);
    NextMattersToValue(c, m, e, a, b, m.state == ExpectFlowMappingSimpleValue
                       || m.state == ExpectBlockMappingSimpleValue);
  }

  lemma NextMattersToItem(c: Config, m: Machine, e: Event, a: Option<Event>, b: Option<Event>, first: bool)
    requires Lookahead(e) == 0
    ensures FlowSequenceItem(c, m, e, a, first) == FlowSequenceItem(c, m, e, b, first)
    ensures BlockSequenceItem(c, m, e, a, first) == BlockSequenceItem(c, m, e, b, first)
  {
    hide Node, Indicator, Indented, Wraps, FlowEnd, Closed;
    var flow := Pushed(Wraps(c, if first then m else Writes(m, [COMMA], false, false, false)), ExpectFlowSequenceItem);
    var block := Pushed(Writes(WritesIndent(c, m), [DASH], true, false, true), ExpectBlockSequenceItem);
    NextMattersToNode(c, flow, e, a, b, ITEM);
    NextMattersToNode(c, block, e, a, b, ITEM);
  }

  lemma NextMattersToKey(c: Config, m: Machine, e: Event, a: Option<Event>, b: Option<Event>, first: bool)
    requires Lookahead(e) == 0
    ensures FlowMappingKey(c, m, e, a, first) == FlowMappingKey(c, m, e, b, first)
    ensures BlockMappingKey(c, m, e, a, first) == BlockMappingKey(c, m, e, b, first)
  {
    hide Node, Indicator, Indented, Wraps, FlowEnd, Closed, IsSimpleKey, Preparable;
    var w := Wraps(c, if first then m else Writes(m, [COMMA], false, false, false));
    var i := WritesIndent(c, m);
    NextMattersToNode(c, Pushed(w, ExpectFlowMappingSimpleValue), e, a, b, SIMPLE_KEY);
    NextMattersToNode(c, Pushed(Writes(w, [QUESTION], true, false, false), ExpectFlowMappingValue), e, a, b, VALUE);
    NextMattersToNode(c, Pushed(i, ExpectBlockMappingSimpleValue), e, a, b, SIMPLE_KEY);
    NextMattersToNode(c, Pushed(Writes(i, [QUESTION], true, false, true), ExpectBlockMappingValue), e, a, b, VALUE);
  }

  lemma NextMattersToValue(c: Config, m: Machine, e: Event, a: Option<Event>, b: Option<Event>, simple: bool)
    requires Lookahead(e) == 0
    ensures FlowMappingValue(c, m, e, a, simple) == FlowMappingValue(c, m, e, b, simple)
    ensures BlockMappingValue(c, m, e, a, simple) == BlockMappingValue(c, m, e, b, simple)
  {
    hide Node, Indicator, Indented, Wraps;
    var n := Writes(m, [COLON], false, false, false);
    var flow := if simple then n else Writes(Wraps(c, m), [COLON], true, false, false);
    var block := if simple then n else Writes(WritesIndent(c, m), [COLON], true, false, true);
    NextMattersToNode(c, Pushed(flow, ExpectFlowMappingKey), e, a, b, VALUE);
    NextMattersToNode(c, Pushed(block, ExpectBlockMappingKey), e, a, b, VALUE);
  }

  class Emitter {
    const config: Config
    /** The events that have been given and not handled. */
    var events: seq<Event>
    var event: Option<Event>
    var state: State
    var states: seq<State>
    var indents: seq<Option<nat>>
    var indent: Option<nat>
    var flowLevel: int
    var rootContext: bool
    var sequenceContext: bool
    var mappingContext: bool
    var simpleKeyContext: bool
    var out: Out
    /** All events that will ever be given, and how many have been given so far. */
    ghost const whole: seq<Event>
    ghost var given: nat

    function M(): Machine
      reads this
    {
      Machine(state, states, indents, indent, flowLevel,
              Context(rootContext, sequenceContext, mappingContext, simpleKeyContext), out)
    }

    /** Events are handled in the order they are given, as if the whole future were known. */
    ghost predicate Valid()
      reads this
    {
      Queue(whole, given, events) && AsIfKnown(config, whole, given - |events|, M())
    }

    constructor (c: Config, ghost all: seq<Event>)
      ensures Valid() && config == c && whole == all && given == 0 && events == []
    {
      config, events, event := c, [], None;
      state, states, indents, indent, flowLevel := ExpectStreamStart, [], [], None, 0;
      rootContext, sequenceContext, mappingContext, simpleKeyContext := false, false, false, false;
      out := Out([], 0, true, true, false);
      whole, given := all, 0;
      new;
      assert whole[..0] == [];
    }

    /** False where an error is raised. At most three events wait for more; none behind the end of the stream, and
        none behind the end of a document of the grammar, where all stacks are empty. */
    method Emit(e: Event) returns (ok: bool)
      requires Valid() && given < |whole| && e == whole[given]
      modifies this
      ensures ok ==> Valid() && given == old(given) + 1 && |events| <= 3
      ensures ok && e.StreamEnd? ==> events == []
      ensures ok && e.DocumentEnd? && IsStream(whole) ==> events == [] && Idle(M())
      ensures !ok ==> Offline(config, whole) == None
    {
      hide Handle, NeedsMore, Queue, AsIfKnown, IsStream, Idle;
      QueueBounds(whole, given, events);
      QueuePush(whole, given, events);
      events := events + [e];
      given := given + 1;
      var more := NeedMoreEvents();
      while !more
        invariant Valid() && given == old(given) + 1 && more == NeedsMore(events)
        invariant e.StreamEnd? && events != [] ==> events[|events| - 1] == e
        decreases |events|
      {
        ok := HandleEvent();
        if !ok {
          return false;
        }
        more := NeedMoreEvents();
      }
      QueueIsShort(events);
      if e.StreamEnd? && events != [] {
        EndWaitsForNothing(events);
        assert false;
      }
      if e.DocumentEnd? && IsStream(whole) {
        DocumentEnds(config, whole, given, events, M());
      }
      ok := true;
    }

    /** The first event of the queue, which need not wait any longer. */
    method HandleEvent() returns (ok: bool)
      requires Valid() && !NeedsMore(events)
      modifies this
      ensures old(events) != []
      ensures ok ==> Valid() && given == old(given) && events == old(events[1..])
      ensures !ok ==> Offline(config, whole) == None
    {
      hide Handle, NeedsMore, Queue, AsIfKnown;
      QueueBounds(whole, given, events);
      NextKnown(events);
      QueuePop(whole, given, events);
      HandlesOne(config, M(), whole, given, events);
      event := Some(events[0]);
      events := events[1..];
      ok := Dispatch();
      event := None;
    }

    method NeedMoreEvents() returns (r: bool)
      ensures r == NeedsMore(events)
    {
      if events == [] {
        return true;
      }
      if events[0].DocumentStart? {
        r := NeedEvents(1);
      } else if events[0].SequenceStart? {
        r := NeedEvents(2);
      } else if events[0].MappingStart? {
        r := NeedEvents(3);
      } else {
        r := false;
      }
    }

    method NeedEvents(count: nat) returns (r: bool)
      requires events != []
      ensures r == (!Falls(events[1..], 0) && |events| < count + 1)
    {
      var level := 0;
      var behind := events[1..];
      for i := 0 to |behind|
        invariant level >= 0 && Falls(behind[i..], level) == Falls(behind, 0)
      {
        assert behind[i..][1..] == behind[i + 1..];
        var e := behind[i];
        if e.DocumentStart? || e.SequenceStart? || e.MappingStart? {
          level := level + 1;
        } else if e.DocumentEnd? || e.SequenceEnd? || e.MappingEnd? {
          level := level - 1;
        } else if e.StreamEnd? {
          level := -1;
        }
        if level < 0 {
          return false;
        }
      }
      r := |events| < count + 1;
    }

    // The states.

    twostate predicate Kept()
      reads this
    {
      events == old(events) && event == old(event) && given == old(given)
    }

    ghost predicate Does(ok: bool, r: Option<Machine>)
      reads this
    {
      (ok <==> r.Some?) && (ok ==> r.value == M())
    }

    /** self.state() */
    method Dispatch() returns (ok: bool)
      requires event.Some?
      modifies this
      ensures Kept() && Does(ok, old(Handle(config, M(), event.value, Head(events))))
    {
      hide Node, Document, DocumentEnding, FlowSequenceItem, FlowMappingKey, FlowMappingValue;
      hide BlockSequenceItem, BlockMappingKey, BlockMappingValue;
      match state
      case ExpectStreamStart =>
        ok := event.value.StreamStart?;
        state := ExpectFirstDocumentStart;
      case ExpectFirstDocumentStart => ok := ExpectDocument(true);
      case ExpectDocumentStart => ok := ExpectDocument(false);
      case ExpectDocumentRoot =>
        states := states + [ExpectDocumentEnd];
        ok := ExpectNode(true, false, false, false);
      case ExpectDocumentEnd => ok := ExpectEndOfDocument();
      case ExpectNothing => ok := false;
      case ExpectFirstFlowSequenceItem => ok := ExpectItemOfFlowSequence(true);
      case ExpectFlowSequenceItem => ok := ExpectItemOfFlowSequence(false);
      case ExpectFirstFlowMappingKey => ok := ExpectKeyOfFlowMapping(true);
      case ExpectFlowMappingKey => ok := ExpectKeyOfFlowMapping(false);
      case ExpectFlowMappingSimpleValue => ok := ExpectValueOfFlowMapping(true);
      case ExpectFlowMappingValue => ok := ExpectValueOfFlowMapping(false);
      case ExpectFirstBlockSequenceItem => ok := ExpectItemOfBlockSequence(true);
      case ExpectBlockSequenceItem => ok := ExpectItemOfBlockSequence(false);
      case ExpectFirstBlockMappingKey => ok := ExpectKeyOfBlockMapping(true);
      case ExpectBlockMappingKey => ok := ExpectKeyOfBlockMapping(false);
      case ExpectBlockMappingSimpleValue => ok := ExpectValueOfBlockMapping(true);
      case ExpectBlockMappingValue => ok := ExpectValueOfBlockMapping(false);
    }

    method WriteIndicator(indicator: Text, needWhitespace: bool, whitespace: bool, indention: bool)
      modifies this`out
      ensures M() == old(Writes(M(), indicator, needWhitespace, whitespace, indention))
    {
      out := Indicator(out, indicator, needWhitespace, whitespace, indention);
    }

    method WriteIndent()
      modifies this`out
      ensures M() == old(WritesIndent(config, M()))
    {
      out := Indented(out, config.bestLineBreak, if indent.Some? then indent.value else 0);
    }

    method WrapLine()
      modifies this`out
      ensures M() == old(Wraps(config, M()))
    {
      hide Indented;
      if config.canonical || out.column > config.bestWidth {
        WriteIndent();
      }
    }

    method IncreaseIndent(flow: bool, indentless: bool)
      modifies this`indents, this`indent
      ensures M() == old(Increased(config, M(), flow, indentless))
    {
      indents := indents + [indent];
      if indent.None? {
        indent := Some(if flow then config.bestIndent else 0);
      } else if !indentless {
        indent := Some(indent.value + config.bestIndent);
      }
    }

    method PopIndent() returns (ok: bool)
      modifies this`indents, this`indent
      ensures Does(ok, old(IndentPopped(M())))
    {
      if indents == [] {
        return false;
      }
      indent, indents := indents[|indents| - 1], indents[..|indents| - 1];
      ok := true;
    }

    method PopState() returns (ok: bool)
      modifies this`state, this`states
      ensures Does(ok, old(Popped(M())))
    {
      if states == [] {
        return false;
      }
      state, states := states[|states| - 1], states[..|states| - 1];
      ok := true;
    }

    method ExpectDocument(first: bool) returns (ok: bool)
      requires event.Some?
      modifies this
      ensures Kept() && Does(ok, old(Document(config, M(), event.value, Head(events), first)))
    {
      hide Indented, Indicator;
      if event.value.DocumentStart? {
        var implicit := first && !event.value.explicit && !config.canonical && !CheckEmptyDocument();
        if !implicit {
          WriteIndent();
          WriteIndicator([DASH, DASH, DASH], true, false, false);
          if config.canonical {
            WriteIndent();
          }
        }
        state := ExpectDocumentRoot;
        ok := true;
      } else if event.value.StreamEnd? {
        if out.openEnded {
          WriteIndicator([DOT, DOT, DOT], true, false, false);
          WriteIndent();
        }
        state := ExpectNothing;
        ok := true;
      } else {
        ok := false;
      }
    }

    method ExpectEndOfDocument() returns (ok: bool)
      requires event.Some?
      modifies this
      ensures Kept() && Does(ok, old(DocumentEnding(config, M(), event.value)))
    {
      hide Indented, Indicator;
      if !event.value.DocumentEnd? {
        return false;
      }
      WriteIndent();
      if event.value.explicit {
        WriteIndicator([DOT, DOT, DOT], true, false, false);
        WriteIndent();
      }
      state := ExpectDocumentStart;
      ok := true;
    }

    predicate CheckEmptySequence()
      reads this
    {
      event.Some? && event.value.SequenceStart? && events != [] && events[0].SequenceEnd?
    }

    predicate CheckEmptyMapping()
      reads this
    {
      event.Some? && event.value.MappingStart? && events != [] && events[0].MappingEnd?
    }

    predicate CheckEmptyDocument()
      reads this
    {
      event.Some? && event.value.DocumentStart? && events != [] && events[0].Scalar?
      && events[0].anchor.None? && events[0].tag.None? && events[0].value == []
    }

    /** check_simple_key; ok is false where an anchor or a tag is not acceptable. */
    method CheckSimpleKey() returns (simple: bool, ok: bool)
      requires event.Some?
      ensures ok <==> Preparable(event.value)
      ensures ok ==> simple == IsSimpleKey(config, event.value, Head(events))
    {
      var e := event.value;
      var length := 0;
      if E.AnchorOf(e).Some? {
        if !IsAnchor(E.AnchorOf(e).value) {
          return false, false;
        }
        length := length + |E.AnchorOf(e).value|;
      }
      if TagOf(e).Some? {
        if TagOf(e).value == [] {
          return false, false;
        }
        length := length + |config.tagText(TagOf(e).value)|;
      }
      if e.Scalar? {
        length := length + |e.value|;
      }
      simple := length < 128 && (e.Alias? || (e.Scalar? && e.value != [] && !config.multiline(e.value))
                                 || CheckEmptySequence() || CheckEmptyMapping());
      ok := true;
    }

    method ProcessAnchor(anchor: E.Anchor, indicator: Char) returns (ok: bool)
      modifies this
      ensures Kept() && Does(ok, old(WithAnchor(M(), anchor, indicator)))
    {
      hide Indicator;
      if anchor.Some? {
        if !IsAnchor(anchor.value) {
          return false;
        }
        WriteIndicator([indicator] + anchor.value, true, false, false);
      }
      ok := true;
    }

    method ProcessTag() returns (ok: bool)
      requires event.Some? && (event.value.Scalar? || event.value.SequenceStart? || event.value.MappingStart?)
      modifies this
      ensures Kept() && Does(ok, old(WithTag(config, M(), event.value)))
    {
      hide Indicator;
      var e := event.value;
      var tag := e.tag;
      if e.Scalar? {
        var plain := !config.canonical && e.plainImplicit && config.plain(e, M().context, flowLevel > 0);
        if (!config.canonical || tag.None?) && ((plain && e.plainImplicit) || (!plain && e.quotedImplicit)) {
          return true;
        }
        if e.plainImplicit && tag.None? {
          tag := Some([0x21]);
        }
      } else if (!config.canonical || tag.None?) && e.implicit {
        return true;
      }
      if tag.None? || tag.value == [] {
        return false;
      }
      var text := config.tagText(tag.value);
      if text != [] {
        WriteIndicator(text, true, false, false);
      }
      ok := true;
    }

    method ExpectNode(root: bool, sequence: bool, mapping: bool, simpleKey: bool) returns (ok: bool)
      requires event.Some?
      modifies this
      ensures Kept()
      ensures Does(ok, old(Node(config, M(), event.value, Head(events), Context(root, sequence, mapping, simpleKey))))
    {
      hide Indicator, Tagged, Content, AliasWritten;
      rootContext, sequenceContext, mappingContext, simpleKeyContext := root, sequence, mapping, simpleKey;
      var e := event.value;
      if e.Alias? {
        ok := ExpectAlias();
        return;
      }
      if !(e.Scalar? || e.SequenceStart? || e.MappingStart?) {
        return false;
      }
      ok := ExpectNodeContent();
    }

    method ExpectNodeContent() returns (ok: bool)
      requires event.Some? && (event.value.Scalar? || event.value.SequenceStart? || event.value.MappingStart?)
      modifies this
      ensures Kept() && Does(ok, old(var t := Tagged(config, M(), event.value);
                                     if t.None? then None else Content(config, t.value, event.value, Head(events))))
    {
      hide Tagged, Content;
      ok := ProcessAnchorAndTag();
      if ok {
        ok := ExpectContent();
      }
    }

    method ProcessAnchorAndTag() returns (ok: bool)
      requires event.Some? && (event.value.Scalar? || event.value.SequenceStart? || event.value.MappingStart?)
      modifies this
      ensures Kept() && Does(ok, old(Tagged(config, M(), event.value)))
    {
      hide Indicator, WithTag, WithAnchor;
      ok := ProcessAnchor(event.value.anchor, 0x26);
      if ok {
        ok := ProcessTag();
      }
    }

    method ExpectContent() returns (ok: bool)
      requires event.Some? && (event.value.Scalar? || event.value.SequenceStart? || event.value.MappingStart?)
      modifies this
      ensures Kept() && Does(ok, old(Content(config, M(), event.value, Head(events))))
    {
      hide Indicator, Increased, ScalarWritten, OpensFlow;
      var e := event.value;
      ok := true;
      if e.Scalar? {
        ok := ExpectScalar();
      } else if e.SequenceStart? {
        if flowLevel != 0 || config.canonical || e.flow == Some(true) || CheckEmptySequence() {
          ExpectFlowCollection(0x5B, ExpectFirstFlowSequenceItem);
        } else {
          var indentless := mappingContext && !out.indention;
          IncreaseIndent(false, indentless);
          state := ExpectFirstBlockSequenceItem;
        }
      } else {
        if flowLevel != 0 || config.canonical || e.flow == Some(true) || CheckEmptyMapping() {
          ExpectFlowCollection(0x7B, ExpectFirstFlowMappingKey);
        } else {
          IncreaseIndent(false, false);
          state := ExpectFirstBlockMappingKey;
        }
      }
    }

    method ExpectAlias() returns (ok: bool)
      requires event.Some? && event.value.Alias?
      modifies this
      ensures Kept() && Does(ok, old(AliasWritten(M(), event.value.name)))
    {
      hide Indicator, WithAnchor;
      if event.value.name.None? {
        return false;
      }
      ok := ProcessAnchor(event.value.name, 0x2A);
      if ok {
        ok := PopState();
      }
    }

    method ExpectScalar() returns (ok: bool)
      requires event.Some? && event.value.Scalar?
      modifies this
      ensures Kept() && Does(ok, old(ScalarWritten(config, M(), event.value)))
    {
      IncreaseIndent(true, false);
      out := config.scalar(out, event.value, indent, M().context, flowLevel > 0);
      ok := PopIndent();
      if ok {
        ok := PopState();
      }
    }

    method ExpectFlowCollection(bracket: Char, first: State)
      modifies this
      ensures Kept() && M() == old(OpensFlow(config, M(), bracket, first))
    {
      hide Indicator, Increased;
      WriteIndicator([bracket], true, true, false);
      flowLevel := flowLevel + 1;
      IncreaseIndent(true, false);
      state := first;
    }

    method EndFlowCollection(bracket: Char, first: bool) returns (ok: bool)
      modifies this
      ensures Kept() && Does(ok, old(FlowEnd(config, M(), bracket, first)))
    {
      hide Indicator, Indented;
      ok := PopIndent();
      if !ok {
        return;
      }
      flowLevel := flowLevel - 1;
      if config.canonical && !first {
        WriteIndicator([COMMA], false, false, false);
        WriteIndent();
      }
      WriteIndicator([bracket], false, false, false);
      ok := PopState();
    }

    method ExpectItemOfFlowSequence(first: bool) returns (ok: bool)
      requires event.Some?
      modifies this
      ensures Kept() && Does(ok, old(FlowSequenceItem(config, M(), event.value, Head(events), first)))
    {
      hide Node, Indicator, Indented, FlowEnd, Wraps;
      if event.value.SequenceEnd? {
        ok := EndFlowCollection(0x5D, first);
      } else {
        if !first {
          WriteIndicator([COMMA], false, false, false);
        }
        WrapLine();
        states := states + [ExpectFlowSequenceItem];
        ok := ExpectNode(false, true, false, false);
      }
    }

    method ExpectKeyOfFlowMapping(first: bool) returns (ok: bool)
      requires event.Some?
      modifies this
      ensures Kept() && Does(ok, old(FlowMappingKey(config, M(), event.value, Head(events), first)))
    {
      hide Node, Indicator, Indented, FlowEnd, Wraps, IsSimpleKey, Preparable;
      if event.value.MappingEnd? {
        ok := EndFlowCollection(0x7D, first);
        return;
      }
      if !first {
        WriteIndicator([COMMA], false, false, false);
      }
      WrapLine();
      if !config.canonical {
        var simple, good := CheckSimpleKey();
        if !good {
          return false;
        }
        if simple {
          states := states + [ExpectFlowMappingSimpleValue];
          ok := ExpectNode(false, false, true, true);
          return;
        }
      }
      WriteIndicator([QUESTION], true, false, false);
      states := states + [ExpectFlowMappingValue];
      ok := ExpectNode(false, false, true, false);
    }

    method ExpectValueOfFlowMapping(simple: bool) returns (ok: bool)
      requires event.Some?
      modifies this
      ensures Kept() && Does(ok, old(FlowMappingValue(config, M(), event.value, Head(events), simple)))
    {
      hide Node, Indicator, Indented, Wraps;
      if simple {
        WriteIndicator([COLON], false, false, false);
      } else {
        WrapLine();
        WriteIndicator([COLON], true, false, false);
      }
      states := states + [ExpectFlowMappingKey];
      ok := ExpectNode(false, false, true, false);
    }

    method ExpectItemOfBlockSequence(first: bool) returns (ok: bool)
      requires event.Some?
      modifies this
      ensures Kept() && Does(ok, old(BlockSequenceItem(config, M(), event.value, Head(events), first)))
    {
      hide Node, Indicator, Indented, Closed;
      if !first && event.value.SequenceEnd? {
        ok := EndBlockCollection();
      } else {
        WriteIndent();
        WriteIndicator([DASH], true, false, true);
        states := states + [ExpectBlockSequenceItem];
        ok := ExpectNode(false, true, false, false);
      }
    }

    method EndBlockCollection() returns (ok: bool)
      modifies this
      ensures Kept() && Does(ok, old(Closed(M(), false)))
    {
      ok := PopIndent();
      if ok {
        ok := PopState();
      }
    }

    method ExpectKeyOfBlockMapping(first: bool) returns (ok: bool)
      requires event.Some?
      modifies this
      ensures Kept() && Does(ok, old(BlockMappingKey(config, M(), event.value, Head(events), first)))
    {
      hide Node, Indicator, Indented, Closed, IsSimpleKey, Preparable;
      if !first && event.value.MappingEnd? {
        ok := EndBlockCollection();
        return;
      }
      WriteIndent();
      var simple, good := CheckSimpleKey();
      if !good {
        return false;
      }
      if simple {
        states := states + [ExpectBlockMappingSimpleValue];
        ok := ExpectNode(false, false, true, true);
      } else {
        WriteIndicator([QUESTION], true, false, true);
        states := states + [ExpectBlockMappingValue];
        ok := ExpectNode(false, false, true, false);
      }
    }

    method ExpectValueOfBlockMapping(simple: bool) returns (ok: bool)
      requires event.Some?
      modifies this
      ensures Kept() && Does(ok, old(BlockMappingValue(config, M(), event.value, Head(events), simple)))
    {
      hide Node, Indicator, Indented;
      if simple {
        WriteIndicator([COLON], false, false, false);
      } else {
        WriteIndent();
        WriteIndicator([COLON], true, false, true);
      }
      states := states + [ExpectBlockMappingKey];
      ok := ExpectNode(false, false, true, false);
    }
  }

  /** The queue holds the last events given. */
  predicate Queue(whole: seq<Event>, given: nat, events: seq<Event>) {
    |events| <= given <= |whole| && events == whole[given - |events|..given]
  }

  lemma QueuePush(whole: seq<Event>, given: nat, events: seq<Event>)
    requires Queue(whole, given, events) && given < |whole|
    ensures Queue(whole, given + 1, events + [whole[given]])
  {
  }

  lemma QueuePop(whole: seq<Event>, given: nat, events: seq<Event>)
    requires Queue(whole, given, events) && events != []
    ensures Queue(whole, given, events[1..]) && events[0] == whole[given - |events|]
    ensures |events| > 1 ==> events[1..][|events| - 2] == events[|events| - 1]
  {
  }

  lemma QueueBounds(whole: seq<Event>, given: nat, events: seq<Event>)
    requires Queue(whole, given, events)
    ensures |events| <= given <= |whole|
  {
  }

  /** The machine after the first p events of the whole stream. */
  ghost predicate AsIfKnown(c: Config, whole: seq<Event>, p: nat, m: Machine) {
    p <= |whole| && Handled(c, INITIAL, whole[..p], Head(whole[p..])) == Some(m)
  }

  /** One event is handled as it would be with the whole future at hand. */
  lemma HandlesOne(c: Config, m: Machine, whole: seq<Event>, given: nat, events: seq<Event>)
    requires events != [] && Queue(whole, given, events) && (|events| > 1 || Lookahead(events[0]) == 0)
    requires AsIfKnown(c, whole, given - |events|, m)
    ensures
      var r := Handle(c, m, events[0], Head(events[1..]));
      if r.None? then Offline(c, whole) == None else AsIfKnown(c, whole, given - |events| + 1, r.value)
  {
    hide Handle;
    var p := given - |events|;
    var next := Head(whole[p + 1..]);
    assert whole[p..][0] == events[0] && whole[..p + 1] == whole[..p] + [events[0]];
    if |events| > 1 {
      assert events[1] == whole[p + 1];
    } else {
      NextMatters(c, m, events[0], Head(events[1..]), next);
    }
    HandledJoin(c, INITIAL, whole[..p], [events[0]], next);
    assert whole[..p + 1] + whole[p + 1..] == whole;
    HandledJoin(c, INITIAL, whole[..p + 1], whole[p + 1..], None);
  }

  ghost predicate IsStream(whole: seq<Event>) {
    exists docs: seq<E.Document> :: DocumentsOk(docs) && whole == E.StreamEvents(docs)
  }

  lemma DocumentEnds(c: Config, whole: seq<Event>, given: nat, events: seq<Event>, m: Machine)
    requires IsStream(whole) && 0 < given && Queue(whole, given, events) && whole[given - 1].DocumentEnd?
    requires NeedsMore(events) && AsIfKnown(c, whole, given - |events|, m)
    ensures events == [] && Idle(m)
  {
    hide NeedsMore, E.StreamEvents, DocumentsOk;
    var docs: seq<E.Document> :| DocumentsOk(docs) && whole == E.StreamEvents(docs);
    if events != [] {
      DocumentEndEndsWaits(docs, given - |events|, given - 1);
      assert false;
    }
    var k := StreamUpTo(docs, given - 1);
    FirstDocumentsOk(docs, k);
    var r := StreamStarts(c, docs[..k], Head(whole[given..]));
  }

  lemma FirstDocumentsOk(docs: seq<E.Document>, k: nat)
    requires DocumentsOk(docs) && k <= |docs|
    ensures DocumentsOk(docs[..k])
  {
  }

  /** A whole stream, event by event: what comes out is the tokens that spell it. */
  method EmitAll(c: Config, docs: seq<E.Document>) returns (out: Out)
    requires DocumentsOk(docs)
    ensures exists m: Machine :: Offline(c, E.StreamEvents(docs)) == Some(m) && Idle(m) && out == m.out
    ensures forall x: Choice :: EmittedTokens.Emits(c, x) ==> EmittedTokens.Spells(c, x, docs, out.text)
  {
    hide Handled, NodeOk, EmittedTokens.Emits, EmittedTokens.Spells;
    var all := E.StreamEvents(docs);
    ghost var m := StreamRuns(c, docs);
    var emitter := new Emitter(c, all);
    for i := 0 to |all|
      invariant fresh(emitter) && emitter.Valid() && emitter.given == i && emitter.whole == all && emitter.config == c
      invariant i == |all| ==> emitter.events == []
    {
      var ok := emitter.Emit(all[i]);
      assert ok;
      assert i == |all| - 1 ==> all[i] == E.StreamEnd;
    }
    out := emitter.out;
    assert all[..|all|] == all && all[|all|..] == [];
    forall x: Choice | EmittedTokens.Emits(c, x) ensures EmittedTokens.Spells(c, x, docs, out.text) {
      AllSpelled(c, x, docs);
    }
  }

  lemma AllSpelled(c: Config, x: Choice, docs: seq<E.Document>)
    requires EmittedTokens.Emits(c, x) && DocumentsOk(docs)
    ensures Offline(c, E.StreamEvents(docs)).Some?
            && EmittedTokens.Spells(c, x, docs, Offline(c, E.StreamEvents(docs)).value.out.text)
  {
    hide EmittedTokens.Emits, NodeOk, E.StreamEvents, EmittedTokens.StandFor;
    var end, l, tail, open := EmittedTokens.StreamSpells(c, x, docs);
  }
}
