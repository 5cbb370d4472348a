/** What the emitter writes in every run on a stream of documents: the tokens that spell them, in order, each of which
    the scanner starts where it stands. */
module EmittedTokens {
  import opened Options
  import opened Chars
  import opened EmitterMachine
  import opened EmitterOutput
  import opened EmitterStructure
  import opened EmittedTrees
  import opened ScalarPlaces
  import A = ScalarAnalysis
  import E = Events
  import O = OutputTokens
  import P = EmitterPlaces
  import R = ScalarReading
  import S = SyntaxTrees
  import T = TokenNesting
  import PlainScalars

  type Piece = O.Piece

  ghost predicate Emits(c: Config, x: Choice) { P.ConfigOk(c) && ScalarsCarried(c, x) && ChoiceOk(c, x) }

  /** The piece is what is written for the token: with its name or tag, and a scalar plain or not as it is. */
  ghost predicate Stands(c: Config, p: Piece, t: S.Lexed) {
    match t.kind
    case Alias => p.start.Alias? && p.text == [0x2A] + t.text
    case Anchor => p.start.Anchor? && p.text == [0x26] + t.text
    case Tag => p.start.Tag? && t.handle.None? && p.text == c.tagText(t.text)
    case Scalar => (O.IsFlowScalar(p.start) || O.IsBlockScalar(p.start)) && (p.start.PlainScalar? <==> t.plain)
    case FlowSequenceStart => p.start.FlowSequenceStart?
    case FlowMappingStart => p.start.FlowMappingStart?
    case FlowSequenceEnd => p.start.FlowSequenceEnd?
    case FlowMappingEnd => p.start.FlowMappingEnd?
    case FlowEntry => p.start.FlowEntry?
    case BlockEntry => p.start.BlockEntry?
    case Key => p.start.Key?
    case Value => p.start.Value?
    case DocumentStart => p.start.DocumentStart?
    case DocumentEnd => p.start.DocumentEnd?
    case _ => false
  }

  ghost predicate StandFor(c: Config, l: seq<Piece>, ts: seq<S.Lexed>) {
    |l| == |ts| && forall i :: 0 <= i < |l| ==> Stands(c, l[i], ts[i])
  }

  lemma StandJoin(c: Config, a: seq<Piece>, ts: seq<S.Lexed>, b: seq<Piece>, us: seq<S.Lexed>)
    requires StandFor(c, a, ts) && StandFor(c, b, us)
    ensures StandFor(c, a + b, ts + us)
  {
    hide Stands;
  }

  lemma StandOne(c: Config, p: Piece, t: S.Lexed)
    requires Stands(c, p, t)
    ensures StandFor(c, [p], [t])
  {
    hide Stands;
  }

  lemma StandNothing(c: Config)
    ensures StandFor(c, [], [])
  {
  }

  /** The machine has written the pieces, and its level is that of their brackets. */
  ghost predicate At(m: Machine, l: seq<Piece>) {
    O.Written(m.out, l) && O.Level(l) == m.flowLevel && m.flowLevel >= 0
  }

  /** The last piece ends a node on its line. */
  predicate NodeEnds(l: seq<Piece>) { l != [] && O.EndsNode(l[|l| - 1].start) }

  lemma LastOf(a: seq<Piece>, b: seq<Piece>)
    requires NodeEnds(b)
    ensures NodeEnds(a + b)
  {
  }

  lemma Assoc(a: seq<Piece>, b: seq<Piece>, d: seq<Piece>)
    ensures a + b + d == a + (b + d)
  {
  }

  /** The place says where the machine stands. */
  predicate PlaceIs(p: Place, m: Machine) {
    p.flow == (m.flowLevel > 0) && (!p.flow && p.context.mapping ==> p.clear == m.out.indention)
  }

  // Pieces.

  /** An indicator behind white space, or behind a space of its own. */
  lemma SignWritten(c: Config, m: Machine, l: seq<Piece>, text: Text, whitespace: bool, indention: bool, t: S.Lexed,
                    start: PlainScalars.TokenStart) returns (p: Piece)
    requires At(m, l) && text != [] && (whitespace ==> O.IsOpener(start))
    requires O.Proper(O.Piece([], text, start), O.Level(l) > 0) && Stands(c, O.Piece([], text, start), t)
    requires start.DocumentStart? || start.DocumentEnd? ==> O.NewLine(m.out)
    ensures O.Written(Writes(m, text, true, whitespace, indention).out, l + [p]) && p.start == start && Stands(c, p, t)
    ensures O.Level(l + [p]) == O.Level(l) + (if O.IsOpener(start) then 1 else if O.IsCloser(start) then -1 else 0)
  {
    hide O.Written, O.Proper, IsAnchor;
    p := O.IndicatorWritten(m.out, l, text, true, whitespace, indention, start);
    O.TextOfMore(l, p);
  }

  /** An indicator that touches what is in front of it. */
  lemma TouchWritten(c: Config, m: Machine, l: seq<Piece>, text: Text, t: S.Lexed, start: PlainScalars.TokenStart)
      returns (p: Piece)
    requires O.Written(m.out, l) && text != [] && O.Fits(m.out, l, start)
    requires O.Proper(O.Piece([], text, start), O.Level(l) > 0) && Stands(c, O.Piece([], text, start), t)
    requires !start.DocumentStart? && !start.DocumentEnd?
    ensures O.Written(Writes(m, text, false, false, false).out, l + [p]) && p.start == start && Stands(c, p, t)
    ensures O.Level(l + [p]) == O.Level(l) + (if O.IsOpener(start) then 1 else if O.IsCloser(start) then -1 else 0)
  {
    hide O.Written, O.Proper, IsAnchor, O.Fits;
    p := O.IndicatorWritten(m.out, l, text, false, false, false, start);
    O.TextOfMore(l, p);
  }

  lemma IndentAt(c: Config, m: Machine, l: seq<Piece>)
    requires At(m, l) && IsLineBreak(c.bestLineBreak)
    ensures At(WritesIndent(c, m), l) && WritesIndent(c, m).out.indention
    ensures IndentOf(m) == 0 ==> O.NewLine(WritesIndent(c, m).out)
  {
    hide O.Written, Indented;
    O.IndentWritten(m.out, l, c.bestLineBreak, IndentOf(m));
  }

  lemma WrapAt(c: Config, m: Machine, l: seq<Piece>)
    requires At(m, l) && IsLineBreak(c.bestLineBreak)
    ensures At(Wraps(c, m), l)
  {
    hide O.Written, Indented;
    IndentAt(c, m, l);
  }

  lemma LineBreakOk(c: Config, x: Choice)
    requires Emits(c, x)
    ensures IsLineBreak(c.bestLineBreak) && P.TagsOk(c) && c.bestIndent > 0
  {
    P.ConfigParts(c);
  }

  // A node: properties and content.

  lemma AnchorSpells(c: Config, m: Machine, l: seq<Piece>, anchor: E.Anchor) returns (more: seq<Piece>)
    requires At(m, l) && AnchorOk(anchor)
    ensures var r := WithAnchor(m, anchor, 0x26);
            && r.Some? && OutputOnly(m, r.value) && At(r.value, l + more)
            && StandFor(c, more, S.AnchorTokens(anchor))
            && r.value.out.indention == (m.out.indention && anchor.None?)
  {
    hide O.Written, IsAnchor;
    if anchor.Some? {
      AnchorIsText(anchor.value);
      var p := SignWritten(c, m, l, [0x26] + anchor.value, false, false, S.Sign(T.Anchor).(text := anchor.value),
                           PlainScalars.TokenStart.Anchor);
      more := [p];
      StandOne(c, p, S.Sign(T.Anchor).(text := anchor.value));
    } else {
      more := [];
      assert l + [] == l;
    }
  }

  lemma AnchorIsText(a: Text)
    requires IsAnchor(a)
    ensures a != [] && ([0x26] + a)[1..] == a && ([0x2A] + a)[1..] == a
  {
  }

  /** The machine behind a tag, or behind none. */
  function TagMachine(c: Config, m: Machine, tag: Option<Text>): Machine {
    if tag.None? then m else Writes(m, c.tagText(tag.value), true, false, false)
  }

  lemma TagPiece(c: Config, x: Choice, m: Machine, l: seq<Piece>, tag: Option<Text>) returns (more: seq<Piece>)
    requires Emits(c, x) && At(m, l) && (tag.Some? ==> tag.value != [])
    ensures var r := TagMachine(c, m, tag);
            && OutputOnly(m, r) && At(r, l + more) && r.out.indention == (m.out.indention && tag.None?)
            && StandFor(c, more, S.TagTokens(if tag.None? then None else Some(S.TagName(None, tag.value))))
  {
    hide O.Written, P.IsTagText, Emits, O.Level;
    if tag.None? {
      more := [];
      assert l + [] == l;
      StandNothing(c);
    } else {
      TagIsText(c, x, tag.value);
      var q := SignWritten(c, m, l, c.tagText(tag.value), false, false, S.Sign(T.Tag).(text := tag.value),
                           PlainScalars.TokenStart.Tag);
      more := [q];
      StandOne(c, q, S.Sign(T.Tag).(text := tag.value));
    }
  }

  lemma TagSpells(c: Config, x: Choice, m: Machine, l: seq<Piece>, n: E.Node, p: Place) returns (more: seq<Piece>)
    requires Emits(c, x) && NodeOk(n) && !n.AliasNode? && At(m, l) && m.context == p.context
    requires p.flow == (m.flowLevel > 0)
    ensures var r := WithTag(c, m, First(n));
            && r.Some? && OutputOnly(m, r.value) && At(r.value, l + more)
            && StandFor(c, more, S.TagTokens(PropertiesWritten(c, x, n, p).tag))
            && r.value.out.indention == (m.out.indention && TagWritten(c, x, n, p).None?)
  {
    WithTagIs(c, x, m, n, p);
    hide At, WithTag, NodeOk, TagWritten, Emits, OutputOnly, StandFor, TagMachine;
    more := TagPiece(c, x, m, l, TagWritten(c, x, n, p));
  }

  lemma WithTagIs(c: Config, x: Choice, m: Machine, n: E.Node, p: Place)
    requires Emits(c, x) && NodeOk(n) && !n.AliasNode? && m.context == p.context && p.flow == (m.flowLevel > 0)
    ensures WithTag(c, m, First(n)) == Some(TagMachine(c, m, TagWritten(c, x, n, p)))
    ensures TagWritten(c, x, n, p).Some? ==> TagWritten(c, x, n, p).value != []
  {
    TagDecided(c, x, m, n, p);
    hide OmitsTag, TagOmitted, Emits, Indicator;
    if !TagOmitted(c, x, n, p) { TagIsText(c, x, TagWritten(c, x, n, p).value); }
  }

  lemma TagIsText(c: Config, x: Choice, tag: Text)
    requires Emits(c, x) && tag != []
    ensures P.IsTagText(c.tagText(tag)) && c.tagText(tag) != []
  {
    LineBreakOk(c, x);
    assert P.IsTagText(c.tagText(tag));
  }

  /** The machine leaves the tag out, or writes it, as the place says. */
  lemma TagDecided(c: Config, x: Choice, m: Machine, n: E.Node, p: Place)
    requires ChoiceOk(c, x) && NodeOk(n) && !n.AliasNode? && m.context == p.context && p.flow == (m.flowLevel > 0)
    ensures OmitsTag(c, m, First(n)) <==> TagOmitted(c, x, n, p)
    ensures !TagOmitted(c, x, n, p) ==>
              var e := First(n);
              var tag := if e.Scalar? && e.plainImplicit && e.tag.None? then Some([0x21]) else e.tag;
              tag.Some? && tag.value != [] && tag == TagWritten(c, x, n, p)
  {
    hide IsAnchor, ItemsOk, PairsOk, StyleOf;
    if n.ScalarNode? {
      TagByStyle(c, x, m, First(n));
      PlainIsImplicit(c, x, First(n), p);
    }
  }

  /** Only what may be written without a tag is written plain. */
  lemma PlainIsImplicit(c: Config, x: Choice, e: E.Event, p: Place)
    requires e.Scalar?
    ensures StyleOf(c, x, e, p.context.simpleKey, p.flow).PlainStyle? ==> e.plainImplicit && !c.canonical
  {
    var a := A.AnalysisOf(e.value, x.allowUnicode);
    hide A.AnalysisOf;
    var style := StyleOf(c, x, e, p.context.simpleKey, p.flow);
    assert R.Usable(style, a, x.eventStyle(e), e.plainImplicit,
                    R.Place(p.flow, p.context.simpleKey, false, c.canonical));
  }


  lemma TaggedSpells(c: Config, x: Choice, m: Machine, l: seq<Piece>, n: E.Node, p: Place) returns (more: seq<Piece>)
    requires Emits(c, x) && NodeOk(n) && !n.AliasNode? && At(m, l) && m.context == p.context
    requires p.flow == (m.flowLevel > 0)
    ensures var r := Tagged(c, m, First(n));
            var a := PropertiesWritten(c, x, n, p);
            && r.Some? && OutputOnly(m, r.value) && At(r.value, l + more)
            && StandFor(c, more, S.PropertiesTokens(a))
            && r.value.out.indention == (m.out.indention && a.anchor.None? && a.tag.None?)
  {
    hide At, WithAnchor, WithTag, TagWritten, StandFor, ItemsOk, PairsOk, IsAnchor, S.AnchorTokens, S.TagTokens;
    var a := AnchorSpells(c, m, l, n.anchor);
    var q := WithAnchor(m, n.anchor, 0x26).value;
    var t := TagSpells(c, x, q, l + a, n, p);
    more := a + t;
    Assoc(l, a, t);
    StandJoin(c, a, S.AnchorTokens(n.anchor), t, S.TagTokens(PropertiesWritten(c, x, n, p).tag));
  }

  /** A key on one line and what is in brackets has no block scalar. */
  lemma StyleInLine(c: Config, x: Choice, n: E.Node, p: Place)
    requires n.ScalarNode? && (p.flow || p.context.simpleKey)
    ensures IsInline(StyleAt(c, x, n, p))
  {
    var e := First(n);
    var a := A.AnalysisOf(e.value, x.allowUnicode);
    hide A.AnalysisOf;
    var style := StyleOf(c, x, e, p.context.simpleKey, p.flow);
    assert R.Usable(style, a, x.eventStyle(e), e.plainImplicit,
                    R.Place(p.flow, p.context.simpleKey, false, c.canonical));
  }

  lemma UnwrittenAt(o: Out, q: Out, l: seq<Piece>)
    requires O.Written(o, l) && P.Unwritten(o, q)
    ensures O.Written(q, l)
  {
  }

  /** What the writer of scalars promises here: nothing is written, or the text of the scalar behind its space. */
  lemma ScalarPromise(c: Config, x: Choice, t: Machine, n: E.Node, p: Place, r: Machine)
    requires ScalarsCarried(c, x) && n.ScalarNode? && t.context == p.context && p.flow == (t.flowLevel > 0)
    requires ScalarWritten(c, t, First(n)) == Some(r)
    ensures
      var style := StyleAt(c, x, n, p);
      if n.value == [] && style.PlainStyle? then P.Unwritten(t.out, r.out)
      else
        && t.out.text + LeadOf(t.out) <= r.out.text && R.Shows(style, p.flow, WrittenText(t.out, r.out))
        && r.out.text == t.out.text + LeadOf(t.out) + WrittenText(t.out, r.out)
        && (r.out.whitespace ==> !IsInline(style))
  {
    hide R.Shows, R.ReadsExactly, R.IsCarried, StyleOf;
    assert CarriedAt(c, x, t.out, First(n), t.indent, t.context, t.flowLevel > 0, -1);
  }

  lemma ScalarSpells(c: Config, x: Choice, t: Machine, l: seq<Piece>, n: E.Node, p: Place)
    returns (r: Machine, more: seq<Piece>)
    requires Emits(c, x) && n.ScalarNode? && At(t, l) && t.context == p.context && p.flow == (t.flowLevel > 0)
    requires t.states != [] && (p.context.simpleKey ==> n.value != [])
    ensures ScalarWritten(c, t, First(n)) == Some(r) && Returned(t, r)
    ensures At(r, l + more) && StandFor(c, more, S.WrittenBody(BodyOf(c, x, n, p)))
    ensures p.flow || p.context.simpleKey ==> NodeEnds(more)
  {
    hide O.Written, StyleAt, O.Level;
    var e, style := First(n), StyleAt(c, x, n, p);
    ScalarReturns(c, t, e);
    r := ScalarWritten(c, t, e).value;
    ScalarPromise(c, x, t, n, p, r);
    if p.flow && n.value == [] { EmptyIsQuoted(c, x, n, p); }
    if n.value == [] && style.PlainStyle? {
      UnwrittenAt(t.out, r.out, l);
      more := [];
      assert l + [] == l;
      StandNothing(c);
    } else {
      more := ScalarPiece(c, t.out, r.out, l, n.value, style, p.flow);
      if p.flow || p.context.simpleKey { StyleInLine(c, x, n, p); }
    }
  }

  lemma ScalarPiece(c: Config, o: Out, q: Out, l: seq<Piece>, value: Text, style: R.ScalarStyle, flow: bool)
      returns (more: seq<Piece>)
    requires O.Written(o, l) && flow == (O.Level(l) > 0) && o.text + LeadOf(o) <= q.text
    requires R.Shows(style, flow, WrittenText(o, q)) && q.text == o.text + LeadOf(o) + WrittenText(o, q)
    requires q.whitespace ==> !IsInline(style)
    ensures O.Written(q, l + more) && O.Level(l + more) == O.Level(l)
    ensures StandFor(c, more, [S.Sign(T.Scalar).(text := value, plain := style.PlainStyle?)])
    ensures IsInline(style) ==> NodeEnds(more)
  {
    hide O.Written, O.Level, R.Shows;
    StartIsScalar(style);
    var p := O.ScalarWritten(o, l, WrittenText(o, q), q, style);
    more := [p];
    O.TextOfMore(l, p);
    StandOne(c, p, S.Sign(T.Scalar).(text := value, plain := style.PlainStyle?));
  }

  lemma StartIsScalar(style: R.ScalarStyle)
    ensures var k := R.StartOf(style);
            && (O.IsFlowScalar(k) || O.IsBlockScalar(k)) && (k.PlainScalar? <==> style.PlainStyle?)
            && (IsInline(style) <==> O.IsFlowScalar(k)) && !O.IsOpener(k) && !O.IsCloser(k)
  {
  }

  lemma AliasSpells(c: Config, m: Machine, l: seq<Piece>, n: E.Node) returns (r: Machine, more: seq<Piece>)
    requires n.AliasNode? && NodeOk(n) && At(m, l) && m.states != []
    ensures AliasWritten(m, n.name) == Some(r) && Returned(m, r)
    ensures At(r, l + more) && StandFor(c, more, [S.Sign(T.Alias).(text := n.name.value)]) && NodeEnds(more)
  {
    hide O.Written, IsAnchor;
    AnchorIsText(n.name.value);
    var t := S.Sign(T.Alias).(text := n.name.value);
    var p := SignWritten(c, m, l, [0x2A] + n.name.value, false, false, t, PlainScalars.TokenStart.Alias);
    more := [p];
    StandOne(c, p, t);
    r := AliasWritten(m, n.name).value;
  }

  /** '[' or '{': the machine is inside, and so are the pieces. */
  lemma BracketSpells(c: Config, t: Machine, l: seq<Piece>, bracket: Char, state: State) returns (more: seq<Piece>)
    requires At(t, l) && (bracket == 0x5B || bracket == 0x7B)
    ensures var r := OpensFlow(c, t, bracket, state);
            && r.state == state && Inside(t, r, true) && At(r, l + more)
            && StandFor(c, more, [S.Sign(if bracket == 0x5B then T.FlowSequenceStart else T.FlowMappingStart)])
            && more != [] && O.IsOpener(more[|more| - 1].start)
  {
    hide O.Written;
    var sign := S.Sign(if bracket == 0x5B then T.FlowSequenceStart else T.FlowMappingStart);
    var start := if bracket == 0x5B
        then PlainScalars.TokenStart.FlowSequenceStart else PlainScalars.TokenStart.FlowMappingStart;
    var p := SignWritten(c, t, l, [bracket], true, false, sign, start);
    more := [p];
    StandOne(c, p, sign);
  }

  /** Content opens brackets exactly where the place says. */
  lemma ContentDecided(c: Config, t: Machine, n: E.Node, next: Option<E.Event>, p: Place)
    requires (n.SequenceNode? || n.MappingNode?) && p.flow == (t.flowLevel > 0) && t.flowLevel >= 0
    ensures var e, after := First(n), Second(n, next);
            if n.SequenceNode? then
              Content(c, t, e, after)
              == Some(if InBrackets(c, n, p) then OpensFlow(c, t, 0x5B, ExpectFirstFlowSequenceItem)
                      else Increased(c, t, false, t.context.mapping && !t.out.indention)
                           .(state := ExpectFirstBlockSequenceItem))
            else
              Content(c, t, e, after)
              == Some(if InBrackets(c, n, p) then OpensFlow(c, t, 0x7B, ExpectFirstFlowMappingKey)
                      else Increased(c, t, false, false).(state := ExpectFirstBlockMappingKey))
  {
    hide OpensFlow, Increased;
    SecondOfCollection(n, next);
  }

  /** The event behind the start of a collection is its end exactly if it is empty. */
  lemma SecondOfCollection(n: E.Node, next: Option<E.Event>)
    requires n.SequenceNode? || n.MappingNode?
    ensures n.SequenceNode? ==> (Second(n, next) == Some(E.SequenceEnd) <==> n.items.NoNodes?)
    ensures n.MappingNode? ==> (Second(n, next) == Some(E.MappingEnd) <==> n.pairs.NoPairs?)
  {
    NodeSplits(n);
    if n.SequenceNode? && n.items.MoreNodes? {
      NodeSplits(n.items.head);
      FirstIsNoEnd(n.items.head);
    }
    if n.MappingNode? && n.pairs.MorePairs? {
      NodeSplits(n.pairs.key);
      FirstIsNoEnd(n.pairs.key);
    }
  }

  lemma FirstIsNoEnd(n: E.Node)
    ensures !First(n).SequenceEnd? && !First(n).MappingEnd?
  {
  }

  // Whole nodes.

  /** An alias or a scalar; a collection, behind its properties. */
  lemma {:induction false} NodeSpells(c: Config, x: Choice, m: Machine, l: seq<Piece>, n: E.Node,
                                      next: Option<E.Event>, p: Place) returns (r: Machine, more: seq<Piece>)
    requires Emits(c, x) && NodeOk(n) && m.states != [] && At(m, l) && PlaceIs(p, m)
    requires p.context.simpleKey ==> IsSimpleKey(c, First(n), Second(n, next))
    ensures Returned(m, r)
    ensures
      var entered := Node(c, m, First(n), Second(n, next), p.context);
      && entered.Some? && Handled(c, entered.value, E.NodeEvents(n)[1..], next) == Some(r)
      && (n.SequenceNode? && !InBrackets(c, n, p) ==>
            entered.value.indent == Deeper(m.indent, c.bestIndent, false, Indentless(c, x, n, p)))
    ensures At(r, l + more) && StandFor(c, more, S.Written(PhraseOf(c, x, n, p)))
    ensures p.flow || p.context.simpleKey ==> NodeEnds(more)
    decreases n, 1
  {
    hide At, Emits, StandFor, S.PropertiesTokens, S.WrittenBody, PropertiesWritten, BodyOf, NodeOk, Tagged, Content,
         AliasWritten, IsSimpleKey, Indentless, NodeEnds, InBrackets, Returned, Handled, E.NodeEvents, Inside, Deeper;
    var k := m.(context := p.context);
    ContextOnly(m, k, l);
    KeyHasValue(c, n, next, p);
    FirstKind(n);
    if n.AliasNode? {
      r, more := AliasSpells(c, k, l, n);
      LeafHandled(c, n, r, next);
      NameGiven(n);
    } else {
      var a := TaggedSpells(c, x, k, l, n, p);
      var t := Tagged(c, k, First(n)).value;
      var body: seq<Piece>;
      if n.ScalarNode? {
        r, body := ScalarSpells(c, x, t, l + a, n, p);
        LeafHandled(c, n, r, next);
        ScalarContent(c, t, First(n), Second(n, next));
      } else {
        r, body := CollectionSpells(c, x, t, l + a, n, next, p);
        if n.SequenceNode? && !InBrackets(c, n, p) { IndentlessDecided(c, x, m, t, n, p); }
      }
      more := a + body;
      Assoc(l, a, body);
      StandJoin(c, a, S.PropertiesTokens(PropertiesWritten(c, x, n, p)), body, S.WrittenBody(BodyOf(c, x, n, p)));
      if p.flow || p.context.simpleKey { LastOf(a, body); }
      ReturnedThrough(m, t, r);
    }
  }

  lemma ContextOnly(m: Machine, k: Machine, l: seq<Piece>)
    requires k == m.(context := k.context) && At(m, l)
    ensures At(k, l) && OutputOnly(m.(context := k.context), k)
    ensures forall r: Machine :: Returned(k, r) <==> Returned(m, r)
  {
  }

  lemma ReturnedThrough(m: Machine, t: Machine, r: Machine)
    requires t.states == m.states && SameLevel(m, t) && Returned(t, r)
    ensures Returned(m, r)
  {
  }

  lemma FirstKind(n: E.Node)
    ensures match n
            case AliasNode(name) => First(n) == E.Alias(name)
            case ScalarNode(_, _, _, _, _) => First(n).Scalar?
            case SequenceNode(_, _, _, _, _) => First(n).SequenceStart?
            case MappingNode(_, _, _, _, _) => First(n).MappingStart?
  {
  }

  lemma ScalarContent(c: Config, t: Machine, e: E.Event, next: Option<E.Event>)
    requires e.Scalar?
    ensures Content(c, t, e, next) == ScalarWritten(c, t, e)
  {
  }

  lemma NameGiven(n: E.Node)
    requires n.AliasNode? && NodeOk(n)
    ensures n.name.Some?
  {
  }

  lemma LeafHandled(c: Config, n: E.Node, r: Machine, next: Option<E.Event>)
    requires n.AliasNode? || n.ScalarNode?
    ensures Handled(c, r, E.NodeEvents(n)[1..], next) == Some(r)
  {
    NodeSplits(n);
  }

  /** A scalar that is a simple key is not empty, and a collection that is one is. */
  lemma KeyHasValue(c: Config, n: E.Node, next: Option<E.Event>, p: Place)
    requires p.context.simpleKey ==> IsSimpleKey(c, First(n), Second(n, next))
    ensures p.context.simpleKey && n.ScalarNode? ==> n.value != []
    ensures p.context.simpleKey && (n.SequenceNode? || n.MappingNode?) ==> InBrackets(c, n, p)
  {
    if n.SequenceNode? || n.MappingNode? { SecondOfCollection(n, next); }
  }

  lemma IndentlessDecided(c: Config, x: Choice, m: Machine, t: Machine, n: E.Node, p: Place)
    requires n.SequenceNode? && PlaceIs(p, m) && !InBrackets(c, n, p) && t.context == p.context
    requires var a := PropertiesWritten(c, x, n, p);
             t.out.indention == (m.out.indention && a.anchor.None? && a.tag.None?)
    ensures (t.context.mapping && !t.out.indention) == Indentless(c, x, n, p)
  {
    hide TagWritten;
  }

  /** A collection behind its properties: its brackets and entries, or its lines. */
  lemma {:induction false} CollectionSpells(c: Config, x: Choice, t: Machine, l: seq<Piece>, n: E.Node,
                                            next: Option<E.Event>, p: Place) returns (r: Machine, more: seq<Piece>)
    requires Emits(c, x) && NodeOk(n) && (n.SequenceNode? || n.MappingNode?) && t.states != [] && At(t, l)
    requires p.flow == (t.flowLevel > 0) && (p.context.simpleKey ==> InBrackets(c, n, p))
    ensures Returned(t, r)
    ensures
      var entered := Content(c, t, First(n), Second(n, next));
      && entered.Some? && Handled(c, entered.value, E.NodeEvents(n)[1..], next) == Some(r)
      && (n.SequenceNode? && !InBrackets(c, n, p) ==>
            entered.value.indent == Deeper(t.indent, c.bestIndent, false, t.context.mapping && !t.out.indention))
    ensures At(r, l + more) && StandFor(c, more, S.WrittenBody(BodyOf(c, x, n, p)))
    ensures p.flow || p.context.simpleKey ==> NodeEnds(more)
    decreases n, 0
  {
    hide O.Written, Emits, StandFor, Content, NodeEnds, InBrackets, Returned, Handled, OpensFlow, Deeper, StyleAt,
         EntriesFor, ItemsFor, FlowPairsFor, BlockPairsFor, S.WrittenEntries, S.WrittenItems, S.WrittenFlowPairs,
         S.WrittenBlockPairs, Indentless, ItemsOk, PairsOk, IsAnchor;
    NodeSplits(n);
    ContentDecided(c, t, n, next, p);
    var e := Content(c, t, First(n), Second(n, next)).value;
    hide E.NodeEvents;
    if InBrackets(c, n, p) {
      var bracket := if n.SequenceNode? then 0x5B else 0x7B;
      var open := BracketSpells(c, t, l, bracket, if n.SequenceNode? then ExpectFirstFlowSequenceItem
                                                  else ExpectFirstFlowMappingKey);
      var inner: seq<Piece>;
      OpenedLast(l, open);
      if n.SequenceNode? {
        r, inner := ItemsSpell(c, x, t, e, l + open, n.items, next);
        StandJoin(c, open, [S.Sign(T.FlowSequenceStart)], inner,
                  S.WrittenEntries(EntriesFor(c, x, n.items, true), true));
      } else {
        r, inner := PairsSpell(c, x, t, e, l + open, n.pairs, next);
        StandJoin(c, open, [S.Sign(T.FlowMappingStart)], inner,
                  S.WrittenFlowPairs(FlowPairsFor(c, x, n.pairs, true), true));
      }
      more := open + inner;
      Assoc(l, open, inner);
      LastOf(open, inner);
    } else if n.SequenceNode? {
      NotEmpty(c, n, p);
      r, more := ItemsSpell(c, x, t, e, l, n.items, next);
    } else {
      NotEmpty(c, n, p);
      r, more := PairsSpell(c, x, t, e, l, n.pairs, next);
    }
  }

  lemma NotEmpty(c: Config, n: E.Node, p: Place)
    requires (n.SequenceNode? || n.MappingNode?) && !InBrackets(c, n, p)
    ensures !p.flow && (n.SequenceNode? ==> n.items.MoreNodes?) && (n.MappingNode? ==> n.pairs.MorePairs?)
  {
  }

  lemma OpenedLast(l: seq<Piece>, open: seq<Piece>)
    requires open != [] && O.IsOpener(open[|open| - 1].start)
    ensures l + open != [] && O.IsOpener((l + open)[|l + open| - 1].start)
  {
  }

  /** A node in front of other events, in a state that pushes another one and expects it. */
  lemma {:induction false} StepSpells(c: Config, x: Choice, e: Machine, q: Machine, l: seq<Piece>, n: E.Node,
                                      rest: seq<E.Event>, next: Option<E.Event>, p: Place)
    returns (r: Machine, more: seq<Piece>)
    requires Emits(c, x) && NodeOk(n) && q.states != [] && rest != [] && At(q, l) && PlaceIs(p, q)
    requires p.context.simpleKey ==> IsSimpleKey(c, First(n), Second(n, Some(rest[0])))
    requires Handle(c, e, First(n), Second(n, Some(rest[0])))
             == Node(c, q, First(n), Second(n, Some(rest[0])), p.context)
    ensures Returned(q, r) && Handled(c, e, E.NodeEvents(n) + rest, next) == Handled(c, r, rest, next)
    ensures At(r, l + more) && StandFor(c, more, S.Written(PhraseOf(c, x, n, p)))
    ensures p.flow || p.context.simpleKey ==> NodeEnds(more)
    decreases n, 2
  {
    hide Node, Handle, NodeOk, Handled, E.NodeEvents, At, Emits, StandFor, IsSimpleKey, InBrackets, Indentless,
         PhraseOf, S.Written, Returned;
    r, more := NodeSpells(c, x, q, l, n, Some(rest[0]), p);
    NodeInFront(n, rest);
    HandledStep(c, e, E.NodeEvents(n) + rest, next);
    var entered := Node(c, q, First(n), Second(n, Some(rest[0])), p.context).value;
    HandledJoin(c, entered, E.NodeEvents(n)[1..], rest, next);
  }

  /** What stands in front of an entry: an opening bracket, or the entry before; nothing matters in a block. */
  predicate InFront(s: State, l: seq<Piece>) {
    match s
    case ExpectFirstFlowSequenceItem | ExpectFirstFlowMappingKey => l != [] && O.IsOpener(l[|l| - 1].start)
    case ExpectFlowSequenceItem | ExpectFlowMappingKey | ExpectFlowMappingSimpleValue | ExpectFlowMappingValue =>
      NodeEnds(l)
    case ExpectBlockMappingSimpleValue => NodeEnds(l)
    case _ => true
  }

  predicate LevelIs(e: Machine) { e.flowLevel >= 0 && (IsFlowState(e.state) <==> e.flowLevel > 0) }

  predicate IsFirst(s: State) { s.ExpectFirstFlowSequenceItem? || s.ExpectFirstFlowMappingKey? }

  ghost function ItemsTokens(c: Config, x: Choice, items: E.Nodes, s: State): seq<S.Lexed> {
    if IsFlowState(s) then S.WrittenEntries(EntriesFor(c, x, items, IsFirst(s)), IsFirst(s))
    else S.WrittenItems(ItemsFor(c, x, items))
  }

  /** An empty scalar without properties is written as nothing. */
  lemma SlotIsPhrase(c: Config, x: Choice, n: E.Node, p: Place)
    ensures S.WrittenSlot(SlotFor(c, x, n, p)) == S.Written(PhraseOf(c, x, n, p))
  {
    var f := PhraseOf(c, x, n, p);
    hide PhraseOf;
    if IsBare(f) { BareIsNothing(f); }
  }

  lemma BareIsNothing(f: S.Phrase)
    requires IsBare(f)
    ensures S.Written(f) == []
  {
    assert S.PropertiesTokens(f.properties) == [];
  }

  lemma ItemsSplit(c: Config, x: Choice, items: E.Nodes, s: State, next: State)
    requires items.MoreNodes? && IsFlowState(next) == IsFlowState(s) && !IsFirst(next)
    ensures
      var flow := IsFlowState(s);
      ItemsTokens(c, x, items, s)
      == (if flow then S.Comma(IsFirst(s)) else [S.Sign(T.BlockEntry)])
         + S.Written(PhraseOf(c, x, items.head, ItemPlace(flow))) + ItemsTokens(c, x, items.tail, next)
  {
    SlotIsPhrase(c, x, items.head, ItemPlace(false));
    hide PhraseOf, SlotFor, S.Written, S.WrittenSlot;
  }

  /** The comma, or the line with '-', in front of an item. */
  lemma ItemPrefix(c: Config, x: Choice, e: Machine, l: seq<Piece>, n: E.Node, next: Option<E.Event>)
      returns (q: Machine, pre: seq<Piece>)
    requires Emits(c, x) && AtItem(e.state, true) && At(e, l) && InFront(e.state, l) && LevelIs(e)
    ensures
      var flow := IsFlowState(e.state);
      && Before(e, q, if flow then ExpectFlowSequenceItem else ExpectBlockSequenceItem) && q.states != []
      && Handle(c, e, First(n), next) == Node(c, q, First(n), next, ITEM)
      && At(q, l + pre) && PlaceIs(ItemPlace(flow), q)
      && StandFor(c, pre, if flow then S.Comma(IsFirst(e.state)) else [S.Sign(T.BlockEntry)])
  {
    hide Node, O.Written, Indicator, Indented, Emits;
    FirstIsNoEnd(n);
    LineBreakOk(c, x);
    var w: Machine;
    if IsFlowState(e.state) {
      pre := CommaWritten(c, e, l, IsFirst(e.state));
      var a := if IsFirst(e.state) then e else Writes(e, [COMMA], false, false, false);
      WrapAt(c, a, l + pre);
      w := Wraps(c, a);
      WrapOnly(c, a);
    } else {
      IndentAt(c, e, l);
      var p := SignWritten(c, WritesIndent(c, e), l, [DASH], false, true, S.Sign(T.BlockEntry),
                           PlainScalars.TokenStart.BlockEntry);
      pre := [p];
      StandOne(c, p, S.Sign(T.BlockEntry));
      w := Writes(WritesIndent(c, e), [DASH], true, false, true);
      KeepsIndention(WritesIndent(c, e), [DASH]);
    }
    q := Pushed(w, if IsFlowState(e.state) then ExpectFlowSequenceItem else ExpectBlockSequenceItem);
    Pushes(e, w, if IsFlowState(e.state) then ExpectFlowSequenceItem else ExpectBlockSequenceItem);
  }

  lemma KeepsIndention(m: Machine, text: Text)
    ensures Writes(m, text, true, false, true).out.indention == m.out.indention
    ensures !Writes(m, text, false, false, false).out.indention
  {
  }

  lemma WrapOnly(c: Config, m: Machine)
    ensures Wraps(c, m).states == m.states && SameLevel(m, Wraps(c, m))
  {
  }

  /** The comma of all entries but the first one. */
  lemma CommaWritten(c: Config, e: Machine, l: seq<Piece>, first: bool) returns (pre: seq<Piece>)
    requires At(e, l) && e.flowLevel > 0 && (!first ==> NodeEnds(l))
    ensures At(if first then e else Writes(e, [COMMA], false, false, false), l + pre)
    ensures StandFor(c, pre, S.Comma(first))
  {
    hide O.Written;
    if first {
      pre := [];
      assert l + [] == l;
      StandNothing(c);
    } else {
      var p := TouchWritten(c, e, l, [COMMA], S.Sign(T.FlowEntry), PlainScalars.TokenStart.FlowEntry);
      pre := [p];
      StandOne(c, p, S.Sign(T.FlowEntry));
    }
  }

  /** The bracket behind the last entry, and in canonical form a comma and a line in front of it. */
  lemma FlowEnds(c: Config, x: Choice, m: Machine, e: Machine, l: seq<Piece>, bracket: Char, first: bool)
      returns (r: Machine, more: seq<Piece>)
    requires Emits(c, x) && m.states != [] && Inside(m, e, true) && At(e, l) && e.flowLevel > 0
    requires bracket == 0x5D || bracket == 0x7D
    requires if first then l != [] && O.IsOpener(l[|l| - 1].start) else NodeEnds(l)
    ensures FlowEnd(c, e, bracket, first) == Some(r) && Returned(m, r) && At(r, l + more) && NodeEnds(more)
    ensures StandFor(c, more, S.Comma(!(c.canonical && !first))
                              + [S.Sign(if bracket == 0x5D then T.FlowSequenceEnd else T.FlowMappingEnd)])
  {
    hide O.Written, Indicator, Indented, Emits, FlowEnd, Returned, O.Level, O.TextOf;
    LineBreakOk(c, x);
    BracketReturns(c, m, e, bracket, first);
    var n := IndentPopped(e).value.(flowLevel := e.flowLevel - 1);
    var sign := S.Sign(if bracket == 0x5D then T.FlowSequenceEnd else T.FlowMappingEnd);
    r := FlowEnd(c, e, bracket, first).value;
    if c.canonical && !first {
      var comma := CommaWritten(c, e, l, false);
      var a := Writes(e, [COMMA], false, false, false);
      KeepsIndention(e, [COMMA]);
      IndentGrows(c, a, l + comma, IndentOf(n));
      more := BracketWritten(c, WritesIndent(c, Writes(n, [COMMA], false, false, false)), l, comma, bracket);
      StandJoin(c, comma, S.Comma(false), more[|comma|..], [sign]);
    } else {
      assert l + [] == l;
      more := BracketWritten(c, n, l, [], bracket);
      assert [] + [sign] == [sign];
    }
  }

  /** What the closing bracket does to the stacks, and where it is written. */
  lemma BracketReturns(c: Config, m: Machine, e: Machine, bracket: Char, first: bool)
    requires m.states != [] && Inside(m, e, true)
    ensures
      var r := FlowEnd(c, e, bracket, first);
      var n := IndentPopped(e);
      && n.Some? && r.Some? && Returned(m, r.value) && r.value.flowLevel == e.flowLevel - 1
      && r.value.out == Writes(if c.canonical && !first
                               then WritesIndent(c, Writes(n.value.(flowLevel := e.flowLevel - 1), [COMMA], false,
                                                           false, false))
                               else n.value.(flowLevel := e.flowLevel - 1), [bracket], false, false, false).out
      && n.value.out == e.out
  {
    hide Indicator, Indented;
    assert e.indents[..|e.indents| - 1] == m.indents;
  }

  lemma BracketWritten(c: Config, o: Machine, l: seq<Piece>, before: seq<Piece>, bracket: Char)
      returns (more: seq<Piece>)
    requires O.Written(o.out, l + before) && (bracket == 0x5D || bracket == 0x7D) && O.Level(l + before) > 0
    requires |O.TextOf(l + before)| < |o.out.text|
             || (l + before != [] && (O.IsOpener((l + before)[|l + before| - 1].start) || NodeEnds(l + before)))
    ensures before <= more && more == before + more[|before|..] && |more| == |before| + 1 && NodeEnds(more)
    ensures O.Written(Writes(o, [bracket], false, false, false).out, l + more)
    ensures O.Level(l + more) == O.Level(l + before) - 1
    ensures StandFor(c, more[|before|..], [S.Sign(if bracket == 0x5D then T.FlowSequenceEnd else T.FlowMappingEnd)])
  {
    hide O.Written, Indicator, O.Level, O.TextOf;
    var sign := S.Sign(if bracket == 0x5D then T.FlowSequenceEnd else T.FlowMappingEnd);
    var start := if bracket == 0x5D then PlainScalars.TokenStart.FlowSequenceEnd
                 else PlainScalars.TokenStart.FlowMappingEnd;
    var p := TouchWritten(c, o, l + before, [bracket], sign, start);
    more := before + [p];
    Assoc(l, before, [p]);
    StandOne(c, p, sign);
    assert more[|before|..] == [p];
  }

  /** A new line, at whatever indentation. */
  lemma IndentGrows(c: Config, m: Machine, l: seq<Piece>, indent: nat)
    requires At(m, l) && !m.out.indention && IsLineBreak(c.bestLineBreak)
    ensures var o := Indented(m.out, c.bestLineBreak, indent); O.Written(o, l) && |O.TextOf(l)| < |o.text|
  {
    O.IndentWritten(m.out, l, c.bestLineBreak, indent);
  }

  lemma ItemsEnd(c: Config, x: Choice, m: Machine, e: Machine, l: seq<Piece>, next: Option<E.Event>)
      returns (r: Machine, more: seq<Piece>)
    requires Emits(c, x) && m.states != [] && AtItem(e.state, false) && Inside(m, e, IsFlowState(e.state))
    requires At(e, l) && InFront(e.state, l) && LevelIs(e)
    ensures Returned(m, r) && Handle(c, e, E.SequenceEnd, next) == Some(r) && At(r, l + more)
    ensures StandFor(c, more, ItemsTokens(c, x, E.NoNodes, e.state)) && (IsFlowState(e.state) ==> NodeEnds(more))
  {
    hide Node, O.Written, Indicator, Indented, Emits, FlowEnd;
    if IsFlowState(e.state) {
      r, more := FlowEnds(c, x, m, e, l, 0x5D, IsFirst(e.state));
    } else {
      assert e.indents[..|e.indents| - 1] == m.indents;
      r := Handle(c, e, E.SequenceEnd, next).value;
      more := [];
      assert l + [] == l;
      StandNothing(c);
    }
  }

  lemma {:induction false} ItemsSpell(c: Config, x: Choice, m: Machine, e: Machine, l: seq<Piece>, items: E.Nodes,
                                      next: Option<E.Event>) returns (r: Machine, more: seq<Piece>)
    requires Emits(c, x) && ItemsOk(items) && m.states != [] && At(e, l) && InFront(e.state, l) && LevelIs(e)
    requires AtItem(e.state, items.MoreNodes?) && Inside(m, e, IsFlowState(e.state))
    ensures Returned(m, r) && Handled(c, e, E.ItemsEvents(items) + [E.SequenceEnd], next) == Some(r)
    ensures At(r, l + more) && StandFor(c, more, ItemsTokens(c, x, items, e.state))
    ensures IsFlowState(e.state) ==> NodeEnds(more)
    decreases items, 0
  {
    hide Node, NodeOk, Handle, Inside, Handled, At, Emits, StandFor, ItemsTokens, NodeEnds, PhraseOf, S.Written,
         Returned;
    if items.NoNodes? {
      assert [] + [E.SequenceEnd] == [E.SequenceEnd];
      HandledStep(c, e, [E.SequenceEnd], next);
      r, more := ItemsEnd(c, x, m, e, l, next);
      NothingHandled(c, r, [E.SequenceEnd], next);
    } else {
      var rest := E.ItemsEvents(items.tail) + [E.SequenceEnd];
      assert E.ItemsEvents(items) + [E.SequenceEnd] == E.NodeEvents(items.head) + rest;
      var flow := IsFlowState(e.state);
      var s := if flow then ExpectFlowSequenceItem else ExpectBlockSequenceItem;
      var q, pre := ItemPrefix(c, x, e, l, items.head, Second(items.head, Some(rest[0])));
      var k, node := StepSpells(c, x, e, q, l + pre, items.head, rest, next, ItemPlace(flow));
      Passed(m, e, q, k, s, flow);
      if flow { LastOf(l + pre, node); }
      LevelPassed(e, q, k);
      var others: seq<Piece>;
      r, others := ItemsSpell(c, x, m, k, l + pre + node, items.tail, next);
      more := pre + node + others;
      Join(l, pre, node, others);
      if flow { LastOf(pre + node, others); }
      ItemsSplit(c, x, items, e.state, s);
      StandJoin(c, pre, if flow then S.Comma(IsFirst(e.state)) else [S.Sign(T.BlockEntry)], node,
                S.Written(PhraseOf(c, x, items.head, ItemPlace(flow))));
      StandJoin(c, pre + node, (if flow then S.Comma(IsFirst(e.state)) else [S.Sign(T.BlockEntry)])
                               + S.Written(PhraseOf(c, x, items.head, ItemPlace(flow))),
                others, ItemsTokens(c, x, items.tail, s));
    }
  }

  lemma Join(l: seq<Piece>, pre: seq<Piece>, node: seq<Piece>, others: seq<Piece>)
    ensures l + pre + node + others == l + (pre + node + others)
  {
  }

  lemma LevelPassed(e: Machine, q: Machine, k: Machine)
    requires LevelIs(e) && SameLevel(e, q) && Returned(q, k) && IsFlowState(k.state) == IsFlowState(e.state)
    ensures LevelIs(k)
  {
  }

  // Mappings.

  ghost function PairsTokens(c: Config, x: Choice, pairs: E.Pairs, s: State): seq<S.Lexed> {
    if IsFlowState(s) then S.WrittenFlowPairs(FlowPairsFor(c, x, pairs, IsFirst(s)), IsFirst(s))
    else S.WrittenBlockPairs(BlockPairsFor(c, x, pairs))
  }

  /** The comma and the '?' in front of a key, where they are written. */
  function KeySigns(s: State, simple: bool): seq<S.Lexed> {
    (if IsFlowState(s) then S.Comma(IsFirst(s)) else []) + S.WrittenKey(!simple)
  }

  lemma PairsSplit(c: Config, x: Choice, pairs: E.Pairs, s: State, next: State)
    requires pairs.MorePairs? && IsFlowState(next) == IsFlowState(s) && !IsFirst(next)
    ensures
      var flow, simple := IsFlowState(s), Simple(c, pairs.key, IsFlowState(s));
      PairsTokens(c, x, pairs, s)
      == KeySigns(s, simple) + S.Written(PhraseOf(c, x, pairs.key, KeyPlace(simple, flow)))
         + ([S.Sign(T.Value)] + S.Written(PhraseOf(c, x, pairs.value, ValuePlace(simple, flow))))
         + PairsTokens(c, x, pairs.tail, next)
  {
    var flow, simple := IsFlowState(s), Simple(c, pairs.key, IsFlowState(s));
    SlotIsPhrase(c, x, pairs.key, KeyPlace(simple, flow));
    SlotIsPhrase(c, x, pairs.value, ValuePlace(simple, flow));
    hide PhraseOf, SlotFor, S.Written, S.WrittenSlot, Simple, S.WrittenFlowPairs, S.WrittenBlockPairs, FlowPairsFor,
         BlockPairsFor;
    if flow {
      FlowPairsSplit(c, x, pairs, IsFirst(s));
    } else {
      BlockPairsSplit(c, x, pairs);
    }
  }

  lemma FlowPairsSplit(c: Config, x: Choice, pairs: E.Pairs, first: bool)
    requires pairs.MorePairs?
    ensures
      var simple := Simple(c, pairs.key, true);
      S.WrittenFlowPairs(FlowPairsFor(c, x, pairs, first), first)
      == S.Comma(first) + S.WrittenKey(!simple) + S.WrittenSlot(SlotFor(c, x, pairs.key, KeyPlace(simple, true)))
         + ([S.Sign(T.Value)] + S.WrittenSlot(SlotFor(c, x, pairs.value, ValuePlace(simple, true))))
         + S.WrittenFlowPairs(FlowPairsFor(c, x, pairs.tail, false), false)
  {
    hide SlotFor, S.WrittenSlot, Simple;
  }

  lemma BlockPairsSplit(c: Config, x: Choice, pairs: E.Pairs)
    requires pairs.MorePairs?
    ensures
      var simple := Simple(c, pairs.key, false);
      S.WrittenBlockPairs(BlockPairsFor(c, x, pairs))
      == [] + S.WrittenKey(!simple) + S.WrittenSlot(SlotFor(c, x, pairs.key, KeyPlace(simple, false)))
         + ([S.Sign(T.Value)] + S.WrittenSlot(SlotFor(c, x, pairs.value, ValuePlace(simple, false))))
         + S.WrittenBlockPairs(BlockPairsFor(c, x, pairs.tail))
  {
    hide SlotFor, S.WrittenSlot, Simple;
    assert [] + S.WrittenKey(!Simple(c, pairs.key, false)) == S.WrittenKey(!Simple(c, pairs.key, false));
  }

  /** Whether a key is simple does not depend on the event behind it, unless it is a collection. */
  lemma SimpleDecided(c: Config, n: E.Node, after: Option<E.Event>)
    ensures IsSimpleKey(c, First(n), Second(n, after)) == IsSimpleKey(c, First(n), Second(n, None))
  {
    NodeSplits(n);
    if n.SequenceNode? || n.MappingNode? {
      assert |E.NodeEvents(n)| > 1;
    }
  }

  function ValueState(flow: bool, simple: bool): State {
    if flow then (if simple then ExpectFlowMappingSimpleValue else ExpectFlowMappingValue)
    else if simple then ExpectBlockMappingSimpleValue else ExpectBlockMappingValue
  }

  lemma KeyPrefix(c: Config, x: Choice, e: Machine, l: seq<Piece>, n: E.Node, after: Option<E.Event>)
      returns (q: Machine, pre: seq<Piece>)
    requires Emits(c, x) && NodeOk(n) && AtKey(e.state, true) && At(e, l) && InFront(e.state, l) && LevelIs(e)
    ensures
      var flow, simple := IsFlowState(e.state), Simple(c, n, IsFlowState(e.state));
      && Before(e, q, ValueState(flow, simple)) && q.states != []
      && Handle(c, e, First(n), Second(n, after))
         == Node(c, q, First(n), Second(n, after), KeyPlace(simple, flow).context)
      && (simple ==> IsSimpleKey(c, First(n), Second(n, after)))
      && At(q, l + pre) && PlaceIs(KeyPlace(simple, flow), q) && StandFor(c, pre, KeySigns(e.state, simple))
  {
    hide Node, NodeOk, O.Written, Indicator, Indented, Emits, IsSimpleKey, Preparable;
    KeyPreparable(n);
    SimpleDecided(c, n, after);
    if IsFlowState(e.state) {
      q, pre := FlowKeyPrefix(c, x, e, l, n, after);
    } else {
      q, pre := BlockKeyPrefix(c, x, e, l, n, after);
    }
  }

  /** '?' where the key is not simple. */
  lemma KeyMarked(c: Config, w: Machine, l: seq<Piece>, simple: bool, indention: bool) returns (more: seq<Piece>)
    requires At(w, l)
    ensures At(if simple then w else Writes(w, [QUESTION], true, false, indention), l + more)
    ensures StandFor(c, more, S.WrittenKey(!simple))
  {
    hide O.Written, Indicator;
    if simple {
      more := [];
      assert l + [] == l;
      StandNothing(c);
    } else {
      var p := SignWritten(c, w, l, [QUESTION], false, indention, S.Sign(T.Key), PlainScalars.TokenStart.Key);
      more := [p];
      StandOne(c, p, S.Sign(T.Key));
    }
  }

  lemma FlowKeyPrefix(c: Config, x: Choice, e: Machine, l: seq<Piece>, n: E.Node, after: Option<E.Event>)
      returns (q: Machine, pre: seq<Piece>)
    requires Emits(c, x) && At(e, l) && InFront(e.state, l) && LevelIs(e)
    requires e.state == ExpectFirstFlowMappingKey || e.state == ExpectFlowMappingKey
    requires Preparable(First(n)) && !First(n).MappingEnd?
    requires Simple(c, n, true) == (!c.canonical && IsSimpleKey(c, First(n), Second(n, after)))
    ensures
      var simple := Simple(c, n, true);
      && Before(e, q, ValueState(true, simple)) && q.states != []
      && Handle(c, e, First(n), Second(n, after))
         == Node(c, q, First(n), Second(n, after), KeyPlace(simple, true).context)
      && At(q, l + pre) && PlaceIs(KeyPlace(simple, true), q) && StandFor(c, pre, KeySigns(e.state, simple))
  {
    hide Node, O.Written, Indicator, Indented, Emits, IsSimpleKey, Preparable;
    LineBreakOk(c, x);
    var simple, first := Simple(c, n, true), IsFirst(e.state);
    hide Simple;
    var comma := CommaWritten(c, e, l, first);
    var a := if first then e else Writes(e, [COMMA], false, false, false);
    WrapAt(c, a, l + comma);
    WrapOnly(c, a);
    var w := Wraps(c, a);
    var mark := KeyMarked(c, w, l + comma, simple, false);
    pre := comma + mark;
    Assoc(l, comma, mark);
    StandJoin(c, comma, S.Comma(first), mark, S.WrittenKey(!simple));
    var k := if simple then w else Writes(w, [QUESTION], true, false, false);
    q := Pushed(k, ValueState(true, simple));
    Pushes(e, k, ValueState(true, simple));
  }

  lemma BlockKeyPrefix(c: Config, x: Choice, e: Machine, l: seq<Piece>, n: E.Node, after: Option<E.Event>)
      returns (q: Machine, pre: seq<Piece>)
    requires Emits(c, x) && At(e, l) && LevelIs(e)
    requires e.state == ExpectFirstBlockMappingKey || e.state == ExpectBlockMappingKey
    requires Preparable(First(n)) && !First(n).MappingEnd?
    requires Simple(c, n, false) == IsSimpleKey(c, First(n), Second(n, after))
    ensures
      var simple := Simple(c, n, false);
      && Before(e, q, ValueState(false, simple)) && q.states != []
      && Handle(c, e, First(n), Second(n, after))
         == Node(c, q, First(n), Second(n, after), KeyPlace(simple, false).context)
      && At(q, l + pre) && PlaceIs(KeyPlace(simple, false), q) && StandFor(c, pre, KeySigns(e.state, simple))
  {
    hide Node, O.Written, Indicator, Indented, Emits, IsSimpleKey, Preparable;
    LineBreakOk(c, x);
    var simple := Simple(c, n, false);
    hide Simple;
    IndentAt(c, e, l);
    var w := WritesIndent(c, e);
    pre := KeyMarked(c, w, l, simple, true);
    KeepsIndention(w, [QUESTION]);
    assert [] + S.WrittenKey(!simple) == S.WrittenKey(!simple);
    var k := if simple then w else Writes(w, [QUESTION], true, false, true);
    q := Pushed(k, ValueState(false, simple));
    Pushes(e, k, ValueState(false, simple));
  }

  lemma ValuePrefix(c: Config, x: Choice, e: Machine, l: seq<Piece>, n: E.Node, next: Option<E.Event>, simple: bool)
      returns (q: Machine, pre: seq<Piece>)
    requires Emits(c, x) && e.state == ValueState(IsFlowState(e.state), simple) && At(e, l) && InFront(e.state, l)
    requires LevelIs(e)
    ensures
      var flow := IsFlowState(e.state);
      && Before(e, q, if flow then ExpectFlowMappingKey else ExpectBlockMappingKey) && q.states != []
      && Handle(c, e, First(n), next) == Node(c, q, First(n), next, VALUE)
      && At(q, l + pre) && PlaceIs(ValuePlace(simple, flow), q) && StandFor(c, pre, [S.Sign(T.Value)])
  {
    hide Node, O.Written, Indicator, Indented, Emits;
    LineBreakOk(c, x);
    var flow := IsFlowState(e.state);
    var w: Machine;
    var p: Piece;
    if simple {
      p := TouchWritten(c, e, l, [COLON], S.Sign(T.Value), PlainScalars.TokenStart.Value);
      w := Writes(e, [COLON], false, false, false);
      KeepsIndention(e, [COLON]);
    } else if flow {
      WrapAt(c, e, l);
      WrapOnly(c, e);
      p := SignWritten(c, Wraps(c, e), l, [COLON], false, false, S.Sign(T.Value), PlainScalars.TokenStart.Value);
      w := Writes(Wraps(c, e), [COLON], true, false, false);
    } else {
      IndentAt(c, e, l);
      p := SignWritten(c, WritesIndent(c, e), l, [COLON], false, true, S.Sign(T.Value), PlainScalars.TokenStart.Value);
      w := Writes(WritesIndent(c, e), [COLON], true, false, true);
      KeepsIndention(WritesIndent(c, e), [COLON]);
    }
    pre := [p];
    StandOne(c, p, S.Sign(T.Value));
    q := Pushed(w, if flow then ExpectFlowMappingKey else ExpectBlockMappingKey);
    Pushes(e, w, if flow then ExpectFlowMappingKey else ExpectBlockMappingKey);
  }

  lemma PairsEnd(c: Config, x: Choice, m: Machine, e: Machine, l: seq<Piece>, next: Option<E.Event>)
      returns (r: Machine, more: seq<Piece>)
    requires Emits(c, x) && m.states != [] && AtKey(e.state, false) && Inside(m, e, IsFlowState(e.state))
    requires At(e, l) && InFront(e.state, l) && LevelIs(e)
    ensures Returned(m, r) && Handle(c, e, E.MappingEnd, next) == Some(r) && At(r, l + more)
    ensures StandFor(c, more, PairsTokens(c, x, E.NoPairs, e.state)) && (IsFlowState(e.state) ==> NodeEnds(more))
  {
    hide Node, O.Written, Indicator, Indented, Emits, FlowEnd;
    if IsFlowState(e.state) {
      r, more := FlowEnds(c, x, m, e, l, 0x7D, IsFirst(e.state));
    } else {
      assert e.indents[..|e.indents| - 1] == m.indents;
      r := Handle(c, e, E.MappingEnd, next).value;
      more := [];
      assert l + [] == l;
      StandNothing(c);
    }
  }

  /** A key, in front of the events of its value and the others. */
  lemma {:induction false} KeySpells(c: Config, x: Choice, m: Machine, e: Machine, l: seq<Piece>, n: E.Node,
                                     rest: seq<E.Event>, next: Option<E.Event>) returns (k: Machine, more: seq<Piece>)
    requires Emits(c, x) && NodeOk(n) && m.states != [] && At(e, l) && InFront(e.state, l) && LevelIs(e) && rest != []
    requires AtKey(e.state, true) && Inside(m, e, IsFlowState(e.state))
    ensures
      var flow, simple := IsFlowState(e.state), Simple(c, n, IsFlowState(e.state));
      && k.state == ValueState(flow, simple) && Inside(m, k, flow) && LevelIs(k) && InFront(k.state, l + more)
      && Handled(c, e, E.NodeEvents(n) + rest, next) == Handled(c, k, rest, next) && At(k, l + more)
      && StandFor(c, more, KeySigns(e.state, simple) + S.Written(PhraseOf(c, x, n, KeyPlace(simple, flow))))
    decreases n, 3
  {
    hide Node, NodeOk, Handle, Inside, Handled, At, Emits, StandFor, NodeEnds, PhraseOf, S.Written, Returned, KeySigns,
         IsSimpleKey, E.NodeEvents;
    var flow, simple := IsFlowState(e.state), Simple(c, n, IsFlowState(e.state));
    hide Simple;
    var q, pre := KeyPrefix(c, x, e, l, n, Some(rest[0]));
    var node: seq<Piece>;
    k, node := StepSpells(c, x, e, q, l + pre, n, rest, next, KeyPlace(simple, flow));
    Passed(m, e, q, k, ValueState(flow, simple), flow);
    LevelPassed(e, q, k);
    more := pre + node;
    Assoc(l, pre, node);
    if flow || simple {
      LastOf(pre, node);
      LastOf(l, more);
    }
    StandJoin(c, pre, KeySigns(e.state, simple), node, S.Written(PhraseOf(c, x, n, KeyPlace(simple, flow))));
  }

  /** A value, in front of the events of the other pairs. */
  lemma {:induction false} ValueSpells(c: Config, x: Choice, m: Machine, e: Machine, l: seq<Piece>, n: E.Node,
                                       rest: seq<E.Event>, next: Option<E.Event>, simple: bool)
      returns (k: Machine, more: seq<Piece>)
    requires Emits(c, x) && NodeOk(n) && m.states != [] && At(e, l) && InFront(e.state, l) && LevelIs(e) && rest != []
    requires e.state == ValueState(IsFlowState(e.state), simple) && Inside(m, e, IsFlowState(e.state))
    ensures
      var flow := IsFlowState(e.state);
      && k.state == (if flow then ExpectFlowMappingKey else ExpectBlockMappingKey) && Inside(m, k, flow) && LevelIs(k)
      && InFront(k.state, l + more)
      && Handled(c, e, E.NodeEvents(n) + rest, next) == Handled(c, k, rest, next) && At(k, l + more)
      && StandFor(c, more, [S.Sign(T.Value)] + S.Written(PhraseOf(c, x, n, ValuePlace(simple, flow))))
    decreases n, 3
  {
    hide Node, NodeOk, Handle, Inside, Handled, At, Emits, StandFor, NodeEnds, PhraseOf, S.Written, Returned,
         IsSimpleKey, E.NodeEvents;
    var flow := IsFlowState(e.state);
    var q, pre := ValuePrefix(c, x, e, l, n, Second(n, Some(rest[0])), simple);
    var node: seq<Piece>;
    k, node := StepSpells(c, x, e, q, l + pre, n, rest, next, ValuePlace(simple, flow));
    Passed(m, e, q, k, if flow then ExpectFlowMappingKey else ExpectBlockMappingKey, flow);
    LevelPassed(e, q, k);
    more := pre + node;
    Assoc(l, pre, node);
    if flow {
      LastOf(pre, node);
      LastOf(l, more);
    }
    StandJoin(c, pre, [S.Sign(T.Value)], node, S.Written(PhraseOf(c, x, n, ValuePlace(simple, flow))));
  }

  lemma {:induction false} PairsSpell(c: Config, x: Choice, m: Machine, e: Machine, l: seq<Piece>, pairs: E.Pairs,
                                      next: Option<E.Event>) returns (r: Machine, more: seq<Piece>)
    requires Emits(c, x) && PairsOk(pairs) && m.states != [] && At(e, l) && InFront(e.state, l) && LevelIs(e)
    requires AtKey(e.state, pairs.MorePairs?) && Inside(m, e, IsFlowState(e.state))
    ensures Returned(m, r) && Handled(c, e, E.PairsEvents(pairs) + [E.MappingEnd], next) == Some(r)
    ensures At(r, l + more) && StandFor(c, more, PairsTokens(c, x, pairs, e.state))
    ensures IsFlowState(e.state) ==> NodeEnds(more)
    decreases pairs, 0
  {
    hide Node, NodeOk, Handle, Inside, Handled, At, Emits, StandFor, PairsTokens, NodeEnds, PhraseOf, S.Written,
         Returned, KeySigns, E.NodeEvents;
    if pairs.NoPairs? {
      assert [] + [E.MappingEnd] == [E.MappingEnd];
      HandledStep(c, e, [E.MappingEnd], next);
      r, more := PairsEnd(c, x, m, e, l, next);
      NothingHandled(c, r, [E.MappingEnd], next);
    } else {
      var rest := E.PairsEvents(pairs.tail) + [E.MappingEnd];
      var value := E.NodeEvents(pairs.value) + rest;
      NodeSplits(pairs.value);
      assert E.PairsEvents(pairs) + [E.MappingEnd] == E.NodeEvents(pairs.key) + value;
      var flow, simple := IsFlowState(e.state), Simple(c, pairs.key, IsFlowState(e.state));
      hide Simple;
      var s := if flow then ExpectFlowMappingKey else ExpectBlockMappingKey;
      var k, a := KeySpells(c, x, m, e, l, pairs.key, value, next);
      var q, b := ValueSpells(c, x, m, k, l + a, pairs.value, rest, next, simple);
      var others: seq<Piece>;
      Assoc(l, a, b);
      r, others := PairsSpell(c, x, m, q, l + a + b, pairs.tail, next);
      more := a + b + others;
      Join(l, a, b, others);
      if flow { LastOf(a + b, others); }
      PairsSplit(c, x, pairs, e.state, s);
      var us := KeySigns(e.state, simple) + S.Written(PhraseOf(c, x, pairs.key, KeyPlace(simple, flow)));
      var vs := [S.Sign(T.Value)] + S.Written(PhraseOf(c, x, pairs.value, ValuePlace(simple, flow)));
      StandJoin(c, a, us, b, vs);
      StandJoin(c, a + b, us + vs, others, PairsTokens(c, x, pairs.tail, s));
    }
  }

  // Documents and streams.

  /** '---' in front of a document, unless it is left out. */
  lemma StartSpells(c: Config, x: Choice, m: Machine, l: seq<Piece>, d: E.Document, first: bool)
      returns (s: Machine, pre: seq<Piece>)
    requires Emits(c, x) && Idle(m) && m.state == (if first then ExpectFirstDocumentStart else ExpectDocumentStart)
    requires At(m, l)
    ensures Handle(c, m, E.DocumentStart(d.explicitStart), Some(First(d.root))) == Some(s)
    ensures Idle(s) && s.state == ExpectDocumentRoot && At(s, l + pre)
    ensures StandFor(c, pre, if StartOmitted(c, d, first) then [] else [S.Sign(T.DocumentStart)])
  {
    hide O.Written, Indicator, Indented, Emits;
    LineBreakOk(c, x);
    EmptyDecided(d);
    s := Handle(c, m, E.DocumentStart(d.explicitStart), Some(First(d.root))).value;
    if StartOmitted(c, d, first) {
      pre := [];
      assert l + [] == l;
      StandNothing(c);
    } else {
      IndentAt(c, m, l);
      var w := WritesIndent(c, m);
      var p := SignWritten(c, w, l, [DASH, DASH, DASH], false, false, S.Sign(T.DocumentStart),
                           PlainScalars.TokenStart.DocumentStart);
      pre := [p];
      StandOne(c, p, S.Sign(T.DocumentStart));
      IndentAt(c, Writes(w, [DASH, DASH, DASH], true, false, false), l + pre);
    }
  }

  lemma EmptyDecided(d: E.Document)
    ensures IsEmptyDocument(E.DocumentStart(d.explicitStart), Some(First(d.root)))
            <==> d.root.ScalarNode? && d.root.anchor.None? && d.root.tag.None? && d.root.value == []
  {
  }

  /** The new line behind a document, and '...' where its end is explicit. */
  lemma EndSpells(c: Config, x: Choice, q: Machine, l: seq<Piece>, end: E.Event, next: Option<E.Event>)
      returns (r: Machine, more: seq<Piece>)
    requires Emits(c, x) && Idle(q) && q.state == ExpectDocumentEnd && end.DocumentEnd? && At(q, l)
    ensures Handle(c, q, end, next) == Some(r) && Idle(r) && r.state == ExpectDocumentStart
    ensures At(r, l + more) && O.NewLine(r.out) && StandFor(c, more, S.EndsTokens(if end.explicit then 1 else 0))
  {
    hide O.Written, Indicator, Indented, Emits;
    LineBreakOk(c, x);
    IndentAt(c, q, l);
    r := Handle(c, q, end, next).value;
    if end.explicit {
      var w := WritesIndent(c, q);
      var p := SignWritten(c, w, l, [DOT, DOT, DOT], false, false, S.Sign(T.DocumentEnd),
                           PlainScalars.TokenStart.DocumentEnd);
      more := [p];
      StandOne(c, p, S.Sign(T.DocumentEnd));
      assert S.EndsTokens(1) == [S.Sign(T.DocumentEnd)] + S.EndsTokens(0) == [S.Sign(T.DocumentEnd)];
      IndentAt(c, Writes(w, [DOT, DOT, DOT], true, false, false), l + more);
    } else {
      more := [];
      assert l + [] == l;
      StandNothing(c);
    }
  }

  lemma DocumentSpells(c: Config, x: Choice, m: Machine, l: seq<Piece>, d: E.Document, next: Option<E.Event>,
                       first: bool)
      returns (r: Machine, more: seq<Piece>)
    requires Emits(c, x) && NodeOk(d.root) && Idle(m) && At(m, l)
    requires m.state == if first then ExpectFirstDocumentStart else ExpectDocumentStart
    ensures Handled(c, m, E.DocumentEvents(d), next) == Some(r) && Idle(r) && r.state == ExpectDocumentStart
    ensures At(r, l + more) && O.NewLine(r.out) && StandFor(c, more, S.WrittenDoc(DocFor(c, x, d, first, false)))
  {
    hide Node, NodeOk, O.Written, Indicator, Indented, Handle, Handled, E.NodeEvents, E.DocumentEvents, Emits, StandFor,
         PhraseOf, S.Written, StartOmitted, O.Level;
    var start, end := E.DocumentStart(d.explicitStart), E.DocumentEnd(d.explicitEnd);
    DocumentSplits(d);
    HandledStep(c, m, E.DocumentEvents(d), next);
    var s, pre := StartSpells(c, x, m, l, d, first);
    var p := Pushed(s, ExpectDocumentEnd);
    RootEnters(c, s, First(d.root), Second(d.root, Some(end)));
    var q, node := StepSpells(c, x, s, p, l + pre, d.root, [end], next, ROOT);
    HandledStep(c, q, [end], next);
    var ends: seq<Piece>;
    r, ends := EndSpells(c, x, q, l + pre + node, end, next);
    NothingHandled(c, r, [end], next);
    more := pre + node + ends;
    Join(l, pre, node, ends);
    var a, b, e := if StartOmitted(c, d, first) then [] else [S.Sign(T.DocumentStart)],
        S.Written(PhraseOf(c, x, d.root, ROOT)), S.EndsTokens(if d.explicitEnd then 1 else 0);
    StandJoin(c, pre, a, node, b);
    StandJoin(c, pre + node, a + b, ends, e);
    SlotIsPhrase(c, x, d.root, ROOT);
    assert [] + a + b + e == a + b + e;
  }

  ghost function DocsTokens(c: Config, x: Choice, docs: seq<E.Document>, first: bool): seq<S.Lexed> {
    if docs == [] then []
    else S.WrittenDoc(DocFor(c, x, docs[0], first, false)) + DocsTokens(c, x, docs[1..], false)
  }

  lemma {:induction false} DocumentsSpell(c: Config, x: Choice, m: Machine, l: seq<Piece>, docs: seq<E.Document>,
                                          next: Option<E.Event>, first: bool) returns (r: Machine, more: seq<Piece>)
    requires Emits(c, x) && DocumentsOk(docs) && Idle(m) && At(m, l) && O.NewLine(m.out)
    requires m.state == if first then ExpectFirstDocumentStart else ExpectDocumentStart
    ensures Handled(c, m, E.DocumentsEvents(docs), next) == Some(r) && Idle(r) && At(r, l + more) && O.NewLine(r.out)
    ensures r.state == if first && docs == [] then ExpectFirstDocumentStart else ExpectDocumentStart
    ensures docs == [] ==> r == m
    ensures StandFor(c, more, DocsTokens(c, x, docs, first))
    decreases |docs|
  {
    hide NodeOk, Handle, E.DocumentEvents, O.Written, StandFor, Emits, At, S.WrittenDoc;
    if docs == [] {
      r, more := m, [];
      assert l + [] == l;
      StandNothing(c);
    } else {
      assert docs[0] in docs;
      var rest := E.DocumentsEvents(docs[1..]);
      var n, a := DocumentSpells(c, x, m, l, docs[0], if rest == [] then next else Some(rest[0]), first);
      HandledJoin(c, m, E.DocumentEvents(docs[0]), rest, next);
      var b: seq<Piece>;
      r, b := DocumentsSpell(c, x, n, l + a, docs[1..], next, false);
      more := a + b;
      Assoc(l, a, b);
      StandJoin(c, a, S.WrittenDoc(DocFor(c, x, docs[0], first, false)), b, DocsTokens(c, x, docs[1..], false));
    }
  }

  lemma {:induction false} EndsAdd(n: nat)
    ensures S.EndsTokens(n + 1) == S.EndsTokens(n) + [S.Sign(T.DocumentEnd)]
  {
    if n > 0 {
      EndsAdd(n - 1);
      assert [S.Sign(T.DocumentEnd)] + (S.EndsTokens(n - 1) + [S.Sign(T.DocumentEnd)])
             == [S.Sign(T.DocumentEnd)] + S.EndsTokens(n - 1) + [S.Sign(T.DocumentEnd)];
    }
  }

  lemma OpenDoc(c: Config, x: Choice, d: E.Document, first: bool)
    ensures S.WrittenDoc(DocFor(c, x, d, first, true))
            == S.WrittenDoc(DocFor(c, x, d, first, false)) + [S.Sign(T.DocumentEnd)]
  {
    hide SlotFor, S.WrittenSlot, S.EndsTokens;
    EndsAdd(if d.explicitEnd then 1 else 0);
  }

  /** The documents' tokens, with one more '...' behind the last one where the end is open. */
  lemma {:induction false} OpenDocs(c: Config, x: Choice, docs: seq<E.Document>, open: bool, i: nat)
    requires i <= |docs|
    ensures S.WrittenDocs(DocsFor(c, x, docs, open)[i..])
            == DocsTokens(c, x, docs[i..], i == 0)
               + if open && i < |docs| then [S.Sign(T.DocumentEnd)] else []
    decreases |docs| - i
  {
    hide S.WrittenDoc, DocFor;
    var all := DocsFor(c, x, docs, open);
    if i == |docs| {
      assert all[i..] == [] && docs[i..] == [];
    } else {
      OpenDocs(c, x, docs, open, i + 1);
      OpenDoc(c, x, docs[i], i == 0);
      assert all[i..][1..] == all[i + 1..] && docs[i..][1..] == docs[i + 1..];
      var d := S.WrittenDoc(DocFor(c, x, docs[i], i == 0, false));
      var rest := DocsTokens(c, x, docs[i + 1..], false);
      var end := if open && i + 1 < |docs| then [S.Sign(T.DocumentEnd)] else [];
      if i + 1 == |docs| {
        assert docs[i + 1..] == [];
        assert d + [S.Sign(T.DocumentEnd)] + [] == d + [] + [S.Sign(T.DocumentEnd)];
        assert d + [] + [] == d + [];
      } else {
        assert d + (rest + end) == d + rest + end;
      }
    }
  }

  /** The end of the stream, which is marked where it is open. */
  lemma StreamEndSpells(c: Config, x: Choice, m: Machine, l: seq<Piece>) returns (r: Machine, more: seq<Piece>)
    requires Emits(c, x) && Idle(m) && (m.state == ExpectFirstDocumentStart || m.state == ExpectDocumentStart)
    requires At(m, l) && O.NewLine(m.out)
    ensures Handled(c, m, [E.StreamEnd], None) == Some(r) && r.state == ExpectNothing && At(r, l + more)
    ensures StandFor(c, more, if m.out.openEnded then [S.Sign(T.DocumentEnd)] else [])
  {
    hide O.Written, Indicator, Indented, Emits;
    LineBreakOk(c, x);
    r := Handle(c, m, E.StreamEnd, None).value;
    if m.out.openEnded {
      var p := SignWritten(c, m, l, [DOT, DOT, DOT], false, false, S.Sign(T.DocumentEnd),
                           PlainScalars.TokenStart.DocumentEnd);
      more := [p];
      StandOne(c, p, S.Sign(T.DocumentEnd));
      IndentAt(c, Writes(m, [DOT, DOT, DOT], true, false, false), l + more);
    } else {
      more := [];
      assert l + [] == l;
      StandNothing(c);
    }
  }

  /** Every stream of documents whose anchors and tags are acceptable: the output is a list of tokens with white space
      between them, which are those that spell the documents, in order, and at each of them the scanner starts that
      token. `open` says whether the end of the stream had to be marked. */
  lemma StreamSpells(c: Config, x: Choice, docs: seq<E.Document>)
      returns (end: Machine, l: seq<Piece>, tail: Text, open: bool)
    requires Emits(c, x) && DocumentsOk(docs)
    ensures Offline(c, E.StreamEvents(docs)) == Some(end) && end.state == ExpectNothing
    ensures end.out.text == O.TextOf(l) + tail && O.IsBlankText(tail)
    ensures StandFor(c, l, S.WrittenDocs(DocsFor(c, x, docs, open)))
    ensures forall i :: 0 <= i < |l| ==> O.ScannedAt(l, i, tail)
  {
    hide NodeOk, E.DocumentsEvents, StandFor, Emits, O.ScannedAt, O.AllPlaced;
    var all := E.DocumentsEvents(docs);
    var m := INITIAL.(state := ExpectFirstDocumentStart);
    StreamBegins(c, docs);
    O.NothingWritten();
    assert O.Level([]) == 0;
    var n, a := DocumentsSpell(c, x, m, [], docs, Some(E.StreamEnd), true);
    HandledJoin(c, INITIAL, [E.StreamStart] + all, [E.StreamEnd], None);
    assert [] + a == a;
    var b: seq<Piece>;
    end, b := StreamEndSpells(c, x, n, a);
    l, open := a + b, n.out.openEnded;
    tail := end.out.text[|O.TextOf(l)|..];
    OpenDocs(c, x, docs, open, 0);
    assert DocsFor(c, x, docs, open)[0..] == DocsFor(c, x, docs, open) && docs[0..] == docs;
    StandJoin(c, a, DocsTokens(c, x, docs, true), b, if open then [S.Sign(T.DocumentEnd)] else []);
    AllScanned(l, tail, end);
  }

  /** The text is the tokens that spell the documents, with white space between them, each of which the scanner starts
      where it stands. */
  ghost predicate Spells(c: Config, x: Choice, docs: seq<E.Document>, text: Text) {
    exists l: seq<Piece>, tail: Text, open: bool ::
      && text == O.TextOf(l) + tail && O.IsBlankText(tail)
      && StandFor(c, l, S.WrittenDocs(DocsFor(c, x, docs, open)))
      && forall i :: 0 <= i < |l| ==> O.ScannedAt(l, i, tail)
  }

  lemma StreamBegins(c: Config, docs: seq<E.Document>)
    ensures
      var m := INITIAL.(state := ExpectFirstDocumentStart);
      var all := E.DocumentsEvents(docs);
      Handled(c, INITIAL, [E.StreamStart] + all, Some(E.StreamEnd)) == Handled(c, m, all, Some(E.StreamEnd))
  {
    hide E.DocumentsEvents;
    var all := E.DocumentsEvents(docs);
    HandledStep(c, INITIAL, [E.StreamStart] + all, Some(E.StreamEnd));
    assert ([E.StreamStart] + all)[1..] == all;
  }

  lemma AllScanned(l: seq<Piece>, tail: Text, end: Machine)
    requires At(end, l) && tail == end.out.text[|O.TextOf(l)|..]
    ensures O.IsBlankText(tail) && end.out.text == O.TextOf(l) + tail
    ensures forall i :: 0 <= i < |l| ==> O.ScannedAt(l, i, tail)
  {
    hide O.ScannedAt, O.AllPlaced;
    forall i | 0 <= i < |l| ensures O.ScannedAt(l, i, tail) {
      O.PieceScanned(l, i, tail);
    }
  }
}
