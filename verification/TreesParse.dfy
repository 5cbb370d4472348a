/** The parser accepts every well-formed stream of tokens and finds its nodes: the grammar's functions undo the
    spelling of syntax trees. */
module TreesParse {
  import opened Options
  import opened Chars
  import opened SyntaxTrees
  import C = Continuations
  import E = Events
  import G = Grammar
  import T = TokenNesting

  predicate At(ts: seq<Lexed>, p: nat, s: seq<Lexed>) { p + |s| <= |ts| && ts[p..p + |s|] == s }

  lemma AtSplit(ts: seq<Lexed>, p: nat, a: seq<Lexed>, b: seq<Lexed>)
    requires At(ts, p, a + b)
    ensures At(ts, p, a) && At(ts, p + |a|, b) && p + |a + b| == p + |a| + |b|
  {
    var s := ts[p..p + |a + b|];
    assert ts[p..p + |a|] == s[..|a|] && ts[p + |a|..p + |a| + |b|] == s[|a|..];
  }

  lemma AtFirst(ts: seq<Lexed>, p: nat, s: seq<Lexed>)
    requires At(ts, p, s) && s != []
    ensures p < |ts| && ts[p] == s[0]
  {
    assert ts[p..p + |s|][0] == s[0];
  }

  /** One token, and then the rest. */
  lemma AtSign(ts: seq<Lexed>, p: nat, t: Lexed, b: seq<Lexed>)
    requires At(ts, p, [t] + b)
    ensures p < |ts| && ts[p] == t && At(ts, p + 1, b) && p + |[t] + b| == p + 1 + |b|
  {
    AtSplit(ts, p, [t], b);
    AtFirst(ts, p, [t]);
  }

  /** Three pieces, the last one an end that is not empty. */
  lemma AtThree(ts: seq<Lexed>, p: nat, a: seq<Lexed>, b: seq<Lexed>, d: seq<Lexed>)
    requires At(ts, p, a + b + d)
    ensures At(ts, p, a) && At(ts, p + |a|, b) && At(ts, p + |a| + |b|, d)
    ensures p + |a + b + d| == p + |a| + |b| + |d|
  {
    AtSplit(ts, p, a + b, d);
    AtSplit(ts, p, a, b);
  }

  /** The kinds a node in this place starts with. */
  predicate Starts(k: T.Kind, spot: Spot) {
    || k.Alias? || k.Anchor? || k.Tag? || k.Scalar? || k.FlowSequenceStart? || k.FlowMappingStart?
    || (!spot.InFlow? && (k.BlockSequenceStart? || k.BlockMappingStart?)) || (spot.InMapping? && k.BlockEntry?)
  }

  /** The kinds that stand behind a node in this place. */
  predicate Ends(k: T.Kind, spot: Spot) {
    match spot
    case InFlow => k.Value? || k.FlowEntry? || k.FlowSequenceEnd? || k.FlowMappingEnd?
    case InMapping => k.Key? || k.Value? || k.BlockEnd?
    case InBlock =>
      || k.BlockEntry? || k.Key? || k.Value? || k.BlockEnd?
      || k.Directive? || k.DocumentStart? || k.DocumentEnd? || k.StreamEnd?
  }

  predicate Behind(ts: seq<Lexed>, q: nat, spot: Spot) { q < |ts| && Ends(ts[q].kind, spot) }

  lemma NodeStarts(c: Phrase, h: G.Handles, spot: Spot)
    requires Fits(c, h, spot)
    ensures Tokens(c) != [] && Starts(Tokens(c)[0].kind, spot)
    ensures Tokens(c)[0].kind.Alias? <==> c.AliasOf?
  {
    if c.Content? && PropertiesTokens(c.properties) == [] {
      BodyStarts(c.properties, c.body, h, spot);
    }
  }

  lemma BodyStarts(p: Properties, b: Body, h: G.Handles, spot: Spot)
    requires BodyFits(p, b, h, spot)
    ensures if b.Empty? then BodyTokens(b) == []
            else BodyTokens(b) != [] && Starts(BodyTokens(b)[0].kind, spot)
                 && !BodyTokens(b)[0].kind.Anchor? && !BodyTokens(b)[0].kind.Tag? && !BodyTokens(b)[0].kind.Alias?
  {
  }

  lemma AnchorAt(ts: seq<Lexed>, p: nat, a: Option<Text>)
    requires At(ts, p, AnchorTokens(a))
    ensures |AnchorTokens(a)| == (if a.Some? then 1 else 0)
    ensures a.Some? ==> p < |ts| && ts[p].kind.Anchor? && ts[p].text == a.value
  {
    if a.Some? { AtFirst(ts, p, AnchorTokens(a)); }
  }

  lemma TagAt(ts: seq<Lexed>, p: nat, h: G.Handles, t: Option<TagName>)
    requires At(ts, p, TagTokens(t)) && TagFits(t, h)
    ensures |TagTokens(t)| == (if t.Some? then 1 else 0)
    ensures t.Some? ==> p < |ts| && ts[p].kind.Tag? && G.Resolve(h, ts[p]) == TagOf(t, h)
  {
    if t.Some? { AtFirst(ts, p, TagTokens(t)); }
  }

  lemma PropertiesParse(ts: seq<Lexed>, p: nat, h: G.Handles, a: Properties)
    requires G.Framed(ts) && 0 < p && At(ts, p, PropertiesTokens(a)) && TagFits(a.tag, h)
    requires var q := p + |PropertiesTokens(a)|; q < |ts| && !ts[q].kind.Anchor? && !ts[q].kind.Tag?
    ensures G.ParseProperties(ts, p, h)
            == G.Got(G.Properties(a.anchor, TagOf(a.tag, h)), p + |PropertiesTokens(a)|)
  {
    hide G.Framed, Inner, At, AnchorTokens, TagTokens, TagOf, TagFits, G.Resolve;
    if a.tagFirst {
      AtSplit(ts, p, TagTokens(a.tag), AnchorTokens(a.anchor));
      TagAt(ts, p, h, a.tag);
      AnchorAt(ts, p + |TagTokens(a.tag)|, a.anchor);
    } else {
      AtSplit(ts, p, AnchorTokens(a.anchor), TagTokens(a.tag));
      AnchorAt(ts, p, a.anchor);
      TagAt(ts, p + |AnchorTokens(a.anchor)|, h, a.tag);
    }
  }

  lemma BangIsATag()
    ensures G.Str("!") == [0x21]
  {
  }

  function Parses(ts: seq<Lexed>, p: nat, h: G.Handles, spot: Spot): G.Parsed<E.Node>
    requires G.Framed(ts) && 0 < p < |ts|
  {
    G.ParseNode(ts, p, h, !spot.InFlow?, spot.InMapping?)
  }

  lemma {:induction false} NodeParses(ts: seq<Lexed>, p: nat, h: G.Handles, c: Phrase, spot: Spot)
    requires G.Framed(ts) && 0 < p && At(ts, p, Tokens(c)) && Fits(c, h, spot) && Behind(ts, p + |Tokens(c)|, spot)
    ensures Parses(ts, p, h, spot) == G.Got(NodeOf(c, h, spot), p + |Tokens(c)|)
    decreases c, 4
  {
    hide G.Framed, Inner, BodyTokens, PropertiesTokens, BodyFits, G.ParseNode, G.ParseProperties, ContentOf, TagOf, At;
    NodeStarts(c, h, spot);
    AtFirst(ts, p, Tokens(c));
    C.NodeCases(ts, h, p, !spot.InFlow?, spot.InMapping?);
    if c.Content? {
      var q := p + |PropertiesTokens(c.properties)|;
      AtSplit(ts, p, PropertiesTokens(c.properties), BodyTokens(c.body));
      BodyStarts(c.properties, c.body, h, spot);
      if !c.body.Empty? { AtFirst(ts, q, BodyTokens(c.body)); }
      PropertiesParse(ts, p, h, c.properties);
      ContentParses(ts, p, q, h, c.properties, c.body, spot);
    }
  }

  /** What is behind the properties. */
  lemma {:induction false} ContentParses(ts: seq<Lexed>, p: nat, q: nat, h: G.Handles, a: Properties, b: Body,
                                         spot: Spot)
    requires G.Framed(ts) && 0 < p <= q && At(ts, q, BodyTokens(b)) && BodyFits(a, b, h, spot) && TagFits(a.tag, h)
    requires Behind(ts, q + |BodyTokens(b)|, spot) && !ts[p].kind.Alias?
    requires G.ParseProperties(ts, p, h) == G.Got(G.Properties(a.anchor, TagOf(a.tag, h)), q)
    ensures Parses(ts, p, h, spot) == G.Got(ContentOf(a, TagOf(a.tag, h), b, h, spot), q + |BodyTokens(b)|)
    decreases b, 3
  {
    hide G.Framed, Inner, BodyTokens, BodyFits, ContentOf, G.ParseNode, G.ParseProperties, TagOf, At;
    match b
    case Empty => LeafParses(ts, p, q, h, a, b, spot);
    case Scalar(_, _) => LeafParses(ts, p, q, h, a, b, spot);
    case FlowSequence(_) => FlowParses(ts, p, q, h, a, b, spot);
    case FlowMapping(_) => FlowParses(ts, p, q, h, a, b, spot);
    case _ => BlockParses(ts, p, q, h, a, b, spot);
  }

  lemma {:induction false} LeafParses(ts: seq<Lexed>, p: nat, q: nat, h: G.Handles, a: Properties, b: Body, spot: Spot)
    requires G.Framed(ts) && 0 < p <= q && At(ts, q, BodyTokens(b)) && BodyFits(a, b, h, spot) && TagFits(a.tag, h)
    requires Behind(ts, q + |BodyTokens(b)|, spot) && !ts[p].kind.Alias?
    requires G.ParseProperties(ts, p, h) == G.Got(G.Properties(a.anchor, TagOf(a.tag, h)), q)
    requires b.Empty? || b.Scalar?
    ensures Parses(ts, p, h, spot) == G.Got(ContentOf(a, TagOf(a.tag, h), b, h, spot), q + |BodyTokens(b)|)
    decreases b, 2
  {
    hide G.Framed, Inner, ItemsTokens, BlockPairsTokens, EntriesTokens, FlowPairsTokens, ItemsFit, BlockPairsFit,
         EntriesFit, FlowPairsFit, G.ParseNode, G.ParseProperties, G.ParseIndentless, G.ParseBlockSequence,
         G.ParseBlockMapping, G.ParseFlowSequence, G.ParseFlowMapping, ItemsOf, BlockPairsOf, EntriesOf, FlowPairsOf,
         TagOf, At;
    BangIsATag();
    C.NodeCases(ts, h, p, !spot.InFlow?, spot.InMapping?);
    if b.Scalar? { AtFirst(ts, q, BodyTokens(b)); }
  }

  lemma {:induction false} FlowParses(ts: seq<Lexed>, p: nat, q: nat, h: G.Handles, a: Properties, b: Body, spot: Spot)
    requires G.Framed(ts) && 0 < p <= q && At(ts, q, BodyTokens(b)) && BodyFits(a, b, h, spot) && TagFits(a.tag, h)
    requires Behind(ts, q + |BodyTokens(b)|, spot) && !ts[p].kind.Alias?
    requires G.ParseProperties(ts, p, h) == G.Got(G.Properties(a.anchor, TagOf(a.tag, h)), q)
    requires b.FlowSequence? || b.FlowMapping?
    ensures Parses(ts, p, h, spot) == G.Got(ContentOf(a, TagOf(a.tag, h), b, h, spot), q + |BodyTokens(b)|)
    decreases b, 2
  {
    hide G.Framed, Inner, ItemsTokens, BlockPairsTokens, EntriesTokens, FlowPairsTokens, ItemsFit, BlockPairsFit,
         EntriesFit, FlowPairsFit, G.ParseNode, G.ParseProperties, G.ParseIndentless, G.ParseBlockSequence,
         G.ParseBlockMapping, G.ParseFlowSequence, G.ParseFlowMapping, ItemsOf, BlockPairsOf, EntriesOf, FlowPairsOf,
         TagOf, At;
    BangIsATag();
    C.NodeCases(ts, h, p, !spot.InFlow?, spot.InMapping?);
    if b.FlowSequence? {
      AtSign(ts, q, Sign(T.FlowSequenceStart), EntriesTokens(b.entries, true));
      EntriesParse(ts, q + 1, h, b.entries, true);
    } else {
      AtSign(ts, q, Sign(T.FlowMappingStart), FlowPairsTokens(b.pairs, true));
      FlowPairsParse(ts, q + 1, h, b.pairs, true);
    }
  }

  lemma {:induction false} BlockParses(ts: seq<Lexed>, p: nat, q: nat, h: G.Handles, a: Properties, b: Body, spot: Spot)
    requires G.Framed(ts) && 0 < p <= q && At(ts, q, BodyTokens(b)) && BodyFits(a, b, h, spot) && TagFits(a.tag, h)
    requires Behind(ts, q + |BodyTokens(b)|, spot) && !ts[p].kind.Alias?
    requires G.ParseProperties(ts, p, h) == G.Got(G.Properties(a.anchor, TagOf(a.tag, h)), q)
    requires b.BlockSequence? || b.IndentlessSequence? || b.BlockMapping?
    ensures Parses(ts, p, h, spot) == G.Got(ContentOf(a, TagOf(a.tag, h), b, h, spot), q + |BodyTokens(b)|)
    decreases b, 2
  {
    hide G.Framed, Inner, ItemsTokens, BlockPairsTokens, EntriesTokens, FlowPairsTokens, ItemsFit, BlockPairsFit,
         EntriesFit, FlowPairsFit, G.ParseNode, G.ParseProperties, G.ParseIndentless, G.ParseBlockSequence,
         G.ParseBlockMapping, G.ParseFlowSequence, G.ParseFlowMapping, ItemsOf, BlockPairsOf, EntriesOf, FlowPairsOf,
         TagOf, At;
    BangIsATag();
    C.NodeCases(ts, h, p, !spot.InFlow?, spot.InMapping?);
    if b.BlockSequence? {
      AtBlock(ts, q, Sign(T.BlockSequenceStart), ItemsTokens(b.items));
      ItemsParse(ts, q + 1, h, b.items);
    } else if b.IndentlessSequence? {
      IndentlessStarts(ts, q, b.items);
      IndentlessParses(ts, q, h, b.items);
    } else {
      AtBlock(ts, q, Sign(T.BlockMappingStart), BlockPairsTokens(b.blockPairs));
      BlockPairsParse(ts, q + 1, h, b.blockPairs);
    }
  }

  lemma AtBlock(ts: seq<Lexed>, q: nat, t: Lexed, s: seq<Lexed>)
    requires At(ts, q, [t] + s + [Sign(T.BlockEnd)])
    ensures q < |ts| && ts[q] == t && At(ts, q + 1, s) && q + 1 + |s| < |ts| && ts[q + 1 + |s|].kind.BlockEnd?
    ensures |[t] + s + [Sign(T.BlockEnd)]| == |s| + 2
  {
    AtThree(ts, q, [t], s, [Sign(T.BlockEnd)]);
    AtFirst(ts, q, [t]);
    AtFirst(ts, q + 1 + |s|, [Sign(T.BlockEnd)]);
  }

  lemma IndentlessStarts(ts: seq<Lexed>, q: nat, l: Items)
    requires At(ts, q, ItemsTokens(l)) && l.MoreItems?
    ensures q < |ts| && ts[q].kind.BlockEntry?
  {
    AtFirst(ts, q, ItemsTokens(l));
  }

  /** A place for a node, where a stop stands if it is left empty. */
  lemma {:induction false} SlotParses(ts: seq<Lexed>, p: nat, h: G.Handles, o: Slot, spot: Spot, stops: set<T.Kind>)
    requires G.Framed(ts) && 0 < p && At(ts, p, SlotTokens(o)) && SlotFits(o, h, spot)
    requires Behind(ts, p + |SlotTokens(o)|, spot)
    requires o.Nothing? ==> ts[p + |SlotTokens(o)|].kind in stops
    requires forall k <- stops :: !Starts(k, spot)
    ensures G.ParseOptional(ts, p, h, !spot.InFlow?, spot.InMapping?, stops)
            == G.Got(SlotOf(o, h, spot), p + |SlotTokens(o)|)
    decreases o, 5
  {
    hide G.Framed, Inner, Tokens, Fits, NodeOf, G.ParseNode, At;
    if o.Holds? {
      NodeStarts(o.node, h, spot);
      AtFirst(ts, p, Tokens(o.node));
      NodeParses(ts, p, h, o.node, spot);
    }
  }

  /** VALUE and its place, or neither. */
  lemma {:induction false} ValueParses(ts: seq<Lexed>, p: nat, h: G.Handles, v: Value, spot: Spot, stops: set<T.Kind>)
    requires G.Framed(ts) && 0 < p && At(ts, p, ValueTokens(v)) && ValueFits(v, h, spot) && !spot.InBlock?
    requires Behind(ts, p + |ValueTokens(v)|, spot)
    requires !ts[p + |ValueTokens(v)|].kind.Value? && ts[p + |ValueTokens(v)|].kind in stops
    requires forall k <- stops :: !Starts(k, spot)
    ensures G.ParseMarked(ts, p, h, T.Value, !spot.InFlow?, stops) == G.Got(ValueOf(v, h, spot), p + |ValueTokens(v)|)
    decreases v, 6
  {
    hide G.Framed, Inner, SlotTokens, SlotFits, SlotOf, G.ParseOptional, At;
    if v.Value? {
      AtSign(ts, p, Sign(T.Value), SlotTokens(v.slot));
      SlotParses(ts, p + 1, h, v.slot, spot, stops);
    }
  }

  /** What stands behind the items of a sequence that has gone on to the position p. */
  lemma ItemsGoOn(ts: seq<Lexed>, p: nat, l: Items)
    requires At(ts, p, ItemsTokens(l)) && p + |ItemsTokens(l)| < |ts|
    ensures ts[p].kind.BlockEntry? || (l.NoItems? && p + |ItemsTokens(l)| == p)
  {
    if l.MoreItems? { AtFirst(ts, p, ItemsTokens(l)); }
  }

  lemma {:induction false} ItemsParse(ts: seq<Lexed>, p: nat, h: G.Handles, l: Items)
    requires G.Framed(ts) && 0 < p && At(ts, p, ItemsTokens(l)) && ItemsFit(l, h)
    requires p + |ItemsTokens(l)| < |ts| && ts[p + |ItemsTokens(l)|].kind.BlockEnd?
    ensures G.ParseBlockSequence(ts, p, h) == G.Got(ItemsOf(l, h), p + |ItemsTokens(l)| + 1)
    decreases l, 1
  {
    hide G.Framed, Inner, SlotTokens, SlotFits, SlotOf, G.ParseOptional, At;
    if l.MoreItems? {
      AtThree(ts, p, [Sign(T.BlockEntry)], SlotTokens(l.item), ItemsTokens(l.tail));
      AtFirst(ts, p, [Sign(T.BlockEntry)]);
      var q := p + 1 + |SlotTokens(l.item)|;
      ItemsGoOn(ts, q, l.tail);
      SlotParses(ts, p + 1, h, l.item, InBlock, {T.BlockEntry, T.BlockEnd});
      ItemsParse(ts, q, h, l.tail);
    }
  }

  lemma {:induction false} IndentlessParses(ts: seq<Lexed>, p: nat, h: G.Handles, l: Items)
    requires G.Framed(ts) && 0 < p && At(ts, p, ItemsTokens(l)) && ItemsFit(l, h)
    requires Behind(ts, p + |ItemsTokens(l)|, InMapping)
    ensures G.ParseIndentless(ts, p, h) == G.Got(ItemsOf(l, h), p + |ItemsTokens(l)|)
    decreases l, 1
  {
    hide G.Framed, Inner, SlotTokens, SlotFits, SlotOf, G.ParseOptional, At;
    if l.MoreItems? {
      AtThree(ts, p, [Sign(T.BlockEntry)], SlotTokens(l.item), ItemsTokens(l.tail));
      AtFirst(ts, p, [Sign(T.BlockEntry)]);
      var q := p + 1 + |SlotTokens(l.item)|;
      ItemsGoOn(ts, q, l.tail);
      SlotParses(ts, p + 1, h, l.item, InBlock, {T.BlockEntry, T.Key, T.Value, T.BlockEnd});
      IndentlessParses(ts, q, h, l.tail);
    }
  }

  lemma PairsGoOn(ts: seq<Lexed>, p: nat, l: BlockPairs)
    requires At(ts, p, BlockPairsTokens(l)) && p + |BlockPairsTokens(l)| < |ts|
    ensures ts[p].kind.Key? || (l.NoPairs? && p + |BlockPairsTokens(l)| == p)
  {
    if l.MorePairs? { AtFirst(ts, p, BlockPairsTokens(l)); }
  }

  lemma ValueGoesOn(ts: seq<Lexed>, p: nat, v: Value)
    requires At(ts, p, ValueTokens(v)) && p + |ValueTokens(v)| < |ts|
    ensures ts[p].kind.Value? || (v.NoValue? && p + |ValueTokens(v)| == p)
  {
    if v.Value? { AtFirst(ts, p, ValueTokens(v)); }
  }

  lemma {:induction false} BlockPairParses(ts: seq<Lexed>, p: nat, h: G.Handles, l: BlockPairs)
    requires G.Framed(ts) && 0 < p && l.MorePairs? && SlotFits(l.key, h, InMapping) && ValueFits(l.value, h, InMapping)
    requires At(ts, p, SlotTokens(l.key)) && At(ts, p + |SlotTokens(l.key)|, ValueTokens(l.value))
    requires var s := p + |SlotTokens(l.key)| + |ValueTokens(l.value)|;
             s < |ts| && (ts[s].kind.Key? || ts[s].kind.BlockEnd?)
    ensures p < |ts| && p + |SlotTokens(l.key)| < |ts|
    ensures G.ParseOptional(ts, p, h, true, true, G.BLOCK_STOPS)
            == G.Got(SlotOf(l.key, h, InMapping), p + |SlotTokens(l.key)|)
    ensures G.ParseMarked(ts, p + |SlotTokens(l.key)|, h, T.Value, true, G.BLOCK_STOPS)
            == G.Got(ValueOf(l.value, h, InMapping), p + |SlotTokens(l.key)| + |ValueTokens(l.value)|)
    decreases l, 7
  {
    hide G.Framed, Inner, SlotTokens, SlotFits, SlotOf, ValueTokens, ValueFits, ValueOf, G.ParseOptional, G.ParseMarked,
         At;
    var q := p + |SlotTokens(l.key)|;
    ValueGoesOn(ts, q, l.value);
    SlotParses(ts, p, h, l.key, InMapping, G.BLOCK_STOPS);
    ValueParses(ts, q, h, l.value, InMapping, G.BLOCK_STOPS);
  }

  lemma {:induction false} BlockPairsParse(ts: seq<Lexed>, p: nat, h: G.Handles, l: BlockPairs)
    requires G.Framed(ts) && 0 < p && At(ts, p, BlockPairsTokens(l)) && BlockPairsFit(l, h)
    requires p + |BlockPairsTokens(l)| < |ts| && ts[p + |BlockPairsTokens(l)|].kind.BlockEnd?
    ensures G.ParseBlockMapping(ts, p, h) == G.Got(BlockPairsOf(l, h), p + |BlockPairsTokens(l)| + 1)
    decreases l, 8
  {
    hide G.Framed, Inner, SlotTokens, SlotFits, SlotOf, ValueTokens, ValueFits, ValueOf, G.ParseOptional, G.ParseMarked,
         At;
    if l.MorePairs? {
      var key, value, rest := SlotTokens(l.key), ValueTokens(l.value), BlockPairsTokens(l.tail);
      AtSplit(ts, p, [Sign(T.Key)] + key + value, rest);
      AtThree(ts, p, [Sign(T.Key)], key, value);
      AtFirst(ts, p, [Sign(T.Key)]);
      var q, s := p + 1 + |key|, p + 1 + |key| + |value|;
      PairsGoOn(ts, s, l.tail);
      BlockPairParses(ts, p + 1, h, l);
      BlockPairsParse(ts, s, h, l.tail);
    }
  }

  /** In front of the entries of a flow sequence, the comma of all but the first one is skipped. */
  lemma EntriesGoOn(ts: seq<Lexed>, p: nat, l: Entries)
    requires At(ts, p, EntriesTokens(l, false))
    ensures p < |ts| && Ends(ts[p].kind, InFlow) && ts[p].kind in G.SEQUENCE_VALUE_STOPS
  {
    AtFirst(ts, p, EntriesTokens(l, false));
  }

  /** The entry n from q to s, with the entries behind it. */
  lemma EntryStep(ts: seq<Lexed>, p: nat, h: G.Handles, first: bool, n: E.Node, s: nat, items: E.Nodes, next: nat)
    requires G.Framed(ts) && 0 < p && At(ts, p, Comma(first)) && p + |Comma(first)| < |ts|
    requires var q := p + |Comma(first)|;
             && !ts[q].kind.FlowSequenceEnd?
             && (if ts[q].kind.Key? then G.ParseSinglePair(ts, q, h) else G.ParseNode(ts, q, h, false, false))
                == G.Got(n, s)
    requires 0 < s < |ts| && G.ParseFlowSequence(ts, s, h, false) == G.Got(items, next)
    ensures G.ParseFlowSequence(ts, p, h, first) == G.Got(E.MoreNodes(n, items), next)
  {
    hide G.Framed, Inner, G.ParseNode, G.ParseSinglePair;
    if !first { AtFirst(ts, p, Comma(first)); }
  }

  lemma {:induction false} EntriesParse(ts: seq<Lexed>, p: nat, h: G.Handles, l: Entries, first: bool)
    requires G.Framed(ts) && 0 < p && At(ts, p, EntriesTokens(l, first)) && EntriesFit(l, h, first)
    requires p + |EntriesTokens(l, first)| < |ts|
    ensures G.ParseFlowSequence(ts, p, h, first) == G.Got(EntriesOf(l, h, first), p + |EntriesTokens(l, first)|)
    decreases l, 9
  {
    hide G.Framed, Inner, EntriesTokens, EntriesFit, EntriesOf, At, G.ParseFlowSequence, G.ParseSinglePair, G.ParseNode,
         EntryTokens, EntryFits, EntryOf, Ends, Comma;
    if l.EndEntries? {
      EntriesEnd(ts, p, h, l.comma, first);
    } else {
      var tail := l.tail;
      var entry := EntryTokens(l);
      EntriesSplit(l, h, first);
      AtThree(ts, p, Comma(first), entry, EntriesTokens(tail, false));
      var q := p + |Comma(first)|;
      var s := q + |entry|;
      EntriesGoOn(ts, s, tail);
      if l.NodeEntry? {
        NodeEntryParses(ts, q, h, l, s);
      } else {
        PairParses(ts, q, h, l, s);
      }
      EntriesParse(ts, s, h, tail, false);
      EntryStep(ts, p, h, first, EntryOf(l, h), s, EntriesOf(tail, h, false), s + |EntriesTokens(tail, false)|);
    }
  }

  lemma EntriesEnd(ts: seq<Lexed>, p: nat, h: G.Handles, comma: bool, first: bool)
    requires G.Framed(ts) && 0 < p && At(ts, p, EntriesTokens(EndEntries(comma), first))
    requires EntriesFit(EndEntries(comma), h, first) && p + |EntriesTokens(EndEntries(comma), first)| < |ts|
    ensures G.ParseFlowSequence(ts, p, h, first)
            == G.Got(EntriesOf(EndEntries(comma), h, first), p + |EntriesTokens(EndEntries(comma), first)|)
  {
    AtSplit(ts, p, Comma(!comma), [Sign(T.FlowSequenceEnd)]);
    if comma { AtFirst(ts, p, Comma(!comma)); }
    AtFirst(ts, p + |Comma(!comma)|, [Sign(T.FlowSequenceEnd)]);
  }

  // The first entry and the others.

  function EntryTokens(l: Entries): seq<Lexed>
    requires !l.EndEntries?
  {
    if l.NodeEntry? then Tokens(l.node) else [Sign(T.Key)] + SlotTokens(l.key) + ValueTokens(l.value)
  }

  predicate EntryFits(l: Entries, h: G.Handles)
    requires !l.EndEntries?
  {
    if l.NodeEntry? then Fits(l.node, h, InFlow) else SlotFits(l.key, h, InFlow) && ValueFits(l.value, h, InFlow)
  }

  function EntryOf(l: Entries, h: G.Handles): E.Node
    requires !l.EndEntries? && EntryFits(l, h)
  {
    if l.NodeEntry? then NodeOf(l.node, h, InFlow)
    else
      E.MappingNode(None, None, true, Some(true),
                    E.MorePairs(SlotOf(l.key, h, InFlow), ValueOf(l.value, h, InFlow), E.NoPairs))
  }

  lemma EntriesSplit(l: Entries, h: G.Handles, first: bool)
    requires !l.EndEntries? && EntriesFit(l, h, first)
    ensures EntriesTokens(l, first) == Comma(first) + EntryTokens(l) + EntriesTokens(l.tail, false)
    ensures EntryFits(l, h) && EntriesFit(l.tail, h, false)
    ensures EntriesOf(l, h, first) == E.MoreNodes(EntryOf(l, h), EntriesOf(l.tail, h, false))
  {
    if l.PairEntry? {
      PairSpelled(first, SlotTokens(l.key), ValueTokens(l.value), EntriesTokens(l.tail, false));
    }
  }

  lemma PairSpelled(first: bool, key: seq<Lexed>, value: seq<Lexed>, rest: seq<Lexed>)
    ensures Comma(first) + [Sign(T.Key)] + key + value + rest == Comma(first) + ([Sign(T.Key)] + key + value) + rest
  {
  }

  lemma {:induction false} NodeEntryParses(ts: seq<Lexed>, q: nat, h: G.Handles, l: Entries, s: nat)
    requires G.Framed(ts) && 0 < q && l.NodeEntry? && At(ts, q, EntryTokens(l)) && EntryFits(l, h)
    requires s == q + |EntryTokens(l)| < |ts| && Ends(ts[s].kind, InFlow)
    ensures q < |ts| && !ts[q].kind.Key? && !ts[q].kind.FlowSequenceEnd?
    ensures G.ParseNode(ts, q, h, false, false) == G.Got(EntryOf(l, h), s)
    decreases l, 8
  {
    hide G.Framed, Inner, Tokens, Fits, NodeOf, G.ParseNode, At;
    NodeStarts(l.node, h, InFlow);
    AtFirst(ts, q, Tokens(l.node));
    NodeParses(ts, q, h, l.node, InFlow);
  }

  lemma {:induction false} PairParses(ts: seq<Lexed>, q: nat, h: G.Handles, l: Entries, s: nat)
    requires G.Framed(ts) && 0 < q && l.PairEntry? && At(ts, q, EntryTokens(l)) && EntryFits(l, h)
    requires s == q + |EntryTokens(l)| < |ts| && Ends(ts[s].kind, InFlow) && ts[s].kind in G.SEQUENCE_VALUE_STOPS
    ensures q < |ts| && ts[q].kind.Key? && G.ParseSinglePair(ts, q, h) == G.Got(EntryOf(l, h), s)
    decreases l, 8
  {
    hide G.Framed, Inner, SlotTokens, ValueTokens, SlotFits, ValueFits, SlotOf, ValueOf, G.ParseOptional, G.ParseMarked,
         At;
    AtThree(ts, q, [Sign(T.Key)], SlotTokens(l.key), ValueTokens(l.value));
    AtFirst(ts, q, [Sign(T.Key)]);
    var u := q + 1 + |SlotTokens(l.key)|;
    ValueGoesOn(ts, u, l.value);
    SlotParses(ts, q + 1, h, l.key, InFlow, G.SEQUENCE_STOPS);
    ValueParses(ts, u, h, l.value, InFlow, G.SEQUENCE_VALUE_STOPS);
  }

  // The pairs of a flow mapping.

  function FlowPairTokens(l: FlowPairs): seq<Lexed>
    requires !l.EndPairs?
  {
    if l.LoneKey? then Tokens(l.node) else [Sign(T.Key)] + SlotTokens(l.key) + ValueTokens(l.value)
  }

  predicate FlowPairFits(l: FlowPairs, h: G.Handles)
    requires !l.EndPairs?
  {
    if l.LoneKey? then Fits(l.node, h, InFlow) else SlotFits(l.key, h, InFlow) && ValueFits(l.value, h, InFlow)
  }

  function KeyOf(l: FlowPairs, h: G.Handles): E.Node
    requires !l.EndPairs? && FlowPairFits(l, h)
  {
    if l.LoneKey? then NodeOf(l.node, h, InFlow) else SlotOf(l.key, h, InFlow)
  }

  function ValueBehind(l: FlowPairs, h: G.Handles): E.Node
    requires !l.EndPairs? && FlowPairFits(l, h)
  {
    if l.LoneKey? then NO_NODE else ValueOf(l.value, h, InFlow)
  }

  lemma FlowPairsSplit(l: FlowPairs, h: G.Handles, first: bool)
    requires !l.EndPairs? && FlowPairsFit(l, h, first)
    ensures FlowPairsTokens(l, first) == Comma(first) + FlowPairTokens(l) + FlowPairsTokens(l.tail, false)
    ensures FlowPairFits(l, h) && FlowPairsFit(l.tail, h, false)
    ensures FlowPairsOf(l, h, first)
            == E.MorePairs(KeyOf(l, h), ValueBehind(l, h), FlowPairsOf(l.tail, h, false))
  {
    if l.KeyedPair? {
      PairSpelled(first, SlotTokens(l.key), ValueTokens(l.value), FlowPairsTokens(l.tail, false));
    }
  }

  lemma FlowPairsGoOn(ts: seq<Lexed>, p: nat, l: FlowPairs)
    requires At(ts, p, FlowPairsTokens(l, false))
    ensures p < |ts| && Ends(ts[p].kind, InFlow) && ts[p].kind in G.MAPPING_VALUE_STOPS
  {
    AtFirst(ts, p, FlowPairsTokens(l, false));
  }

  lemma FlowPairsEnd(ts: seq<Lexed>, p: nat, h: G.Handles, comma: bool, first: bool)
    requires G.Framed(ts) && 0 < p && At(ts, p, FlowPairsTokens(EndPairs(comma), first))
    requires FlowPairsFit(EndPairs(comma), h, first) && p + |FlowPairsTokens(EndPairs(comma), first)| < |ts|
    ensures G.ParseFlowMapping(ts, p, h, first)
            == G.Got(FlowPairsOf(EndPairs(comma), h, first), p + |FlowPairsTokens(EndPairs(comma), first)|)
  {
    AtSplit(ts, p, Comma(!comma), [Sign(T.FlowMappingEnd)]);
    if comma { AtFirst(ts, p, Comma(!comma)); }
    AtFirst(ts, p + |Comma(!comma)|, [Sign(T.FlowMappingEnd)]);
  }

  /** The pair from q to s, with the pairs behind it. */
  lemma FlowPairStep(ts: seq<Lexed>, p: nat, h: G.Handles, first: bool, k: E.Node, u: nat, v: E.Node, s: nat,
                     pairs: E.Pairs, next: nat)
    requires G.Framed(ts) && 0 < p && At(ts, p, Comma(first)) && p + |Comma(first)| < |ts|
    requires var q := p + |Comma(first)|;
             && !ts[q].kind.FlowMappingEnd? && G.ParseFlowKey(ts, q, h) == G.Got(k, u)
             && (if ts[q].kind.Key? then G.ParseMarked(ts, u, h, T.Value, false, G.MAPPING_VALUE_STOPS)
                 else G.Got(NO_NODE, u)) == G.Got(v, s)
    requires 0 < s < |ts| && G.ParseFlowMapping(ts, s, h, false) == G.Got(pairs, next)
    ensures G.ParseFlowMapping(ts, p, h, first) == G.Got(E.MorePairs(k, v, pairs), next)
  {
    hide G.Framed, Inner, G.ParseFlowKey, G.ParseMarked;
    if !first { AtFirst(ts, p, Comma(first)); }
  }

  lemma {:induction false} KeyedPairParses(ts: seq<Lexed>, q: nat, h: G.Handles, l: FlowPairs, s: nat) returns (u: nat)
    requires G.Framed(ts) && 0 < q && l.KeyedPair? && At(ts, q, FlowPairTokens(l)) && FlowPairFits(l, h)
    requires s == q + |FlowPairTokens(l)| < |ts| && Ends(ts[s].kind, InFlow) && ts[s].kind in G.MAPPING_VALUE_STOPS
    ensures q < |ts| && ts[q].kind.Key? && 0 < u < |ts| && G.ParseFlowKey(ts, q, h) == G.Got(KeyOf(l, h), u)
    ensures G.ParseMarked(ts, u, h, T.Value, false, G.MAPPING_VALUE_STOPS) == G.Got(ValueBehind(l, h), s)
    decreases l, 8
  {
    hide G.Framed, Inner, SlotTokens, ValueTokens, SlotFits, ValueFits, SlotOf, ValueOf, G.ParseOptional, G.ParseMarked,
         At;
    AtThree(ts, q, [Sign(T.Key)], SlotTokens(l.key), ValueTokens(l.value));
    AtFirst(ts, q, [Sign(T.Key)]);
    u := q + 1 + |SlotTokens(l.key)|;
    ValueGoesOn(ts, u, l.value);
    SlotParses(ts, q + 1, h, l.key, InFlow, G.MAPPING_STOPS);
    ValueParses(ts, u, h, l.value, InFlow, G.MAPPING_VALUE_STOPS);
  }

  lemma {:induction false} LoneKeyParses(ts: seq<Lexed>, q: nat, h: G.Handles, l: FlowPairs, s: nat)
    requires G.Framed(ts) && 0 < q && l.LoneKey? && At(ts, q, FlowPairTokens(l)) && FlowPairFits(l, h)
    requires s == q + |FlowPairTokens(l)| < |ts| && Ends(ts[s].kind, InFlow)
    ensures q < |ts| && !ts[q].kind.Key? && !ts[q].kind.FlowMappingEnd?
    ensures G.ParseFlowKey(ts, q, h) == G.Got(KeyOf(l, h), s) && ValueBehind(l, h) == NO_NODE
    decreases l, 8
  {
    hide G.Framed, Inner, Tokens, Fits, NodeOf, G.ParseNode, At;
    NodeStarts(l.node, h, InFlow);
    AtFirst(ts, q, Tokens(l.node));
    NodeParses(ts, q, h, l.node, InFlow);
  }

  lemma {:induction false} FlowPairsParse(ts: seq<Lexed>, p: nat, h: G.Handles, l: FlowPairs, first: bool)
    requires G.Framed(ts) && 0 < p && At(ts, p, FlowPairsTokens(l, first)) && FlowPairsFit(l, h, first)
    requires p + |FlowPairsTokens(l, first)| < |ts|
    ensures G.ParseFlowMapping(ts, p, h, first) == G.Got(FlowPairsOf(l, h, first), p + |FlowPairsTokens(l, first)|)
    decreases l, 9
  {
    hide G.Framed, Inner, FlowPairsTokens, FlowPairsFit, FlowPairsOf, At, G.ParseFlowMapping, G.ParseFlowKey,
         G.ParseMarked, FlowPairTokens, FlowPairFits, KeyOf, ValueBehind, Ends, Comma;
    if l.EndPairs? {
      FlowPairsEnd(ts, p, h, l.comma, first);
    } else {
      var tail := l.tail;
      FlowPairsSplit(l, h, first);
      AtThree(ts, p, Comma(first), FlowPairTokens(l), FlowPairsTokens(tail, false));
      var q := p + |Comma(first)|;
      var s := q + |FlowPairTokens(l)|;
      FlowPairsGoOn(ts, s, tail);
      var u := s;
      if l.LoneKey? {
        LoneKeyParses(ts, q, h, l, s);
      } else {
        u := KeyedPairParses(ts, q, h, l, s);
      }
      FlowPairsParse(ts, s, h, tail, false);
      FlowPairStep(ts, p, h, first, KeyOf(l, h), u, ValueBehind(l, h), s, FlowPairsOf(tail, h, false),
                   s + |FlowPairsTokens(tail, false)|);
    }
  }

  // Directives and documents.

  /** The handles declared, without the default ones. */
  function Declared(ds: seq<Directive>): G.Handles {
    if ds == [] then map[]
    else
      var h := Declared(ds[..|ds| - 1]);
      var d := ds[|ds| - 1];
      if d.TagDirective? then h[d.handle := d.prefix] else h
  }

  lemma {:induction false} DeclaredAreThose(ds: seq<Directive>)
    ensures HandlesOf(ds) == G.DEFAULT_TAGS + Declared(ds)
    ensures forall x: Text :: x in Declared(ds) <==>
            exists i :: 0 <= i < |ds| && ds[i].TagDirective? && ds[i].handle == x
  {
    if ds == [] {
      BangIsATag();
      assert G.Str("!!") == [0x21, 0x21];
    } else {
      DeclaredAreThose(ds[..|ds| - 1]);
    }
  }

  lemma NamesDiffer()
    ensures G.Str("YAML") != G.Str("TAG")
  {
    assert |G.Str("YAML")| == 4 && |G.Str("TAG")| == 3;
  }

  predicate HasVersion(ds: seq<Directive>) { exists i :: 0 <= i < |ds| && ds[i].VersionDirective? }

  lemma DirectivesStep(ds: seq<Directive>, done: nat)
    requires done < |ds| && DirectivesFit(ds)
    ensures DirectivesTokens(ds[done..]) == [DirectiveToken(ds[done])] + DirectivesTokens(ds[done + 1..])
    ensures HasVersion(ds[..done + 1]) == (HasVersion(ds[..done]) || ds[done].VersionDirective?)
    ensures HasVersion(ds[..done]) ==> !ds[done].VersionDirective?
    ensures ds[done].TagDirective? ==> ds[done].handle !in Declared(ds[..done])
    ensures Declared(ds[..done + 1]) == if ds[done].TagDirective?
                                        then Declared(ds[..done])[ds[done].handle := ds[done].prefix]
                                        else Declared(ds[..done])
  {
    assert ds[done..][1..] == ds[done + 1..] && ds[..done + 1][..done] == ds[..done];
    DeclaredAreThose(ds[..done]);
    assert forall i :: 0 <= i < done ==> ds[..done + 1][i] == ds[..done][i];
    assert ds[..done + 1][done] == ds[done];
  }

  lemma {:induction false} DirectivesParse(ts: seq<Lexed>, p: nat, ds: seq<Directive>, done: nat)
    requires G.Framed(ts) && 0 < p && DirectivesFit(ds) && done <= |ds| && At(ts, p, DirectivesTokens(ds[done..]))
    requires var q := p + |DirectivesTokens(ds[done..])|; q < |ts| && !ts[q].kind.Directive?
    ensures G.ParseDirectives(ts, p, HasVersion(ds[..done]), Declared(ds[..done]))
            == Some((HandlesOf(ds), p + |DirectivesTokens(ds[done..])|))
    decreases |ds| - done
  {
    hide G.Framed, Inner, At, HasVersion, Declared, HandlesOf;
    if done == |ds| {
      assert ds[..done] == ds;
      DeclaredAreThose(ds);
    } else {
      DirectivesStep(ds, done);
      AtSign(ts, p, DirectiveToken(ds[done]), DirectivesTokens(ds[done + 1..]));
      DirectivesParse(ts, p + 1, ds, done + 1);
      NamesDiffer();
    }
  }

  lemma {:induction false} EndsSkipped(ts: seq<Lexed>, p: nat, n: nat)
    requires G.Framed(ts) && 0 < p && At(ts, p, EndsTokens(n)) && p + n < |ts| && !ts[p + n].kind.DocumentEnd?
    ensures G.SkipDocumentEnds(ts, p) == p + n
    decreases n
  {
    if n > 0 {
      AtSign(ts, p, Sign(T.DocumentEnd), EndsTokens(n - 1));
      EndsSkipped(ts, p + 1, n - 1);
    }
  }

  /** The kinds between two documents and behind the last one. */
  predicate StartsDocument(k: T.Kind) { k.Directive? || k.DocumentStart? || k.StreamEnd? }

  lemma ExplicitTokens(d: Doc)
    requires d.explicit
    ensures DocTokens(d) == DirectivesTokens(d.directives)
                            + ([Sign(T.DocumentStart)] + (SlotTokens(d.root) + EndsTokens(d.ends)))
  {
    var a, b, s, e := DirectivesTokens(d.directives), [Sign(T.DocumentStart)], SlotTokens(d.root), EndsTokens(d.ends);
    assert a + b + s + e == a + (b + (s + e));
  }

  lemma ImplicitTokens(d: Doc)
    requires !d.explicit && d.directives == []
    ensures DocTokens(d) == SlotTokens(d.root) + EndsTokens(d.ends)
  {
    var s, e := SlotTokens(d.root), EndsTokens(d.ends);
    assert [] + [] + s + e == s + e;
  }

  lemma DocStarts(d: Doc)
    requires d.explicit
    ensures DocTokens(d) != [] && StartsDocument(DocTokens(d)[0].kind)
  {
    hide Inner;
    ExplicitTokens(d);
  }

  /** What documents and the end of the stream start with. */
  lemma DocsStart(docs: seq<Doc>)
    requires forall i :: 0 <= i < |docs| ==> DocFits(docs[i], false)
    ensures var s := DocsTokens(docs) + [Sign(T.StreamEnd)]; s != [] && StartsDocument(s[0].kind)
  {
    hide Inner, DirectivesFit, SlotFits, HandlesOf, DocTokens;
    if docs != [] {
      assert DocFits(docs[0], false);
      DocStarts(docs[0]);
    }
  }

  /** The documents behind the first one, which all start with '---'. */
  lemma {:induction false} DocumentsParse(ts: seq<Lexed>, p: nat, n: nat, docs: seq<Doc>, before: nat)
    requires G.Framed(ts) && 0 < p && DocsFit(docs) && 0 < before <= |docs| && At(ts, p, EndsTokens(n))
    requires At(ts, p + n, DocsTokens(docs[before..]) + [Sign(T.StreamEnd)])
    requires p + n + |DocsTokens(docs[before..])| + 1 == |ts|
    ensures G.ParseDocuments(ts, p) == G.Got(DocsOf(docs)[before..], |ts|)
    decreases |docs| - before, 1
  {
    hide G.Framed, Inner, At, DocTokens, DocFits, G.ParseDocument, G.ParseDirectives, DocsOf, HandlesOf, EndsTokens,
         DirectivesTokens, SlotTokens;
    var rest := docs[before..];
    DocsStart(rest);
    AtFirst(ts, p + n, DocsTokens(rest) + [Sign(T.StreamEnd)]);
    EndsSkipped(ts, p, n);
    if before == |docs| {
      assert rest == [] && DocsOf(docs)[before..] == [];
    } else {
      var d, q := docs[before], p + n;
      var more := DocsTokens(docs[before + 1..]) + [Sign(T.StreamEnd)];
      LaterIsExplicit(docs, before);
      DocsSplit(docs, before);
      AtSplit(ts, q, DocTokens(d), more);
      var s := ExplicitParses(ts, q, d);
      RootParses(ts, s + 1, docs, before);
    }
  }

  lemma LaterIsExplicit(docs: seq<Doc>, i: nat)
    requires DocsFit(docs) && i < |docs| && (i == 0 ==> docs[0].explicit)
    ensures docs[i].explicit && DocFits(docs[i], false)
  {
    assert DocFits(docs[i], i == 0);
  }

  lemma AllExplicit(docs: seq<Doc>)
    requires DocsFit(docs) && (docs == [] || docs[0].explicit)
    ensures forall i :: 0 <= i < |docs| ==> DocFits(docs[i], false)
  {
    hide DocFits;
    forall i | 0 <= i < |docs| ensures DocFits(docs[i], false) {
      LaterIsExplicit(docs, i);
    }
  }

  lemma DocsSplit(docs: seq<Doc>, i: nat)
    requires i < |docs|
    ensures DocsTokens(docs[i..]) + [Sign(T.StreamEnd)]
            == DocTokens(docs[i]) + (DocsTokens(docs[i + 1..]) + [Sign(T.StreamEnd)])
  {
    assert docs[i..][1..] == docs[i + 1..];
    var a, b, e := DocTokens(docs[i]), DocsTokens(docs[i + 1..]), [Sign(T.StreamEnd)];
    assert a + b + e == a + (b + e);
  }

  /** The directives and '---' of an explicit document. */
  lemma ExplicitParses(ts: seq<Lexed>, q: nat, d: Doc) returns (s: nat)
    requires G.Framed(ts) && 0 < q && d.explicit && DocFits(d, false) && At(ts, q, DocTokens(d))
    ensures s == q + |DirectivesTokens(d.directives)| < |ts| && ts[s].kind.DocumentStart? && !ts[q].kind.StreamEnd?
    ensures G.ParseDirectives(ts, q, false, map[]) == Some((HandlesOf(d.directives), s))
    ensures At(ts, s + 1, SlotTokens(d.root) + EndsTokens(d.ends))
    ensures q + |DocTokens(d)| == s + 1 + |SlotTokens(d.root) + EndsTokens(d.ends)|
  {
    hide G.Framed, Inner, At, HandlesOf, SlotTokens;
    ExplicitTokens(d);
    var root := SlotTokens(d.root) + EndsTokens(d.ends);
    AtSplit(ts, q, DirectivesTokens(d.directives), [Sign(T.DocumentStart)] + root);
    s := q + |DirectivesTokens(d.directives)|;
    AtSign(ts, s, Sign(T.DocumentStart), root);
    assert d.directives[0..] == d.directives && d.directives[..0] == [];
    DirectivesParse(ts, q, d.directives, 0);
    if d.directives != [] { AtFirst(ts, q, DirectivesTokens(d.directives)); }
  }

  /** The root of the i-th document, its end, and the documents behind it. */
  lemma {:induction false} RootParses(ts: seq<Lexed>, p: nat, docs: seq<Doc>, i: nat)
    requires G.Framed(ts) && 0 < p && DocsFit(docs) && i < |docs|
    requires At(ts, p, SlotTokens(docs[i].root) + EndsTokens(docs[i].ends))
    requires var q := p + |SlotTokens(docs[i].root) + EndsTokens(docs[i].ends)|;
             At(ts, q, DocsTokens(docs[i + 1..]) + [Sign(T.StreamEnd)]) && q + |DocsTokens(docs[i + 1..])| + 1 == |ts|
    ensures p < |ts|
    ensures G.ParseDocument(ts, p, HandlesOf(docs[i].directives), docs[i].explicit) == G.Got(DocsOf(docs)[i..], |ts|)
    decreases |docs| - i, 0
  {
    hide G.Framed, Inner, At, SlotTokens, SlotFits, SlotOf, G.ParseOptional, G.ParseDocuments, HandlesOf,
         DocsTokens, DocsOf, DirectivesFit;
    var d, h := docs[i], HandlesOf(docs[i].directives);
    var root := SlotTokens(d.root);
    AtSplit(ts, p, root, EndsTokens(d.ends));
    var q := p + |root|;
    DocsStart(docs[i + 1..]);
    AtFirst(ts, q + d.ends, DocsTokens(docs[i + 1..]) + [Sign(T.StreamEnd)]);
    if d.ends > 0 { AtSign(ts, q, Sign(T.DocumentEnd), EndsTokens(d.ends - 1)); }
    RootNode(ts, p, d, h);
    DocsOfSplit(docs, i);
    if d.ends > 0 {
      DocumentsParse(ts, q + 1, d.ends - 1, docs, i + 1);
    } else {
      DocumentsParse(ts, q, 0, docs, i + 1);
    }
  }

  lemma DocsOfSplit(docs: seq<Doc>, i: nat)
    requires DocsFit(docs) && i < |docs|
    ensures DocsOf(docs)[i..] == [DocOf(docs[i], i == 0)] + DocsOf(docs)[i + 1..]
  {
    hide DocOf, DocFits;
  }

  lemma RootNode(ts: seq<Lexed>, p: nat, d: Doc, h: G.Handles)
    requires G.Framed(ts) && 0 < p && At(ts, p, SlotTokens(d.root)) && SlotFits(d.root, h, InBlock)
    requires var q := p + |SlotTokens(d.root)|; q < |ts| && (StartsDocument(ts[q].kind) || ts[q].kind.DocumentEnd?)
    requires !d.explicit ==> d.root.Holds?
    ensures (if d.explicit then G.ParseOptional(ts, p, h, true, false, G.CONTENT_STOPS)
             else G.ParseNode(ts, p, h, true, false))
            == G.Got(SlotOf(d.root, h, InBlock), p + |SlotTokens(d.root)|)
  {
    hide G.Framed, Inner, At, Tokens, Fits, NodeOf, G.ParseNode;
    SlotParses(ts, p, h, d.root, InBlock, G.CONTENT_STOPS);
    if !d.explicit { NodeParses(ts, p, h, d.root.node, InBlock); }
  }

  /** Every well-formed stream is accepted to its end, and the documents found are those it spells. */
  lemma StreamParses(docs: seq<Doc>)
    requires DocsFit(docs)
    ensures G.ParseStream(Spell(docs)) == G.Got(DocsOf(docs), |Spell(docs)|)
  {
    hide G.Framed, Inner, At, DocsTokens, DocTokens, G.ParseDocuments, G.ParseDocument, HandlesOf;
    var ts := Spell(docs);
    StreamSplit(docs);
    if docs == [] || docs[0].explicit {
      FromTheTop(ts, docs);
    } else {
      ImplicitFirst(ts, docs);
    }
  }

  lemma StreamSplit(docs: seq<Doc>)
    ensures var ts := Spell(docs);
            At(ts, 1, DocsTokens(docs) + [Sign(T.StreamEnd)]) && 1 + |DocsTokens(docs)| + 1 == |ts|
  {
    var a, b, e := [Sign(T.StreamStart)], DocsTokens(docs), [Sign(T.StreamEnd)];
    assert a + b + e == a + (b + e);
    assert Spell(docs)[1..] == b + e;
  }

  lemma FromTheTop(ts: seq<Lexed>, docs: seq<Doc>)
    requires DocsFit(docs) && (docs == [] || docs[0].explicit) && G.Framed(ts)
    requires At(ts, 1, DocsTokens(docs) + [Sign(T.StreamEnd)]) && 1 + |DocsTokens(docs)| + 1 == |ts|
    ensures G.ParseStream(ts) == G.Got(DocsOf(docs), |ts|)
  {
    hide G.Framed, Inner, At, DocTokens, DocFits, G.ParseDirectives, G.ParseDocument, DocsOf, HandlesOf;
    AllExplicit(docs);
    FromTheFirst(docs);
    DocsStart(docs);
    AtFirst(ts, 1, DocsTokens(docs) + [Sign(T.StreamEnd)]);
    EndsSkipped(ts, 1, 0);
    if docs != [] {
      DocsSplit(docs, 0);
      AtSplit(ts, 1, DocTokens(docs[0]), DocsTokens(docs[1..]) + [Sign(T.StreamEnd)]);
      var s := ExplicitParses(ts, 1, docs[0]);
      RootParses(ts, s + 1, docs, 0);
    }
  }

  lemma FromTheFirst(docs: seq<Doc>)
    requires DocsFit(docs)
    ensures docs[0..] == docs && DocsOf(docs)[0..] == DocsOf(docs)
  {
  }

  lemma ImplicitFirst(ts: seq<Lexed>, docs: seq<Doc>)
    requires DocsFit(docs) && docs != [] && !docs[0].explicit && G.Framed(ts)
    requires At(ts, 1, DocsTokens(docs) + [Sign(T.StreamEnd)]) && 1 + |DocsTokens(docs)| + 1 == |ts|
    ensures G.ParseStream(ts) == G.Got(DocsOf(docs), |ts|)
  {
    hide G.Framed, Inner, At, Tokens, Fits, G.ParseDocument, DocsOf;
    var d := docs[0];
    ImplicitTokens(d);
    FromTheFirst(docs);
    DocsSplit(docs, 0);
    AtSplit(ts, 1, DocTokens(d), DocsTokens(docs[1..]) + [Sign(T.StreamEnd)]);
    AtSplit(ts, 1, SlotTokens(d.root), EndsTokens(d.ends));
    NodeStarts(d.root.node, HandlesOf(d.directives), InBlock);
    AtFirst(ts, 1, Tokens(d.root.node));
    RootParses(ts, 1, docs, 0);
    DeclaredAreThose([]);
    assert HandlesOf([]) == G.DEFAULT_TAGS;
  }
}
