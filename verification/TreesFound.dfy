/** Whatever the parser accepts is a well-formed stream: the tokens are the spelling of syntax trees. With the other
    direction this is the language of the parser, exactly. */
module TreesFound {
  import opened Options
  import opened Chars
  import opened SyntaxTrees
  import opened TreesParse
  import C = Continuations
  import G = Grammar
  import T = TokenNesting

  /** A token with no more than the values of its kind. */
  predicate Proper(t: Lexed) {
    match t.kind
    case Alias | Anchor => t == Sign(t.kind).(text := t.text)
    case Tag => t == Sign(T.Tag).(handle := t.handle, text := t.text)
    case Scalar => t == Sign(T.Scalar).(text := t.text, plain := t.plain)
    case Directive =>
      if t.name == G.Str("YAML") then t == Sign(T.Directive).(name := t.name, major := t.major)
      else if t.name == G.Str("TAG")
        then t.handle.Some? && t == Sign(T.Directive).(name := t.name, handle := t.handle, text := t.text)
      else t == Sign(T.Directive).(name := t.name)
    case _ => t == Sign(t.kind)
  }

  predicate AllProper(ts: seq<Lexed>) { forall t <- ts :: Proper(t) }

  lemma AtJoin(ts: seq<Lexed>, p: nat, a: seq<Lexed>, b: seq<Lexed>)
    requires At(ts, p, a) && At(ts, p + |a|, b)
    ensures At(ts, p, a + b) && p + |a + b| == p + |a| + |b|
  {
    assert ts[p..p + |a + b|] == ts[p..p + |a|] + ts[p + |a|..p + |a| + |b|];
  }

  lemma AtJoinThree(ts: seq<Lexed>, p: nat, a: seq<Lexed>, b: seq<Lexed>, d: seq<Lexed>)
    requires At(ts, p, a) && At(ts, p + |a|, b) && At(ts, p + |a| + |b|, d)
    ensures At(ts, p, a + b + d) && p + |a + b + d| == p + |a| + |b| + |d|
  {
    AtJoin(ts, p, a, b);
    AtJoin(ts, p, a + b, d);
  }

  lemma AtNothing(ts: seq<Lexed>, p: nat)
    requires p <= |ts|
    ensures At(ts, p, [])
  {
  }

  /** The token at p, with its values. */
  lemma AtOne(ts: seq<Lexed>, p: nat)
    requires p < |ts| && AllProper(ts)
    ensures At(ts, p, [ts[p]]) && Proper(ts[p])
  {
  }

  /** A token of a kind without values. */
  lemma AtKind(ts: seq<Lexed>, p: nat, k: T.Kind)
    requires p < |ts| && AllProper(ts) && ts[p].kind == k
    requires !k.Alias? && !k.Anchor? && !k.Tag? && !k.Scalar? && !k.Directive?
    ensures At(ts, p, [Sign(k)])
  {
    AtOne(ts, p);
  }

  lemma AtAlias(ts: seq<Lexed>, p: nat)
    requires p < |ts| && AllProper(ts) && ts[p].kind.Alias?
    ensures At(ts, p, Tokens(AliasOf(ts[p].text)))
  {
    AtOne(ts, p);
  }

  lemma AtScalar(ts: seq<Lexed>, p: nat)
    requires p < |ts| && AllProper(ts) && ts[p].kind.Scalar?
    ensures At(ts, p, BodyTokens(Scalar(ts[p].text, ts[p].plain)))
  {
    AtOne(ts, p);
  }

  lemma AtAnchor(ts: seq<Lexed>, p: nat) returns (a: Option<Text>)
    requires p < |ts| && AllProper(ts) && ts[p].kind.Anchor?
    ensures a == Some(ts[p].text) && At(ts, p, AnchorTokens(a)) && |AnchorTokens(a)| == 1
  {
    AtOne(ts, p);
    a := Some(ts[p].text);
  }

  lemma AtTag(ts: seq<Lexed>, p: nat, h: G.Handles) returns (t: Option<TagName>)
    requires p < |ts| && AllProper(ts) && ts[p].kind.Tag? && G.Resolve(h, ts[p]).Some?
    ensures t.Some? && TagFits(t, h) && At(ts, p, TagTokens(t)) && |TagTokens(t)| == 1
  {
    AtOne(ts, p);
    t := Some(TagName(ts[p].handle, ts[p].text));
  }

  lemma NoProperties()
    ensures AnchorTokens(None) == [] && TagTokens(None) == [] && forall h: G.Handles :: TagFits(None, h)
  {
  }

  lemma PropertiesFound(ts: seq<Lexed>, p: nat, h: G.Handles) returns (a: Properties)
    requires G.Framed(ts) && AllProper(ts) && 0 < p < |ts| && G.ParseProperties(ts, p, h).Got?
    ensures TagFits(a.tag, h) && At(ts, p, PropertiesTokens(a))
    ensures var r := G.ParseProperties(ts, p, h);
            && r.next == p + |PropertiesTokens(a)|
            && (r.value.anchor.Some? <==> a.anchor.Some?) && (r.value.tag.Some? <==> a.tag.Some?)
  {
    hide G.Framed, Inner, AllProper, At, G.Resolve, AnchorTokens, TagTokens, TagFits;
    if ts[p].kind.Anchor? || ts[p].kind.Tag? { BehindToken(ts, p); }
    NoProperties();
    AtNothing(ts, p);
    AtNothing(ts, p + 1);
    a := Properties(None, None, false);
    if ts[p].kind.Anchor? {
      var anchor := AtAnchor(ts, p);
      a := Properties(anchor, None, false);
      if ts[p + 1].kind.Tag? {
        var tag := AtTag(ts, p + 1, h);
        a := Properties(anchor, tag, false);
      }
      AtJoin(ts, p, AnchorTokens(a.anchor), TagTokens(a.tag));
    } else if ts[p].kind.Tag? {
      var tag := AtTag(ts, p, h);
      a := Properties(None, tag, true);
      if ts[p + 1].kind.Anchor? {
        var anchor := AtAnchor(ts, p + 1);
        a := Properties(anchor, tag, true);
      }
      AtJoin(ts, p, TagTokens(a.tag), AnchorTokens(a.anchor));
    } else {
      AtJoin(ts, p, AnchorTokens(a.anchor), TagTokens(a.tag));
    }
  }

  lemma {:induction false} NodeFound(ts: seq<Lexed>, p: nat, h: G.Handles, spot: Spot) returns (c: Phrase)
    requires G.Framed(ts) && AllProper(ts) && 0 < p < |ts| && Parses(ts, p, h, spot).Got?
    ensures Fits(c, h, spot) && At(ts, p, Tokens(c)) && Parses(ts, p, h, spot).next == p + |Tokens(c)|
    decreases |ts| - p, 2
  {
    hide G.Framed, Inner, AllProper, At, PropertiesTokens, BodyTokens, BodyFits, G.ParseNode, G.ParseProperties;
    C.NodeCases(ts, h, p, !spot.InFlow?, spot.InMapping?);
    if ts[p].kind.Alias? {
      AtAlias(ts, p);
      c := AliasOf(ts[p].text);
    } else {
      var a := PropertiesFound(ts, p, h);
      var q := p + |PropertiesTokens(a)|;
      var b := BodyFound(ts, p, q, h, a, spot);
      c := Content(a, b);
      AtJoin(ts, p, PropertiesTokens(a), BodyTokens(b));
    }
  }

  /** A collection behind its properties. */
  lemma {:induction false} FlowFound(ts: seq<Lexed>, p: nat, q: nat, h: G.Handles, a: Properties, spot: Spot)
    returns (b: Body)
    requires G.Framed(ts) && AllProper(ts) && 0 < p < |ts| && !ts[p].kind.Alias? && Parses(ts, p, h, spot).Got?
    requires p <= q < |ts| && G.ParseProperties(ts, p, h).Got? && G.ParseProperties(ts, p, h).next == q
    requires ts[q].kind.FlowSequenceStart? || ts[q].kind.FlowMappingStart?
    ensures BodyFits(a, b, h, spot) && At(ts, q, BodyTokens(b)) && Parses(ts, p, h, spot).next == q + |BodyTokens(b)|
    decreases |ts| - q, 0
  {
    hide G.Framed, Inner, AllProper, At, ItemsTokens, BlockPairsTokens, EntriesTokens, FlowPairsTokens, ItemsFit,
         BlockPairsFit, EntriesFit, FlowPairsFit, G.ParseNode, G.ParseProperties, G.ParseIndentless,
         G.ParseBlockSequence,
         G.ParseBlockMapping, G.ParseFlowSequence, G.ParseFlowMapping;
    C.NodeCases(ts, h, p, !spot.InFlow?, spot.InMapping?);
    BehindToken(ts, q);
    if ts[q].kind.FlowSequenceStart? {
      var l := EntriesFound(ts, q + 1, h, true);
      AtKind(ts, q, T.FlowSequenceStart);
      AtJoin(ts, q, [Sign(T.FlowSequenceStart)], EntriesTokens(l, true));
      b := FlowSequence(l);
    } else {
      var l := FlowPairsFound(ts, q + 1, h, true);
      AtKind(ts, q, T.FlowMappingStart);
      AtJoin(ts, q, [Sign(T.FlowMappingStart)], FlowPairsTokens(l, true));
      b := FlowMapping(l);
    }
  }

  lemma {:induction false} BlockFound(ts: seq<Lexed>, p: nat, q: nat, h: G.Handles, a: Properties, spot: Spot)
    returns (b: Body)
    requires G.Framed(ts) && AllProper(ts) && 0 < p < |ts| && !ts[p].kind.Alias? && Parses(ts, p, h, spot).Got?
    requires p <= q < |ts| && G.ParseProperties(ts, p, h).Got? && G.ParseProperties(ts, p, h).next == q
    requires !spot.InFlow? && (ts[q].kind.BlockSequenceStart? || ts[q].kind.BlockMappingStart?)
    ensures BodyFits(a, b, h, spot) && At(ts, q, BodyTokens(b)) && Parses(ts, p, h, spot).next == q + |BodyTokens(b)|
    decreases |ts| - q, 0
  {
    hide G.Framed, Inner, AllProper, At, ItemsTokens, BlockPairsTokens, EntriesTokens, FlowPairsTokens, ItemsFit,
         BlockPairsFit, EntriesFit, FlowPairsFit, G.ParseNode, G.ParseProperties, G.ParseIndentless,
         G.ParseBlockSequence,
         G.ParseBlockMapping, G.ParseFlowSequence, G.ParseFlowMapping;
    C.NodeCases(ts, h, p, !spot.InFlow?, spot.InMapping?);
    BehindToken(ts, q);
    if ts[q].kind.BlockSequenceStart? {
      var l := ItemsFound(ts, q + 1, h);
      AtKind(ts, q, T.BlockSequenceStart);
      AtJoinThree(ts, q, [Sign(T.BlockSequenceStart)], ItemsTokens(l), [Sign(T.BlockEnd)]);
      b := BlockSequence(l);
    } else {
      var l := BlockPairsFound(ts, q + 1, h);
      AtKind(ts, q, T.BlockMappingStart);
      AtJoinThree(ts, q, [Sign(T.BlockMappingStart)], BlockPairsTokens(l), [Sign(T.BlockEnd)]);
      b := BlockMapping(l);
    }
  }

  lemma {:induction false} BodyFound(ts: seq<Lexed>, p: nat, q: nat, h: G.Handles, a: Properties, spot: Spot)
    returns (b: Body)
    requires G.Framed(ts) && AllProper(ts) && 0 < p < |ts| && !ts[p].kind.Alias? && Parses(ts, p, h, spot).Got?
    requires p <= q < |ts| && G.ParseProperties(ts, p, h).Got? && G.ParseProperties(ts, p, h).next == q
    requires var r := G.ParseProperties(ts, p, h).value;
             (r.anchor.Some? <==> a.anchor.Some?) && (r.tag.Some? <==> a.tag.Some?)
    ensures BodyFits(a, b, h, spot) && At(ts, q, BodyTokens(b)) && Parses(ts, p, h, spot).next == q + |BodyTokens(b)|
    decreases |ts| - q, 1
  {
    hide G.Framed, Inner, AllProper, At, ItemsTokens, BlockPairsTokens, EntriesTokens, FlowPairsTokens, ItemsFit,
         BlockPairsFit, EntriesFit, FlowPairsFit, G.ParseNode, G.ParseProperties, G.ParseIndentless,
         G.ParseBlockSequence,
         G.ParseBlockMapping, G.ParseFlowSequence, G.ParseFlowMapping;
    C.NodeCases(ts, h, p, !spot.InFlow?, spot.InMapping?);
    var k := ts[q].kind;
    if spot.InMapping? && k.BlockEntry? {
      var l := IndentlessFound(ts, q, h);
      b := IndentlessSequence(l);
    } else if k.Scalar? {
      AtScalar(ts, q);
      b := Scalar(ts[q].text, ts[q].plain);
    } else if k.FlowSequenceStart? || k.FlowMappingStart? {
      b := FlowFound(ts, p, q, h, a, spot);
    } else if !spot.InFlow? && (k.BlockSequenceStart? || k.BlockMappingStart?) {
      b := BlockFound(ts, p, q, h, a, spot);
    } else {
      AtNothing(ts, q);
      b := Empty;
    }
  }

  lemma {:induction false} SlotFound(ts: seq<Lexed>, p: nat, h: G.Handles, spot: Spot, stops: set<T.Kind>)
    returns (o: Slot)
    requires G.Framed(ts) && AllProper(ts) && 0 < p < |ts|
    requires G.ParseOptional(ts, p, h, !spot.InFlow?, spot.InMapping?, stops).Got?
    ensures SlotFits(o, h, spot) && At(ts, p, SlotTokens(o))
    ensures G.ParseOptional(ts, p, h, !spot.InFlow?, spot.InMapping?, stops).next == p + |SlotTokens(o)|
    decreases |ts| - p, 3
  {
    hide G.Framed, Inner, AllProper, At, Tokens, Fits, G.ParseNode;
    if ts[p].kind in stops {
      AtNothing(ts, p);
      o := Nothing;
    } else {
      var c := NodeFound(ts, p, h, spot);
      o := Holds(c);
    }
  }

  lemma {:induction false} ValueFound(ts: seq<Lexed>, p: nat, h: G.Handles, spot: Spot, stops: set<T.Kind>)
    returns (v: Value)
    requires G.Framed(ts) && AllProper(ts) && 0 < p < |ts| && !spot.InBlock?
    requires G.ParseMarked(ts, p, h, T.Value, !spot.InFlow?, stops).Got?
    ensures ValueFits(v, h, spot) && At(ts, p, ValueTokens(v))
    ensures G.ParseMarked(ts, p, h, T.Value, !spot.InFlow?, stops).next == p + |ValueTokens(v)|
    decreases |ts| - p, 4
  {
    hide G.Framed, Inner, AllProper, At, SlotTokens, SlotFits, G.ParseOptional;
    if ts[p].kind.Value? {
      BehindToken(ts, p);
      var o := SlotFound(ts, p + 1, h, spot, stops);
      AtKind(ts, p, T.Value);
      AtJoin(ts, p, [Sign(T.Value)], SlotTokens(o));
      v := Value.Value(o);
    } else {
      AtNothing(ts, p);
      v := NoValue;
    }
  }

  lemma BehindToken(ts: seq<Lexed>, p: nat)
    requires G.Framed(ts) && p < |ts| && !ts[p].kind.StreamEnd?
    ensures p + 1 < |ts|
  {
  }

  lemma {:induction false} ItemsFound(ts: seq<Lexed>, p: nat, h: G.Handles) returns (l: Items)
    requires G.Framed(ts) && AllProper(ts) && 0 < p < |ts| && G.ParseBlockSequence(ts, p, h).Got?
    ensures ItemsFit(l, h) && At(ts, p, ItemsTokens(l)) && At(ts, p + |ItemsTokens(l)|, [Sign(T.BlockEnd)])
    ensures G.ParseBlockSequence(ts, p, h).next == p + |ItemsTokens(l)| + 1
    decreases |ts| - p, 5
  {
    hide G.Framed, Inner, AllProper, At, SlotTokens, SlotFits, G.ParseOptional;
    if ts[p].kind.BlockEntry? {
      BehindToken(ts, p);
      var o := SlotFound(ts, p + 1, h, InBlock, {T.BlockEntry, T.BlockEnd});
      AtKind(ts, p, T.BlockEntry);
      var tail := ItemsFound(ts, p + 1 + |SlotTokens(o)|, h);
      AtJoinThree(ts, p, [Sign(T.BlockEntry)], SlotTokens(o), ItemsTokens(tail));
      l := MoreItems(o, tail);
    } else {
      AtNothing(ts, p);
      AtKind(ts, p, T.BlockEnd);
      l := NoItems;
    }
  }

  lemma {:induction false} IndentlessFound(ts: seq<Lexed>, p: nat, h: G.Handles) returns (l: Items)
    requires G.Framed(ts) && AllProper(ts) && 0 < p < |ts| && G.ParseIndentless(ts, p, h).Got?
    ensures ItemsFit(l, h) && At(ts, p, ItemsTokens(l)) && (ts[p].kind.BlockEntry? ==> l.MoreItems?)
    ensures G.ParseIndentless(ts, p, h).next == p + |ItemsTokens(l)|
    decreases |ts| - p, 0
  {
    hide G.Framed, Inner, AllProper, At, SlotTokens, SlotFits, G.ParseOptional;
    if ts[p].kind.BlockEntry? {
      BehindToken(ts, p);
      var o := SlotFound(ts, p + 1, h, InBlock, {T.BlockEntry, T.Key, T.Value, T.BlockEnd});
      AtKind(ts, p, T.BlockEntry);
      var tail := IndentlessFound(ts, p + 1 + |SlotTokens(o)|, h);
      AtJoinThree(ts, p, [Sign(T.BlockEntry)], SlotTokens(o), ItemsTokens(tail));
      l := MoreItems(o, tail);
    } else {
      AtNothing(ts, p);
      l := NoItems;
    }
  }

  lemma {:induction false} BlockPairsFound(ts: seq<Lexed>, p: nat, h: G.Handles) returns (l: BlockPairs)
    requires G.Framed(ts) && AllProper(ts) && 0 < p < |ts| && G.ParseBlockMapping(ts, p, h).Got?
    ensures BlockPairsFit(l, h) && At(ts, p, BlockPairsTokens(l))
    ensures At(ts, p + |BlockPairsTokens(l)|, [Sign(T.BlockEnd)])
    ensures G.ParseBlockMapping(ts, p, h).next == p + |BlockPairsTokens(l)| + 1
    decreases |ts| - p, 5
  {
    hide G.Framed, Inner, AllProper, At, SlotTokens, SlotFits, ValueTokens, ValueFits, G.ParseOptional, G.ParseMarked;
    if ts[p].kind.Key? {
      BehindToken(ts, p);
      var k := SlotFound(ts, p + 1, h, InMapping, G.BLOCK_STOPS);
      AtKind(ts, p, T.Key);
      var q := p + 1 + |SlotTokens(k)|;
      var v := ValueFound(ts, q, h, InMapping, G.BLOCK_STOPS);
      AtJoinThree(ts, p, [Sign(T.Key)], SlotTokens(k), ValueTokens(v));
      var tail := BlockPairsFound(ts, q + |ValueTokens(v)|, h);
      AtJoin(ts, p, [Sign(T.Key)] + SlotTokens(k) + ValueTokens(v), BlockPairsTokens(tail));
      l := MorePairs(true, k, v, tail);
    } else {
      AtNothing(ts, p);
      AtKind(ts, p, T.BlockEnd);
      l := NoPairs;
    }
  }

  /** The comma in front of all entries but the first one. */
  lemma CommaFound(ts: seq<Lexed>, p: nat, first: bool)
    requires G.Framed(ts) && AllProper(ts) && 0 < p < |ts| && G.SkipEntry(ts, p, first).Some?
    ensures At(ts, p, Comma(first)) && G.SkipEntry(ts, p, first).value == p + |Comma(first)|
  {
    hide At, AllProper;
    if first {
      AtNothing(ts, p);
    } else {
      AtKind(ts, p, T.FlowEntry);
    }
  }

  lemma EntriesEndFound(ts: seq<Lexed>, p: nat, h: G.Handles, first: bool) returns (l: Entries)
    requires G.Framed(ts) && AllProper(ts) && 0 < p < |ts| && G.ParseFlowSequence(ts, p, h, first).Got?
    requires ts[p].kind.FlowSequenceEnd?
             || (G.SkipEntry(ts, p, first).Some? && ts[p + |Comma(first)|].kind.FlowSequenceEnd?)
    ensures EntriesFit(l, h, first) && At(ts, p, EntriesTokens(l, first))
    ensures G.ParseFlowSequence(ts, p, h, first).next == p + |EntriesTokens(l, first)|
  {
    hide G.Framed, Inner, AllProper, At;
    if ts[p].kind.FlowSequenceEnd? {
      l := EndEntries(false);
      AtNothing(ts, p);
      AtKind(ts, p, T.FlowSequenceEnd);
      AtJoin(ts, p, [], [Sign(T.FlowSequenceEnd)]);
    } else {
      CommaFound(ts, p, first);
      l := EndEntries(true);
      AtKind(ts, p + 1, T.FlowSequenceEnd);
      AtJoin(ts, p, Comma(first), [Sign(T.FlowSequenceEnd)]);
    }
  }

  /** One more entry, and then the others. */
  lemma EntriesGoOnFound(ts: seq<Lexed>, p: nat, h: G.Handles, first: bool)
    requires G.Framed(ts) && AllProper(ts) && 0 < p < |ts| && G.ParseFlowSequence(ts, p, h, first).Got?
    requires !ts[p].kind.FlowSequenceEnd? && G.SkipEntry(ts, p, first).Some?
    requires !ts[p + |Comma(first)|].kind.FlowSequenceEnd?
    ensures var q := p + |Comma(first)|;
            && q < |ts| && At(ts, p, Comma(first))
            && var r := if ts[q].kind.Key? then G.ParseSinglePair(ts, q, h) else G.ParseNode(ts, q, h, false, false);
               && r.Got? && G.ParseFlowSequence(ts, r.next, h, false).Got?
               && G.ParseFlowSequence(ts, p, h, first).next == G.ParseFlowSequence(ts, r.next, h, false).next
  {
    hide G.Framed, G.ParseSinglePair, G.ParseNode;
    CommaFound(ts, p, first);
  }

  lemma EntriesCons(l: Entries, h: G.Handles, first: bool)
    requires !l.EndEntries? && EntryFits(l, h) && EntriesFit(l.tail, h, false)
    ensures EntriesFit(l, h, first)
    ensures EntriesTokens(l, first) == Comma(first) + EntryTokens(l) + EntriesTokens(l.tail, false)
  {
    hide SlotTokens, ValueTokens, Tokens, SlotFits, ValueFits, Fits;
    if l.PairEntry? {
      PairSpelled(first, SlotTokens(l.key), ValueTokens(l.value), EntriesTokens(l.tail, false));
    }
  }

  lemma {:induction false} EntriesFound(ts: seq<Lexed>, p: nat, h: G.Handles, first: bool) returns (l: Entries)
    requires G.Framed(ts) && AllProper(ts) && 0 < p < |ts| && G.ParseFlowSequence(ts, p, h, first).Got?
    ensures EntriesFit(l, h, first) && At(ts, p, EntriesTokens(l, first))
    ensures G.ParseFlowSequence(ts, p, h, first).next == p + |EntriesTokens(l, first)|
    decreases |ts| - p, 6
  {
    hide G.Framed, Inner, AllProper, At, Tokens, Fits, SlotTokens, SlotFits, ValueTokens, ValueFits, G.ParseNode,
         G.ParseSinglePair, G.SkipEntry, EntriesTokens, EntriesFit, Comma, G.ParseFlowSequence;
    EntriesNeedComma(ts, p, h, first);
    var q := p + |Comma(first)|;
    if ts[p].kind.FlowSequenceEnd? || ts[q].kind.FlowSequenceEnd? {
      l := EntriesEndFound(ts, p, h, first);
    } else {
      EntriesGoOnFound(ts, p, h, first);
      if ts[q].kind.Key? {
        var k, v := PairFound(ts, q, h);
        l := PairEntry(true, k, v, EndEntries(false));
      } else {
        var c := NodeFound(ts, q, h, InFlow);
        l := NodeEntry(c, EndEntries(false));
      }
      var entry := EntryTokens(l);
      var tail := EntriesFound(ts, q + |entry|, h, false);
      l := l.(tail := tail);
      AtJoinThree(ts, p, Comma(first), entry, EntriesTokens(tail, false));
      EntriesCons(l, h, first);
    }
  }

  lemma EntriesNeedComma(ts: seq<Lexed>, p: nat, h: G.Handles, first: bool)
    requires G.Framed(ts) && AllProper(ts) && 0 < p < |ts| && G.ParseFlowSequence(ts, p, h, first).Got?
    ensures !ts[p].kind.FlowSequenceEnd? ==> G.SkipEntry(ts, p, first).Some? && p + |Comma(first)| < |ts|
  {
    hide G.Framed;
  }

  lemma {:induction false} PairFound(ts: seq<Lexed>, q: nat, h: G.Handles) returns (k: Slot, v: Value)
    requires G.Framed(ts) && AllProper(ts) && 0 < q < |ts| && ts[q].kind.Key? && G.ParseSinglePair(ts, q, h).Got?
    ensures SlotFits(k, h, InFlow) && ValueFits(v, h, InFlow)
    ensures var pair := [Sign(T.Key)] + SlotTokens(k) + ValueTokens(v);
            At(ts, q, pair) && G.ParseSinglePair(ts, q, h).next == q + |pair|
    decreases |ts| - q, 5
  {
    hide G.Framed, Inner, AllProper, At, SlotTokens, SlotFits, ValueTokens, ValueFits, G.ParseOptional, G.ParseMarked;
    BehindToken(ts, q);
    k := SlotFound(ts, q + 1, h, InFlow, G.SEQUENCE_STOPS);
    AtKind(ts, q, T.Key);
    v := ValueFound(ts, q + 1 + |SlotTokens(k)|, h, InFlow, G.SEQUENCE_VALUE_STOPS);
    AtJoinThree(ts, q, [Sign(T.Key)], SlotTokens(k), ValueTokens(v));
  }

  lemma FlowPairsEndFound(ts: seq<Lexed>, p: nat, h: G.Handles, first: bool) returns (l: FlowPairs)
    requires G.Framed(ts) && AllProper(ts) && 0 < p < |ts| && G.ParseFlowMapping(ts, p, h, first).Got?
    requires ts[p].kind.FlowMappingEnd?
             || (G.SkipEntry(ts, p, first).Some? && ts[p + |Comma(first)|].kind.FlowMappingEnd?)
    ensures FlowPairsFit(l, h, first) && At(ts, p, FlowPairsTokens(l, first))
    ensures G.ParseFlowMapping(ts, p, h, first).next == p + |FlowPairsTokens(l, first)|
  {
    hide G.Framed, Inner, AllProper, At;
    if ts[p].kind.FlowMappingEnd? {
      l := EndPairs(false);
      AtNothing(ts, p);
      AtKind(ts, p, T.FlowMappingEnd);
      AtJoin(ts, p, [], [Sign(T.FlowMappingEnd)]);
    } else {
      CommaFound(ts, p, first);
      l := EndPairs(true);
      AtKind(ts, p + 1, T.FlowMappingEnd);
      AtJoin(ts, p, Comma(first), [Sign(T.FlowMappingEnd)]);
    }
  }

  /** The position behind a pair that starts at q. */
  function PairEnd(ts: seq<Lexed>, q: nat, h: G.Handles): Option<nat>
    requires G.Framed(ts) && 0 < q < |ts|
  {
    match G.ParseFlowKey(ts, q, h)
    case Error(_) => None
    case Got(_, u) =>
      if !ts[q].kind.Key? then Some(u)
      else
        match G.ParseMarked(ts, u, h, T.Value, false, G.MAPPING_VALUE_STOPS)
        case Error(_) => None
        case Got(_, s) => Some(s)
  }

  lemma FlowPairsGoOnFound(ts: seq<Lexed>, p: nat, h: G.Handles, first: bool)
    requires G.Framed(ts) && AllProper(ts) && 0 < p < |ts| && G.ParseFlowMapping(ts, p, h, first).Got?
    requires !ts[p].kind.FlowMappingEnd? && G.SkipEntry(ts, p, first).Some?
    requires !ts[p + |Comma(first)|].kind.FlowMappingEnd?
    ensures var q := p + |Comma(first)|;
            && q < |ts| && At(ts, p, Comma(first)) && PairEnd(ts, q, h).Some?
            && var s := PairEnd(ts, q, h).value;
               && q < s < |ts| && G.ParseFlowMapping(ts, s, h, false).Got?
               && G.ParseFlowMapping(ts, p, h, first).next == G.ParseFlowMapping(ts, s, h, false).next
  {
    hide G.Framed, G.ParseFlowKey, G.ParseMarked;
    CommaFound(ts, p, first);
  }

  lemma FlowPairsNeedComma(ts: seq<Lexed>, p: nat, h: G.Handles, first: bool)
    requires G.Framed(ts) && AllProper(ts) && 0 < p < |ts| && G.ParseFlowMapping(ts, p, h, first).Got?
    ensures !ts[p].kind.FlowMappingEnd? ==> G.SkipEntry(ts, p, first).Some? && p + |Comma(first)| < |ts|
  {
    hide G.Framed;
  }

  lemma FlowPairsCons(l: FlowPairs, h: G.Handles, first: bool)
    requires !l.EndPairs? && FlowPairFits(l, h) && FlowPairsFit(l.tail, h, false)
    ensures FlowPairsFit(l, h, first)
    ensures FlowPairsTokens(l, first) == Comma(first) + FlowPairTokens(l) + FlowPairsTokens(l.tail, false)
  {
    hide SlotTokens, ValueTokens, Tokens, SlotFits, ValueFits, Fits;
    if l.KeyedPair? {
      PairSpelled(first, SlotTokens(l.key), ValueTokens(l.value), FlowPairsTokens(l.tail, false));
    }
  }

  lemma {:induction false} FlowPairsFound(ts: seq<Lexed>, p: nat, h: G.Handles, first: bool) returns (l: FlowPairs)
    requires G.Framed(ts) && AllProper(ts) && 0 < p < |ts| && G.ParseFlowMapping(ts, p, h, first).Got?
    ensures FlowPairsFit(l, h, first) && At(ts, p, FlowPairsTokens(l, first))
    ensures G.ParseFlowMapping(ts, p, h, first).next == p + |FlowPairsTokens(l, first)|
    decreases |ts| - p, 6
  {
    hide G.Framed, Inner, AllProper, At, Tokens, Fits, SlotTokens, SlotFits, ValueTokens, ValueFits, G.ParseFlowKey,
         G.ParseMarked, G.SkipEntry, FlowPairsTokens, FlowPairsFit, Comma, G.ParseFlowMapping;
    FlowPairsNeedComma(ts, p, h, first);
    var q := p + |Comma(first)|;
    if ts[p].kind.FlowMappingEnd? || ts[q].kind.FlowMappingEnd? {
      l := FlowPairsEndFound(ts, p, h, first);
    } else {
      FlowPairsGoOnFound(ts, p, h, first);
      if ts[q].kind.Key? {
        var k, v := KeyedFound(ts, q, h);
        l := KeyedPair(true, k, v, EndPairs(false));
      } else {
        var c := LoneFound(ts, q, h);
        l := LoneKey(c, EndPairs(false));
      }
      var entry := FlowPairTokens(l);
      var tail := FlowPairsFound(ts, q + |entry|, h, false);
      l := l.(tail := tail);
      AtJoinThree(ts, p, Comma(first), entry, FlowPairsTokens(tail, false));
      FlowPairsCons(l, h, first);
    }
  }

  lemma {:induction false} LoneFound(ts: seq<Lexed>, q: nat, h: G.Handles) returns (c: Phrase)
    requires G.Framed(ts) && AllProper(ts) && 0 < q < |ts| && !ts[q].kind.Key? && G.ParseFlowKey(ts, q, h).Got?
    ensures Fits(c, h, InFlow) && At(ts, q, Tokens(c)) && G.ParseFlowKey(ts, q, h).next == q + |Tokens(c)|
    decreases |ts| - q, 5
  {
    hide G.Framed, Inner, AllProper, At, Tokens, Fits, G.ParseNode;
    c := NodeFound(ts, q, h, InFlow);
  }

  lemma {:induction false} KeyedFound(ts: seq<Lexed>, q: nat, h: G.Handles) returns (k: Slot, v: Value)
    requires G.Framed(ts) && AllProper(ts) && 0 < q < |ts| && ts[q].kind.Key? && G.ParseFlowKey(ts, q, h).Got?
    requires G.ParseMarked(ts, G.ParseFlowKey(ts, q, h).next, h, T.Value, false, G.MAPPING_VALUE_STOPS).Got?
    ensures SlotFits(k, h, InFlow) && ValueFits(v, h, InFlow)
    ensures var pair := [Sign(T.Key)] + SlotTokens(k) + ValueTokens(v);
            && At(ts, q, pair)
            && G.ParseMarked(ts, G.ParseFlowKey(ts, q, h).next, h, T.Value, false, G.MAPPING_VALUE_STOPS).next
               == q + |pair|
    decreases |ts| - q, 5
  {
    hide G.Framed, Inner, AllProper, At, SlotTokens, SlotFits, ValueTokens, ValueFits, G.ParseOptional, G.ParseMarked;
    BehindToken(ts, q);
    k := SlotFound(ts, q + 1, h, InFlow, G.MAPPING_STOPS);
    AtKind(ts, q, T.Key);
    v := ValueFound(ts, q + 1 + |SlotTokens(k)|, h, InFlow, G.MAPPING_VALUE_STOPS);
    AtJoinThree(ts, q, [Sign(T.Key)], SlotTokens(k), ValueTokens(v));
  }

  // Directives and documents.

  function DirectiveAt(t: Lexed): Directive {
    if t.name == G.Str("YAML") then VersionDirective
    else if t.name == G.Str("TAG") then TagDirective(if t.handle.Some? then t.handle.value else [], t.text)
    else OtherDirective(t.name)
  }

  /** The directives from p on, behind those `done` before. */
  lemma {:induction false} DirectivesFound(ts: seq<Lexed>, p: nat, done: seq<Directive>) returns (ds: seq<Directive>)
    requires G.Framed(ts) && AllProper(ts) && 0 < p < |ts| && DirectivesFit(done)
    requires G.ParseDirectives(ts, p, HasVersion(done), Declared(done)).Some?
    ensures DirectivesFit(done + ds) && At(ts, p, DirectivesTokens(ds))
    ensures G.ParseDirectives(ts, p, HasVersion(done), Declared(done)).value.1 == p + |DirectivesTokens(ds)|
    decreases |ts| - p
  {
    hide G.Framed, Inner, AllProper, At, HasVersion, Declared, DirectivesFit, DirectiveAt;
    ds := [];
    if ts[p].kind.Directive? {
      AtDirective(ts, p, done);
      BehindToken(ts, p);
      var d := DirectiveAt(ts[p]);
      OneMore(done, d);
      var more := DirectivesFound(ts, p + 1, done + [d]);
      ds := [d] + more;
      assert done + [d] + more == done + ds && ds[1..] == more;
      AtJoin(ts, p, [DirectiveToken(d)], DirectivesTokens(more));
    } else {
      AtNothing(ts, p);
      assert done + [] == done;
    }
  }

  /** What makes one more directive acceptable. */
  predicate MayFollow(done: seq<Directive>, d: Directive) {
    && (d.VersionDirective? ==> !HasVersion(done)) && (d.TagDirective? ==> d.handle !in Declared(done))
    && (d.OtherDirective? ==> d.name != G.Str("YAML") && d.name != G.Str("TAG"))
  }

  lemma AtDirective(ts: seq<Lexed>, p: nat, done: seq<Directive>)
    requires G.Framed(ts) && AllProper(ts) && 0 < p < |ts| && ts[p].kind.Directive?
    requires G.ParseDirectives(ts, p, HasVersion(done), Declared(done)).Some?
    ensures var d := DirectiveAt(ts[p]);
            && p + 1 < |ts| && MayFollow(done, d) && At(ts, p, [DirectiveToken(d)])
            && G.ParseDirectives(ts, p, HasVersion(done), Declared(done))
               == G.ParseDirectives(ts, p + 1, HasVersion(done) || d.VersionDirective?,
                                    if d.TagDirective? then Declared(done)[d.handle := d.prefix] else Declared(done))
  {
    hide G.Framed, Inner, AllProper, HasVersion, Declared;
    NamesDiffer();
    AtOne(ts, p);
    BehindToken(ts, p);
  }

  lemma OneMore(done: seq<Directive>, d: Directive)
    requires DirectivesFit(done) && MayFollow(done, d)
    ensures DirectivesFit(done + [d])
    ensures HasVersion(done + [d]) == (HasVersion(done) || d.VersionDirective?)
    ensures Declared(done + [d])
            == if d.TagDirective? then Declared(done)[d.handle := d.prefix] else Declared(done)
  {
    var all := done + [d];
    assert all[..|done|] == done;
    DeclaredAreThose(done);
    if HasVersion(done) {
      var i :| 0 <= i < |done| && done[i].VersionDirective?;
      assert all[i].VersionDirective?;
    }
    assert all[|done|] == d;
  }

  lemma {:induction false} EndsFound(ts: seq<Lexed>, p: nat) returns (n: nat)
    requires G.Framed(ts) && AllProper(ts) && 0 < p < |ts|
    ensures At(ts, p, EndsTokens(n)) && G.SkipDocumentEnds(ts, p) == p + n
    decreases |ts| - p
  {
    hide AllProper, At;
    n := 0;
    if ts[p].kind.DocumentEnd? {
      var m := EndsFound(ts, p + 1);
      AtKind(ts, p, T.DocumentEnd);
      AtJoin(ts, p, [Sign(T.DocumentEnd)], EndsTokens(m));
      n := m + 1;
    } else {
      AtNothing(ts, p);
    }
  }

  /** Documents that all start with '---'. */
  predicate ExplicitFit(docs: seq<Doc>) { forall d <- docs :: DocFits(d, false) }

  lemma {:induction false} DocumentsFound(ts: seq<Lexed>, p: nat) returns (n: nat, docs: seq<Doc>)
    requires G.Framed(ts) && AllProper(ts) && 0 < p < |ts| && G.ParseDocuments(ts, p).Got?
    ensures At(ts, p, EndsTokens(n)) && ExplicitFit(docs)
    ensures At(ts, p + n, DocsTokens(docs) + [Sign(T.StreamEnd)]) && p + n + |DocsTokens(docs)| + 1 == |ts|
    decreases |ts| - p, 0
  {
    hide G.Framed, Inner, AllProper, At, DocTokens, DocFits, G.ParseDocument, G.ParseDirectives, HandlesOf;
    n := EndsFound(ts, p);
    var q := p + n;
    if ts[q].kind.StreamEnd? {
      docs := [];
      LastToken(ts, q);
      AtKind(ts, q, T.StreamEnd);
      AtNothing(ts, q);
      AtJoin(ts, q, [], [Sign(T.StreamEnd)]);
    } else {
      var ds := HeadFound(ts, q);
      var s := q + |DirectivesTokens(ds)|;
      AtKind(ts, s, T.DocumentStart);
      BehindToken(ts, s);
      var root, ends, more := RootFound(ts, s + 1, ds, true);
      var d := Doc(ds, true, root, ends);
      AtJoin(ts, s, [Sign(T.DocumentStart)], SlotTokens(root) + EndsTokens(ends));
      AtJoin(ts, q, DirectivesTokens(ds), [Sign(T.DocumentStart)] + (SlotTokens(root) + EndsTokens(ends)));
      ExplicitTokens(d);
      docs := [d] + more;
      AtJoin(ts, q, DocTokens(d), DocsTokens(more) + [Sign(T.StreamEnd)]);
      assert docs[0..] == docs && docs[1..] == more;
      DocsSplit(docs, 0);
      ExplicitMore(d, more);
    }
  }

  lemma ExplicitMore(d: Doc, more: seq<Doc>)
    requires d.explicit && DirectivesFit(d.directives) && SlotFits(d.root, HandlesOf(d.directives), InBlock)
    requires ExplicitFit(more)
    ensures ExplicitFit([d] + more)
  {
    hide DirectivesFit, HandlesOf, SlotFits;
  }

  lemma LastToken(ts: seq<Lexed>, q: nat)
    requires G.Framed(ts) && 0 < q < |ts| && ts[q].kind.StreamEnd?
    ensures q + 1 == |ts|
  {
  }

  /** The directives in front of '---', whose handles are those of the document. */
  lemma HeadFound(ts: seq<Lexed>, q: nat) returns (ds: seq<Directive>)
    requires G.Framed(ts) && AllProper(ts) && 0 < q < |ts| && G.ParseDirectives(ts, q, false, map[]).Some?
    requires var s := G.ParseDirectives(ts, q, false, map[]).value.1; ts[s].kind.DocumentStart?
    ensures DirectivesFit(ds) && At(ts, q, DirectivesTokens(ds))
    ensures G.ParseDirectives(ts, q, false, map[]) == Some((HandlesOf(ds), q + |DirectivesTokens(ds)|))
  {
    hide G.Framed, Inner, AllProper, At, HandlesOf, G.ParseDirectives;
    ds := DirectivesFound(ts, q, []);
    assert [] + ds == ds && ds[0..] == ds && ds[..0] == [];
    DirectivesParse(ts, q, ds, 0);
  }

  lemma {:induction false} RootFound(ts: seq<Lexed>, p: nat, ds: seq<Directive>, explicit: bool)
    returns (root: Slot, ends: nat, docs: seq<Doc>)
    requires G.Framed(ts) && AllProper(ts) && 0 < p < |ts| && G.ParseDocument(ts, p, HandlesOf(ds), explicit).Got?
    ensures SlotFits(root, HandlesOf(ds), InBlock) && ExplicitFit(docs) && (!explicit ==> root.Holds?)
    ensures At(ts, p, SlotTokens(root) + EndsTokens(ends))
    ensures var q := p + |SlotTokens(root) + EndsTokens(ends)|;
            At(ts, q, DocsTokens(docs) + [Sign(T.StreamEnd)]) && q + |DocsTokens(docs)| + 1 == |ts|
    decreases |ts| - p, 1
  {
    hide G.Framed, Inner, AllProper, At, Tokens, Fits, G.ParseDocuments, G.ParseNode, HandlesOf;
    var h := HandlesOf(ds);
    if explicit {
      root := SlotFound(ts, p, h, InBlock, G.CONTENT_STOPS);
    } else {
      var c := NodeFound(ts, p, h, InBlock);
      root := Holds(c);
    }
    var q := p + |SlotTokens(root)|;
    var n: nat;
    if ts[q].kind.DocumentEnd? {
      BehindToken(ts, q);
      n, docs := DocumentsFound(ts, q + 1);
      AtKind(ts, q, T.DocumentEnd);
      AtJoin(ts, q, [Sign(T.DocumentEnd)], EndsTokens(n));
      ends := n + 1;
    } else {
      n, docs := DocumentsFound(ts, q);
      if n > 0 { AtSign(ts, q, Sign(T.DocumentEnd), EndsTokens(n - 1)); }
      ends := n;
    }
    AtJoin(ts, p, SlotTokens(root), EndsTokens(ends));
  }

  lemma StreamFound(ts: seq<Lexed>) returns (docs: seq<Doc>)
    requires G.Framed(ts) && AllProper(ts) && G.ParseStream(ts).Got?
    ensures DocsFit(docs) && Spell(docs) == ts
  {
    hide Inner, At, DocTokens, G.ParseDocuments, G.ParseDocument, HandlesOf;
    if ts[1].kind in {T.Directive, T.DocumentStart, T.StreamEnd} {
      var n;
      n, docs := DocumentsFound(ts, 1);
      if n > 0 { AtSign(ts, 1, Sign(T.DocumentEnd), EndsTokens(n - 1)); }
    } else {
      DeclaredAreThose([]);
      assert HandlesOf([]) == G.DEFAULT_TAGS;
      var root, ends, more := RootFound(ts, 1, [], false);
      var d := Doc([], false, root, ends);
      docs := [d] + more;
      ImplicitTokens(d);
      AtJoin(ts, 1, DocTokens(d), DocsTokens(more) + [Sign(T.StreamEnd)]);
      assert docs[0..] == docs && docs[1..] == more;
      DocsSplit(docs, 0);
    }
    FirstMayBeImplicit(docs);
    Whole(ts, docs);
  }

  lemma FirstMayBeImplicit(docs: seq<Doc>)
    requires docs == [] || (DocFits(docs[0], true) && ExplicitFit(docs[1..])) || ExplicitFit(docs)
    ensures DocsFit(docs)
  {
    hide DirectivesFit, SlotFits, HandlesOf;
    forall i | 0 <= i < |docs| ensures DocFits(docs[i], i == 0) {
      assert docs[i] in docs && (i > 0 ==> docs[1..][i - 1] in docs[1..]);
    }
  }

  lemma Whole(ts: seq<Lexed>, docs: seq<Doc>)
    requires G.Framed(ts) && AllProper(ts) && At(ts, 1, DocsTokens(docs) + [Sign(T.StreamEnd)])
    requires 1 + |DocsTokens(docs)| + 1 == |ts|
    ensures Spell(docs) == ts
  {
    hide Inner;
    assert Proper(ts[0]);
    assert ts == [ts[0]] + ts[1..];
    var a, b, e := [Sign(T.StreamStart)], DocsTokens(docs), [Sign(T.StreamEnd)];
    assert a + b + e == a + (b + e);
  }

  /** The parser accepts exactly the spellings of well-formed streams. */
  lemma AcceptedIsSpelled(ts: seq<Lexed>)
    requires G.Framed(ts) && AllProper(ts)
    ensures G.ParseStream(ts).Got? <==> exists docs: seq<Doc> :: DocsFit(docs) && Spell(docs) == ts
  {
    hide Spell, DocsFit, G.ParseStream;
    if G.ParseStream(ts).Got? {
      var docs := StreamFound(ts);
    }
    forall docs: seq<Doc> | DocsFit(docs) && Spell(docs) == ts ensures G.ParseStream(ts).Got? {
      StreamParses(docs);
    }
  }
}
