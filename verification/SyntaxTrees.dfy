/** How event trees are spelled as tokens: the syntax trees of the grammar at the top of yaml/parser.py, the tokens
    they stand for and the nodes they mean. Nothing here says how tokens are parsed. */
module SyntaxTrees {
  import opened Options
  import opened Chars
  import E = Events
  import G = Grammar
  import T = TokenNesting

  type Lexed = G.Lexed

  /** A tag as it is written: a suffix behind a handle, or the whole tag. */
  datatype TagName = TagName(handle: Option<Text>, suffix: Text)

  /** properties ::= TAG ANCHOR? | ANCHOR TAG? */
  datatype Properties = Properties(anchor: Option<Text>, tag: Option<TagName>, tagFirst: bool)

  datatype Phrase =
    | AliasOf(name: Text)
    | Content(properties: Properties, body: Body)

  datatype Body =
    | Empty
    | Scalar(text: Text, plain: bool)
    | FlowSequence(entries: Entries)
    | FlowMapping(pairs: FlowPairs)
    | BlockSequence(items: Items)
    | IndentlessSequence(items: Items)
    | BlockMapping(blockPairs: BlockPairs)

  /** A place for a node, which may be left empty. */
  datatype Slot = Nothing | Holds(node: Phrase)

  datatype Items = NoItems | MoreItems(item: Slot, tail: Items)

  /** VALUE and what follows it, which may be left out. */
  datatype Value = NoValue | Value(slot: Slot)

  /** KEY, a place and a value; `marked` if the text has the '?', and the scanner need not add the KEY. */
  datatype BlockPairs = NoPairs | MorePairs(marked: bool, key: Slot, value: Value, tail: BlockPairs)

  /** The entries of a flow collection, with a comma behind the last one or not. */
  datatype Entries =
    | EndEntries(comma: bool)
    | NodeEntry(node: Phrase, tail: Entries)
    | PairEntry(marked: bool, key: Slot, value: Value, tail: Entries)

  datatype FlowPairs =
    | EndPairs(comma: bool)
    | LoneKey(node: Phrase, tail: FlowPairs)
    | KeyedPair(marked: bool, key: Slot, value: Value, tail: FlowPairs)

  datatype Directive =
    | VersionDirective
    | TagDirective(handle: Text, prefix: Text)
    | OtherDirective(name: Text)

  /** Directives and '---' if it is explicit; the root; any number of '...'. */
  datatype Doc = Doc(directives: seq<Directive>, explicit: bool, root: Slot, ends: nat)

  // The tokens.

  predicate IsInner(k: T.Kind) { !k.StreamStart? && !k.StreamEnd? }

  predicate Inner(s: seq<Lexed>) { forall t <- s :: IsInner(t.kind) }

  /** A token that is nothing but its kind. */
  function Sign(k: T.Kind): Lexed { G.Lexed(k, [], None, false, [], 0) }

  function AnchorTokens(a: Option<Text>): (s: seq<Lexed>)
    ensures Inner(s)
  {
    if a.None? then [] else [Sign(T.Anchor).(text := a.value)]
  }

  function TagTokens(t: Option<TagName>): (s: seq<Lexed>)
    ensures Inner(s)
  {
    if t.None? then [] else [Sign(T.Tag).(handle := t.value.handle, text := t.value.suffix)]
  }

  function PropertiesTokens(p: Properties): (s: seq<Lexed>)
    ensures Inner(s)
  {
    if p.tagFirst then TagTokens(p.tag) + AnchorTokens(p.anchor) else AnchorTokens(p.anchor) + TagTokens(p.tag)
  }

  function Tokens(c: Phrase): (s: seq<Lexed>)
    ensures Inner(s)
    decreases c
  {
    match c
    case AliasOf(name) => [Sign(T.Alias).(text := name)]
    case Content(p, body) => PropertiesTokens(p) + BodyTokens(body)
  }

  function BodyTokens(b: Body): (s: seq<Lexed>)
    ensures Inner(s)
    decreases b
  {
    match b
    case Empty => []
    case Scalar(text, plain) => [Sign(T.Scalar).(text := text, plain := plain)]
    case FlowSequence(l) => [Sign(T.FlowSequenceStart)] + EntriesTokens(l, true)
    case FlowMapping(l) => [Sign(T.FlowMappingStart)] + FlowPairsTokens(l, true)
    case BlockSequence(l) => [Sign(T.BlockSequenceStart)] + ItemsTokens(l) + [Sign(T.BlockEnd)]
    case IndentlessSequence(l) => ItemsTokens(l)
    case BlockMapping(l) => [Sign(T.BlockMappingStart)] + BlockPairsTokens(l) + [Sign(T.BlockEnd)]
  }

  function SlotTokens(o: Slot): (s: seq<Lexed>)
    ensures Inner(s)
    decreases o
  {
    if o.Nothing? then [] else Tokens(o.node)
  }

  function ValueTokens(v: Value): (s: seq<Lexed>)
    ensures Inner(s)
    decreases v
  {
    if v.NoValue? then [] else [Sign(T.Value)] + SlotTokens(v.slot)
  }

  function ItemsTokens(l: Items): (s: seq<Lexed>)
    ensures Inner(s)
    decreases l
  {
    match l
    case NoItems => []
    case MoreItems(o, tail) => [Sign(T.BlockEntry)] + SlotTokens(o) + ItemsTokens(tail)
  }

  function BlockPairsTokens(l: BlockPairs): (s: seq<Lexed>)
    ensures Inner(s)
    decreases l
  {
    match l
    case NoPairs => []
    case MorePairs(_, k, v, tail) => [Sign(T.Key)] + SlotTokens(k) + ValueTokens(v) + BlockPairsTokens(tail)
  }

  function Comma(first: bool): (s: seq<Lexed>)
    ensures Inner(s)
  {
    if first then [] else [Sign(T.FlowEntry)]
  }

  /** Entries, each but the first behind a comma, and the closing bracket. */
  function EntriesTokens(l: Entries, first: bool): (s: seq<Lexed>)
    ensures Inner(s)
    decreases l
  {
    match l
    case EndEntries(comma) => Comma(!comma) + [Sign(T.FlowSequenceEnd)]
    case NodeEntry(c, tail) => Comma(first) + Tokens(c) + EntriesTokens(tail, false)
    case PairEntry(_, k, v, tail) =>
      Comma(first) + [Sign(T.Key)] + SlotTokens(k) + ValueTokens(v) + EntriesTokens(tail, false)
  }

  function FlowPairsTokens(l: FlowPairs, first: bool): (s: seq<Lexed>)
    ensures Inner(s)
    decreases l
  {
    match l
    case EndPairs(comma) => Comma(!comma) + [Sign(T.FlowMappingEnd)]
    case LoneKey(c, tail) => Comma(first) + Tokens(c) + FlowPairsTokens(tail, false)
    case KeyedPair(_, k, v, tail) =>
      Comma(first) + [Sign(T.Key)] + SlotTokens(k) + ValueTokens(v) + FlowPairsTokens(tail, false)
  }

  function DirectiveToken(d: Directive): Lexed {
    match d
    case VersionDirective => Sign(T.Directive).(name := G.Str("YAML"), major := 1)
    case TagDirective(handle, prefix) =>
      Sign(T.Directive).(name := G.Str("TAG"), handle := Some(handle), text := prefix)
    case OtherDirective(name) => Sign(T.Directive).(name := name)
  }

  function DirectivesTokens(ds: seq<Directive>): (s: seq<Lexed>)
    ensures Inner(s)
  {
    if ds == [] then [] else [DirectiveToken(ds[0])] + DirectivesTokens(ds[1..])
  }

  function EndsTokens(n: nat): (s: seq<Lexed>)
    ensures Inner(s) && |s| == n
  {
    if n == 0 then [] else [Sign(T.DocumentEnd)] + EndsTokens(n - 1)
  }

  function DocTokens(d: Doc): (s: seq<Lexed>)
    ensures Inner(s)
  {
    DirectivesTokens(d.directives) + (if d.explicit then [Sign(T.DocumentStart)] else [])
    + SlotTokens(d.root) + EndsTokens(d.ends)
  }

  function DocsTokens(docs: seq<Doc>): (s: seq<Lexed>)
    ensures Inner(s)
  {
    if docs == [] then [] else DocTokens(docs[0]) + DocsTokens(docs[1..])
  }

  /** The tokens of a whole stream. */
  function Spell(docs: seq<Doc>): (s: seq<Lexed>)
    ensures G.Framed(s)
  {
    [Sign(T.StreamStart)] + DocsTokens(docs) + [Sign(T.StreamEnd)]
  }

  // The tokens that the text spells: without the KEYs, starts and ends of blocks that the scanner adds.

  function WrittenKey(marked: bool): seq<Lexed> { if marked then [Sign(T.Key)] else [] }

  function Written(c: Phrase): seq<Lexed>
    decreases c
  {
    match c
    case AliasOf(name) => [Sign(T.Alias).(text := name)]
    case Content(p, body) => PropertiesTokens(p) + WrittenBody(body)
  }

  function WrittenBody(b: Body): seq<Lexed>
    decreases b
  {
    match b
    case Empty => []
    case Scalar(text, plain) => [Sign(T.Scalar).(text := text, plain := plain)]
    case FlowSequence(l) => [Sign(T.FlowSequenceStart)] + WrittenEntries(l, true)
    case FlowMapping(l) => [Sign(T.FlowMappingStart)] + WrittenFlowPairs(l, true)
    case BlockSequence(l) => WrittenItems(l)
    case IndentlessSequence(l) => WrittenItems(l)
    case BlockMapping(l) => WrittenBlockPairs(l)
  }

  function WrittenSlot(o: Slot): seq<Lexed>
    decreases o
  {
    if o.Nothing? then [] else Written(o.node)
  }

  function WrittenValue(v: Value): seq<Lexed>
    decreases v
  {
    if v.NoValue? then [] else [Sign(T.Value)] + WrittenSlot(v.slot)
  }

  function WrittenItems(l: Items): seq<Lexed>
    decreases l
  {
    match l
    case NoItems => []
    case MoreItems(o, tail) => [Sign(T.BlockEntry)] + WrittenSlot(o) + WrittenItems(tail)
  }

  function WrittenBlockPairs(l: BlockPairs): seq<Lexed>
    decreases l
  {
    match l
    case NoPairs => []
    case MorePairs(marked, k, v, tail) =>
      WrittenKey(marked) + WrittenSlot(k) + WrittenValue(v) + WrittenBlockPairs(tail)
  }

  function WrittenEntries(l: Entries, first: bool): seq<Lexed>
    decreases l
  {
    match l
    case EndEntries(comma) => Comma(!comma) + [Sign(T.FlowSequenceEnd)]
    case NodeEntry(c, tail) => Comma(first) + Written(c) + WrittenEntries(tail, false)
    case PairEntry(marked, k, v, tail) =>
      Comma(first) + WrittenKey(marked) + WrittenSlot(k) + WrittenValue(v) + WrittenEntries(tail, false)
  }

  function WrittenFlowPairs(l: FlowPairs, first: bool): seq<Lexed>
    decreases l
  {
    match l
    case EndPairs(comma) => Comma(!comma) + [Sign(T.FlowMappingEnd)]
    case LoneKey(c, tail) => Comma(first) + Written(c) + WrittenFlowPairs(tail, false)
    case KeyedPair(marked, k, v, tail) =>
      Comma(first) + WrittenKey(marked) + WrittenSlot(k) + WrittenValue(v) + WrittenFlowPairs(tail, false)
  }

  function WrittenDoc(d: Doc): seq<Lexed> {
    DirectivesTokens(d.directives) + (if d.explicit then [Sign(T.DocumentStart)] else [])
    + WrittenSlot(d.root) + EndsTokens(d.ends)
  }

  function WrittenDocs(docs: seq<Doc>): seq<Lexed> {
    if docs == [] then [] else WrittenDoc(docs[0]) + WrittenDocs(docs[1..])
  }

  // What is well-formed.

  /** Brackets, or a block, in which a mapping's keys and values may be sequences without indentation. */
  datatype Spot = InFlow | InBlock | InMapping

  predicate TagFits(t: Option<TagName>, h: G.Handles) { t.Some? && t.value.handle.Some? ==> t.value.handle.value in h }

  /** Every handle is known; an empty node has properties; nothing in brackets is a block. */
  predicate Fits(c: Phrase, h: G.Handles, spot: Spot)
    decreases c
  {
    c.AliasOf? || (TagFits(c.properties.tag, h) && BodyFits(c.properties, c.body, h, spot))
  }

  predicate BodyFits(p: Properties, b: Body, h: G.Handles, spot: Spot)
    decreases b
  {
    match b
    case Empty => p.anchor.Some? || p.tag.Some?
    case Scalar(_, _) => true
    case FlowSequence(l) => EntriesFit(l, h, true)
    case FlowMapping(l) => FlowPairsFit(l, h, true)
    case BlockSequence(l) => !spot.InFlow? && ItemsFit(l, h)
    case IndentlessSequence(l) => spot.InMapping? && l.MoreItems? && ItemsFit(l, h)
    case BlockMapping(l) => !spot.InFlow? && BlockPairsFit(l, h)
  }

  predicate SlotFits(o: Slot, h: G.Handles, spot: Spot)
    decreases o
  {
    o.Holds? ==> Fits(o.node, h, spot)
  }

  predicate ValueFits(v: Value, h: G.Handles, spot: Spot)
    decreases v
  {
    v.Value? ==> SlotFits(v.slot, h, spot)
  }

  predicate ItemsFit(l: Items, h: G.Handles)
    decreases l
  {
    l.MoreItems? ==> SlotFits(l.item, h, InBlock) && ItemsFit(l.tail, h)
  }

  predicate BlockPairsFit(l: BlockPairs, h: G.Handles)
    decreases l
  {
    l.MorePairs? ==> SlotFits(l.key, h, InMapping) && ValueFits(l.value, h, InMapping) && BlockPairsFit(l.tail, h)
  }

  predicate EntriesFit(l: Entries, h: G.Handles, first: bool)
    decreases l
  {
    match l
    case EndEntries(comma) => comma ==> !first
    case NodeEntry(c, tail) => Fits(c, h, InFlow) && EntriesFit(tail, h, false)
    case PairEntry(_, k, v, tail) => SlotFits(k, h, InFlow) && ValueFits(v, h, InFlow) && EntriesFit(tail, h, false)
  }

  predicate FlowPairsFit(l: FlowPairs, h: G.Handles, first: bool)
    decreases l
  {
    match l
    case EndPairs(comma) => comma ==> !first
    case LoneKey(c, tail) => Fits(c, h, InFlow) && FlowPairsFit(tail, h, false)
    case KeyedPair(_, k, v, tail) => SlotFits(k, h, InFlow) && ValueFits(v, h, InFlow) && FlowPairsFit(tail, h, false)
  }

  /** One version, and every handle declared once. */
  predicate DirectivesFit(ds: seq<Directive>) {
    && (forall d <- ds :: d.OtherDirective? ==> d.name != G.Str("YAML") && d.name != G.Str("TAG"))
    && (forall i, j :: 0 <= i < j < |ds| ==>
          && !(ds[i].VersionDirective? && ds[j].VersionDirective?)
          && !(ds[i].TagDirective? && ds[j].TagDirective? && ds[i].handle == ds[j].handle))
  }

  /** The handles of a document: '!' and '!!' unless they are declared anew. */
  function HandlesOf(ds: seq<Directive>): G.Handles {
    if ds == [] then map[[0x21] := [0x21], [0x21, 0x21] := G.Str("tag:yaml.org,2002:")]
    else
      var h := HandlesOf(ds[..|ds| - 1]);
      var d := ds[|ds| - 1];
      if d.TagDirective? then h[d.handle := d.prefix] else h
  }

  /** Only the first document may do without '---', and then it has a root and no directives. */
  predicate DocFits(d: Doc, first: bool) {
    && DirectivesFit(d.directives) && SlotFits(d.root, HandlesOf(d.directives), InBlock)
    && (!d.explicit ==> first && d.directives == [] && d.root.Holds?)
  }

  predicate DocsFit(docs: seq<Doc>) { forall i :: 0 <= i < |docs| ==> DocFits(docs[i], i == 0) }

  // The nodes.

  function TagOf(t: Option<TagName>, h: G.Handles): (r: Option<Text>)
    requires TagFits(t, h)
    ensures r.Some? <==> t.Some?
  {
    if t.None? then None
    else if t.value.handle.None? then Some(t.value.suffix)
    else Some(h[t.value.handle.value] + t.value.suffix)
  }

  /** No tag, or the one that stands for none. */
  predicate NoTag(tag: Option<Text>) { tag.None? || tag.value == [0x21] }

  function NodeOf(c: Phrase, h: G.Handles, spot: Spot): E.Node
    requires Fits(c, h, spot)
    decreases c
  {
    match c
    case AliasOf(name) => E.AliasNode(Some(name))
    case Content(p, body) => ContentOf(p, TagOf(p.tag, h), body, h, spot)
  }

  function ContentOf(p: Properties, tag: Option<Text>, b: Body, h: G.Handles, spot: Spot): E.Node
    requires BodyFits(p, b, h, spot)
    decreases b
  {
    match b
    case Empty => E.ScalarNode(p.anchor, tag, NoTag(tag), false, [])
    case Scalar(text, plain) =>
      E.ScalarNode(p.anchor, tag, if tag.None? then plain else NoTag(tag), tag.None? && !plain, text)
    case FlowSequence(l) => E.SequenceNode(p.anchor, tag, NoTag(tag), Some(true), EntriesOf(l, h, true))
    case FlowMapping(l) => E.MappingNode(p.anchor, tag, NoTag(tag), Some(true), FlowPairsOf(l, h, true))
    case BlockSequence(l) => E.SequenceNode(p.anchor, tag, NoTag(tag), Some(false), ItemsOf(l, h))
    case IndentlessSequence(l) => E.SequenceNode(p.anchor, tag, NoTag(tag), None, ItemsOf(l, h))
    case BlockMapping(l) => E.MappingNode(p.anchor, tag, NoTag(tag), Some(false), BlockPairsOf(l, h))
  }

  const NO_NODE := E.ScalarNode(None, None, true, false, [])

  function SlotOf(o: Slot, h: G.Handles, spot: Spot): E.Node
    requires SlotFits(o, h, spot)
    decreases o
  {
    if o.Nothing? then NO_NODE else NodeOf(o.node, h, spot)
  }

  function ValueOf(v: Value, h: G.Handles, spot: Spot): E.Node
    requires ValueFits(v, h, spot)
    decreases v
  {
    if v.NoValue? then NO_NODE else SlotOf(v.slot, h, spot)
  }

  function ItemsOf(l: Items, h: G.Handles): E.Nodes
    requires ItemsFit(l, h)
    decreases l
  {
    match l
    case NoItems => E.NoNodes
    case MoreItems(o, tail) => E.MoreNodes(SlotOf(o, h, InBlock), ItemsOf(tail, h))
  }

  function BlockPairsOf(l: BlockPairs, h: G.Handles): E.Pairs
    requires BlockPairsFit(l, h)
    decreases l
  {
    match l
    case NoPairs => E.NoPairs
    case MorePairs(_, k, v, tail) =>
      E.MorePairs(SlotOf(k, h, InMapping), ValueOf(v, h, InMapping), BlockPairsOf(tail, h))
  }

  /** A pair in a flow sequence is a mapping of its own. */
  function EntriesOf(l: Entries, h: G.Handles, first: bool): E.Nodes
    requires EntriesFit(l, h, first)
    decreases l
  {
    match l
    case EndEntries(_) => E.NoNodes
    case NodeEntry(c, tail) => E.MoreNodes(NodeOf(c, h, InFlow), EntriesOf(tail, h, false))
    case PairEntry(_, k, v, tail) =>
      var pair := E.MorePairs(SlotOf(k, h, InFlow), ValueOf(v, h, InFlow), E.NoPairs);
      E.MoreNodes(E.MappingNode(None, None, true, Some(true), pair), EntriesOf(tail, h, false))
  }

  function FlowPairsOf(l: FlowPairs, h: G.Handles, first: bool): E.Pairs
    requires FlowPairsFit(l, h, first)
    decreases l
  {
    match l
    case EndPairs(_) => E.NoPairs
    case LoneKey(c, tail) => E.MorePairs(NodeOf(c, h, InFlow), NO_NODE, FlowPairsOf(tail, h, false))
    case KeyedPair(_, k, v, tail) =>
      E.MorePairs(SlotOf(k, h, InFlow), ValueOf(v, h, InFlow), FlowPairsOf(tail, h, false))
  }

  function DocOf(d: Doc, first: bool): E.Document
    requires DocFits(d, first)
  {
    E.Document(d.explicit, SlotOf(d.root, HandlesOf(d.directives), InBlock), d.ends > 0)
  }

  function DocsOf(docs: seq<Doc>): (r: seq<E.Document>)
    requires DocsFit(docs)
    ensures |r| == |docs|
  {
    seq(|docs|, i requires 0 <= i < |docs| => DocOf(docs[i], i == 0))
  }

  // The text spells all tokens but those that the scanner adds.


  /** Without KEYs, starts and ends of blocks. */
  function Kept(s: seq<Lexed>): seq<Lexed> {
    if s == [] then [] else Kept(s[..|s| - 1]) + if T.IsAdded(s[|s| - 1].kind) then [] else [s[|s| - 1]]
  }

  lemma {:induction false} KeptJoin(a: seq<Lexed>, b: seq<Lexed>)
    ensures Kept(a + b) == Kept(a) + Kept(b)
  {
    if b == [] {
      assert a + b == a;
    } else {
      assert (a + b)[..|a + b| - 1] == a + b[..|b| - 1];
      KeptJoin(a, b[..|b| - 1]);
    }
  }

  lemma KeptSign(k: T.Kind)
    ensures Kept([Sign(k)]) == if T.IsAdded(k) then [] else [Sign(k)]
  {
    assert [Sign(k)][..0] == [];
  }

  lemma KeptThree(a: seq<Lexed>, b: seq<Lexed>, d: seq<Lexed>)
    ensures Kept(a + b + d) == Kept(a) + Kept(b) + Kept(d)
  {
    hide Kept;
    KeptJoin(a + b, d);
    KeptJoin(a, b);
  }

  lemma KeptKey(marked: bool)
    ensures Kept(WrittenKey(marked)) == [] == Kept([Sign(T.Key)])
  {
    KeptSign(T.Key);
  }

  /** The text of a node spells its tokens but for those. */
  lemma {:induction false} NodeKept(c: Phrase)
    ensures Kept(Tokens(c)) == Kept(Written(c))
    decreases c
  {
    hide Kept, Inner, BodyTokens, WrittenBody;
    if c.Content? {
      BodyKept(c.body);
      KeptJoin(PropertiesTokens(c.properties), BodyTokens(c.body));
      KeptJoin(PropertiesTokens(c.properties), WrittenBody(c.body));
    }
  }

  lemma {:induction false} BodyKept(b: Body)
    ensures Kept(BodyTokens(b)) == Kept(WrittenBody(b))
    decreases b
  {
    hide Kept, Inner, ItemsTokens, WrittenItems, BlockPairsTokens, WrittenBlockPairs, EntriesTokens, WrittenEntries,
         FlowPairsTokens, WrittenFlowPairs;
    match b
    case Empty =>
    case Scalar(_, _) =>
    case FlowSequence(l) =>
      EntriesKept(l, true);
      KeptJoin([Sign(T.FlowSequenceStart)], EntriesTokens(l, true));
      KeptJoin([Sign(T.FlowSequenceStart)], WrittenEntries(l, true));
    case FlowMapping(l) =>
      FlowPairsKept(l, true);
      KeptJoin([Sign(T.FlowMappingStart)], FlowPairsTokens(l, true));
      KeptJoin([Sign(T.FlowMappingStart)], WrittenFlowPairs(l, true));
    case BlockSequence(l) =>
      ItemsKept(l);
      BlockKept(T.BlockSequenceStart, ItemsTokens(l));
    case IndentlessSequence(l) =>
      ItemsKept(l);
    case BlockMapping(l) =>
      BlockPairsKept(l);
      BlockKept(T.BlockMappingStart, BlockPairsTokens(l));
  }

  lemma BlockKept(k: T.Kind, s: seq<Lexed>)
    requires T.IsBlockStart(k)
    ensures Kept([Sign(k)] + s + [Sign(T.BlockEnd)]) == Kept(s)
  {
    hide Kept;
    KeptThree([Sign(k)], s, [Sign(T.BlockEnd)]);
    KeptSign(k);
    KeptSign(T.BlockEnd);
    assert [] + Kept(s) + [] == Kept(s);
  }

  lemma {:induction false} SlotKept(o: Slot)
    ensures Kept(SlotTokens(o)) == Kept(WrittenSlot(o))
    decreases o
  {
    hide Kept, Inner, Tokens, Written;
    if o.Holds? { NodeKept(o.node); }
  }

  lemma {:induction false} ValueKept(v: Value)
    ensures Kept(ValueTokens(v)) == Kept(WrittenValue(v))
    decreases v
  {
    hide Kept, Inner, SlotTokens, WrittenSlot;
    if v.Value? {
      SlotKept(v.slot);
      KeptJoin([Sign(T.Value)], SlotTokens(v.slot));
      KeptJoin([Sign(T.Value)], WrittenSlot(v.slot));
    }
  }

  lemma {:induction false} ItemsKept(l: Items)
    ensures Kept(ItemsTokens(l)) == Kept(WrittenItems(l))
    decreases l
  {
    hide Kept, Inner, SlotTokens, WrittenSlot;
    if l.MoreItems? {
      SlotKept(l.item);
      ItemsKept(l.tail);
      KeptThree([Sign(T.BlockEntry)], SlotTokens(l.item), ItemsTokens(l.tail));
      KeptThree([Sign(T.BlockEntry)], WrittenSlot(l.item), WrittenItems(l.tail));
    }
  }

  /** KEY, key and value, behind a comma and in front of the others. */
  lemma PairKept(first: seq<Lexed>, marked: bool, k: Slot, v: Value, all: seq<Lexed>, written: seq<Lexed>)
    requires Kept(SlotTokens(k)) == Kept(WrittenSlot(k)) && Kept(ValueTokens(v)) == Kept(WrittenValue(v))
    requires Kept(all) == Kept(written)
    ensures Kept(first + [Sign(T.Key)] + SlotTokens(k) + ValueTokens(v) + all)
            == Kept(first + WrittenKey(marked) + WrittenSlot(k) + WrittenValue(v) + written)
  {
    hide Kept, Inner, SlotTokens, WrittenSlot, ValueTokens, WrittenValue, WrittenKey;
    KeptKey(marked);
    KeptThree(first + [Sign(T.Key)] + SlotTokens(k), ValueTokens(v), all);
    KeptThree(first, [Sign(T.Key)], SlotTokens(k));
    KeptThree(first + WrittenKey(marked) + WrittenSlot(k), WrittenValue(v), written);
    KeptThree(first, WrittenKey(marked), WrittenSlot(k));
  }

  lemma {:induction false} BlockPairsKept(l: BlockPairs)
    ensures Kept(BlockPairsTokens(l)) == Kept(WrittenBlockPairs(l))
    decreases l
  {
    hide Kept, Inner, SlotTokens, WrittenSlot, ValueTokens, WrittenValue;
    if l.MorePairs? {
      SlotKept(l.key);
      ValueKept(l.value);
      BlockPairsKept(l.tail);
      PairKept([], l.marked, l.key, l.value, BlockPairsTokens(l.tail), WrittenBlockPairs(l.tail));
      assert [] + [Sign(T.Key)] == [Sign(T.Key)] && [] + WrittenKey(l.marked) == WrittenKey(l.marked);
    }
  }

  lemma {:induction false} EntriesKept(l: Entries, first: bool)
    ensures Kept(EntriesTokens(l, first)) == Kept(WrittenEntries(l, first))
    decreases l
  {
    hide Kept, Inner, SlotTokens, WrittenSlot, ValueTokens, WrittenValue, Tokens, Written;
    match l
    case EndEntries(_) =>
    case NodeEntry(c, tail) =>
      NodeKept(c);
      EntriesKept(tail, false);
      KeptThree(Comma(first), Tokens(c), EntriesTokens(tail, false));
      KeptThree(Comma(first), Written(c), WrittenEntries(tail, false));
    case PairEntry(marked, k, v, tail) =>
      SlotKept(k);
      ValueKept(v);
      EntriesKept(tail, false);
      PairKept(Comma(first), marked, k, v, EntriesTokens(tail, false), WrittenEntries(tail, false));
  }

  lemma {:induction false} FlowPairsKept(l: FlowPairs, first: bool)
    ensures Kept(FlowPairsTokens(l, first)) == Kept(WrittenFlowPairs(l, first))
    decreases l
  {
    hide Kept, Inner, SlotTokens, WrittenSlot, ValueTokens, WrittenValue, Tokens, Written;
    match l
    case EndPairs(_) =>
    case LoneKey(c, tail) =>
      NodeKept(c);
      FlowPairsKept(tail, false);
      KeptThree(Comma(first), Tokens(c), FlowPairsTokens(tail, false));
      KeptThree(Comma(first), Written(c), WrittenFlowPairs(tail, false));
    case KeyedPair(marked, k, v, tail) =>
      SlotKept(k);
      ValueKept(v);
      FlowPairsKept(tail, false);
      PairKept(Comma(first), marked, k, v, FlowPairsTokens(tail, false), WrittenFlowPairs(tail, false));
  }

  /** The text of a stream spells its tokens, but for the KEYs and the starts and ends of blocks that the scanner
      adds. */
  lemma {:induction false} TextSpellsTokens(docs: seq<Doc>)
    ensures Kept(DocsTokens(docs)) == Kept(WrittenDocs(docs))
    decreases |docs|
  {
    hide Kept, Inner, SlotTokens, WrittenSlot;
    if docs != [] {
      var d := docs[0];
      var start := if d.explicit then [Sign(T.DocumentStart)] else [];
      SlotKept(d.root);
      TextSpellsTokens(docs[1..]);
      KeptThree(DirectivesTokens(d.directives) + start, SlotTokens(d.root), EndsTokens(d.ends));
      KeptThree(DirectivesTokens(d.directives) + start, WrittenSlot(d.root), EndsTokens(d.ends));
      KeptJoin(DocTokens(d), DocsTokens(docs[1..]));
      KeptJoin(WrittenDoc(d), WrittenDocs(docs[1..]));
    }
  }
}
