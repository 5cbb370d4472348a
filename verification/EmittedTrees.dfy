/** How the emitter spells event trees: the syntax tree of every node in its place, and the node that the parser
    delivers for it. */
module EmittedTrees {
  import opened Options
  import opened Chars
  import opened EmitterMachine
  import opened ScalarPlaces
  import EmitterStructure
  import A = ScalarAnalysis
  import E = Events
  import G = Grammar
  import R = ScalarReading
  import S = SyntaxTrees
  import TreesParse

  /** Where a node is written: what it is to its collection, inside brackets or not, and whether nothing but
      indentation and indicators stands in front of it on its line. */
  datatype Place = Place(context: Context, flow: bool, clear: bool)

  const ROOT := Place(Context(true, false, false, false), false, false)

  ghost function StyleAt(c: Config, x: Choice, n: E.Node, p: Place): R.ScalarStyle
    requires n.ScalarNode?
  {
    StyleOf(c, x, EmitterStructure.First(n), p.context.simpleKey, p.flow)
  }

  /** The tag is left out where the style, or that it is a collection, implies it. */
  ghost predicate TagOmitted(c: Config, x: Choice, n: E.Node, p: Place)
    requires !n.AliasNode?
  {
    && (!c.canonical || n.tag.None?)
    && if !n.ScalarNode? then n.implicit
       else if StyleAt(c, x, n, p).PlainStyle? then n.plainImplicit else n.quotedImplicit
  }

  ghost function TagWritten(c: Config, x: Choice, n: E.Node, p: Place): Option<Text>
    requires !n.AliasNode?
  {
    if TagOmitted(c, x, n, p) then None else if n.tag.None? then Some([0x21]) else n.tag
  }

  ghost function PropertiesWritten(c: Config, x: Choice, n: E.Node, p: Place): S.Properties
    requires !n.AliasNode?
  {
    var tag := TagWritten(c, x, n, p);
    S.Properties(n.anchor, if tag.None? then None else Some(S.TagName(None, tag.value)), false)
  }

  predicate InBrackets(c: Config, n: E.Node, p: Place)
    requires n.SequenceNode? || n.MappingNode?
  {
    p.flow || c.canonical || n.flow == Some(true) || (if n.SequenceNode? then n.items.NoNodes? else n.pairs.NoPairs?)
  }

  /** A sequence in a mapping stands at the mapping's indentation if something else is in front of it on the line. */
  ghost predicate Indentless(c: Config, x: Choice, n: E.Node, p: Place)
    requires n.SequenceNode?
  {
    p.context.mapping && !(p.clear && n.anchor.None? && TagWritten(c, x, n, p).None?)
  }

  /** The key is written without '?'. */
  predicate Simple(c: Config, key: E.Node, flow: bool) {
    !(flow && c.canonical) && IsSimpleKey(c, EmitterStructure.First(key), EmitterStructure.Second(key, None))
  }

  function KeyPlace(simple: bool, flow: bool): Place { Place(if simple then SIMPLE_KEY else VALUE, flow, !flow) }

  function ValuePlace(simple: bool, flow: bool): Place { Place(VALUE, flow, !flow && !simple) }

  function ItemPlace(flow: bool): Place { Place(ITEM, flow, !flow) }

  ghost function PhraseOf(c: Config, x: Choice, n: E.Node, p: Place): S.Phrase
    decreases n, 1
  {
    if n.AliasNode? then S.AliasOf(if n.name.Some? then n.name.value else [])
    else S.Content(PropertiesWritten(c, x, n, p), BodyOf(c, x, n, p))
  }

  ghost function BodyOf(c: Config, x: Choice, n: E.Node, p: Place): S.Body
    requires !n.AliasNode?
    decreases n, 0
  {
    match n
    case ScalarNode(_, _, _, _, value) =>
      var plain := StyleAt(c, x, n, p).PlainStyle?;
      if value == [] && plain then S.Empty else S.Scalar(value, plain)
    case SequenceNode(_, _, _, _, items) =>
      if InBrackets(c, n, p) then S.FlowSequence(EntriesFor(c, x, items, true))
      else if Indentless(c, x, n, p) then S.IndentlessSequence(ItemsFor(c, x, items))
      else S.BlockSequence(ItemsFor(c, x, items))
    case MappingNode(_, _, _, _, pairs) =>
      if InBrackets(c, n, p) then S.FlowMapping(FlowPairsFor(c, x, pairs, true))
      else S.BlockMapping(BlockPairsFor(c, x, pairs))
  }

  /** An empty plain scalar without properties is nothing. */
  ghost function SlotFor(c: Config, x: Choice, n: E.Node, p: Place): S.Slot
    decreases n, 2
  {
    var f := PhraseOf(c, x, n, p);
    if IsBare(f) then S.Nothing else S.Holds(f)
  }

  predicate IsBare(f: S.Phrase) {
    f.Content? && f.body.Empty? && f.properties.anchor.None? && f.properties.tag.None?
  }

  ghost function EntriesFor(c: Config, x: Choice, l: E.Nodes, first: bool): S.Entries
    decreases l
  {
    match l
    case NoNodes => S.EndEntries(c.canonical && !first)
    case MoreNodes(n, tail) => S.NodeEntry(PhraseOf(c, x, n, ItemPlace(true)), EntriesFor(c, x, tail, false))
  }

  ghost function ItemsFor(c: Config, x: Choice, l: E.Nodes): S.Items
    decreases l
  {
    match l
    case NoNodes => S.NoItems
    case MoreNodes(n, tail) => S.MoreItems(SlotFor(c, x, n, ItemPlace(false)), ItemsFor(c, x, tail))
  }

  ghost function FlowPairsFor(c: Config, x: Choice, l: E.Pairs, first: bool): S.FlowPairs
    decreases l
  {
    match l
    case NoPairs => S.EndPairs(c.canonical && !first)
    case MorePairs(k, v, tail) =>
      var simple := Simple(c, k, true);
      S.KeyedPair(!simple, SlotFor(c, x, k, KeyPlace(simple, true)),
                  S.Value.Value(SlotFor(c, x, v, ValuePlace(simple, true))), FlowPairsFor(c, x, tail, false))
  }

  ghost function BlockPairsFor(c: Config, x: Choice, l: E.Pairs): S.BlockPairs
    decreases l
  {
    match l
    case NoPairs => S.NoPairs
    case MorePairs(k, v, tail) =>
      var simple := Simple(c, k, false);
      S.MorePairs(!simple, SlotFor(c, x, k, KeyPlace(simple, false)),
                  S.Value.Value(SlotFor(c, x, v, ValuePlace(simple, false))), BlockPairsFor(c, x, tail))
  }

  /** '---' is left out in front of the first document only, and not if that is empty. */
  predicate StartOmitted(c: Config, d: E.Document, first: bool) {
    first && !d.explicitStart && !c.canonical
    && !(d.root.ScalarNode? && d.root.anchor.None? && d.root.tag.None? && d.root.value == [])
  }

  /** A document; `more` if one more '...' is written behind it. */
  ghost function DocFor(c: Config, x: Choice, d: E.Document, first: bool, more: bool): S.Doc {
    S.Doc([], !StartOmitted(c, d, first), SlotFor(c, x, d.root, ROOT),
          (if d.explicitEnd then 1 else 0) + (if more then 1 else 0))
  }

  /** The documents; `open` if the end of the stream has to be marked behind the last one. */
  ghost function DocsFor(c: Config, x: Choice, docs: seq<E.Document>, open: bool): (r: seq<S.Doc>)
    ensures |r| == |docs|
  {
    seq(|docs|, i requires 0 <= i < |docs| => DocFor(c, x, docs[i], i == 0, open && i == |docs| - 1))
  }

  // What the parser delivers for it.

  /** The node with the tag that was written, the flags that its absence means and the style that was chosen. */
  ghost function Delivered(c: Config, x: Choice, n: E.Node, p: Place): E.Node
    decreases n
  {
    if n.AliasNode? then E.AliasNode(Some(if n.name.Some? then n.name.value else []))
    else
      var tag := TagWritten(c, x, n, p);
      var none := tag.None? || tag.value == [0x21];
      match n
      case ScalarNode(anchor, _, _, _, value) =>
        var plain := StyleAt(c, x, n, p).PlainStyle?;
        E.ScalarNode(anchor, tag, if tag.None? then plain else none, tag.None? && !plain, value)
      case SequenceNode(anchor, _, _, _, items) =>
        var flow := InBrackets(c, n, p);
        E.SequenceNode(anchor, tag, none,
                       if flow then Some(true) else if Indentless(c, x, n, p) then None else Some(false),
                       DeliveredItems(c, x, items, flow))
      case MappingNode(anchor, _, _, _, pairs) =>
        var flow := InBrackets(c, n, p);
        E.MappingNode(anchor, tag, none, Some(flow), DeliveredPairs(c, x, pairs, flow))
  }

  ghost function DeliveredItems(c: Config, x: Choice, l: E.Nodes, flow: bool): E.Nodes
    decreases l
  {
    match l
    case NoNodes => E.NoNodes
    case MoreNodes(n, tail) => E.MoreNodes(Delivered(c, x, n, ItemPlace(flow)), DeliveredItems(c, x, tail, flow))
  }

  ghost function DeliveredPairs(c: Config, x: Choice, l: E.Pairs, flow: bool): E.Pairs
    decreases l
  {
    match l
    case NoPairs => E.NoPairs
    case MorePairs(k, v, tail) =>
      var simple := Simple(c, k, flow);
      E.MorePairs(Delivered(c, x, k, KeyPlace(simple, flow)), Delivered(c, x, v, ValuePlace(simple, flow)),
                  DeliveredPairs(c, x, tail, flow))
  }

  ghost function DeliveredDocument(c: Config, x: Choice, d: E.Document, first: bool, more: bool): E.Document {
    E.Document(!StartOmitted(c, d, first), Delivered(c, x, d.root, ROOT), d.explicitEnd || more)
  }

  function SpotOf(p: Place): S.Spot {
    if p.flow then S.InFlow else if p.context.mapping then S.InMapping else S.InBlock
  }

  /** In brackets an empty scalar is quoted. */
  lemma EmptyIsQuoted(c: Config, x: Choice, n: E.Node, p: Place)
    requires n.ScalarNode? && p.flow && n.value == []
    ensures !StyleAt(c, x, n, p).PlainStyle?
  {
  }

  lemma TagsMatch(c: Config, x: Choice, n: E.Node, p: Place, h: G.Handles)
    requires !n.AliasNode?
    ensures var a := PropertiesWritten(c, x, n, p);
            && S.TagFits(a.tag, h) && S.TagOf(a.tag, h) == TagWritten(c, x, n, p) && a.anchor == n.anchor
            && (a.tag.Some? <==> TagWritten(c, x, n, p).Some?)
  {
    hide TagWritten;
  }

  /** The syntax tree of a node is well-formed, and the parser delivers the node for it. */
  lemma {:induction false} PhraseDelivers(c: Config, x: Choice, n: E.Node, p: Place, h: G.Handles)
    requires EmitterStructure.NodeOk(n)
    ensures var f := PhraseOf(c, x, n, p);
            && (p.flow ==> !IsBare(f))
            && (!IsBare(f) ==> S.Fits(f, h, SpotOf(p)) && S.NodeOf(f, h, SpotOf(p)) == Delivered(c, x, n, p))
            && (IsBare(f) ==> Delivered(c, x, n, p) == S.NO_NODE)
    decreases n, 0
  {
    hide StyleAt, TagWritten, S.TagOf, IsAnchor, S.TagFits, Indentless, EntriesFor, ItemsFor, FlowPairsFor,
         BlockPairsFor, S.EntriesFit, S.ItemsFit, S.FlowPairsFit, S.BlockPairsFit, S.EntriesOf, S.ItemsOf,
         S.FlowPairsOf, S.BlockPairsOf,
         DeliveredItems, DeliveredPairs, PropertiesWritten;
    if !n.AliasNode? {
      TagsMatch(c, x, n, p, h);
      match n
      case ScalarNode(_, _, _, _, value) =>
        if p.flow && value == [] { EmptyIsQuoted(c, x, n, p); }
      case SequenceNode(_, _, _, _, items) =>
        if InBrackets(c, n, p) {
          EntriesDeliver(c, x, items, true, h);
        } else {
          ItemsDeliver(c, x, items, h);
          IndentlessInMapping(c, x, n, p);
        }
      case MappingNode(_, _, _, _, pairs) =>
        if InBrackets(c, n, p) {
          FlowPairsDeliver(c, x, pairs, true, h);
        } else {
          BlockPairsDeliver(c, x, pairs, h);
        }
    }
  }

  lemma IndentlessInMapping(c: Config, x: Choice, n: E.Node, p: Place)
    requires n.SequenceNode?
    ensures Indentless(c, x, n, p) ==> p.context.mapping
    ensures n.items.MoreNodes? ==> ItemsFor(c, x, n.items).MoreItems?
  {
  }

  /** The same for a place that may be left empty. */
  lemma {:induction false} SlotDelivers(c: Config, x: Choice, n: E.Node, p: Place, h: G.Handles)
    requires EmitterStructure.NodeOk(n)
    ensures var o := SlotFor(c, x, n, p);
            S.SlotFits(o, h, SpotOf(p)) && S.SlotOf(o, h, SpotOf(p)) == Delivered(c, x, n, p)
    decreases n, 1
  {
    hide PhraseOf, S.Fits, S.NodeOf, Delivered, IsBare;
    PhraseDelivers(c, x, n, p, h);
  }

  lemma {:induction false} EntriesDeliver(c: Config, x: Choice, l: E.Nodes, first: bool, h: G.Handles)
    requires EmitterStructure.ItemsOk(l)
    ensures var r := EntriesFor(c, x, l, first);
            S.EntriesFit(r, h, first) && S.EntriesOf(r, h, first) == DeliveredItems(c, x, l, true)
    decreases l, 0
  {
    hide PhraseOf, S.Fits, S.NodeOf, Delivered, IsBare, EmitterStructure.NodeOk;
    if l.MoreNodes? {
      PhraseDelivers(c, x, l.head, ItemPlace(true), h);
      EntriesDeliver(c, x, l.tail, false, h);
    }
  }

  lemma {:induction false} ItemsDeliver(c: Config, x: Choice, l: E.Nodes, h: G.Handles)
    requires EmitterStructure.ItemsOk(l)
    ensures var r := ItemsFor(c, x, l); S.ItemsFit(r, h) && S.ItemsOf(r, h) == DeliveredItems(c, x, l, false)
    decreases l, 0
  {
    hide SlotFor, S.SlotFits, S.SlotOf, Delivered, EmitterStructure.NodeOk;
    if l.MoreNodes? {
      SlotDelivers(c, x, l.head, ItemPlace(false), h);
      ItemsDeliver(c, x, l.tail, h);
    }
  }

  lemma {:induction false} FlowPairsDeliver(c: Config, x: Choice, l: E.Pairs, first: bool, h: G.Handles)
    requires EmitterStructure.PairsOk(l)
    ensures var r := FlowPairsFor(c, x, l, first);
            S.FlowPairsFit(r, h, first) && S.FlowPairsOf(r, h, first) == DeliveredPairs(c, x, l, true)
    decreases l, 0
  {
    hide SlotFor, S.SlotFits, S.SlotOf, Delivered, EmitterStructure.NodeOk, Simple;
    if l.MorePairs? {
      var simple := Simple(c, l.key, true);
      SlotDelivers(c, x, l.key, KeyPlace(simple, true), h);
      SlotDelivers(c, x, l.value, ValuePlace(simple, true), h);
      FlowPairsDeliver(c, x, l.tail, false, h);
    }
  }

  lemma {:induction false} BlockPairsDeliver(c: Config, x: Choice, l: E.Pairs, h: G.Handles)
    requires EmitterStructure.PairsOk(l)
    ensures var r := BlockPairsFor(c, x, l);
            S.BlockPairsFit(r, h) && S.BlockPairsOf(r, h) == DeliveredPairs(c, x, l, false)
    decreases l, 0
  {
    hide SlotFor, S.SlotFits, S.SlotOf, Delivered, EmitterStructure.NodeOk, Simple;
    if l.MorePairs? {
      var simple := Simple(c, l.key, false);
      SlotDelivers(c, x, l.key, KeyPlace(simple, false), h);
      SlotDelivers(c, x, l.value, ValuePlace(simple, false), h);
      BlockPairsDeliver(c, x, l.tail, h);
    }
  }

  /** Nothing at all is written of the first document: its start is left out, and its root is an empty scalar in
      plain style whose tag is left out. */
  ghost predicate LostAtFirst(c: Config, x: Choice, d: E.Document) {
    StartOmitted(c, d, true) && IsBare(PhraseOf(c, x, d.root, ROOT))
  }

  /** The document of a null that is written as nothing, its tag given: no token is left of it, and the parser finds
      no document. */
  lemma NullIsLost(c: Config, x: Choice, tag: Text)
    requires !c.canonical
    requires forall e: E.Event :: e.Scalar? ==> x.eventStyle(e) == R.PlainStyle
    ensures var d := E.Document(false, E.ScalarNode(None, Some(tag), true, false, []), false);
            && LostAtFirst(c, x, d) && S.WrittenDocs(DocsFor(c, x, [d], false)) == []
            && G.ParseStream(S.Spell([])) == G.Got([], 2)
  {
    var n := E.ScalarNode(None, Some(tag), true, false, []);
    var d := E.Document(false, n, false);
    var e := EmitterStructure.First(n);
    assert R.Usable(R.PlainStyle, A.AnalysisOf([], x.allowUnicode), x.eventStyle(e), true,
                    R.Place(false, false, false, false));
    assert StyleAt(c, x, n, ROOT).PlainStyle?;
    assert TagWritten(c, x, n, ROOT).None?;
    assert PropertiesWritten(c, x, n, ROOT) == S.Properties(None, None, false);
    assert BodyOf(c, x, n, ROOT) == S.Empty;
    assert IsBare(PhraseOf(c, x, n, ROOT));
    TreesParse.StreamParses([]);
    NothingLeft(c, x, d);
  }

  lemma NothingLeft(c: Config, x: Choice, d: E.Document)
    requires LostAtFirst(c, x, d) && !d.explicitEnd
    ensures S.WrittenDocs(DocsFor(c, x, [d], false)) == []
  {
    hide PhraseOf;
    var r := DocsFor(c, x, [d], false);
    assert r[1..] == [];
    assert S.WrittenDoc(r[0]) == [];
  }

  /** What the emitter writes for a stream of documents is well-formed exactly if no empty first document is lost,
      and then the parser delivers its documents. */
  lemma DocumentsDelivered(c: Config, x: Choice, docs: seq<E.Document>, open: bool)
    requires EmitterStructure.DocumentsOk(docs)
    ensures S.DocsFit(DocsFor(c, x, docs, open)) <==> docs == [] || !LostAtFirst(c, x, docs[0])
    ensures S.DocsFit(DocsFor(c, x, docs, open)) ==>
              G.ParseStream(S.Spell(DocsFor(c, x, docs, open)))
              == G.Got(seq(|docs|, i requires 0 <= i < |docs| =>
                                     DeliveredDocument(c, x, docs[i], i == 0, open && i == |docs| - 1)),
                       |S.Spell(DocsFor(c, x, docs, open))|)
  {
    hide PhraseOf, S.SlotFits, S.SlotOf, Delivered, EmitterStructure.NodeOk, G.ParseStream, S.Spell, S.HandlesOf;
    var r := DocsFor(c, x, docs, open);
    forall i | 0 <= i < |docs|
      ensures S.SlotFits(r[i].root, S.HandlesOf([]), S.InBlock)
      ensures S.SlotOf(r[i].root, S.HandlesOf([]), S.InBlock) == Delivered(c, x, docs[i].root, ROOT)
    {
      assert docs[i] in docs;
      SlotDelivers(c, x, docs[i].root, ROOT, S.HandlesOf([]));
    }
    if S.DocsFit(r) {
      TreesParse.StreamParses(r);
      DocsDelivered(c, x, docs, open);
    }
    assert docs != [] ==> (S.DocFits(r[0], true) <==> !LostAtFirst(c, x, docs[0]));
    assert forall i :: 0 < i < |docs| ==> S.DocFits(r[i], false);
  }

  lemma DocsDelivered(c: Config, x: Choice, docs: seq<E.Document>, open: bool)
    requires S.DocsFit(DocsFor(c, x, docs, open))
    requires forall i :: 0 <= i < |docs| ==>
               var root := DocsFor(c, x, docs, open)[i].root;
               && S.SlotFits(root, S.HandlesOf([]), S.InBlock)
               && S.SlotOf(root, S.HandlesOf([]), S.InBlock) == Delivered(c, x, docs[i].root, ROOT)
    ensures S.DocsOf(DocsFor(c, x, docs, open))
            == seq(|docs|, i requires 0 <= i < |docs| =>
                             DeliveredDocument(c, x, docs[i], i == 0, open && i == |docs| - 1))
  {
    hide S.SlotFits, S.SlotOf, Delivered, S.HandlesOf, SlotFor;
  }
}
