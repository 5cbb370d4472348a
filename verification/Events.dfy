/** Events between the stages (yaml/events.py), and the trees whose events they are: the grammar at the
    top of yaml/emitter.py. */
module Events {
  import opened Options
  import opened Chars

  type Anchor = Option<Text>

  datatype Event =
    | StreamStart
    | StreamEnd
    | DocumentStart(explicit: bool)
    | DocumentEnd(explicit: bool)
    | Alias(name: Anchor)
    | Scalar(anchor: Anchor, tag: Option<Text>, plainImplicit: bool, quotedImplicit: bool, value: Text)
    | SequenceStart(anchor: Anchor, tag: Option<Text>, implicit: bool, flow: Option<bool>)
    | SequenceEnd
    | MappingStart(anchor: Anchor, tag: Option<Text>, implicit: bool, flow: Option<bool>)
    | MappingEnd

  function AnchorOf(e: Event): Anchor {
    match e
    case Alias(a) => a
    case Scalar(a, _, _, _, _) => a
    case SequenceStart(a, _, _, _) => a
    case MappingStart(a, _, _, _) => a
    case _ => None
  }

  /** node ::= ALIAS | SCALAR | SEQUENCE-START node* SEQUENCE-END | MAPPING-START (node node)* MAPPING-END */
  datatype Node =
    | AliasNode(name: Anchor)
    | ScalarNode(anchor: Anchor, tag: Option<Text>, plainImplicit: bool, quotedImplicit: bool, value: Text)
    | SequenceNode(anchor: Anchor, tag: Option<Text>, implicit: bool, flow: Option<bool>, items: Nodes)
    | MappingNode(anchor: Anchor, tag: Option<Text>, implicit: bool, flow: Option<bool>, pairs: Pairs)

  datatype Nodes = NoNodes | MoreNodes(head: Node, tail: Nodes)

  datatype Pairs = NoPairs | MorePairs(key: Node, value: Node, tail: Pairs)

  /** document ::= DOCUMENT-START node DOCUMENT-END */
  datatype Document = Document(explicitStart: bool, root: Node, explicitEnd: bool)

  function NodeEvents(n: Node): (s: seq<Event>)
    ensures s != []
  {
    match n
    case AliasNode(name) => [Alias(name)]
    case ScalarNode(a, t, p, q, v) => [Scalar(a, t, p, q, v)]
    case SequenceNode(a, t, i, f, items) => [SequenceStart(a, t, i, f)] + ItemsEvents(items) + [SequenceEnd]
    case MappingNode(a, t, i, f, pairs) => [MappingStart(a, t, i, f)] + PairsEvents(pairs) + [MappingEnd]
  }

  function ItemsEvents(l: Nodes): seq<Event> {
    match l
    case NoNodes => []
    case MoreNodes(n, tail) => NodeEvents(n) + ItemsEvents(tail)
  }

  function PairsEvents(l: Pairs): seq<Event> {
    match l
    case NoPairs => []
    case MorePairs(k, v, tail) => NodeEvents(k) + NodeEvents(v) + PairsEvents(tail)
  }

  function DocumentEvents(d: Document): seq<Event> {
    [DocumentStart(d.explicitStart)] + NodeEvents(d.root) + [DocumentEnd(d.explicitEnd)]
  }

  function DocumentsEvents(docs: seq<Document>): seq<Event> {
    if docs == [] then [] else DocumentEvents(docs[0]) + DocumentsEvents(docs[1..])
  }

  /** stream ::= STREAM-START document* STREAM-END */
  function StreamEvents(docs: seq<Document>): seq<Event> {
    [StreamStart] + DocumentsEvents(docs) + [StreamEnd]
  }
}
