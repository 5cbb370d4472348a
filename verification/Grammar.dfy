/** The YAML grammar at the top of yaml/parser.py as a recursive-descent parser over a token list: the
    reference for the state machine. */
module Grammar {
  import opened Options
  import opened Chars
  import opened Events
  import T = TokenNesting

  /** A token with its value: the name of an alias or anchor, a scalar, the suffix of a tag or the prefix
      of a TAG directive in `text`; a handle; the name and major version of a directive. */
  datatype Lexed = Lexed(kind: T.Kind, text: Text, handle: Option<Text>, plain: bool, name: Text, major: int)

  /** One STREAM-START at the front and one STREAM-END at the back. */
  predicate Framed(ts: seq<Lexed>) {
    && |ts| >= 2 && ts[0].kind.StreamStart? && ts[|ts| - 1].kind.StreamEnd?
    && forall i :: 0 < i < |ts| - 1 ==> !ts[i].kind.StreamEnd? && !ts[i].kind.StreamStart?
  }

  type Handles = map<Text, Text>

  function Str(s: string): Text {
    seq(|s|, i requires 0 <= i < |s| => s[i] as int)
  }

  const DEFAULT_TAGS: Handles := map[Str("!") := Str("!"), Str("!!") := Str("tag:yaml.org,2002:")]

  /** What was parsed and the position behind it, or the events emitted before the error. */
  datatype Parsed<+V> = Got(value: V, next: nat) | Error(emitted: seq<Event>)

  function EmptyScalar(): Node { ScalarNode(None, None, true, false, []) }

  /** properties ::= TAG ANCHOR? | ANCHOR TAG? */
  datatype Properties = Properties(anchor: Anchor, tag: Option<Text>)

  /** The tag with its handle replaced, None for an undefined handle. */
  function Resolve(handles: Handles, t: Lexed): Option<Text> {
    if t.handle.None? then Some(t.text)
    else if t.handle.value in handles then Some(handles[t.handle.value] + t.text)
    else None
  }

  function ParseProperties(ts: seq<Lexed>, p: nat, handles: Handles): (r: Parsed<Properties>)
    requires Framed(ts) && 0 < p < |ts|
    ensures r.Got? ==> p <= r.next < |ts|
    ensures r.Got? && (r.value.anchor.Some? || r.value.tag.Some?) ==> p < r.next
    ensures r.Error? ==> r.emitted == []
  {
    if ts[p].kind.Anchor? then
      if ts[p + 1].kind.Tag? then
        var tag := Resolve(handles, ts[p + 1]);
        if tag.None? then Error([]) else Got(Properties(Some(ts[p].text), tag), p + 2)
      else Got(Properties(Some(ts[p].text), None), p + 1)
    else if ts[p].kind.Tag? then
      var tag := Resolve(handles, ts[p]);
      if tag.None? then Error([])
      else if ts[p + 1].kind.Anchor? then Got(Properties(Some(ts[p + 1].text), tag), p + 2)
      else Got(Properties(None, tag), p + 1)
    else Got(Properties(None, None), p)
  }

  predicate Implicit(tag: Option<Text>) { tag == None || tag == Some(Str("!")) }

  function ScalarOf(a: Properties, t: Lexed): Node {
    if (t.plain && a.tag == None) || a.tag == Some(Str("!")) then ScalarNode(a.anchor, a.tag, true, false, t.text)
    else if a.tag == None then ScalarNode(a.anchor, a.tag, false, true, t.text)
    else ScalarNode(a.anchor, a.tag, false, false, t.text)
  }

  /** block_node_or_indentless_sequence, block_node and flow_node */
  function ParseNode(ts: seq<Lexed>, p: nat, handles: Handles, block: bool, indentless: bool): (r: Parsed<Node>)
    requires Framed(ts) && 0 < p < |ts|
    ensures r.Got? ==> p < r.next < |ts|
    decreases |ts| - p, 1
  {
    if ts[p].kind.Alias? then Got(AliasNode(Some(ts[p].text)), p + 1)
    else
      match ParseProperties(ts, p, handles)
      case Error(e) => Error(e)
      case Got(a, q) =>
        var implicit := Implicit(a.tag);
        if indentless && ts[q].kind.BlockEntry? then
          match ParseIndentless(ts, q, handles)
          case Error(e) => Error([SequenceStart(a.anchor, a.tag, implicit, None)] + e)
          case Got(items, next) => Got(SequenceNode(a.anchor, a.tag, implicit, None, items), next)
        else if ts[q].kind.Scalar? then Got(ScalarOf(a, ts[q]), q + 1)
        else if ts[q].kind.FlowSequenceStart? then
          match ParseFlowSequence(ts, q + 1, handles, true)
          case Error(e) => Error([SequenceStart(a.anchor, a.tag, implicit, Some(true))] + e)
          case Got(items, next) => Got(SequenceNode(a.anchor, a.tag, implicit, Some(true), items), next)
        else if ts[q].kind.FlowMappingStart? then
          match ParseFlowMapping(ts, q + 1, handles, true)
          case Error(e) => Error([MappingStart(a.anchor, a.tag, implicit, Some(true))] + e)
          case Got(pairs, next) => Got(MappingNode(a.anchor, a.tag, implicit, Some(true), pairs), next)
        else if block && ts[q].kind.BlockSequenceStart? then
          match ParseBlockSequence(ts, q + 1, handles)
          case Error(e) => Error([SequenceStart(a.anchor, a.tag, implicit, Some(false))] + e)
          case Got(items, next) => Got(SequenceNode(a.anchor, a.tag, implicit, Some(false), items), next)
        else if block && ts[q].kind.BlockMappingStart? then
          match ParseBlockMapping(ts, q + 1, handles)
          case Error(e) => Error([MappingStart(a.anchor, a.tag, implicit, Some(false))] + e)
          case Got(pairs, next) => Got(MappingNode(a.anchor, a.tag, implicit, Some(false), pairs), next)
        else if a.anchor.Some? || a.tag.Some? then Got(ScalarNode(a.anchor, a.tag, implicit, false, []), q)
        else Error([])
  }

  /** One node, or an empty scalar where one of the `stops` stands. */
  function ParseOptional(ts: seq<Lexed>, p: nat, handles: Handles, block: bool, indentless: bool, stops: set<T.Kind>)
    : (r: Parsed<Node>)
    requires Framed(ts) && 0 < p < |ts|
    ensures r.Got? ==> p <= r.next < |ts|
    decreases |ts| - p, 2
  {
    if ts[p].kind in stops then Got(EmptyScalar(), p) else ParseNode(ts, p, handles, block, indentless)
  }

  /** A node behind an indicator, an empty scalar without it. */
  function ParseMarked(ts: seq<Lexed>, p: nat, handles: Handles, mark: T.Kind, block: bool, stops: set<T.Kind>)
    : (r: Parsed<Node>)
    requires Framed(ts) && 0 < p < |ts| && mark != T.StreamEnd
    ensures r.Got? ==> p <= r.next < |ts|
    decreases |ts| - p, 2
  {
    if ts[p].kind == mark then ParseOptional(ts, p + 1, handles, block, block, stops) else Got(EmptyScalar(), p)
  }

  /** (BLOCK-ENTRY block_node?)* BLOCK-END */
  function ParseBlockSequence(ts: seq<Lexed>, p: nat, handles: Handles): (r: Parsed<Nodes>)
    requires Framed(ts) && 0 < p < |ts|
    ensures r.Got? ==> p < r.next < |ts|
    decreases |ts| - p, 3
  {
    if ts[p].kind.BlockEntry? then
      match ParseOptional(ts, p + 1, handles, true, false, {T.BlockEntry, T.BlockEnd})
      case Error(e) => Error(e)
      case Got(n, q) =>
        match ParseBlockSequence(ts, q, handles)
        case Error(e) => Error(NodeEvents(n) + e)
        case Got(items, next) => Got(MoreNodes(n, items), next)
    else if ts[p].kind.BlockEnd? then Got(NoNodes, p + 1)
    else Error([])
  }

  /** indentless_sequence, which ends without a token of its own */
  function ParseIndentless(ts: seq<Lexed>, p: nat, handles: Handles): (r: Parsed<Nodes>)
    requires Framed(ts) && 0 < p < |ts|
    ensures r.Got? ==> p <= r.next < |ts| && (ts[p].kind.BlockEntry? ==> p < r.next)
    decreases |ts| - p, 0
  {
    if ts[p].kind.BlockEntry? then
      match ParseOptional(ts, p + 1, handles, true, false, {T.BlockEntry, T.Key, T.Value, T.BlockEnd})
      case Error(e) => Error(e)
      case Got(n, q) =>
        match ParseIndentless(ts, q, handles)
        case Error(e) => Error(NodeEvents(n) + e)
        case Got(items, next) => Got(MoreNodes(n, items), next)
    else Got(NoNodes, p)
  }

  const BLOCK_STOPS := {T.Key, T.Value, T.BlockEnd}

  /** ((KEY node?)? (VALUE node?)?)* BLOCK-END, a VALUE only behind its KEY */
  function ParseBlockMapping(ts: seq<Lexed>, p: nat, handles: Handles): (r: Parsed<Pairs>)
    requires Framed(ts) && 0 < p < |ts|
    ensures r.Got? ==> p < r.next < |ts|
    decreases |ts| - p, 3
  {
    if ts[p].kind.Key? then
      match ParseOptional(ts, p + 1, handles, true, true, BLOCK_STOPS)
      case Error(e) => Error(e)
      case Got(k, q) =>
        match ParseMarked(ts, q, handles, T.Value, true, BLOCK_STOPS)
        case Error(e) => Error(NodeEvents(k) + e)
        case Got(v, s) =>
          match ParseBlockMapping(ts, s, handles)
          case Error(e) => Error(NodeEvents(k) + NodeEvents(v) + e)
          case Got(pairs, next) => Got(MorePairs(k, v, pairs), next)
    else if ts[p].kind.BlockEnd? then Got(NoPairs, p + 1)
    else Error([])
  }

  /** A comma, unless the collection has just begun. */
  function SkipEntry(ts: seq<Lexed>, p: nat, first: bool): (r: Option<nat>)
    requires Framed(ts) && 0 < p < |ts|
    ensures r.Some? ==> p <= r.value < |ts|
    ensures r.Some? && !first ==> p < r.value
  {
    if first then Some(p) else if ts[p].kind.FlowEntry? then Some(p + 1) else None
  }

  const SEQUENCE_STOPS := {T.Value, T.FlowEntry, T.FlowSequenceEnd}
  const SEQUENCE_VALUE_STOPS := {T.FlowEntry, T.FlowSequenceEnd}

  /** KEY flow_node? (VALUE flow_node?)? inside a sequence: a mapping of one pair. */
  function ParseSinglePair(ts: seq<Lexed>, p: nat, handles: Handles): (r: Parsed<Node>)
    requires Framed(ts) && 0 < p < |ts| && ts[p].kind.Key?
    ensures r.Got? ==> p < r.next < |ts|
    decreases |ts| - p, 3
  {
    match ParseOptional(ts, p + 1, handles, false, false, SEQUENCE_STOPS)
    case Error(e) => Error([MappingStart(None, None, true, Some(true))] + e)
    case Got(k, q) =>
      match ParseMarked(ts, q, handles, T.Value, false, SEQUENCE_VALUE_STOPS)
      case Error(e) => Error([MappingStart(None, None, true, Some(true))] + NodeEvents(k) + e)
      case Got(v, s) => Got(MappingNode(None, None, true, Some(true), MorePairs(k, v, NoPairs)), s)
  }

  /** (flow_sequence_entry FLOW-ENTRY)* flow_sequence_entry? FLOW-SEQUENCE-END */
  function ParseFlowSequence(ts: seq<Lexed>, p: nat, handles: Handles, first: bool): (r: Parsed<Nodes>)
    requires Framed(ts) && 0 < p < |ts|
    ensures r.Got? ==> p < r.next < |ts|
    decreases |ts| - p, 4
  {
    if ts[p].kind.FlowSequenceEnd? then Got(NoNodes, p + 1)
    else
      match SkipEntry(ts, p, first)
      case None => Error([])
      case Some(q) =>
        if ts[q].kind.FlowSequenceEnd? then Got(NoNodes, q + 1)
        else
          match if ts[q].kind.Key? then ParseSinglePair(ts, q, handles) else ParseNode(ts, q, handles, false, false)
          case Error(e) => Error(e)
          case Got(n, s) =>
            match ParseFlowSequence(ts, s, handles, false)
            case Error(e) => Error(NodeEvents(n) + e)
            case Got(items, next) => Got(MoreNodes(n, items), next)
  }

  const MAPPING_STOPS := {T.Value, T.FlowEntry, T.FlowMappingEnd}
  const MAPPING_VALUE_STOPS := {T.FlowEntry, T.FlowMappingEnd}

  /** flow_mapping_entry: the key, and the position of its value if it may have one. */
  function ParseFlowKey(ts: seq<Lexed>, p: nat, handles: Handles): (r: Parsed<Node>)
    requires Framed(ts) && 0 < p < |ts|
    ensures r.Got? ==> p < r.next < |ts|
    decreases |ts| - p, 3
  {
    if ts[p].kind.Key? then ParseOptional(ts, p + 1, handles, false, false, MAPPING_STOPS)
    else ParseNode(ts, p, handles, false, false)
  }

  /** (flow_mapping_entry FLOW-ENTRY)* flow_mapping_entry? FLOW-MAPPING-END */
  function ParseFlowMapping(ts: seq<Lexed>, p: nat, handles: Handles, first: bool): (r: Parsed<Pairs>)
    requires Framed(ts) && 0 < p < |ts|
    ensures r.Got? ==> p < r.next < |ts|
    decreases |ts| - p, 4
  {
    if ts[p].kind.FlowMappingEnd? then Got(NoPairs, p + 1)
    else
      match SkipEntry(ts, p, first)
      case None => Error([])
      case Some(q) =>
        if ts[q].kind.FlowMappingEnd? then Got(NoPairs, q + 1)
        else
          match ParseFlowKey(ts, q, handles)
          case Error(e) => Error(e)
          case Got(k, s) =>
            match if ts[q].kind.Key? then ParseMarked(ts, s, handles, T.Value, false, MAPPING_VALUE_STOPS)
                  else Got(EmptyScalar(), s)
            case Error(e) => Error(NodeEvents(k) + e)
            case Got(v, u) =>
              match ParseFlowMapping(ts, u, handles, false)
              case Error(e) => Error(NodeEvents(k) + NodeEvents(v) + e)
              case Got(pairs, next) => Got(MorePairs(k, v, pairs), next)
  }

  /** process_directives: the handles of the document, with the default ones. */
  function ParseDirectives(ts: seq<Lexed>, p: nat, version: bool, handles: Handles): (r: Option<(Handles, nat)>)
    requires Framed(ts) && 0 < p < |ts|
    ensures r.Some? ==> p <= r.value.1 < |ts|
    decreases |ts| - p
  {
    if !ts[p].kind.Directive? then Some((DEFAULT_TAGS + handles, p))
    else if ts[p].name == Str("YAML") then
      if version || ts[p].major != 1 then None else ParseDirectives(ts, p + 1, true, handles)
    else if ts[p].name == Str("TAG") && ts[p].handle.Some? then
      if ts[p].handle.value in handles then None
      else ParseDirectives(ts, p + 1, version, handles[ts[p].handle.value := ts[p].text])
    else ParseDirectives(ts, p + 1, version, handles)
  }

  function SkipDocumentEnds(ts: seq<Lexed>, p: nat): (q: nat)
    requires Framed(ts) && 0 < p < |ts|
    ensures p <= q < |ts| && !ts[q].kind.DocumentEnd?
    decreases |ts| - p
  {
    if ts[p].kind.DocumentEnd? then SkipDocumentEnds(ts, p + 1) else p
  }

  const CONTENT_STOPS := {T.Directive, T.DocumentStart, T.DocumentEnd, T.StreamEnd}

  /** explicit_document* STREAM-END */
  function ParseDocuments(ts: seq<Lexed>, p: nat): (r: Parsed<seq<Document>>)
    requires Framed(ts) && 0 < p < |ts|
    ensures r.Got? ==> r.next == |ts|
    decreases |ts| - p, 0
  {
    var q := SkipDocumentEnds(ts, p);
    if ts[q].kind.StreamEnd? then Got([], q + 1)
    else
      match ParseDirectives(ts, q, false, map[])
      case None => Error([])
      case Some((handles, s)) =>
        if !ts[s].kind.DocumentStart? then Error([]) else ParseDocument(ts, s + 1, handles, true)
  }

  /** The content and the end of a document, and the documents behind it. */
  function ParseDocument(ts: seq<Lexed>, p: nat, handles: Handles, explicit: bool): (r: Parsed<seq<Document>>)
    requires Framed(ts) && 0 < p < |ts|
    ensures r.Got? ==> r.next == |ts|
    decreases |ts| - p, 1
  {
    match if explicit then ParseOptional(ts, p, handles, true, false, CONTENT_STOPS)
        else ParseNode(ts, p, handles, true, false)
    case Error(e) => Error([DocumentStart(explicit)] + e)
    case Got(n, q) =>
      var end := ts[q].kind.DocumentEnd?;
      match ParseDocuments(ts, if end then q + 1 else q)
      case Error(e) => Error(DocumentEvents(Document(explicit, n, end)) + e)
      case Got(docs, next) => Got([Document(explicit, n, end)] + docs, next)
  }

  /** STREAM-START implicit_document? explicit_document* STREAM-END */
  function ParseStream(ts: seq<Lexed>): (r: Parsed<seq<Document>>)
    requires Framed(ts)
    ensures r.Got? ==> r.next == |ts|
  {
    if ts[1].kind in {T.Directive, T.DocumentStart, T.StreamEnd} then ParseDocuments(ts, 1)
    else ParseDocument(ts, 1, DEFAULT_TAGS, false)
  }
}
