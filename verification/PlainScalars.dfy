/** What the scanner reads as a plain scalar, and which token it starts at a character
    (yaml/scanner.py, scan_plain, scan_plain_spaces, fetch_more_tokens). */
module PlainScalars {
  import opened Options
  import opened Chars
  import opened FlowScalars

  /** The run of a plain scalar stops here. */
  predicate StopsRun(flow: bool, s: Text) {
    || s == []
    || IsSeparation(s[0])
    || (s[0] == COLON && (|s| == 1 || IsSeparation(s[1]) || (flow && IsFlowIndicator(s[1]) && s[1] != QUESTION)))
    || (flow && IsFlowIndicator(s[0]))
  }

  function Run(flow: bool, s: Text): (run: Text)
    ensures |run| <= |s|
  {
    if StopsRun(flow, s) then [] else [s[0]] + Run(flow, s[1..])
  }

  /** How far a text without line breaks moves the column. */
  function Width(t: Text): nat {
    if t == [] then 0 else Width(t[..|t| - 1]) + if t[|t| - 1] == BOM then 0 else 1
  }

  /** What lies between two runs: how it is read, the text behind it, and the column reached if a
      new line was started. No text if the scalar ends here. */
  datatype Gap = Gap(text: Text, rest: Text, newColumn: Option<nat>) {
    function After(b: Text): Gap { Gap(b + text, rest, newColumn) }
  }

  /** The loop of scan_plain_spaces over further spaces and breaks, None at a document separator. */
  function PlainBreaks(s: Text, column: nat): (r: Option<Gap>)
    ensures r.Some? ==> |r.value.rest| <= |s| && r.value.newColumn.Some?
    decreases |s|
  {
    if s != [] && s[0] == SPACE then PlainBreaks(s[1..], column + 1)
    else if s != [] && IsBreak(s[0]) then
      var (b, t) := LineBreak(s);
      if AtDocumentSeparator(t) then None
      else
        match PlainBreaks(t, 0)
        case Some(g) => Some(g.After(b))
        case None => None
    else Some(Gap([], s, Some(column)))
  }

  /** Where the loop stops when it meets a document separator. */
  function SeparatorAfter(s: Text): (t: Text)
    ensures |t| <= |s|
    decreases |s|
  {
    if s != [] && s[0] == SPACE then SeparatorAfter(s[1..])
    else if s != [] && IsBreak(s[0]) then
      var t := LineBreak(s).1;
      if AtDocumentSeparator(t) then t else SeparatorAfter(t)
    else s
  }

  /** scan_plain_spaces */
  function PlainGap(s: Text): (g: Gap)
    ensures |g.rest| <= |s| && (g.text != [] ==> |g.rest| < |s|)
  {
    var t := SkipSpaces(s);
    if t != [] && IsBreak(t[0]) then
      var (lb, u) := LineBreak(t);
      if AtDocumentSeparator(u) then Gap([], u, Some(0))
      else
        match PlainBreaks(u, 0)
        case None => Gap([], SeparatorAfter(u), Some(0))
        case Some(g) => g.After(if lb != [LF] then lb else if g.text == [] then [SPACE] else [])
    else Gap(s[..|s| - |t|], t, None)
  }

  /** Whether scan_plain goes on with another run behind the gap. */
  predicate GoesOn(flow: bool, indent: nat, g: Gap, column: nat) {
    && g.text != [] && g.rest != [] && g.rest[0] != HASH
    && (flow || (if g.newColumn.Some? then g.newColumn.value else column + |g.text|) >= indent)
  }

  /** scan_plain: the value, and the text behind it. */
  function Plain(flow: bool, indent: nat, s: Text, column: nat): (r: (Text, Text))
    ensures |r.1| <= |s|
    decreases |s|, 1
  {
    if s == [] || s[0] == HASH || StopsRun(flow, s) then ([], s)
    else
      var run := Run(flow, s);
      var (more, rest) := Tail(flow, indent, s[|run|..], column + Width(run));
      (run + more, rest)
  }

  /** What a plain scalar takes in behind a run. */
  function Tail(flow: bool, indent: nat, s: Text, column: nat): (r: (Text, Text))
    ensures |r.1| <= |s|
    decreases |s|, 2
  {
    var g := PlainGap(s);
    if GoesOn(flow, indent, g, column) then
      var (v, rest) := Plain(flow, indent, g.rest, if g.newColumn.Some? then g.newColumn.value else column + |g.text|);
      (if v == [] then [] else g.text + v, rest)
    else ([], g.rest)
  }

  lemma RunIsEmpty(flow: bool, s: Text)
    ensures Run(flow, s) == [] <==> StopsRun(flow, s)
  {
  }

  lemma StopsAtEnd(flow: bool, s: Text)
    ensures s == [] || s[0] == NUL ==> StopsRun(flow, s)
  {
  }

  lemma PlainIsNothing(flow: bool, indent: nat, s: Text, column: nat)
    requires s == [] || s[0] == HASH || StopsRun(flow, s)
    ensures Plain(flow, indent, s, column) == ([], s)
  {
  }

  /** The run is what lies before the first place where it must stop. */
  lemma {:induction false} RunIs(flow: bool, s: Text, p: nat, q: nat)
    requires p <= q <= |s| && StopsRun(flow, s[q..])
    requires forall i :: p <= i < q ==> !StopsRun(flow, s[i..])
    ensures Run(flow, s[p..]) == s[p..q]
    ensures forall i :: p <= i < q ==> !IsBreak(s[i])
    decreases q - p
  {
    if p < q {
      assert !StopsRun(flow, s[p..]) && s[p..][1..] == s[p + 1..];
      RunIs(flow, s, p + 1, q);
      assert s[p..q] == [s[p]] + s[p + 1..q];
    }
  }

  /** What is read behind the chunks collected so far: nothing, or the spaces and r. */
  function Joined(chunks: Text, spaces: Text, r: (Text, Text)): (Text, Text) {
    (if r.0 == [] then chunks else chunks + (spaces + r.0), r.1)
  }

  lemma JoinedNothing(r: (Text, Text))
    ensures Joined([], [], r) == r
  {
    assert [] + ([] + r.0) == r.0;
  }

  lemma JoinedEnd(chunks: Text, spaces: Text, s: Text)
    ensures Joined(chunks, spaces, ([], s)) == (chunks, s)
  {
  }

  /** One round of scan_plain: a run and a gap, when the scalar goes on behind it. */
  lemma JoinedRound(flow: bool, indent: nat, chunks: Text, spaces: Text, s: Text, column: nat)
    requires s != [] && s[0] != HASH && !StopsRun(flow, s)
    ensures var run := Run(flow, s);
            var u := s[|run|..];
            var d := column + Width(run);
            var g := PlainGap(u);
            var d' := if g.newColumn.Some? then g.newColumn.value else d + |g.text|;
            var r := Plain(flow, indent, s, column);
            if GoesOn(flow, indent, g, d) then
              Joined(chunks, spaces, r) == Joined(chunks + spaces + run, g.text, Plain(flow, indent, g.rest, d'))
            else Joined(chunks, spaces, r) == (chunks + spaces + run, g.rest)
  {
    hide PlainGap, Width;
    var run := Run(flow, s);
    RunIsEmpty(flow, s);
    var more := Tail(flow, indent, s[|run|..], column + Width(run)).0;
    assert chunks + (spaces + (run + more)) == chunks + spaces + run + more;
    assert chunks + (spaces + (run + [])) == chunks + spaces + run;
    assert chunks + spaces + run + [] == chunks + spaces + run;
  }

  datatype TokenStart = StreamEnd | Directive | DocumentStart | DocumentEnd | FlowSequenceStart | FlowMappingStart
    | FlowSequenceEnd | FlowMappingEnd | FlowEntry | BlockEntry | Key | Value | Alias | Anchor | Tag
    | Literal | Folded | SingleQuoted | DoubleQuoted | PlainScalar | NoToken

  /** check_plain */
  predicate CheckPlain(flow: bool, s: Text)
    requires |s| > 1
  {
    || !(IsSeparation(s[0]) || s[0] == DASH || s[0] == QUESTION || s[0] == COLON || s[0] == COMMA || s[0] == 0x5B
         || s[0] == 0x5D || s[0] == 0x7B || s[0] == 0x7D || s[0] == HASH || s[0] == 0x26 || s[0] == 0x2A || s[0] == 0x21
         || s[0] == BAR || s[0] == GREATER || s[0] == SQUOTE || s[0] == DQUOTE || s[0] == 0x25 || s[0] == 0x40
            || s[0] == 0x60)
    || (!IsSeparation(s[1]) && (s[0] == DASH || (!flow && (s[0] == QUESTION || s[0] == COLON))))
  }

  /** The token fetch_more_tokens decides on at a character, in its order. */
  function FirstToken(flow: bool, column: nat, s: Text): TokenStart
    requires s != [] && (s[0] == NUL || |s| > 1)
  {
    var c := s[0];
    if c == NUL then StreamEnd
    else if c == 0x25 && column == 0 then Directive
    else if c == DASH && column == 0 && AtDocumentSeparator(s) then DocumentStart
    else if c == DOT && column == 0 && AtDocumentSeparator(s) then DocumentEnd
    else if c == 0x5B then FlowSequenceStart
    else if c == 0x7B then FlowMappingStart
    else if c == 0x5D then FlowSequenceEnd
    else if c == 0x7D then FlowMappingEnd
    else if c == COMMA then FlowEntry
    else if c == DASH && IsSeparation(s[1]) then BlockEntry
    else if c == QUESTION && (flow || IsSeparation(s[1])) then Key
    else if c == COLON && (flow || IsSeparation(s[1])) then Value
    else if c == 0x2A then Alias
    else if c == 0x26 then Anchor
    else if c == 0x21 then Tag
    else if c == BAR && !flow then Literal
    else if c == GREATER && !flow then Folded
    else if c == SQUOTE then SingleQuoted
    else if c == DQUOTE then DoubleQuoted
    else if CheckPlain(flow, s) then PlainScalar
    else NoToken
  }
}
