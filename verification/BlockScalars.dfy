/** What the scanner reads as a block scalar (yaml/scanner.py, scan_block_scalar and its helpers). */
module BlockScalars {
  import opened Options
  import opened Chars
  import opened FlowScalars

  /** None keeps one final line break, Some(false) none, Some(true) all. */
  type Chomping = Option<bool>

  datatype Header = Header(chomping: Chomping, increment: Option<nat>, rest: Text) | BadHeader

  predicate IsDigit(c: Char) { 0x30 <= c <= 0x39 }

  /** '\0\r\n\x85\u2028\u2029' */
  predicate EndsLine(c: Char) { c == NUL || IsBreak(c) }

  predicate IsChompingMark(c: Char) { c == PLUS || c == DASH }

  function OptionalMark(s: Text): (r: (Chomping, Text))
    ensures |r.1| <= |s|
  {
    if s != [] && IsChompingMark(s[0]) then (Some(s[0] == PLUS), s[1..]) else (None, s)
  }

  /** A digit 1-9; None for 0, which is an error. */
  function OptionalDigit(s: Text): (r: Option<(Option<nat>, Text)>)
    ensures r.Some? ==> |r.value.1| <= |s|
  {
    if s == [] || !IsDigit(s[0]) then Some((None, s))
    else if s[0] == 0x30 then None
    else Some((Some(s[0] - 0x30), s[1..]))
  }

  /** scan_block_scalar_indicators, from after '|' or '>' */
  function Indicators(s: Text): (h: Header)
    ensures h.Header? ==> |h.rest| <= |s|
  {
    if s != [] && IsChompingMark(s[0]) then
      var (chomping, t) := OptionalMark(s);
      match OptionalDigit(t)
      case None => BadHeader
      case Some((increment, u)) => Checked(Header(chomping, increment, u))
    else
      match OptionalDigit(s)
      case None => BadHeader
      case Some((increment, t)) =>
        var (chomping, u) := if increment.Some? then OptionalMark(t) else (None, t);
        Checked(Header(chomping, increment, u))
  }

  function Checked(h: Header): (r: Header)
    requires h.Header?
    ensures r == h || r == BadHeader
  {
    if h.rest != [] && (h.rest[0] == SPACE || EndsLine(h.rest[0])) then h else BadHeader
  }

  /** The text from the end of the line on. */
  function SkipLine(s: Text): (t: Text)
    ensures |t| <= |s|
    ensures t != [] ==> EndsLine(t[0])
    ensures s != [] && !EndsLine(s[0]) ==> |t| < |s|
  {
    if s != [] && !EndsLine(s[0]) then SkipLine(s[1..]) else s
  }

  /** scan_block_scalar_ignored_line: the rest of the header's line, if it is a comment at most. */
  function IgnoredLine(s: Text): (r: Option<Text>)
    ensures r.Some? ==> |r.value| <= |s|
  {
    var t := SkipSpaces(s);
    var u := if t != [] && t[0] == HASH then SkipLine(t) else t;
    if u != [] && EndsLine(u[0]) then Some(LineBreak(u).1) else None
  }

  datatype Breaks = Breaks(text: Text, rest: Text, column: nat) {
    function After(b: Text): Breaks { Breaks(b + text, rest, column) }

    /** No further line break follows. */
    predicate AtText() { rest == [] || !IsBreak(rest[0]) }
  }

  /** scan_block_scalar_breaks: empty lines, and the indentation of the line behind them. */
  function BlockBreaks(s: Text, column: nat, indent: nat): (r: Breaks)
    ensures |r.rest| <= |s| && r.AtText()
    decreases |s|
  {
    if column < indent && s != [] && s[0] == SPACE then BlockBreaks(s[1..], column + 1, indent)
    else if s != [] && IsBreak(s[0]) then BlockBreaks(LineBreak(s).1, 0, indent).After(LineBreak(s).0)
    else Breaks([], s, column)
  }

  /** scan_block_scalar_indentation: empty lines, and the deepest indentation seen up to the first
      line with text. */
  function BlockIndentation(s: Text, column: nat, deepest: nat): (r: (Breaks, nat))
    ensures |r.0.rest| <= |s| && r.0.AtText()
    decreases |s|
  {
    if s != [] && s[0] == SPACE then
      BlockIndentation(s[1..], column + 1, if column + 1 > deepest then column + 1 else deepest)
    else if s != [] && IsBreak(s[0]) then
      var r := BlockIndentation(LineBreak(s).1, 0, deepest);
      (r.0.After(LineBreak(s).0), r.1)
    else (Breaks([], s, column), deepest)
  }

  datatype Lines = Lines(text: Text, lastBreak: Text, breaks: Text, rest: Text) {
    function After(b: Text): Lines { Lines(b + text, lastBreak, breaks, rest) }
  }

  predicate AtLine(b: Breaks, indent: nat) {
    b.column == indent && b.rest != [] && b.rest[0] != NUL
  }

  /** What stands between two lines: their break, unless it is folded. */
  function Joint(folded: bool, line: Text, lb: Text, b: Breaks): Text
    requires line != [] && b.rest != []
  {
    if folded && lb == [LF] && !IsBlank(line[0]) && !IsBlank(b.rest[0]) then
      if b.text == [] then [SPACE] else []
    else lb
  }

  /** The loop of scan_block_scalar over the lines indented by `indent`. */
  function BlockLines(folded: bool, indent: nat, b: Breaks): (r: Lines)
    requires b.AtText()
    ensures |r.rest| <= |b.rest|
    decreases |b.rest|
  {
    if !AtLine(b, indent) then Lines([], [], b.text, b.rest)
    else
      var t := SkipLine(b.rest);
      var line := b.rest[..|b.rest| - |t|];
      var (lb, u) := LineBreak(t);
      var next := BlockBreaks(u, 0, indent);
      if AtLine(next, indent) then
        BlockLines(folded, indent, next).After(b.text + line + Joint(folded, line, lb, next))
      else Lines(b.text + line, lb, next.text, next.rest)
  }

  /** The value: the lines, and as much of their end as the chomping keeps. */
  function Chomp(chomping: Chomping, lines: Lines): Scanned {
    Scanned(lines.text
            + (if chomping == Some(false) then [] else lines.lastBreak)
            + (if chomping == Some(true) then lines.breaks else []),
            lines.rest)
  }

  function Max(a: int, b: int): int { if a > b then a else b }

  /** scan_block_scalar, from the line behind the header; `indent` is the scanner's current
      indentation. */
  function BlockBody(folded: bool, indent: int, chomping: Chomping, increment: Option<nat>, t: Text): Scanned
    requires indent >= -1
  {
    var least := Max(indent + 1, 1);
    var found := BlockIndentation(t, 0, 0);
    var depth: nat := if increment.Some? then least + increment.value - 1 else Max(least, found.1);
    var first := if increment.Some? then BlockBreaks(t, 0, depth) else found.0;
    Chomp(chomping, BlockLines(folded, depth, first))
  }

  /** scan_block_scalar, from after '|' or '>' */
  function BlockScalar(folded: bool, indent: int, s: Text): Scanned
    requires indent >= -1
  {
    match Indicators(s)
    case BadHeader => Failed
    case Header(chomping, increment, rest) =>
      match IgnoredLine(rest)
      case None => Failed
      case Some(t) => BlockBody(folded, indent, chomping, increment, t)
  }

  lemma BlockBreaksStep(s: Text, column: nat, indent: nat)
    requires s != []
    ensures BlockBreaks(s, column, indent) ==
              if column < indent && s[0] == SPACE then BlockBreaks(s[1..], column + 1, indent)
              else if IsBreak(s[0]) then BlockBreaks(LineBreak(s).1, 0, indent).After(LineBreak(s).0)
              else Breaks([], s, column)
  {
  }

  lemma BreaksAfterAfter(b: Breaks, t: Text, u: Text)
    ensures b.After(u).After(t) == b.After(t + u) && b.After([]) == b
  {
    assert t + (u + b.text) == (t + u) + b.text && [] + b.text == b.text;
  }

  lemma LinesAfterAfter(l: Lines, t: Text, u: Text)
    ensures l.After(u).After(t) == l.After(t + u) && l.After([]) == l
  {
    assert t + (u + l.text) == (t + u) + l.text && [] + l.text == l.text;
  }

  /** One round of the loop over the lines. */
  lemma BlockLinesStep(folded: bool, indent: nat, b: Breaks)
    requires b.AtText()
    ensures !AtLine(b, indent) ==> BlockLines(folded, indent, b) == Lines([], [], b.text, b.rest)
    ensures AtLine(b, indent) ==>
              var t := SkipLine(b.rest);
              var line := b.rest[..|b.rest| - |t|];
              var (lb, u) := LineBreak(t);
              var next := BlockBreaks(u, 0, indent);
              line != [] &&
              BlockLines(folded, indent, b) ==
                if AtLine(next, indent) then
                  BlockLines(folded, indent, next).After(b.text + line + Joint(folded, line, lb, next))
                else Lines(b.text + line, lb, next.text, next.rest)
  {
  }
}
