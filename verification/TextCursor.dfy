/** The scanner's view of the text (reader.py's peek, prefix and forward over a whole, NUL-terminated
    text) and the scalar scanners of yaml/scanner.py, as the loops of the source. */
module TextCursor {
  import opened Options
  import opened Chars
  import opened FlowScalars
  import opened PlainScalars
  import opened BlockScalars
  import opened ScalarTokens

  /** The column after one more character, given the character that follows it (reader.py, forward). */
  function NextColumn(column: nat, c: Char, next: Char): nat {
    if IsEmittedBreak(c) || (c == CR && next != LF) then 0
    else if c != BOM then column + 1 else column
  }

  function ColumnAt(buffer: Text, p: nat): nat
    requires p < |buffer|
  {
    if p == 0 then 0 else NextColumn(ColumnAt(buffer, p - 1), buffer[p - 1], buffer[p])
  }

  lemma WidthStep(buffer: Text, p: nat, q: nat)
    requires p <= q < |buffer|
    ensures Width(buffer[p..q + 1]) == Width(buffer[p..q]) + if buffer[q] == BOM then 0 else 1
  {
    assert buffer[p..q + 1][..q - p] == buffer[p..q];
  }

  function GapAfter(g: Option<Gap>, b: Text): Option<Gap> {
    match g
    case Some(gap) => Some(gap.After(b))
    case None => None
  }

  lemma GapAfterNothing(s: Text, column: nat)
    ensures GapAfter(PlainBreaks(s, column), []) == PlainBreaks(s, column)
  {
    match PlainBreaks(s, column)
    case Some(g) => assert [] + g.text == g.text;
    case None =>
  }

  lemma GapAfterAfter(g: Option<Gap>, a: Text, b: Text)
    ensures GapAfter(GapAfter(g, b), a) == GapAfter(g, a + b)
  {
    if g.Some? {
      assert a + (b + g.value.text) == (a + b) + g.value.text;
    }
  }

  lemma NoGapAfter(b: Text)
    ensures GapAfter(None, b) == None
  {
  }

  lemma PlainBreaksStep(s: Text, column: nat)
    requires s != [] && (s[0] == SPACE || IsBreak(s[0]))
    ensures s[0] == SPACE ==>
              PlainBreaks(s, column) == PlainBreaks(s[1..], column + 1) && SeparatorAfter(s) == SeparatorAfter(s[1..])
    ensures s[0] != SPACE ==>
              var (b, t) := LineBreak(s);
              if AtDocumentSeparator(t) then PlainBreaks(s, column) == None && SeparatorAfter(s) == t
              else PlainBreaks(s, column) == GapAfter(PlainBreaks(t, 0), b) && SeparatorAfter(s) == SeparatorAfter(t)
  {
  }

  lemma PlainBreaksEnd(s: Text, column: nat, breaks: Text)
    requires s == [] || !(s[0] == SPACE || IsBreak(s[0]))
    ensures GapAfter(PlainBreaks(s, column), breaks) == Some(Gap(breaks, s, Some(column)))
  {
    assert breaks + [] == breaks;
  }

  lemma OneSpaceWide(buffer: Text, p: nat)
    requires p < |buffer| && buffer[p] == SPACE
    ensures Width(buffer[p..p + 1]) == 1
  {
    WidthStep(buffer, p, p);
  }

  lemma {:induction false} SpacesWide(t: Text)
    requires forall i :: 0 <= i < |t| ==> t[i] == SPACE
    ensures Width(t) == |t|
  {
    if t != [] {
      SpacesWide(t[..|t| - 1]);
    }
  }

  class Cursor {
    const buffer: Text
    var pointer: nat
    var column: nat

    ghost predicate Valid()
      reads this
    {
      && pointer < |buffer|
      && buffer[|buffer| - 1] == NUL
      && column == ColumnAt(buffer, pointer)
    }

    ghost function Rest(): (s: Text)
      reads this
      requires Valid()
      ensures s != [] && s[|s| - 1] == NUL && s[0] == buffer[pointer]
    {
      buffer[pointer..]
    }

    constructor (text: Text)
      ensures Valid() && pointer == 0 && buffer == text + [NUL] && Rest() == buffer
    {
      buffer := text + [NUL];
      pointer := 0;
      column := 0;
    }

    function Peek(i: nat): Char
      reads this
      requires pointer + i < |buffer|
    {
      buffer[pointer + i]
    }

    function Prefix(n: nat): Text
      reads this
      requires Valid()
    {
      if pointer + n <= |buffer| then buffer[pointer..pointer + n] else buffer[pointer..]
    }

    /** Whether the next three characters are a document separator. */
    predicate AtSeparator()
      reads this
      requires Valid()
      ensures AtSeparator() <==> AtDocumentSeparator(Rest())
    {
      var prefix := Prefix(3);
      assert |prefix| == 3 ==> prefix == Rest()[..3] && (pointer + 3 == |buffer| ==> prefix[2] == NUL);
      (prefix == [DASH, DASH, DASH] || prefix == [DOT, DOT, DOT]) && IsSeparation(Peek(3))
    }

    method Forward(length: nat)
      requires Valid() && pointer + length < |buffer|
      modifies this
      ensures Valid() && pointer == old(pointer) + length && Rest() == old(Rest())[length..]
      ensures (forall i :: old(pointer) <= i < pointer ==> !IsBreak(buffer[i])) ==>
                column == old(column) + Width(buffer[old(pointer)..pointer])
    {
      var left := length;
      while left > 0
        invariant Valid() && 0 <= left <= length && pointer == old(pointer) + length - left
        invariant (forall i :: old(pointer) <= i < pointer ==> !IsBreak(buffer[i])) ==>
                    column == old(column) + Width(buffer[old(pointer)..pointer])
      {
        var ch := buffer[pointer];
        WidthStep(buffer, old(pointer), pointer);
        pointer := pointer + 1;
        if IsEmittedBreak(ch) || (ch == CR && buffer[pointer] != LF) {
          column := 0;
        } else if ch != BOM {
          column := column + 1;
        }
        left := left - 1;
      }
      DropDrop(buffer, old(pointer), length);
    }

    /** prefix and forward over a run without line breaks */
    method TakeRun(length: nat) returns (run: Text)
      requires Valid() && pointer + length < |buffer|
      requires forall i :: pointer <= i < pointer + length ==> !IsBreak(buffer[i])
      modifies this
      ensures Valid() && pointer == old(pointer) + length
      ensures |run| == length && run == buffer[old(pointer)..pointer]
      ensures old(Rest()) == run + Rest() && Rest() == old(Rest())[length..] && run == old(Rest())[..length]
      ensures column == old(column) + Width(run)
    {
      hide Width;
      run := Prefix(length);
      Forward(length);
    }

    predicate AtCrLf()
      reads this
      requires Valid()
      ensures AtCrLf() <==> |Rest()| > 1 && Rest()[0] == CR && Rest()[1] == LF
      ensures AtCrLf() ==> pointer + 2 < |buffer|
    {
      var prefix := Prefix(2);
      assert |prefix| == 2 ==> prefix[0] == buffer[pointer] && prefix[1] == buffer[pointer + 1];
      prefix == [CR, LF]
    }

    method ScanLineBreak() returns (value: Text)
      requires Valid()
      modifies this
      ensures Valid() && (value, Rest()) == LineBreak(old(Rest()))
      ensures IsBreak(old(Peek(0))) ==> pointer > old(pointer) && column == 0
      ensures !IsBreak(old(Peek(0))) ==> pointer == old(pointer)
    {
      var ch := Peek(0);
      if ch == CR || ch == LF || ch == NEL {
        if AtCrLf() {
          Forward(2);
        } else {
          Forward(1);
        }
        return [LF];
      } else if ch == LS || ch == PS {
        Forward(1);
        return [ch];
      }
      return [];
    }

    static lemma FlowBreaksStep(s: Text)
      ensures FlowBreaks(s) == if AtDocumentSeparator(s) then Failed
                               else
                                 var t := SkipBlanks(s);
                                 if t != [] && IsBreak(t[0]) then
                                   var r := LineBreak(t);
                                   FlowBreaks(r.1).Push(r.0)
                                 else Scanned([], t)
    {
    }

    /** while self.peek() in ' \t': self.forward() */
    method SkipBlanksHere()
      requires Valid()
      modifies this
      ensures Valid() && pointer >= old(pointer) && Rest() == SkipBlanks(old(Rest())) && !IsBlank(Peek(0))
    {
      while IsBlank(Peek(0))
        invariant Valid() && pointer >= old(pointer)
        invariant SkipBlanks(old(Rest())) == SkipBlanks(Rest())
        decreases |buffer| - pointer
      {
        Forward(1);
      }
    }

    method ScanFlowScalarBreaks() returns (r: Option<Text>)
      requires Valid()
      modifies this
      ensures Valid() && pointer >= old(pointer)
      ensures FlowBreaks(old(Rest())) == if r.Some? then Scanned(r.value, Rest()) else Failed
    {
      hide FlowBreaks, SkipBlanks, LineBreak, AtDocumentSeparator, Width;
      var chunks: Text := [];
      PushPush(FlowBreaks(Rest()), [], []);
      while true
        invariant Valid() && pointer >= old(pointer)
        invariant FlowBreaks(old(Rest())) == FlowBreaks(Rest()).Push(chunks)
        decreases |buffer| - pointer
      {
        FlowBreaksStep(Rest());
        if AtSeparator() {
          return None;
        }
        SkipBlanksHere();
        if IsBreak(Peek(0)) {
          var b := ScanLineBreak();
          PushPush(FlowBreaks(Rest()), chunks, b);
          chunks := chunks + b;
        } else {
          return Some(chunks);
        }
      }
    }

    /** Where scan_flow_scalar_non_spaces stops: at white space, the end, or the closing quote. */
    predicate AtFlowStop(double: bool)
      reads this
      requires Valid()
    {
      || IsSeparation(Peek(0))
      || (Peek(0) == Quote(double) && (double || Peek(1) != SQUOTE))
    }

    method ScanFlowScalarNonSpaces(double: bool) returns (r: Option<Text>)
      requires Valid()
      modifies this
      ensures Valid() && pointer >= old(pointer)
      ensures r.Some? ==> AtFlowStop(double)
      ensures r.Some? ==> FlowScalar(double, old(Rest())) == FlowScalar(double, Rest()).Push(r.value)
      ensures r.None? ==> FlowScalar(double, old(Rest())) == Failed
    {
      var chunks: Text := [];
      PushPush(FlowScalar(double, Rest()), [], []);
      while true
        invariant Valid() && pointer >= old(pointer)
        invariant FlowScalar(double, old(Rest())) == FlowScalar(double, Rest()).Push(chunks)
        decreases |buffer| - pointer
      {
        var run := ScanOrdinary(double);
        PushPush(FlowScalar(double, Rest()), chunks, run);
        chunks := chunks + run;
        if AtFlowStop(double) {
          return Some(chunks);
        }
        var next := ScanQuotedOrEscaped(double);
        if next.None? {
          return None;
        }
        PushPush(FlowScalar(double, Rest()), chunks, next.value);
        chunks := chunks + next.value;
      }
    }

    /** The inner loop of scan_flow_scalar_non_spaces: a run of characters copied as they are. */
    method ScanOrdinary(ghost double: bool) returns (run: Text)
      requires Valid()
      modifies this
      ensures Valid() && pointer >= old(pointer)
      ensures !IsOrdinary(Peek(0))
      ensures FlowScalar(double, old(Rest())) == FlowScalar(double, Rest()).Push(run)
    {
      hide FlowScalar;
      var length := 0;
      while IsOrdinary(Peek(length))
        invariant Valid() && pointer + length < |buffer|
        invariant forall i :: pointer <= i < pointer + length ==> IsOrdinary(buffer[i])
        decreases |buffer| - length
      {
        length := length + 1;
      }
      run := Prefix(length);
      OrdinaryRun(double, run, buffer[pointer + length..]);
      assert Rest() == run + buffer[pointer + length..];
      if length > 0 {
        Forward(length);
      }
    }

    /** The branches of scan_flow_scalar_non_spaces on a quote or a backslash. */
    method ScanQuotedOrEscaped(double: bool) returns (r: Option<Text>)
      requires Valid() && !IsOrdinary(Peek(0)) && !AtFlowStop(double)
      modifies this
      ensures Valid() && pointer > old(pointer)
      ensures NextStep(double, old(Rest())) == if r.Some? then Take(r.value, Rest()) else Bad
    {
      var ch := Peek(0);
      if !double && ch == SQUOTE && Peek(1) == SQUOTE {
        Forward(2);
        return Some([SQUOTE]);
      } else if (double && ch == SQUOTE) || (!double && (ch == DQUOTE || ch == BACKSLASH)) {
        Forward(1);
        return Some([ch]);
      } else {
        Forward(1);
        r := ScanEscape();
      }
    }

    /** The escape branch of scan_flow_scalar_non_spaces, from after the backslash. */
    method ScanEscape() returns (r: Option<Text>)
      requires Valid()
      modifies this
      ensures Valid() && pointer >= old(pointer)
      ensures Escape(old(Rest())) == if r.Some? then Scanned(r.value, Rest()) else Failed
    {
      hide FlowBreaks, HexCode;
      var ch := Peek(0);
      if Replacement(ch).Some? {
        Forward(1);
        return Some([Replacement(ch).value]);
      } else if CodeLength(ch) > 0 {
        Forward(1);
        r := ScanHexCode(CodeLength(ch));
      } else if IsBreak(ch) {
        var _ := ScanLineBreak();
        r := ScanFlowScalarBreaks();
      } else {
        return None;
      }
    }

    method ScanHexCode(length: nat) returns (r: Option<Text>)
      requires Valid()
      modifies this
      ensures Valid() && pointer >= old(pointer)
      ensures HexCode(old(Rest()), length) == if r.Some? then Scanned(r.value, Rest()) else Failed
    {
      hide HexNumber;
      ghost var s := Rest();
      for k := 0 to length
        invariant Valid() && pointer == old(pointer) && Rest() == s
        invariant pointer + k < |buffer| && forall i :: 0 <= i < k ==> IsHex(s[i])
      {
        if !IsHex(Peek(k)) {
          assert |s| >= length ==> s[..length][k] == Peek(k);
          return None;
        }
      }
      assert Prefix(length) == s[..length];
      var code := HexNumber(Prefix(length));
      if code > 0x10FFFF {
        return None;
      }
      Forward(length);
      return Some([code]);
    }

    /** while self.peek(length) in ' \t': length += 1; then prefix and forward. */
    method TakeBlanks() returns (run: Text)
      requires Valid()
      modifies this
      ensures Valid() && pointer >= old(pointer) && !IsBlank(Peek(0))
      ensures Rest() == SkipBlanks(old(Rest())) && |old(Rest())| - |Rest()| == |run| && run == old(Rest())[..|run|]
    {
      hide SkipBlanks;
      var length := 0;
      while IsBlank(Peek(length))
        invariant Valid() && pointer + length < |buffer|
        invariant forall i :: pointer <= i < pointer + length ==> IsBlank(buffer[i])
        decreases |buffer| - length
      {
        length := length + 1;
      }
      run := Prefix(length);
      ghost var tail := buffer[pointer + length..];
      SkipBlanksAppend(run, tail);
      NoBlanks(tail);
      assert Rest() == run + tail && Rest()[..length] == run;
      Forward(length);
    }

    static lemma NoBlanks(s: Text)
      requires s != [] && !IsBlank(s[0])
      ensures SkipBlanks(s) == s
    {
    }

    method ScanFlowScalarSpaces() returns (r: Option<Text>)
      requires Valid() && IsSeparation(Peek(0))
      modifies this
      ensures Valid() && pointer >= old(pointer)
      ensures Fold(old(Rest())) == if r.Some? then Scanned(r.value, Rest()) else Failed
    {
      hide FlowBreaks, SkipBlanks;
      var whitespaces := TakeBlanks();
      var ch := Peek(0);
      if ch == NUL {
        return None;
      } else if IsBreak(ch) {
        var lineBreak := ScanLineBreak();
        var breaks := ScanFlowScalarBreaks();
        if breaks.None? {
          return None;
        }
        return Some((if lineBreak != [LF] then lineBreak else if breaks.value == [] then [SPACE] else [])
                    + breaks.value);
      } else {
        return Some(whitespaces);
      }
    }

    /** One round of the loop of scan_flow_scalar: white space, then what follows it. */
    method ScanFlowScalarRound(double: bool) returns (r: Option<Text>)
      requires Valid() && IsSeparation(Peek(0))
      modifies this
      ensures Valid() && pointer >= old(pointer)
      ensures r.Some? ==> pointer > old(pointer) && AtFlowStop(double)
      ensures r.Some? ==> FlowScalar(double, old(Rest())) == FlowScalar(double, Rest()).Push(r.value)
      ensures r.None? ==> FlowScalar(double, old(Rest())) == Failed
    {
      var spaces := ScanFlowScalarSpaces();
      if spaces.None? {
        return None;
      }
      ghost var t := Rest();
      assert FlowScalar(double, old(Rest())) == FlowScalar(double, t).Push(spaces.value);
      var more := ScanFlowScalarNonSpaces(double);
      if more.None? {
        return None;
      }
      PushPush(FlowScalar(double, Rest()), spaces.value, more.value);
      return Some(spaces.value + more.value);
    }

    /** scan_flow_scalar: the value of the quoted scalar at the pointer, or an error. */
    method ScanFlowScalar(double: bool) returns (r: Option<Text>)
      requires Valid() && Peek(0) == Quote(double)
      modifies this
      ensures Valid()
      ensures FlowScalar(double, old(Rest())[1..]) == if r.Some? then Scanned(r.value, Rest()) else Failed
    {
      Forward(1);
      r := ScanToClosingQuote(double);
    }

    /** The loop of scan_flow_scalar, after the opening quote. */
    method ScanToClosingQuote(double: bool) returns (r: Option<Text>)
      requires Valid()
      modifies this
      ensures Valid()
      ensures FlowScalar(double, old(Rest())) == if r.Some? then Scanned(r.value, Rest()) else Failed
    {
      hide FlowScalar;
      ghost var s := Rest();
      var chunk := ScanFlowScalarNonSpaces(double);
      if chunk.None? {
        return None;
      }
      var chunks := chunk.value;
      while Peek(0) != Quote(double)
        invariant Valid() && AtFlowStop(double)
        invariant FlowScalar(double, s) == FlowScalar(double, Rest()).Push(chunks)
        decreases |buffer| - pointer
      {
        chunk := ScanFlowScalarRound(double);
        if chunk.None? {
          return None;
        }
        PushPush(FlowScalar(double, Rest()), chunks, chunk.value);
        chunks := chunks + chunk.value;
      }
      ClosingQuote(double, Rest());
      Forward(1);
      assert chunks + [] == chunks;
      return Some(chunks);
    }

    /** The loop of scan_plain_spaces behind the first line break; None at a document separator. */
    method ScanPlainBreaks() returns (r: Option<Text>)
      requires Valid()
      modifies this
      ensures Valid() && pointer >= old(pointer)
      ensures PlainBreaks(old(Rest()), old(column)) == if r.Some?
              then Some(Gap(r.value, Rest(), Some(column))) else None
      ensures r.None? ==> Rest() == SeparatorAfter(old(Rest())) && column == 0
    {
      hide LineBreak, AtDocumentSeparator, Width, PlainBreaks, SeparatorAfter, GapAfter;
      var breaks: Text := [];
      GapAfterNothing(Rest(), column);
      while Peek(0) == SPACE || IsBreak(Peek(0))
        invariant Valid() && pointer >= old(pointer)
        invariant PlainBreaks(old(Rest()), old(column)) == GapAfter(PlainBreaks(Rest(), column), breaks)
        invariant SeparatorAfter(old(Rest())) == SeparatorAfter(Rest())
        decreases |buffer| - pointer
      {
        PlainBreaksStep(Rest(), column);
        if Peek(0) == SPACE {
          OneSpaceWide(buffer, pointer);
          Forward(1);
        } else {
          var b := ScanLineBreak();
          if AtSeparator() {
            NoGapAfter(breaks);
            return None;
          }
          GapAfterAfter(PlainBreaks(Rest(), 0), breaks, b);
          breaks := breaks + b;
        }
      }
      PlainBreaksEnd(Rest(), column, breaks);
      return Some(breaks);
    }

    /** while self.peek(length) in ' ': length += 1; then prefix and forward. */
    method TakeSpaces() returns (run: Text)
      requires Valid()
      modifies this
      ensures Valid() && pointer >= old(pointer) && Peek(0) != SPACE
      ensures Rest() == SkipSpaces(old(Rest())) && |old(Rest())| - |Rest()| == |run| && run == old(Rest())[..|run|]
      ensures column == old(column) + |run|
    {
      hide SkipSpaces, Width;
      var length := 0;
      while Peek(length) == SPACE
        invariant Valid() && pointer + length < |buffer|
        invariant forall i :: pointer <= i < pointer + length ==> buffer[i] == SPACE
        decreases |buffer| - length
      {
        length := length + 1;
      }
      run := TakeRun(length);
      SpacesSkipped(run, Rest());
      SpacesWide(run);
    }

    /** scan_plain_spaces; the empty text also for its None. */
    method ScanPlainSpaces() returns (text: Text)
      requires Valid()
      modifies this
      ensures Valid() && pointer >= old(pointer)
      ensures var g := PlainGap(old(Rest()));
              text == g.text && Rest() == g.rest
              && column == if g.newColumn.Some? then g.newColumn.value else old(column) + |g.text|
    {
      hide PlainBreaks, SeparatorAfter, SkipSpaces;
      var whitespaces := TakeSpaces();
      if IsBreak(Peek(0)) {
        var lineBreak := ScanLineBreak();
        if AtSeparator() {
          return [];
        }
        var breaks := ScanPlainBreaks();
        if breaks.None? {
          return [];
        }
        return (if lineBreak != [LF] then lineBreak else if breaks.value == [] then [SPACE] else []) + breaks.value;
      } else {
        return whitespaces;
      }
    }

    /** One run of scan_plain. */
    method ScanPlainRun(flow: bool) returns (run: Text)
      requires Valid()
      modifies this
      ensures Valid() && pointer >= old(pointer)
      ensures run == Run(flow, old(Rest())) && Rest() == old(Rest())[|run|..] && column == old(column) + Width(run)
    {
      hide StopsRun, Run, Width;
      var length := 0;
      while !StopsRun(flow, buffer[pointer + length..])
        invariant Valid() && pointer == old(pointer) && column == old(column) && pointer + length < |buffer|
        invariant forall i :: pointer <= i < pointer + length ==> !StopsRun(flow, buffer[i..])
        decreases |buffer| - length
      {
        StopsAtEnd(flow, buffer[pointer + length..]);
        length := length + 1;
      }
      RunIs(flow, buffer, pointer, pointer + length);
      run := TakeRun(length);
    }

    /** A run, and the spaces behind it unless it is empty. */
    method ScanPlainRound(flow: bool) returns (run: Text, spaces: Text)
      requires Valid()
      modifies this
      ensures Valid() && pointer >= old(pointer) && run == Run(flow, old(Rest()))
      ensures run == [] ==> Rest() == old(Rest())
      ensures run != [] ==>
                var g := PlainGap(old(Rest())[|run|..]);
                spaces == g.text && Rest() == g.rest
                && column == if g.newColumn.Some? then g.newColumn.value else old(column) + Width(run) + |g.text|
    {
      hide PlainGap, Run, Width;
      run := ScanPlainRun(flow);
      spaces := [];
      if run != [] {
        spaces := ScanPlainSpaces();
      }
    }

    /** scan_plain: the value of the plain scalar at the pointer. */
    method ScanPlain(flow: bool, indent: nat) returns (value: Text)
      requires Valid()
      modifies this
      ensures Valid()
      ensures (value, Rest()) == Plain(flow, indent, old(Rest()), old(column))
    {
      hide PlainGap, Run, StopsRun, Width, Plain, Tail, Joined, AtDocumentSeparator, SkipSpaces;
      var chunks: Text := [];
      var spaces: Text := [];
      ghost var whole := Plain(flow, indent, Rest(), column);
      JoinedNothing(whole);
      while true
        invariant Valid()
        invariant whole == Joined(chunks, spaces, Plain(flow, indent, Rest(), column))
        decreases |buffer| - pointer
      {
        ghost var s, c := Rest(), column;
        JoinedEnd(chunks, spaces, s);
        if Peek(0) == HASH {
          PlainIsNothing(flow, indent, s, c);
          break;
        }
        RunIsEmpty(flow, s);
        var run, gap := ScanPlainRound(flow);
        if run == [] {
          PlainIsNothing(flow, indent, s, c);
          break;
        }
        JoinedRound(flow, indent, chunks, spaces, s, c);
        chunks := chunks + spaces + run;
        spaces := gap;
        if spaces == [] || Peek(0) == HASH || (!flow && column < indent) {
          return chunks;
        }
      }
      return chunks;
    }

    method ScanChompingMark() returns (chomping: Chomping)
      requires Valid()
      modifies this
      ensures Valid() && pointer >= old(pointer) && (chomping, Rest()) == OptionalMark(old(Rest()))
    {
      chomping := None;
      if IsChompingMark(Peek(0)) {
        chomping := Some(Peek(0) == PLUS);
        Forward(1);
      }
    }

    method ScanIncrement() returns (r: Option<Option<nat>>)
      requires Valid()
      modifies this
      ensures Valid() && pointer >= old(pointer)
      ensures OptionalDigit(old(Rest())) == if r.Some? then Some((r.value, Rest())) else None
    {
      var ch := Peek(0);
      if IsDigit(ch) {
        if ch == 0x30 {
          return None;
        }
        Forward(1);
        return Some(Some(ch - 0x30));
      }
      return Some(None);
    }

    /** scan_block_scalar_indicators */
    method ScanBlockScalarIndicators() returns (r: Option<(Chomping, Option<nat>)>)
      requires Valid()
      modifies this
      ensures Valid() && pointer >= old(pointer)
      ensures Indicators(old(Rest())) == if r.Some? then Header(r.value.0, r.value.1, Rest()) else BadHeader
    {
      hide OptionalMark, OptionalDigit;
      var chomping: Chomping := None;
      var increment: Option<Option<nat>> := Some(None);
      if IsChompingMark(Peek(0)) {
        chomping := ScanChompingMark();
        increment := ScanIncrement();
      } else {
        increment := ScanIncrement();
        if increment.Some? && increment.value.Some? {
          chomping := ScanChompingMark();
        }
      }
      if increment.None? || !(Peek(0) == SPACE || EndsLine(Peek(0))) {
        return None;
      }
      return Some((chomping, increment.value));
    }

    /** while self.peek() not in '\0\r\n\x85\u2028\u2029': go on; the text passed. */
    method TakeLine() returns (line: Text)
      requires Valid()
      modifies this
      ensures Valid() && pointer >= old(pointer) && EndsLine(Peek(0))
      ensures Rest() == SkipLine(old(Rest())) && |old(Rest())| - |Rest()| == |line| && line == old(Rest())[..|line|]
    {
      hide SkipLine;
      var length := 0;
      while !EndsLine(Peek(length))
        invariant Valid() && pointer + length < |buffer|
        invariant forall i :: pointer <= i < pointer + length ==> !EndsLine(buffer[i])
        decreases |buffer| - length
      {
        length := length + 1;
      }
      line := Prefix(length);
      ghost var tail := buffer[pointer + length..];
      LineSkipped(line, tail);
      assert Rest() == line + tail && Rest()[..length] == line;
      Forward(length);
    }

    static lemma {:induction false} LineSkipped(a: Text, r: Text)
      requires (forall i :: 0 <= i < |a| ==> !EndsLine(a[i])) && r != [] && EndsLine(r[0])
      ensures SkipLine(a + r) == r
    {
      if a == [] {
        assert a + r == r;
      } else {
        assert (a + r)[1..] == a[1..] + r;
        LineSkipped(a[1..], r);
      }
    }

    /** scan_block_scalar_ignored_line */
    method ScanBlockScalarIgnoredLine() returns (ok: bool)
      requires Valid()
      modifies this
      ensures Valid() && pointer >= old(pointer)
      ensures IgnoredLine(old(Rest())) == if ok then Some(Rest()) else None
      ensures ok ==> column == 0 || Peek(0) == NUL
    {
      hide SkipSpaces, SkipLine;
      var _ := TakeSpaces();
      if Peek(0) == HASH {
        var _ := TakeLine();
      }
      if !EndsLine(Peek(0)) {
        return false;
      }
      var _ := ScanLineBreak();
      return true;
    }

    static lemma IndentationStep(s: Text, column: nat, deepest: nat)
      ensures BlockIndentation(s, column, deepest)
              == if s != [] && s[0] == SPACE then
                   BlockIndentation(s[1..], column + 1, if column + 1 > deepest then column + 1 else deepest)
                 else if s != [] && IsBreak(s[0]) then
                   var r := BlockIndentation(LineBreak(s).1, 0, deepest);
                   (r.0.After(LineBreak(s).0), r.1)
                 else (Breaks([], s, column), deepest)
    {
    }

    /** scan_block_scalar_indentation */
    method ScanBlockScalarIndentation() returns (breaks: Text, maxIndent: nat)
      requires Valid()
      modifies this
      ensures Valid() && pointer >= old(pointer)
      ensures BlockIndentation(old(Rest()), old(column), 0) == (Breaks(breaks, Rest(), column), maxIndent)
    {
      hide BlockIndentation, LineBreak, Width;
      breaks, maxIndent := [], 0;
      BreaksAfterAfter(BlockIndentation(Rest(), column, 0).0, [], []);
      while Peek(0) == SPACE || IsBreak(Peek(0))
        invariant Valid() && pointer >= old(pointer)
        invariant var r := BlockIndentation(Rest(), column, maxIndent);
                  BlockIndentation(old(Rest()), old(column), 0) == (r.0.After(breaks), r.1)
        decreases |buffer| - pointer
      {
        IndentationStep(Rest(), column, maxIndent);
        if Peek(0) != SPACE {
          var b := ScanLineBreak();
          BreaksAfterAfter(BlockIndentation(Rest(), 0, maxIndent).0, breaks, b);
          breaks := breaks + b;
        } else {
          OneSpaceWide(buffer, pointer);
          Forward(1);
          if column > maxIndent {
            maxIndent := column;
          }
        }
      }
      IndentationStep(Rest(), column, maxIndent);
      assert breaks + [] == breaks;
    }

    /** scan_block_scalar_breaks */
    method ScanBlockScalarBreaks(indent: nat) returns (breaks: Text)
      requires Valid()
      modifies this
      ensures Valid() && pointer >= old(pointer)
      ensures BlockBreaks(old(Rest()), old(column), indent) == Breaks(breaks, Rest(), column)
    {
      hide BlockBreaks, LineBreak;
      breaks := [];
      SkipIndent(indent);
      BreaksAfterAfter(BlockBreaks(Rest(), column, indent), [], []);
      while IsBreak(Peek(0))
        invariant Valid() && pointer >= old(pointer) && !(column < indent && Peek(0) == SPACE)
        invariant BlockBreaks(old(Rest()), old(column), indent) == BlockBreaks(Rest(), column, indent).After(breaks)
        decreases |buffer| - pointer
      {
        BlockBreaksStep(Rest(), column, indent);
        var b := ScanLineBreak();
        BreaksAfterAfter(BlockBreaks(Rest(), 0, indent), breaks, b);
        breaks := breaks + b;
        SkipIndent(indent);
      }
      BlockBreaksStep(Rest(), column, indent);
      assert breaks + [] == breaks;
    }

    /** while self.column < indent and self.peek() == ' ': self.forward() */
    method SkipIndent(indent: nat)
      requires Valid()
      modifies this
      ensures Valid() && pointer >= old(pointer) && !(column < indent && Peek(0) == SPACE)
      ensures BlockBreaks(old(Rest()), old(column), indent) == BlockBreaks(Rest(), column, indent)
    {
      hide BlockBreaks, Width;
      while column < indent && Peek(0) == SPACE
        invariant Valid() && pointer >= old(pointer)
        invariant BlockBreaks(old(Rest()), old(column), indent) == BlockBreaks(Rest(), column, indent)
        decreases |buffer| - pointer
      {
        BlockBreaksStep(Rest(), column, indent);
        OneSpaceWide(buffer, pointer);
        Forward(1);
      }
    }

    /** A line, its break, and the breaks behind it. */
    method ScanBlockLine(indent: nat) returns (line: Text, lineBreak: Text, breaks: Text)
      requires Valid() && !EndsLine(Peek(0))
      modifies this
      ensures Valid() && pointer > old(pointer) && !IsBreak(Peek(0))
      ensures var t := SkipLine(old(Rest()));
              var next := BlockBreaks(LineBreak(t).1, 0, indent);
              && line == old(Rest())[..|old(Rest())| - |t|] && lineBreak == LineBreak(t).0
              && breaks == next.text && Rest() == next.rest && (Peek(0) != NUL ==> column == next.column)
    {
      hide BlockBreaks, SkipLine, LineBreak;
      line := TakeLine();
      lineBreak := ScanLineBreak();
      ghost var u, c := Rest(), column;
      breaks := ScanBlockScalarBreaks(indent);
      SameAtEnd(u, c, indent);
    }

    /** The loop of scan_block_scalar over the lines: their text, the last break, the breaks behind. */
    method ScanBlockLines(folded: bool, indent: nat, first: Text) returns (text: Text, lineBreak: Text, breaks: Text)
      requires Valid() && !IsBreak(Peek(0))
      modifies this
      ensures Valid()
      ensures BlockLines(folded, indent, Breaks(first, old(Rest()), old(column)))
              == Lines(text, lineBreak, breaks, Rest())
    {
      hide BlockLines, BlockBreaks, SkipLine, LineBreak, Joint;
      text, lineBreak, breaks := [], [], first;
      ghost var whole := BlockLines(folded, indent, Breaks(first, Rest(), column));
      LinesAfterAfter(whole, [], []);
      while column == indent && Peek(0) != NUL
        invariant Valid() && !IsBreak(Peek(0))
        invariant whole == BlockLines(folded, indent, Breaks(breaks, Rest(), column)).After(text)
        invariant lineBreak == [] || (column == indent && Peek(0) != NUL)
        decreases |buffer| - pointer
      {
        LineTaken(folded, indent, Breaks(breaks, Rest(), column), text);
        var before := breaks;
        var line: Text;
        line, lineBreak, breaks := ScanBlockLine(indent);
        if column == indent && Peek(0) != NUL {
          text := text + (before + line + Joint(folded, line, lineBreak, Breaks(breaks, buffer[pointer..], column)));
        } else {
          text := text + (before + line);
          return;
        }
      }
      BlockLinesStep(folded, indent, Breaks(breaks, Rest(), column));
      assert text + [] == text;
      lineBreak := [];
    }

    /** One round, with the text of the lines before. */
    static lemma LineTaken(folded: bool, indent: nat, b: Breaks, text: Text)
      requires b.AtText() && AtLine(b, indent)
      ensures var t := SkipLine(b.rest);
              var line := b.rest[..|b.rest| - |t|];
              var (lb, u) := LineBreak(t);
              var next := BlockBreaks(u, 0, indent);
              line != [] &&
              BlockLines(folded, indent, b).After(text) ==
                if AtLine(next, indent) then
                  BlockLines(folded, indent, next).After(text + (b.text + line + Joint(folded, line, lb, next)))
                else Lines(text + (b.text + line), lb, next.text, next.rest)
    {
      hide BlockLines, BlockBreaks, SkipLine, LineBreak, Joint;
      BlockLinesStep(folded, indent, b);
      var t := SkipLine(b.rest);
      var line := b.rest[..|b.rest| - |t|];
      var (lb, u) := LineBreak(t);
      var next := BlockBreaks(u, 0, indent);
      if AtLine(next, indent) {
        LinesAfterAfter(BlockLines(folded, indent, next), text, b.text + line + Joint(folded, line, lb, next));
      }
    }

    /** At the end of the text the column no longer matters. */
    static lemma SameAtEnd(u: Text, c: nat, indent: nat)
      requires u != [] && (c == 0 || u[0] == NUL)
      ensures var b := BlockBreaks(u, c, indent); var d := BlockBreaks(u, 0, indent);
              b.text == d.text && b.rest == d.rest && (b.rest != [] && b.rest[0] != NUL ==> b == d)
    {
    }

    /** scan_block_scalar */
    method ScanBlockScalar(folded: bool, indent: int) returns (r: Option<Text>)
      requires Valid() && indent >= -1 && (Peek(0) == BAR || Peek(0) == GREATER)
      modifies this
      ensures Valid()
      ensures BlockScalar(folded, indent, old(Rest())[1..]) == if r.Some? then Scanned(r.value, Rest()) else Failed
    {
      Forward(1);
      r := ScanAfterBlockIndicator(folded, indent);
    }

    method ScanAfterBlockIndicator(folded: bool, indent: int) returns (r: Option<Text>)
      requires Valid() && indent >= -1
      modifies this
      ensures Valid()
      ensures BlockScalar(folded, indent, old(Rest())) == if r.Some? then Scanned(r.value, Rest()) else Failed
    {
      hide Indicators, IgnoredLine, BlockBody;
      var header := ScanBlockScalarIndicators();
      if header.None? {
        return None;
      }
      var ok := ScanBlockScalarIgnoredLine();
      if !ok {
        return None;
      }
      var text := ScanBlockBody(folded, indent, header.value.0, header.value.1);
      return Some(text);
    }

    method ScanBlockBody(folded: bool, indent: int, chomping: Chomping, increment: Option<nat>) returns (text: Text)
      requires Valid() && indent >= -1 && (column == 0 || Peek(0) == NUL)
      modifies this
      ensures Valid()
      ensures BlockBody(folded, indent, chomping, increment, old(Rest())) == Scanned(text, Rest())
    {
      hide BlockIndentation, BlockBreaks, BlockLines, BlockBody;
      var minIndent := if indent + 1 < 1 then 1 else indent + 1;
      var depth: nat;
      var breaks: Text;
      ghost var t, c := Rest(), column;
      if increment.None? {
        var maxIndent: nat;
        breaks, maxIndent := ScanBlockScalarIndentation();
        depth := if minIndent > maxIndent then minIndent else maxIndent;
      } else {
        depth := minIndent + increment.value - 1;
        breaks := ScanBlockScalarBreaks(depth);
      }
      ghost var first := Breaks(breaks, Rest(), column);
      assert !IsBreak(Peek(0));
      var lines, lineBreak, tail := ScanBlockLines(folded, depth, breaks);
      BodyIs(folded, indent, chomping, increment, t, c, depth, first);
      return lines + (if chomping == Some(false) then [] else lineBreak)
          + (if chomping == Some(true) then tail else []);
    }

    /** What was found in front of the lines, whatever the column at the end of the text. */
    static lemma BodyIs(folded: bool, indent: int, chomping: Chomping, increment: Option<nat>, t: Text, c: nat,
                        depth: nat, first: Breaks)
      requires indent >= -1 && t != [] && (c == 0 || t[0] == NUL) && first.AtText()
      requires depth == if increment.Some? then Max(indent + 1, 1) + increment.value - 1
                        else Max(Max(indent + 1, 1), BlockIndentation(t, c, 0).1)
      requires first == if increment.Some? then BlockBreaks(t, c, depth) else BlockIndentation(t, c, 0).0
      ensures BlockBody(folded, indent, chomping, increment, t) == Chomp(chomping, BlockLines(folded, depth, first))
    {
      hide BlockIndentation, BlockBreaks, BlockLines;
      if increment.None? {
        IndentationAtEnd(t, c);
      } else {
        SameAtEnd(t, c, depth);
      }
      LinesAtEnd(folded, depth, first);
    }

    static lemma IndentationAtEnd(u: Text, c: nat)
      requires u != [] && (c == 0 || u[0] == NUL)
      ensures c != 0 ==> BlockIndentation(u, c, 0) == (Breaks([], u, c), 0)
      ensures c != 0 ==> BlockIndentation(u, 0, 0) == (Breaks([], u, 0), 0)
    {
    }

    static lemma LinesAtEnd(folded: bool, depth: nat, b: Breaks)
      requires b.AtText()
      ensures b.rest == [] || b.rest[0] == NUL ==>
              forall c: nat :: BlockLines(folded, depth, Breaks(b.text, b.rest, c)) == Lines([], [], b.text, b.rest)
    {
    }

    /** The scalar token at the pointer; None if the token is no scalar or is malformed. */
    method FetchScalar(flow: bool, indent: int) returns (r: Option<(Text, bool)>)
      requires Valid() && indent >= -1
      modifies this
      ensures Valid()
      ensures r.Some? <==> ScalarToken(flow, indent, old(column), old(Rest())).Scalar?
      ensures r.Some? ==> ScalarToken(flow, indent, old(column), old(Rest())) == Scalar(r.value.0, r.value.1, Rest())
    {
      hide FlowScalar, BlockScalar, Plain, FirstToken;
      FirstCharacter(flow, column, Rest());
      var kind := FirstToken(flow, column, buffer[pointer..]);
      match kind {
        case DoubleQuoted =>
          var v := ScanFlowScalar(true);
          r := if v.Some? then Some((v.value, false)) else None;
        case SingleQuoted =>
          var v := ScanFlowScalar(false);
          r := if v.Some? then Some((v.value, false)) else None;
        case Literal =>
          var v := ScanBlockScalar(false, indent);
          r := if v.Some? then Some((v.value, false)) else None;
        case Folded =>
          var v := ScanBlockScalar(true, indent);
          r := if v.Some? then Some((v.value, false)) else None;
        case PlainScalar =>
          var v := ScanPlain(flow, indent + 1);
          r := Some((v, true));
        case _ =>
          r := None;
      }
    }

    static lemma FirstCharacter(flow: bool, column: nat, s: Text)
      requires s != [] && (s[0] == NUL || |s| > 1)
      ensures var k := FirstToken(flow, column, s);
              && (k == DoubleQuoted ==> s[0] == DQUOTE) && (k == SingleQuoted ==> s[0] == SQUOTE)
              && (k == Literal ==> s[0] == BAR) && (k == Folded ==> s[0] == GREATER)
    {
    }
  }
}
