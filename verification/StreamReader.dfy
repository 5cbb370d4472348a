/** yaml/reader.py on a stream of characters that comes in pieces: the lazily filled window shows the same as
    the whole text with its terminator. */
module StreamReader {
  import opened Options
  import opened Chars

  /** What check_printable lets through. */
  predicate AllAccepted(t: Text) { forall i | 0 <= i < |t| :: IsPrintable(t[i]) }

  function Joined(chunks: seq<Text>): Text {
    if chunks == [] then [] else chunks[0] + Joined(chunks[1..])
  }

  // Lines and columns of a position in the whole text.

  /** The line ends behind the character at i: CR only without the LF of a CR-LF pair. */
  predicate EndsLine(full: Text, i: nat)
    requires i < |full|
  {
    || full[i] == LF || full[i] == NEL || full[i] == LS || full[i] == PS
    || (full[i] == CR && (i + 1 < |full| ==> full[i + 1] != LF))
  }

  /** The lines that end before position i. */
  function LinesBefore(full: Text, i: nat): nat
    requires i <= |full|
  {
    if i == 0 then 0 else LinesBefore(full, i - 1) + if EndsLine(full, i - 1) then 1 else 0
  }

  /** The start of the line of position i. */
  function LineStart(full: Text, i: nat): (s: nat)
    requires i <= |full|
    ensures s <= i && (s == 0 || EndsLine(full, s - 1)) && forall k | s <= k < i :: !EndsLine(full, k)
  {
    if i == 0 || EndsLine(full, i - 1) then i else LineStart(full, i - 1)
  }

  /** The characters of t that take a column: all but byte order marks. */
  function Columns(t: Text): nat {
    if t == [] then 0 else Columns(t[..|t| - 1]) + if t[|t| - 1] == BOM then 0 else 1
  }

  function ColumnAt(full: Text, i: nat): nat
    requires i <= |full|
  {
    Columns(full[LineStart(full, i)..i])
  }

  lemma ColumnStep(full: Text, i: nat)
    requires i < |full|
    ensures ColumnAt(full, i + 1) == if EndsLine(full, i) then 0 else ColumnAt(full, i) + if full[i] == BOM
            then 0 else 1
  {
    if !EndsLine(full, i) {
      var s := LineStart(full, i);
      assert full[s..i + 1][..i - s] == full[s..i];
    }
  }

  class Reader {
    /** What the stream has still to give; an empty read only at its end. */
    var chunks: seq<Text>
    var eof: bool
    var buffer: Text
    var pointer: nat
    var rawBuffer: Option<Text>
    var index: nat
    var line: nat
    var column: nat
    /** The whole text and the terminator. */
    ghost const full: Text

    /** What is to come behind the buffer. */
    ghost function Rest(): Text
      reads this
    {
      RestOf(rawBuffer, eof, chunks)
    }

    ghost predicate Valid()
      reads this
    {
      && Shows(full, index, buffer, pointer, Rest())
      && (forall i | 0 <= i < |chunks| :: chunks[i] != []) && (eof ==> chunks == [])
      && full != [] && full[|full| - 1] == NUL
      && line == LinesBefore(full, index) && column == ColumnAt(full, index)
      && Checked(full, Rest())
    }

    /** Valid, and the stream has been read from. */
    ghost predicate Ready()
      reads this
    {
      Valid() && (rawBuffer.None? ==> eof)
    }

    /** No error is due for the text. */
    ghost predicate Accepted()
      reads this
    {
      full != [] && AllAccepted(full[..|full| - 1])
    }

    /** A text that is there as a whole and has been checked. */
    constructor FromText(text: Text)
      requires AllAccepted(text)
      ensures Ready() && full == text + [NUL] && index == 0
    {
      chunks, eof, rawBuffer := [], true, None;
      buffer, pointer, index, line, column := text + [NUL], 0, 0, 0, 0;
      full := text + [NUL];
      new;
      assert full[..|full| - 1] == text;
    }

    /** A stream, not read from yet. */
    constructor FromStream(stream: seq<Text>)
      requires forall i | 0 <= i < |stream| :: stream[i] != []
      ensures Valid() && full == Joined(stream) + [NUL] && index == 0 && buffer == []
    {
      chunks, eof, rawBuffer := stream, false, None;
      buffer, pointer, index, line, column := [], 0, 0, 0, 0;
      full := Joined(stream) + [NUL];
    }

    /** determine_encoding for characters: two of them are read, where there are two, and then the buffer is
        filled. False where an error is raised; as long as none is, everything read has been accepted. */
    method DetermineEncoding() returns (ok: bool)
      requires Valid() && buffer == []
      modifies this
      ensures !ok ==> !old(Accepted())
      ensures ok ==> Ready() && index == old(index) && Checked(full, Rest())
    {
      while !eof && (rawBuffer.None? || |rawBuffer.value| < 2)
        invariant Valid() && buffer == [] && index == old(index)
        decreases |chunks| + if eof then 0 else 1
      {
        UpdateRaw();
      }
      ok := Update(1);
    }

    method UpdateRaw()
      requires Valid() && !eof
      modifies this`chunks, this`rawBuffer, this`eof
      ensures Valid() && rawBuffer.Some? && Rest() == old(Rest())
      ensures |chunks| + (if eof then 0 else 1) < |old(chunks)| + 1
    {
      hide Shows, LinesBefore, ColumnAt, Checked;
      ReadStep(rawBuffer, chunks);
      var data: Text := [];
      if chunks != [] {
        data, chunks := chunks[0], chunks[1..];
      }
      rawBuffer := Some(if rawBuffer.None? then data else rawBuffer.value + data);
      if data == [] {
        eof := true;
      }
    }

    method Update(length: nat) returns (ok: bool)
      requires Ready()
      modifies this
      ensures !ok ==> !old(Accepted())
      ensures ok ==> Ready() && index == old(index) && (|buffer| - pointer >= length || Rest() == [])
      ensures ok ==> Checked(full, Rest())
    {
      hide Joined, LinesBefore, ColumnAt, RestOf, Shows, Checked;
      if rawBuffer.None? {
        RestEmpty(chunks);
        return true;
      }
      ShowsDrop(full, index, buffer, pointer, Rest());
      buffer := buffer[pointer..];
      pointer := 0;
      while |buffer| < length
        invariant Valid() && rawBuffer.Some? && pointer == 0 && index == old(index)
        decreases |chunks| + if eof then 0 else 1
      {
        if !eof {
          UpdateRaw();
        }
        var data := rawBuffer.value;
        FillStep(full, index, buffer, data, eof, chunks);
        var good := CheckPrintable(data);
        if !good {
          return false;
        }
        buffer := buffer + data;
        rawBuffer := Some([]);
        if eof {
          buffer := buffer + [NUL];
          rawBuffer := None;
          RestEmpty(chunks);
          break;
        }
      }
      ok := true;
    }

    static method CheckPrintable(data: Text) returns (ok: bool)
      ensures ok <==> AllAccepted(data)
    {
      for i := 0 to |data|
        invariant AllAccepted(data[..i])
      {
        if !IsPrintable(data[i]) {
          return false;
        }
        assert data[..i + 1] == data[..i] + [data[i]];
      }
      assert data[..|data|] == data;
      ok := true;
    }

    /** The character k behind the current one; None behind the terminator, where an index error is raised. */
    method Peek(k: nat) returns (c: Option<Char>, ok: bool)
      requires Ready()
      modifies this
      ensures !ok ==> !old(Accepted())
      ensures ok ==> Ready() && index == old(index)
      ensures ok ==> c == if index + k < |full| then Some(full[index + k]) else None
      ensures ok && index + k < |full| - 1 ==> IsPrintable(full[index + k])
    {
      ok := true;
      if pointer + k >= |buffer| {
        ok := Update(k + 1);
        if !ok {
          return None, false;
        }
      }
      ghost var window, rest := buffer[pointer..], Rest();
      assert full[index..] == window + rest && (k < |window| ==> full[index + k] == (window + rest)[k]);
      assert |full| - index == |window| + |rest|;
      c := if pointer + k < |buffer| then Some(buffer[pointer + k]) else None;
    }

    /** The next `length` characters, or fewer where the text ends. */
    method Prefix(length: nat) returns (t: Text, ok: bool)
      requires Ready()
      modifies this
      ensures !ok ==> !old(Accepted())
      ensures ok ==> Ready() && index == old(index)
      ensures ok ==> t == if index + length <= |full| then full[index..index + length] else full[index..]
    {
      ok := true;
      if pointer + length >= |buffer| {
        ok := Update(length);
        if !ok {
          return [], false;
        }
      }
      ghost var window, rest := buffer[pointer..], Rest();
      assert full[index..] == window + rest;
      if pointer + length <= |buffer| {
        t := buffer[pointer..pointer + length];
        assert full[index..index + length] == full[index..][..length] == (window + rest)[..length];
      } else {
        t := buffer[pointer..];
      }
    }

    /** Goes on by `length` characters, which must be there: behind the terminator an index error is raised. */
    method Forward(length: nat) returns (ok: bool)
      requires Ready() && index + length <= |full|
      modifies this
      ensures !ok ==> !old(Accepted())
      ensures ok ==> Ready() && index == old(index) + length
    {
      ok := true;
      if pointer + length + 1 >= |buffer| {
        ok := Update(length + 1);
        if !ok {
          return false;
        }
      }
      hide Joined, LinesBefore, ColumnAt, RestOf, Shows, EndsLine, Checked;
      var left := length;
      ghost var rest := Rest();
      ShowsLength(full, index, buffer, pointer, rest);
      while left > 0
        invariant Ready() && Rest() == rest && index + left == old(index) + length
        invariant pointer + left < |buffer| || (pointer + left == |buffer| && rest == [])
      {
        Pass();
        left := left - 1;
      }
    }

    /** One character, which is in the window. */
    method Pass()
      requires Ready() && pointer < |buffer| && (Rest() == [] || pointer + 1 < |buffer|)
      modifies this`pointer, this`index, this`line, this`column
      ensures Ready() && Rest() == old(Rest()) && index == old(index) + 1 && pointer == old(pointer) + 1
    {
      hide Joined, LinesBefore, ColumnAt, RestOf, Shows, EndsLine, Checked;
      PositionStep(full, index, buffer, pointer, Rest());
      var ch := buffer[pointer];
      pointer := pointer + 1;
      index := index + 1;
      if ch == LF || ch == NEL || ch == LS || ch == PS || (ch == CR && buffer[pointer] != LF) {
        line := line + 1;
        column := 0;
      } else if ch != BOM {
        column := column + 1;
      }
    }
  }

  function RestOf(raw: Option<Text>, eof: bool, chunks: seq<Text>): Text {
    if raw.None? && eof then [] else (if raw.None? then [] else raw.value) + Joined(chunks) + [NUL]
  }

  /** The window from the pointer on, with what is behind it, is the text from the index on. */
  predicate Shows(full: Text, index: nat, buffer: Text, pointer: nat, rest: Text) {
    pointer <= |buffer| && index <= |full| && buffer[pointer..] + rest == full[index..]
  }

  /** All characters of the text that have been read, up to `rest`, are accepted. */
  predicate Checked(full: Text, rest: Text) {
    |rest| <= |full| && full != [] && AllAccepted(full[..|full| - if rest == [] then 1 else |rest|])
  }

  /** The reader of a text that is there as a whole; null where an error is raised. */
  method ReaderOf(text: Text) returns (reader: Reader?)
    ensures reader == null <==> !AllAccepted(text)
    ensures reader != null ==> fresh(reader) && reader.Ready() && reader.full == text + [NUL] && reader.index == 0
  {
    var ok := Reader.CheckPrintable(text);
    if !ok {
      return null;
    }
    reader := new Reader.FromText(text);
  }

  lemma RestEmpty(chunks: seq<Text>)
    ensures RestOf(None, true, chunks) == []
  {
  }

  lemma ReadStep(raw: Option<Text>, chunks: seq<Text>)
    requires forall i | 0 <= i < |chunks| :: chunks[i] != []
    ensures
      var had := if raw.None? then [] else raw.value;
      if chunks == [] then RestOf(Some(had + []), true, []) == RestOf(raw, false, chunks)
      else RestOf(Some(had + chunks[0]), false, chunks[1..]) == RestOf(raw, false, chunks)
    ensures raw.None? && chunks != [] ==> [] + chunks[0] == chunks[0]
    ensures raw.None? ==> RestOf(Some([]), true, []) == RestOf(Some([] + []), true, [])
  {
    var had: Text := if raw.None? then [] else raw.value;
    if chunks == [] {
      assert had + [] == had;
    } else {
      assert had + chunks[0] + Joined(chunks[1..]) == had + (chunks[0] + Joined(chunks[1..]));
      assert raw.None? ==> [] + chunks[0] == chunks[0];
    }
  }

  lemma ShowsDrop(full: Text, index: nat, buffer: Text, pointer: nat, rest: Text)
    requires Shows(full, index, buffer, pointer, rest)
    ensures pointer <= |buffer| && Shows(full, index, buffer[pointer..], 0, rest)
  {
    assert buffer[pointer..][0..] == buffer[pointer..];
  }

  lemma ShowsLength(full: Text, index: nat, buffer: Text, pointer: nat, rest: Text)
    requires Shows(full, index, buffer, pointer, rest)
    ensures pointer <= |buffer| && index <= |full| && |full| - index == |buffer| - pointer + |rest|
  {
    assert |buffer[pointer..] + rest| == |full[index..]|;
  }

  /** The raw characters move into the buffer, with the terminator at the end of the stream. */
  lemma FillStep(full: Text, index: nat, buffer: Text, data: Text, eof: bool, chunks: seq<Text>)
    requires Shows(full, index, buffer, 0, RestOf(Some(data), eof, chunks)) && (eof ==> chunks == [])
    ensures Shows(full, index, buffer + data, 0, RestOf(Some([]), eof, chunks))
    ensures eof ==> Shows(full, index, buffer + data + [NUL], 0, RestOf(None, true, chunks))
    ensures full != [] && AllAccepted(full[..|full| - 1]) ==> AllAccepted(data)
    ensures Checked(full, RestOf(Some(data), eof, chunks)) && AllAccepted(data) ==>
              Checked(full, RestOf(Some([]), eof, chunks)) && (eof ==> Checked(full, []))
  {
    CheckedStep(full, index, buffer, data, eof, chunks);
    hide Checked;
    var later := Joined(chunks);
    assert buffer[0..] == buffer && (buffer + data)[0..] == buffer + data;
    assert buffer + (data + later + [NUL]) == buffer + data + ([] + later + [NUL]);
    if eof { assert (buffer + data + [NUL])[0..] + [] == buffer + data + ([] + [] + [NUL]); }
    assert full[index..] == buffer + data + later + [NUL];
    if !AllAccepted(data) { ErrorInText(full, index, buffer, data, later); }
  }

  lemma CheckedStep(full: Text, index: nat, buffer: Text, data: Text, eof: bool, chunks: seq<Text>)
    requires Shows(full, index, buffer, 0, RestOf(Some(data), eof, chunks)) && (eof ==> chunks == [])
    ensures Checked(full, RestOf(Some(data), eof, chunks)) && AllAccepted(data) ==>
              Checked(full, RestOf(Some([]), eof, chunks)) && (eof ==> Checked(full, []))
  {
    hide Joined;
    NothingJoined();
    var later := [] + Joined(chunks) + [NUL];
    assert data + Joined(chunks) + [NUL] == data + later && buffer[0..] == buffer;
    WindowEnds(full, index, buffer, data, later);
  }

  lemma NothingJoined()
    ensures Joined([]) == []
  {
  }

  lemma WindowEnds(full: Text, index: nat, buffer: Text, data: Text, later: Text)
    requires index <= |full| && full[index..] == buffer + (data + later)
    ensures var n := index + |buffer|; n + |data| <= |full| && full[..n + |data|] == full[..n] + data
  {
    var n := index + |buffer|;
    forall i | 0 <= i < |data| ensures full[n + i] == data[i] {
      assert full[n + i] == full[index..][|buffer| + i] == (buffer + (data + later))[|buffer| + i];
    }
  }

  /** Where the line and the column are behind the next character, as the window shows it. */
  lemma PositionStep(full: Text, index: nat, buffer: Text, pointer: nat, rest: Text)
    requires Shows(full, index, buffer, pointer, rest) && pointer < |buffer| && full != [] && full[|full| - 1] == NUL
    requires rest == [] || pointer + 1 < |buffer|
    ensures index < |full| && Shows(full, index + 1, buffer, pointer + 1, rest)
    ensures
      var ch := buffer[pointer];
      var ends := ch == LF || ch == NEL || ch == LS || ch == PS
          || (ch == CR && pointer + 1 < |buffer| && buffer[pointer + 1] != LF);
      && (ch == CR ==> pointer + 1 < |buffer|)
      && LinesBefore(full, index + 1) == LinesBefore(full, index) + (if ends then 1 else 0)
      && ColumnAt(full, index + 1) == if ends then 0 else ColumnAt(full, index) + if ch == BOM then 0 else 1
  {
    hide ColumnAt, Shows;
    ForwardStep(full, index, buffer, pointer, rest);
    ColumnStep(full, index);
  }

  /** One character on; behind a carriage return the next one is in the window already. */
  lemma ForwardStep(full: Text, index: nat, buffer: Text, pointer: nat, rest: Text)
    requires Shows(full, index, buffer, pointer, rest) && pointer < |buffer| && full[|full| - 1] == NUL
    requires rest == [] || pointer + 1 < |buffer|
    ensures index < |full| && full[index] == buffer[pointer] && Shows(full, index + 1, buffer, pointer + 1, rest)
    ensures buffer[pointer] == CR ==>
              pointer + 1 < |buffer| && index + 1 < |full| && buffer[pointer + 1] == full[index + 1]
  {
    var window := buffer[pointer..];
    assert |full[index..]| == |window + rest|;
    assert full[index] == (window + rest)[0];
    LookAhead(full, index, window, rest);
    assert buffer[pointer + 1..] == window[1..] && full[index + 1..] == (window + rest)[1..] == window[1..] + rest;
  }

  /** A carriage return has a character behind it in the window: the terminator at least. */
  lemma LookAhead(full: Text, i: nat, window: Text, rest: Text)
    requires i < |full| && full[i..] == window + rest && window != [] && (rest == [] || |window| > 1)
    requires full[|full| - 1] == NUL
    ensures window[0] == CR ==> |window| > 1 && i + 1 < |full| && window[1] == full[i + 1]
  {
    assert full[i] == (window + rest)[0];
    if window[0] == CR {
      assert full[|full| - 1] == full[i..][|full| - 1 - i];
      assert full[i + 1] == full[i..][1];
    }
  }

  lemma ErrorInText(full: Text, i: nat, before: Text, data: Text, later: Text)
    requires i <= |full| && full[i..] == before + data + later + [NUL] && !AllAccepted(data)
    ensures !AllAccepted(full[..|full| - 1])
  {
    var k :| 0 <= k < |data| && !IsPrintable(data[k]);
    assert full[i..][|before| + k] == data[k];
    assert full[..|full| - 1][i + |before| + k] == data[k];
  }
}
