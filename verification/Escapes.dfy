/** The escapes the emitter writes inside double quotes (yaml/emitter.py, write_double_quoted), and
    that the scanner's table undoes them. */
module Escapes {
  import opened Options
  import opened Chars
  import opened FlowScalars
  import opened QuotedReading

  /** ESCAPE_REPLACEMENTS of the emitter. */
  function EscapeLetter(c: Char): Option<Char> {
    if c == NUL then Some(0x30)            // 0
    else if c == 0x07 then Some(0x61)      // a
    else if c == 0x08 then Some(0x62)      // b
    else if c == TAB then Some(0x74)       // t
    else if c == LF then Some(0x6E)        // n
    else if c == 0x0B then Some(0x76)      // v
    else if c == 0x0C then Some(0x66)      // f
    else if c == CR then Some(0x72)        // r
    else if c == 0x1B then Some(0x65)      // e
    else if c == DQUOTE then Some(DQUOTE)
    else if c == BACKSLASH then Some(BACKSLASH)
    else if c == NEL then Some(0x4E)       // N
    else if c == 0xA0 then Some(0x5F)      // _
    else if c == LS then Some(0x4C)        // L
    else if c == PS then Some(0x50)        // P
    else None
  }

  function UpperHexDigit(d: nat): Char
    requires d < 16
  {
    if d < 10 then 0x30 + d else 0x37 + d
  }

  /** '%0wX' % n, for an n of at most w digits */
  function HexText(n: nat, w: nat): Text {
    if w == 0 then [] else HexText(n / 16, w - 1) + [UpperHexDigit(n % 16)]
  }

  function Pow16(w: nat): nat {
    if w == 0 then 1 else 16 * Pow16(w - 1)
  }

  lemma {:induction false} HexReads(n: nat, w: nat)
    requires n < Pow16(w)
    ensures |HexText(n, w)| == w && AllHex(HexText(n, w)) && HexNumber(HexText(n, w)) == n
  {
    if w > 0 {
      HexReads(n / 16, w - 1);
      var t := HexText(n, w);
      assert t[..w - 1] == HexText(n / 16, w - 1);
    }
  }

  /** Which characters of a double-quoted text are escaped. */
  predicate MustEscape(allowUnicode: bool, c: Char) {
    || c == DQUOTE || c == BACKSLASH || c == NEL || c == LS || c == PS || c == BOM
    || !(0x20 <= c <= 0x7E || (allowUnicode && (0xA0 <= c <= 0xD7FF || 0xE000 <= c <= 0xFFFD)))
  }

  function EscapeText(c: Char): Text {
    if EscapeLetter(c).Some? then [BACKSLASH, EscapeLetter(c).value]
    else if c <= 0xFF then [BACKSLASH, 0x78] + HexText(c, 2)
    else if c <= 0xFFFF then [BACKSLASH, 0x75] + HexText(c, 4)
    else [BACKSLASH, 0x55] + HexText(c, 8)
  }

  lemma CodeReads(c: Char, w: nat, k: Text)
    requires c < Pow16(w)
    ensures HexCode(HexText(c, w) + k, w) == Scanned([c], k)
  {
    HexReads(c, w);
    var s := HexText(c, w) + k;
    assert s[..w] == HexText(c, w) && s[w..] == k;
  }

  /** The scanner's table and hexadecimal codes undo the emitter's, whatever follows. */
  lemma ReadsEscape(c: Char)
    ensures Reads(true, EscapeText(c), [c], false)
    ensures EscapeText(c)[0] == BACKSLASH
    ensures forall i :: 0 <= i < |EscapeText(c)| ==> 0x20 <= EscapeText(c)[i] <= 0x7E
  {
    hide FlowScalar, HexCode, EscapeText, NextStep, Escape;
    forall k: Text | k != [] ensures ReadsAt(true, EscapeText(c), [c], k) {
      EscapeReads(c, k);
      OneStep(true, EscapeText(c) + k, [c], k);
    }
    EscapeReads(c, []);
    EscapePrintable(c);
  }

  lemma EscapeReads(c: Char, k: Text)
    ensures EscapeText(c) != [] && EscapeText(c)[0] == BACKSLASH
    ensures NextStep(true, EscapeText(c) + k) == Take([c], k)
  {
    hide Escape, NextStep, EscapeLetter, HexText;
    if EscapeLetter(c).Some? {
      LetterReads(c, k);
      BackslashReads([EscapeLetter(c).value], c, k);
      assert EscapeText(c) == [BACKSLASH] + [EscapeLetter(c).value];
    } else {
      var w := if c <= 0xFF then 2 else if c <= 0xFFFF then 4 else 8;
      var letter: Char := if w == 2 then 0x78 else if w == 4 then 0x75 else 0x55;
      CodeEscapeReads(c, w, k);
      assert [letter] + HexText(c, w) + k == [letter] + (HexText(c, w) + k);
      BackslashReads([letter] + HexText(c, w), c, k);
      assert EscapeText(c) == [BACKSLASH] + ([letter] + HexText(c, w));
    }
  }

  lemma BackslashReads(t: Text, c: Char, k: Text)
    requires Escape(t + k) == Scanned([c], k)
    ensures NextStep(true, [BACKSLASH] + t + k) == Take([c], k)
  {
    hide Escape;
    assert ([BACKSLASH] + t + k)[1..] == t + k;
  }

  lemma LetterReads(c: Char, k: Text)
    requires EscapeLetter(c).Some?
    ensures Escape([EscapeLetter(c).value] + k) == Scanned([c], k)
  {
    hide HexCode, FlowBreaks;
    assert ([EscapeLetter(c).value] + k)[1..] == k;
  }

  lemma CodeEscapeReads(c: Char, w: nat, k: Text)
    requires (w == 2 && c <= 0xFF) || (w == 4 && c <= 0xFFFF) || w == 8
    ensures Escape([if w == 2 then 0x78 else if w == 4 then 0x75 else 0x55] + (HexText(c, w) + k)) == Scanned([c], k)
  {
    assert Pow16(2) == 0x100 && Pow16(4) == 0x1_0000 && Pow16(8) == 0x1_0000_0000;
    CodeReads(c, w, k);
    hide HexCode, FlowBreaks, Pow16, HexText;
    var letter: Char := if w == 2 then 0x78 else if w == 4 then 0x75 else 0x55;
    assert ([letter] + (HexText(c, w) + k))[1..] == HexText(c, w) + k;
  }

  lemma EscapePrintable(c: Char)
    ensures forall i :: 0 <= i < |EscapeText(c)| ==> 0x20 <= EscapeText(c)[i] <= 0x7E
  {
    HexPrintable(c, 2);
    HexPrintable(c, 4);
    HexPrintable(c, 8);
  }

  lemma {:induction false} HexPrintable(n: nat, w: nat)
    ensures forall i :: 0 <= i < |HexText(n, w)| ==> 0x30 <= HexText(n, w)[i] <= 0x46
  {
    if w > 0 {
      HexPrintable(n / 16, w - 1);
    }
  }
}
