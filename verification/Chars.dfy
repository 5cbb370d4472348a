/** Code points, the character classes the YAML emitter and scanner test for, and line breaks. */
module Chars {

  /** A Python character: any code point, surrogates included. */
  type Char = c: int | 0 <= c <= 0x10FFFF

  type Text = seq<Char>

  const NUL: Char := 0x00
  const TAB: Char := 0x09
  const LF: Char := 0x0A
  const CR: Char := 0x0D
  const SPACE: Char := 0x20
  const DQUOTE: Char := 0x22
  const HASH: Char := 0x23
  const SQUOTE: Char := 0x27
  const PLUS: Char := 0x2B
  const COMMA: Char := 0x2C
  const DASH: Char := 0x2D
  const DOT: Char := 0x2E
  const COLON: Char := 0x3A
  const GREATER: Char := 0x3E
  const QUESTION: Char := 0x3F
  const BACKSLASH: Char := 0x5C
  const BAR: Char := 0x7C
  const NEL: Char := 0x85
  const LS: Char := 0x2028
  const PS: Char := 0x2029
  const BOM: Char := 0xFEFF

  /** The scanner's line breaks: '\r\n\x85\u2028\u2029'. */
  predicate IsBreak(c: Char) {
    c == CR || c == LF || c == NEL || c == LS || c == PS
  }

  /** The emitter's line breaks: '\n\x85\u2028\u2029'. */
  predicate IsEmittedBreak(c: Char) {
    c == LF || c == NEL || c == LS || c == PS
  }

  predicate IsBlank(c: Char) {
    c == SPACE || c == TAB
  }

  /** '\0 \t\r\n\x85\u2028\u2029': what may follow an indicator. */
  predicate IsSeparation(c: Char) {
    c == NUL || IsBlank(c) || IsBreak(c)
  }

  predicate IsFlowIndicator(c: Char) {
    c == COMMA || c == QUESTION || c == 0x5B || c == 0x5D || c == 0x7B || c == 0x7D
  }

  /** What the reader accepts (its NON_PRINTABLE pattern, negated). */
  predicate IsPrintable(c: Char) {
    || c == TAB || c == LF || c == CR || 0x20 <= c <= 0x7E || c == NEL
    || 0xA0 <= c <= 0xD7FF || 0xE000 <= c <= 0xFFFD || 0x10000 <= c
  }

  function Spaces(n: nat): (t: Text)
    ensures |t| == n && forall i :: 0 <= i < n ==> t[i] == SPACE
  {
    seq(n, i => SPACE)
  }

  /** One of the line breaks an emitter can be configured with. */
  predicate IsLineBreak(lb: Text) {
    lb == [CR] || lb == [LF] || lb == [CR, LF]
  }

  /** scan_line_break: the normalised break and the text after it. */
  function LineBreak(s: Text): (r: (Text, Text))
    ensures s != [] && IsBreak(s[0]) ==> |r.1| < |s| && |r.0| == 1
    ensures s == [] || !IsBreak(s[0]) ==> r == ([], s)
  {
    if s != [] && (s[0] == CR || s[0] == LF || s[0] == NEL) then
      if |s| >= 2 && s[0] == CR && s[1] == LF then ([LF], s[2..]) else ([LF], s[1..])
    else if s != [] && (s[0] == LS || s[0] == PS) then ([s[0]], s[1..])
    else ([], s)
  }

  /** The emitter's configured break is read back as one '\n', whatever follows it, except that a
      lone CR must not be followed by LF. */
  lemma LineBreakReads(lb: Text, k: Text)
    requires IsLineBreak(lb)
    requires lb == [CR] ==> k == [] || k[0] != LF
    ensures LineBreak(lb + k) == ([LF], k)
  {
    assert (lb + k)[|lb|..] == k;
  }

  /** What the emitter writes for a break of the text: its own break for '\n', any other as it is. */
  function Broken(c: Char, lb: Text): Text { if c == LF then lb else [c] }

  /** The breaks that come back as they are; NEL comes back as '\n'. */
  predicate IsKept(c: Char) { c == LF || c == LS || c == PS }

  lemma BrokenReads(c: Char, lb: Text, k: Text)
    requires IsLineBreak(lb) && IsKept(c)
    requires lb == [CR] ==> k == [] || k[0] != LF
    ensures LineBreak(Broken(c, lb) + k) == ([c], k)
    ensures Broken(c, lb) != [] && IsBreak(Broken(c, lb)[0])
  {
    assert (Broken(c, lb) + k)[|Broken(c, lb)|..] == k;
  }

  function AllBroken(u: Text, lb: Text): Text {
    if u == [] then [] else AllBroken(u[..|u| - 1], lb) + Broken(u[|u| - 1], lb)
  }

  /** A run of breaks where a single one would be folded: one more, if it starts with '\n'. */
  function BreaksText(u: Text, lb: Text): Text
    requires u != []
  {
    (if u[0] == LF then lb else []) + AllBroken(u, lb)
  }

  lemma {:induction false} AllBrokenFront(u: Text, lb: Text)
    requires u != []
    ensures AllBroken(u, lb) == Broken(u[0], lb) + AllBroken(u[1..], lb)
  {
    if |u| == 1 {
      assert u[..0] == [] && u[1..] == [];
      assert [] + Broken(u[0], lb) == Broken(u[0], lb) + [];
    } else {
      var v := u[..|u| - 1];
      AllBrokenFront(v, lb);
      assert v[1..] == u[1..][..|u| - 2];
      assert Broken(u[0], lb) + AllBroken(v[1..], lb) + Broken(u[|u| - 1], lb)
          == Broken(u[0], lb) + (AllBroken(v[1..], lb) + Broken(u[|u| - 1], lb));
    }
  }

  /** The text after the blanks in front of it. */
  function SkipBlanks(s: Text): (t: Text)
    ensures |t| <= |s|
    ensures t != [] ==> !IsBlank(t[0])
  {
    if s != [] && IsBlank(s[0]) then SkipBlanks(s[1..]) else s
  }

  lemma {:induction false} SkipBlanksAppend(a: Text, k: Text)
    requires forall i :: 0 <= i < |a| ==> IsBlank(a[i])
    ensures SkipBlanks(a + k) == SkipBlanks(k)
  {
    if a == [] {
      assert a + k == k;
    } else {
      assert (a + k)[1..] == a[1..] + k;
      SkipBlanksAppend(a[1..], k);
    }
  }

  function SkipSpaces(s: Text): (t: Text)
    ensures |t| <= |s|
    ensures t != [] ==> t[0] != SPACE
  {
    if s != [] && s[0] == SPACE then SkipSpaces(s[1..]) else s
  }

  lemma {:induction false} SpacesSkipped(a: Text, k: Text)
    requires (forall i :: 0 <= i < |a| ==> a[i] == SPACE) && k != [] && k[0] != SPACE
    ensures SkipSpaces(a + k) == k
  {
    if a == [] {
      assert a + k == k;
    } else {
      assert (a + k)[1..] == a[1..] + k;
      SpacesSkipped(a[1..], k);
    }
  }

  lemma DropDrop(s: Text, i: nat, j: nat)
    requires i + j <= |s|
    ensures s[i..][j..] == s[i + j..]
  {
  }
}
