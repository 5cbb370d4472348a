/** How long a simple key becomes (yaml/emitter.py, check_simple_key), and when the scanner still takes it for one
    (yaml/scanner.py, stale_possible_simple_keys). */
module SimpleKeys {
  import opened Options
  import opened Chars
  import opened Escapes
  import opened DoubleQuoting
  import opened ScalarAnalysis
  import opened EmitterMachine
  import opened ScalarPlaces
  import opened TokenQueue
  import opened LayoutState
  import E = Events

  lemma {:induction false} HexTextLength(n: nat, w: nat)
    ensures |HexText(n, w)| == w
  {
    if w > 0 { HexTextLength(n / 16, w - 1); }
  }

  lemma EscapedLength(allowUnicode: bool, c: Char)
    ensures c <= 0xFFFF ==> |EscapeText(c)| <= 6
    ensures c > 0xFFFF ==> |EscapeText(c)| == 10 && MustEscape(allowUnicode, c)
  {
    HexTextLength(c, 2);
    HexTextLength(c, 4);
    HexTextLength(c, 8);
  }

  lemma {:induction false} AtMostSixEach(allowUnicode: bool, t: Text)
    requires forall i :: 0 <= i < |t| ==> t[i] <= 0xFFFF
    ensures |EscapeAll(allowUnicode, t)| <= 6 * |t|
  {
    hide EscapeText;
    if t != [] {
      AtMostSixEach(allowUnicode, t[..|t| - 1]);
      EscapedLength(allowUnicode, t[|t| - 1]);
    }
  }

  lemma {:induction false} TenEach(allowUnicode: bool, t: Text)
    requires forall i :: 0 <= i < |t| ==> t[i] > 0xFFFF
    ensures |EscapeAll(allowUnicode, t)| == 10 * |t|
  {
    hide EscapeText;
    if t != [] {
      TenEach(allowUnicode, t[..|t| - 1]);
      EscapedLength(allowUnicode, t[|t| - 1]);
    }
  }

  lemma {:induction false} EscapedOnOneLine(allowUnicode: bool, t: Text)
    ensures forall i :: 0 <= i < |EscapeAll(allowUnicode, t)| ==> !IsBreak(EscapeAll(allowUnicode, t)[i])
  {
    hide EscapeText;
    if t != [] {
      EscapedOnOneLine(allowUnicode, t[..|t| - 1]);
      ReadsEscape(t[|t| - 1]);
    }
  }

  /** A double-quoted simple key is on one line, and still a possible key at the ':' behind it exactly if its text is no
      longer than 1022 characters when it is escaped, as it is if no character is outside the basic plane. */
  lemma QuotedKeyInTime(c: Config, e: E.Event, next: Option<E.Event>, allowUnicode: bool, key: SimpleKey)
    requires e.Scalar? && IsSimpleKey(c, e, next)
    ensures var w := QuotedKey(allowUnicode, e.value);
            && (forall i :: 0 <= i < |w| ==> !IsBreak(w[i]))
            && (Stale(key, key.index + |w|, key.line) <==> |EscapeAll(allowUnicode, e.value)| > 1022)
            && ((forall i :: 0 <= i < |e.value| ==> e.value[i] <= 0xFFFF) ==> !Stale(key, key.index + |w|, key.line))
  {
    EscapedOnOneLine(allowUnicode, e.value);
    if forall i :: 0 <= i < |e.value| ==> e.value[i] <= 0xFFFF { AtMostSixEach(allowUnicode, e.value); }
  }

  const ASTRAL: Text := seq(103, i => 0x10000)

  /** A key that is lost: 103 characters outside the basic plane count as 103 for the emitter, which writes them as a
      simple key, and 1032 for the scanner, which gives it up in front of the ':'. */
  lemma AstralKeyIsLost(c: Config, x: Choice, next: Option<E.Event>, flow: bool, key: SimpleKey)
    requires ChoiceOk(c, x) && !x.allowUnicode
    ensures var e := E.Scalar(None, None, true, true, ASTRAL);
            && IsSimpleKey(c, e, next) && StyleOf(c, x, e, true, flow).DoubleStyle?
            && Stale(key, key.index + |QuotedKey(x.allowUnicode, ASTRAL)|, key.line)
  {
    var e := E.Scalar(None, None, true, true, ASTRAL);
    TenEach(false, ASTRAL);
    assert IsSpecial(false, ASTRAL[0]);
    assert forall i :: 0 <= i < |ASTRAL| ==> ASTRAL[i] == 0x10000;
    assert !HasBreak(ASTRAL) && HasSpecial(false, ASTRAL);
    assert !c.multiline(ASTRAL);
  }
}
