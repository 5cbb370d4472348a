/** What write_single_quoted and write_plain write, character by character (yaml/emitter.py). */
module FlowWriting {
  import opened Chars

  /** Within single quotes or plain; the line break, the indentation and the width, and whether lines may be split. */
  datatype Setting = Setting(single: bool, lb: Text, indent: nat, width: nat, split: bool)

  predicate IsLoneSpace(t: Text, i: nat)
    requires i < |t|
  {
    t[i] == SPACE && (i > 0 ==> t[i - 1] != SPACE) && (i + 1 < |t| ==> t[i + 1] != SPACE)
  }

  /** A space becomes a new line if it stands alone and beyond the width; within quotes not at either end. */
  predicate Folds(o: Setting, t: Text, i: nat, column: nat)
    requires i < |t|
  {
    IsLoneSpace(t, i) && column > o.width && o.split && (o.single ==> 0 < i < |t| - 1)
  }

  predicate BehindBreak(t: Text, i: nat)
    requires i <= |t|
  {
    i > 0 && IsEmittedBreak(t[i - 1])
  }

  /** What a character is written as: at the start of a run of breaks one more for a line feed, at its end the
      indentation. Within quotes the new line is already there behind a break. */
  function CharacterText(o: Setting, t: Text, i: nat, column: nat): Text
    requires i < |t|
  {
    if Folds(o, t, i, column) then
      if o.single && BehindBreak(t, i) then [] else o.lb + Spaces(o.indent)
    else if IsEmittedBreak(t[i]) then
      (if t[i] == LF && !BehindBreak(t, i) then o.lb else [])
      + Broken(t[i], o.lb)
      + (if i + 1 == |t| || !IsEmittedBreak(t[i + 1]) then Spaces(o.indent) else [])
    else if o.single && t[i] == SQUOTE then [SQUOTE, SQUOTE]
    else [t[i]]
  }

  function ColumnBehind(o: Setting, t: Text, i: nat, column: nat): nat
    requires i < |t|
  {
    if Folds(o, t, i, column) || IsEmittedBreak(t[i]) then o.indent
    else column + |CharacterText(o, t, i, column)|
  }

  /** The text from its i-th character on, written from a column on. */
  function BodyFrom(o: Setting, t: Text, i: nat, column: nat): Text
    requires i <= |t|
    decreases |t| - i
  {
    if i == |t| then []
    else CharacterText(o, t, i, column) + BodyFrom(o, t, i + 1, ColumnBehind(o, t, i, column))
  }

  // Runs of characters, as the loops write them.

  lemma {:induction false} SameRun(o: Setting, t: Text, i: nat, end: nat, column: nat)
    requires i <= end <= |t|
    requires forall j :: i <= j < end ==>
               !IsEmittedBreak(t[j]) && (o.single ==> t[j] != SQUOTE) && !IsLoneSpace(t, j)
    ensures BodyFrom(o, t, i, column) == t[i..end] + BodyFrom(o, t, end, column + (end - i))
    decreases end - i
  {
    hide BodyFrom;
    var rest := BodyFrom(o, t, end, column + (end - i));
    if i < end {
      SameRun(o, t, i + 1, end, column + 1);
      SameCharacter(o, t, i, column);
      assert t[i..end] == [t[i]] + t[i + 1..end];
      assert [t[i]] + (t[i + 1..end] + rest) == [t[i]] + t[i + 1..end] + rest;
    } else {
      assert t[i..end] == [] && [] + rest == rest;
    }
  }

  lemma SameCharacter(o: Setting, t: Text, i: nat, column: nat)
    requires i < |t| && !IsEmittedBreak(t[i]) && (o.single ==> t[i] != SQUOTE) && !IsLoneSpace(t, i)
    ensures BodyFrom(o, t, i, column) == [t[i]] + BodyFrom(o, t, i + 1, column + 1)
  {
  }

  /** A run of spaces, or a new line instead of a single one. */
  lemma SpacesWritten(o: Setting, t: Text, start: nat, end: nat, column: nat)
    requires start < end <= |t| && (forall j :: start <= j < end ==> t[j] == SPACE)
    requires (start > 0 ==> t[start - 1] != SPACE) && (end < |t| ==> t[end] != SPACE)
    ensures BodyFrom(o, t, start, column)
            == if start + 1 == end && Folds(o, t, start, column) then
                 (if o.single && BehindBreak(t, start) then [] else o.lb + Spaces(o.indent))
                 + BodyFrom(o, t, end, o.indent)
               else t[start..end] + BodyFrom(o, t, end, column + (end - start))
    ensures start + 1 == end ==> IsLoneSpace(t, start)
  {
    if start + 1 < end {
      SameRun(o, t, start, end, column);
    } else {
      assert t[start..end] == [SPACE];
    }
  }

  lemma {:induction false} BreaksWritten(o: Setting, t: Text, i: nat, end: nat, column: nat)
    requires i < end <= |t| && (forall j :: i <= j < end ==> IsEmittedBreak(t[j]))
    requires end < |t| ==> !IsEmittedBreak(t[end])
    ensures BodyFrom(o, t, i, column)
            == (if t[i] == LF && !BehindBreak(t, i) then o.lb else [])
               + AllBroken(t[i..end], o.lb) + Spaces(o.indent) + BodyFrom(o, t, end, o.indent)
    decreases end - i
  {
    hide BodyFrom, AllBroken;
    var u := t[i..end];
    AllBrokenFront(u, o.lb);
    assert u[0] == t[i] && u[1..] == t[i + 1..end];
    BreakStep(o, t, i, column);
    var first := if t[i] == LF && !BehindBreak(t, i) then o.lb else [];
    var broken, rest := Broken(t[i], o.lb), BodyFrom(o, t, end, o.indent);
    if i + 1 < end {
      BreaksWritten(o, t, i + 1, end, o.indent);
      Regroup(first, broken, AllBroken(u[1..], o.lb), Spaces(o.indent), rest);
    } else {
      NoBreaks(u[1..], o.lb);
      Regroup(first, broken, [], Spaces(o.indent), rest);
    }
  }

  lemma BreakStep(o: Setting, t: Text, i: nat, column: nat)
    requires i < |t| && IsEmittedBreak(t[i])
    ensures var last := i + 1 == |t| || !IsEmittedBreak(t[i + 1]);
            BodyFrom(o, t, i, column)
            == (if t[i] == LF && !BehindBreak(t, i) then o.lb else []) + Broken(t[i], o.lb)
               + (if last then Spaces(o.indent) else []) + BodyFrom(o, t, i + 1, o.indent)
  {
  }

  lemma NoBreaks(u: Text, lb: Text)
    requires u == []
    ensures AllBroken(u, lb) == []
  {
  }

  lemma Regroup(first: Text, broken: Text, others: Text, spaces: Text, rest: Text)
    ensures first + broken + [] + ([] + others + spaces + rest) == first + (broken + others) + spaces + rest
    ensures first + broken + spaces + rest == first + (broken + []) + spaces + rest
  {
  }
}
