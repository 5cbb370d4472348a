/** The scanner's possible simple keys and indentations are what the layout rules say, and how each lexeme changes
    them. */
module LayoutState {
  import opened TokenLayout
  import opened TokenNesting
  import opened TokenQueue

  // Keys.

  /** A key is given up on another line, and more than 1024 characters behind its start. */
  predicate Stale(key: SimpleKey, index: nat, line: nat) { key.line != line || index - key.index > 1024 }

  ghost predicate KeyIs(key: SimpleKey, l: seq<Lexeme>, k: nat)
    requires k < |l|
  {
    && key.index == l[k].start.index && key.line == l[k].start.line && key.column == l[k].start.column
    && key.required == Required(l, k)
  }

  ghost predicate KeyFrom(key: SimpleKey, level: int, l: seq<Lexeme>, k: nat, n: nat)
    requires k < n <= |l|
  {
    Waiting(l, k, n) && Depth(l, k) == level && KeyIs(key, l, k)
  }

  ghost predicate IsWaiting(key: SimpleKey, level: int, l: seq<Lexeme>, n: nat)
    requires n <= |l|
  {
    exists k: nat :: k < n && KeyFrom(key, level, l, k, n)
  }

  /** Every possible key is one that waits. */
  ghost predicate KeysKnown(keys: map<int, SimpleKey>, l: seq<Lexeme>, n: nat)
    requires n <= |l|
  {
    forall level <- keys :: IsWaiting(keys[level], level, l, n)
  }

  /** Every key that waits and is required or near is a possible key. */
  ghost predicate KeysKept(keys: map<int, SimpleKey>, l: seq<Lexeme>, n: nat, at: Position)
    requires n <= |l|
  {
    forall k: nat :: k < n && Waiting(l, k, n) && (Required(l, k) || Near(l[k].start, at)) ==> Depth(l, k) in keys
  }

  ghost predicate KeysNear(keys: map<int, SimpleKey>, at: Position) {
    forall level <- keys :: !Stale(keys[level], at.index, at.line)
  }

  ghost predicate StalesDropped(keys: map<int, SimpleKey>, keys': map<int, SimpleKey>, at: Position) {
    && (forall level :: level in keys' <==> level in keys && !Stale(keys[level], at.index, at.line))
    && (forall level <- keys' :: keys'[level] == keys[level])
  }

  ghost predicate NoRequiredStale(keys: map<int, SimpleKey>, at: Position) {
    forall level <- keys :: keys[level].required ==> !Stale(keys[level], at.index, at.line)
  }

  /** The key of a level is the one that waits there. */
  lemma KeyThere(keys: map<int, SimpleKey>, l: seq<Lexeme>, k: nat, n: nat)
    requires k < n <= |l| && KeysKnown(keys, l, n) && Waiting(l, k, n) && Depth(l, k) in keys
    ensures KeyIs(keys[Depth(l, k)], l, k)
  {
    hide Waiting, KeyIs, Depth;
    var j: nat :| j < n && KeyFrom(keys[Depth(l, k)], Depth(l, k), l, j, n);
    WaitingOnce(l, j, k, n);
  }

  /** Keys that are too far away are dropped, in front of the next lexeme or before it is looked at. */
  lemma KeysStaled(keys: map<int, SimpleKey>, keys': map<int, SimpleKey>, l: seq<Lexeme>, n: nat, from: Position,
                   at: Position)
    requires n <= |l| && KeysKnown(keys, l, n) && KeysKept(keys, l, n, from) && NotBefore(from, at)
    requires forall k: nat :: k < n ==> NotBefore(l[k].start, from)
    requires StalesDropped(keys, keys', at) && NoRequiredStale(keys, at)
    ensures KeysKnown(keys', l, n) && KeysKept(keys', l, n, at) && KeysNear(keys', at)
  {
    hide Waiting, Depth, Required;
    forall k: nat | k < n && Waiting(l, k, n) && (Required(l, k) || Near(l[k].start, at)) ensures Depth(l, k) in keys' {
      if Near(l[k].start, at) { NearEarlier(l[k].start, from, at); }
      KeyThere(keys, l, k, n);
    }
  }

  /** A required key is too far away exactly if one that waits is. */
  lemma StaleIsMissed(keys: map<int, SimpleKey>, l: seq<Lexeme>, n: nat, from: Position, at: Position)
    requires n <= |l| && KeysKnown(keys, l, n) && KeysKept(keys, l, n, from)
    ensures NoRequiredStale(keys, at)
            <==> forall k: nat :: k < n && Waiting(l, k, n) && Required(l, k) ==> Near(l[k].start, at)
  {
    hide Waiting, Depth, Required;
    if NoRequiredStale(keys, at) {
      forall k: nat | k < n && Waiting(l, k, n) && Required(l, k) ensures Near(l[k].start, at) {
        KeyThere(keys, l, k, n);
      }
    } else {
      var level :| level in keys && keys[level].required && Stale(keys[level], at.index, at.line);
      var k: nat :| k < n && KeyFrom(keys[level], level, l, k, n);
      assert Waiting(l, k, n) && Required(l, k) && !Near(l[k].start, at);
    }
  }

  /** At a ':' a key of its level is there exactly if it has a simple key, which is that one. */
  lemma ValueKey(keys: map<int, SimpleKey>, l: seq<Lexeme>, n: nat)
    requires n < |l| && l[n].lex.LValue? && KeysKnown(keys, l, n) && KeysKept(keys, l, n, l[n].start)
    requires KeysNear(keys, l[n].start)
    ensures Depth(l, n) in keys <==> HasKey(l, n)
    ensures forall k: nat :: k < n && IsKeyOf(l, k, n) ==> Depth(l, n) in keys && KeyIs(keys[Depth(l, n)], l, k)
    ensures Depth(l, n) in keys ==> exists k: nat :: k < n && IsKeyOf(l, k, n) && KeyIs(keys[Depth(l, n)], l, k)
  {
    hide Waiting, Depth, Required;
    forall k: nat | k < n && IsKeyOf(l, k, n) ensures Depth(l, n) in keys && KeyIs(keys[Depth(l, n)], l, k) {
      KeyThere(keys, l, k, n);
    }
    if Depth(l, n) in keys {
      var k: nat :| k < n && KeyFrom(keys[Depth(l, n)], Depth(l, n), l, k, n);
      assert IsKeyOf(l, k, n);
    }
  }

  /** The key that the n-th lexeme drops or gives up is required exactly if that is a mistake. */
  lemma DropIsMissed(keys: map<int, SimpleKey>, l: seq<Lexeme>, n: nat)
    requires n < |l| && KeysKnown(keys, l, n) && KeysKept(keys, l, n, l[n].start)
    requires forall k: nat :: k < n && Waiting(l, k, n) && Required(l, k) ==> Near(l[k].start, l[n].start)
    ensures KeyMissed(l, n) <==> Drops(l, n) && Depth(l, n) in keys && keys[Depth(l, n)].required
  {
    hide Waiting, Depth, Required, Drops;
    if Drops(l, n) && Depth(l, n) in keys && keys[Depth(l, n)].required {
      var k: nat :| k < n && KeyFrom(keys[Depth(l, n)], Depth(l, n), l, k, n);
      assert Waiting(l, k, n) && Required(l, k);
    }
    if KeyMissed(l, n) {
      var k: nat :| k < n && Waiting(l, k, n) && Required(l, k)
                    && (!Near(l[k].start, l[n].start) || (Depth(l, k) == Depth(l, n) && Drops(l, n)));
      KeyThere(keys, l, k, n);
    }
  }

  /** The keys behind the n-th lexeme. */
  function KeysAfter(keys: map<int, SimpleKey>, x: Lex, level: int, allowed: bool, here: SimpleKey): map<int, SimpleKey>
  {
    if !CanBeKey(x) then keys - {level} else if allowed then keys[level := here] else keys
  }

  lemma KeysFetched(keys: map<int, SimpleKey>, l: seq<Lexeme>, n: nat, here: SimpleKey)
    requires IsText(l) && n < |l| && KeysKnown(keys, l, n) && KeysKept(keys, l, n, l[n].start) && KeyIs(here, l, n)
    requires !KeyMissed(l, n)
    ensures
      var after := KeysAfter(keys, l[n].lex, Depth(l, n), MayStart(l, n), here);
      KeysKnown(after, l, n + 1) && KeysKept(after, l, n + 1, EndOf(l, n + 1))
  {
    hide Waiting, Required, MayStart, KeyIs, HasKey, KeyMissed, IsWaiting, Depth, Near;
    var after := KeysAfter(keys, l[n].lex, Depth(l, n), MayStart(l, n), here);
    WaitingHere(l, n);
    forall level <- after ensures IsWaiting(after[level], level, l, n + 1) {
      if CanBeKey(l[n].lex) && MayStart(l, n) && level == Depth(l, n) {
        KeyStartsHere(here, l, n);
      } else {
        KeyGoesOn(keys[level], level, l, n);
      }
    }
    forall k: nat | k < n + 1 && Waiting(l, k, n + 1) && (Required(l, k) || Near(l[k].start, EndOf(l, n + 1)))
      ensures Depth(l, k) in after
    {
      if k < n { KeyKept(keys, l, k, n); }
    }
  }

  /** A key that goes on waiting was a possible key, and its level is not given up. */
  lemma KeyKept(keys: map<int, SimpleKey>, l: seq<Lexeme>, k: nat, n: nat)
    requires IsText(l) && k < n < |l| && KeysKept(keys, l, n, l[n].start) && Waiting(l, k, n + 1)
    requires Required(l, k) || Near(l[k].start, EndOf(l, n + 1))
    ensures Depth(l, k) in keys
    ensures Depth(l, k) != Depth(l, n) || (CanBeKey(l[n].lex) && !MayStart(l, n))
  {
    hide Waiting, Required, MayStart, Depth, Near;
    WaitingStep(l, k, n);
    WentOn(l, k, n);
  }

  lemma KeyStartsHere(here: SimpleKey, l: seq<Lexeme>, n: nat)
    requires n < |l| && Waiting(l, n, n + 1) && KeyIs(here, l, n)
    ensures IsWaiting(here, Depth(l, n), l, n + 1)
  {
    assert KeyFrom(here, Depth(l, n), l, n, n + 1);
  }

  lemma KeyGoesOn(key: SimpleKey, level: int, l: seq<Lexeme>, n: nat)
    requires n < |l| && IsWaiting(key, level, l, n)
    requires level != Depth(l, n) || (CanBeKey(l[n].lex) && !MayStart(l, n))
    ensures IsWaiting(key, level, l, n + 1)
  {
    hide Waiting, Required, MayStart, KeyIs;
    var k: nat :| k < n && KeyFrom(key, level, l, k, n);
    StaysWaiting(l, k, n);
    assert KeyFrom(key, level, l, k, n + 1);
  }

  /** A key that waits goes on waiting if the lexeme is deeper, or on its level and does not end it. */
  lemma StaysWaiting(l: seq<Lexeme>, k: nat, n: nat)
    requires k < n < |l| && Waiting(l, k, n)
    requires Depth(l, k) != Depth(l, n) || (CanBeKey(l[n].lex) && !MayStart(l, n))
    ensures Waiting(l, k, n + 1)
  {
    hide MayStart;
    WaitingStep(l, k, n);
  }

  lemma WentOn(l: seq<Lexeme>, k: nat, n: nat)
    requires IsText(l) && k < n < |l| && Waiting(l, k, n) && GoesOn(l, k, n)
    ensures Near(l[k].start, EndOf(l, n + 1)) ==> Near(l[k].start, l[n].start)
    ensures Depth(l, k) != Depth(l, n) || (CanBeKey(l[n].lex) && !MayStart(l, n))
  {
    hide MayStart, Waiting;
    OrderedTo(l, k, n);
    assert InOrder(l, n);
  }

  // Blocks.

  /** The columns on the stack are those of the open blocks. */
  ghost predicate StackIs(blocks: seq<int>, l: seq<Lexeme>, n: nat)
    requires n <= |l|
  {
    forall column: nat :: column in blocks <==> BlockOpen(l, column, n)
  }

  /** The n-th lexeme opens a block at the column, or its simple key does. */
  ghost predicate OpensAt(l: seq<Lexeme>, n: nat, column: nat)
    requires n < |l|
  {
    && Depth(l, n) == 0
    && (((l[n].lex.LBlockEntry? || l[n].lex.LKey? || (l[n].lex.LValue? && !HasKey(l, n)))
         && l[n].start.column == column)
        || exists k: nat :: k < n && IsKeyOf(l, k, n) && l[k].start.column == column)
  }

  lemma BlockStep(l: seq<Lexeme>, column: nat, n: nat)
    requires IsText(l) && n < |l|
    ensures BlockOpen(l, column, n + 1)
            <==> (BlockOpen(l, column, n) && (Depth(l, n) == 0 ==> column <= ColumnOf(l[n]))) || OpensAt(l, n, column)
  {
    hide HasKey, IsKeyOf, Depth;
    if BlockOpen(l, column, n + 1) {
      var o: nat :| o < n + 1 && Opens(l, o, column, n + 1) && StandsDeeper(l, o, column, n + 1);
      if o < n {
        BlockBefore(l, o, column, n);
      }
    }
    if BlockOpen(l, column, n) && (Depth(l, n) == 0 ==> column <= ColumnOf(l[n])) {
      var o: nat :| o < n && Opens(l, o, column, n) && StandsDeeper(l, o, column, n);
      assert Opens(l, o, column, n + 1) && StandsDeeper(l, o, column, n + 1);
    }
    if OpensAt(l, n, column) { BlockHere(l, column, n); }
  }

  lemma BlockBefore(l: seq<Lexeme>, o: nat, column: nat, n: nat)
    requires o < n < |l| && Opens(l, o, column, n + 1) && StandsDeeper(l, o, column, n + 1)
    ensures (BlockOpen(l, column, n) && (Depth(l, n) == 0 ==> column <= ColumnOf(l[n]))) || OpensAt(l, n, column)
  {
    hide HasKey, Depth;
    if IsSimpleKey(l, o, n + 1) && !IsSimpleKey(l, o, n) {
      var v: nat :| o < v < n + 1 && IsKeyOf(l, o, v);
      assert v == n;
    }
    assert StandsDeeper(l, o, column, n);
  }

  lemma BlockHere(l: seq<Lexeme>, column: nat, n: nat)
    requires IsText(l) && n < |l| && OpensAt(l, n, column)
    ensures BlockOpen(l, column, n + 1)
  {
    hide HasKey, Depth, IsKeyOf;
    if exists k: nat :: k < n && IsKeyOf(l, k, n) && l[k].start.column == column {
      var k: nat :| k < n && IsKeyOf(l, k, n) && l[k].start.column == column;
      KeyStarted(l, k, n);
      KeyLine(l, k, n);
      assert IsSimpleKey(l, k, n + 1);
      assert Opens(l, k, column, n + 1) && StandsDeeper(l, k, column, n + 1);
    } else {
      assert Opens(l, n, column, n + 1) && StandsDeeper(l, n, column, n + 1);
    }
  }

  /** What stands behind a key that waits stands on its line, and so does what is next. */
  lemma KeyLine(l: seq<Lexeme>, k: nat, n: nat)
    requires IsText(l) && k < n < |l| && Waiting(l, k, n) && Depth(l, k) == Depth(l, n) == 0
    requires l[k].start.line == l[n].start.line
    ensures ColumnOf(l[k]) == l[k].start.column <= l[n].start.column
    ensures forall j: nat :: k < j < n && Depth(l, j) == 0 ==> l[k].start.column <= ColumnOf(l[j])
  {
    hide Depth, MayStart, Waiting;
    WaitingParts(l, k, n);
    OrderedTo(l, k, n);
    forall j: nat | k < j < n && Depth(l, j) == 0 ensures l[k].start.column <= ColumnOf(l[j]) {
      OrderedTo(l, k, j);
      OrderedTo(l, j, n);
    }
  }

  /** A key that waits, and its further parts. */
  lemma WaitingParts(l: seq<Lexeme>, k: nat, n: nat)
    requires k < n <= |l| && Waiting(l, k, n)
    ensures CanBeKey(l[k].lex) && MayStart(l, k)
    ensures forall j: nat :: k < j < n && Depth(l, j) == Depth(l, k) ==> CanBeKey(l[j].lex) && !MayStart(l, j)
  {
    hide Depth, MayStart;
    forall j: nat | k < j < n && Depth(l, j) == Depth(l, k) ensures CanBeKey(l[j].lex) && !MayStart(l, j) {
      assert GoesOn(l, k, j);
    }
  }

  /** Outside brackets no block is deeper than a key that waits. */
  lemma NoDeeperBlock(l: seq<Lexeme>, k: nat, n: nat, column: nat)
    requires k < n <= |l| && Waiting(l, k, n) && Depth(l, k) == 0 && BlockOpen(l, column, n)
    ensures column <= l[k].start.column
  {
    hide Depth, MayStart, HasKey;
    var o: nat :| o < n && Opens(l, o, column, n) && StandsDeeper(l, o, column, n);
    if o < k {
      assert ColumnOf(l[k]) == l[k].start.column;
    } else if k < o {
      assert GoesOn(l, k, o);
      NoKeyInside(l, o, n);
    }
  }

  lemma NoKeyInside(l: seq<Lexeme>, o: nat, n: nat)
    requires o < n <= |l| && !MayStart(l, o)
    ensures !IsSimpleKey(l, o, n)
  {
    hide MayStart;
    if IsSimpleKey(l, o, n) {
      var v: nat :| o < v < n && IsKeyOf(l, o, v);
      KeyStarted(l, o, v);
    }
  }

  lemma KeyStarted(l: seq<Lexeme>, k: nat, v: nat)
    requires k < v < |l| && IsKeyOf(l, k, v)
    ensures Waiting(l, k, v) && MayStart(l, k) && l[v].lex.LValue? && Depth(l, k) == Depth(l, v)
    ensures l[k].start.line == l[v].start.line
  {
  }

  /** Outside brackets, a block is open at the column of a key that waits on the line exactly if it was open at the
      key. */
  lemma StillOpen(l: seq<Lexeme>, k: nat, n: nat)
    requires IsText(l) && k < n < |l| && Waiting(l, k, n) && Depth(l, k) == Depth(l, n) == 0
    requires l[k].start.line == l[n].start.line
    ensures BlockOpen(l, l[k].start.column, n) <==> Required(l, k)
  {
    hide Depth, MayStart, HasKey;
    var column := l[k].start.column;
    if BlockOpen(l, column, n) {
      var o: nat :| o < n && Opens(l, o, column, n) && StandsDeeper(l, o, column, n);
      if k <= o {
        WaitingParts(l, k, n);
        NoKeyYet(l, k, o, n);
      } else {
        if IsSimpleKey(l, o, n) { OpenedBefore(l, o, k, n); }
        assert Opens(l, o, column, k) && StandsDeeper(l, o, column, k);
      }
    }
    if Required(l, k) {
      var o: nat :| o < k && Opens(l, o, column, k) && StandsDeeper(l, o, column, k);
      KeyLine(l, k, n);
      assert ColumnOf(l[k]) == column;
      assert Opens(l, o, column, n) && StandsDeeper(l, o, column, n);
    }
  }

  /** Of what stands from a waiting key on, nothing is a simple key yet. */
  lemma NoKeyYet(l: seq<Lexeme>, k: nat, o: nat, n: nat)
    requires k <= o < n <= |l| && Waiting(l, k, n) && Depth(l, k) == Depth(l, o) == 0
    ensures !IsSimpleKey(l, o, n)
  {
    hide Depth, MayStart, HasKey, Waiting, IsKeyOf;
    if IsSimpleKey(l, o, n) {
      var v: nat :| o < v < n && IsKeyOf(l, o, v);
      KeyStarted(l, o, v);
      WaitingParts(l, k, n);
    }
  }

  /** A simple key in front of a waiting key got its ':' in front of it. */
  lemma OpenedBefore(l: seq<Lexeme>, o: nat, k: nat, n: nat)
    requires o < k < n <= |l| && Waiting(l, k, n) && Depth(l, o) == Depth(l, k) == 0 && IsSimpleKey(l, o, n)
    ensures IsSimpleKey(l, o, k)
  {
    hide Depth, MayStart, HasKey, Waiting, IsKeyOf;
    var v: nat :| o < v < n && IsKeyOf(l, o, v);
    KeyStarted(l, o, v);
    WaitingParts(l, k, n);
    WaitingParts(l, o, v);
  }

  // The tokens added.

  ghost function Marks(s: seq<Token>): set<Token> { set t | t in s && (t.kind.Key? || IsBlockStart(t.kind)) }

  lemma MarksMore(a: seq<Token>, b: seq<Token>)
    ensures Marks(a + b) == Marks(a) + Marks(b)
  {
  }

  ghost predicate IsNewStart(l: seq<Lexeme>, k: nat, n: nat)
    requires k < n < |l|
  {
    IsKeyOf(l, k, n) && Depth(l, k) == 0 && !Required(l, k)
  }

  ghost predicate StartsHere(l: seq<Lexeme>, n: nat)
    requires n < |l|
  {
    && Depth(l, n) == 0 && !Required(l, n)
    && (l[n].lex.LBlockEntry? || l[n].lex.LKey? || (l[n].lex.LValue? && !HasKey(l, n)))
  }

  /** What the n-th lexeme adds: the signs of its simple key, or its own. */
  ghost function NewSigns(l: seq<Lexeme>, n: nat): set<Token>
    requires n < |l|
  {
    (set k: nat | k < n && IsKeyOf(l, k, n) :: SignAt(Key, l[k]))
    + (set k: nat | k < n && IsNewStart(l, k, n) :: SignAt(BlockMappingStart, l[k]))
    + (if l[n].lex.LKey? then {SignAt(Key, l[n])} else {})
    + (if StartsHere(l, n) then {SignAt(StartKind(l[n].lex), l[n])} else {})
  }

  lemma SimpleKeyStep(l: seq<Lexeme>, k: nat, n: nat)
    requires k < n < |l|
    ensures IsSimpleKey(l, k, n + 1) <==> IsSimpleKey(l, k, n) || IsKeyOf(l, k, n)
    ensures HasSign(l, k, n + 1) <==> HasSign(l, k, n) || IsKeyOf(l, k, n)
    ensures StartsBlock(l, k, n + 1) <==> StartsBlock(l, k, n) || IsNewStart(l, k, n)
    ensures IsKeyOf(l, k, n) ==> !l[k].lex.LBlockEntry?
  {
    hide Depth, Required, MayStart, HasKey;
    if IsSimpleKey(l, k, n + 1) {
      var v: nat :| k < v < n + 1 && IsKeyOf(l, k, v);
    }
    if IsSimpleKey(l, k, n) {
      var v: nat :| k < v < n && IsKeyOf(l, k, v);
    }
  }

  lemma SignHere(l: seq<Lexeme>, n: nat)
    requires n < |l|
    ensures HasSign(l, n, n + 1) <==> l[n].lex.LKey?
    ensures StartsBlock(l, n, n + 1) <==> StartsHere(l, n)
  {
  }

  lemma SignsStep(l: seq<Lexeme>, n: nat)
    requires n < |l|
    ensures Signs(l, n + 1) == Signs(l, n) + NewSigns(l, n)
  {
    hide HasSign, StartsBlock, StartsHere, IsNewStart, IsKeyOf, Depth;
    SignHere(l, n);
    forall k: nat | k < n
      ensures HasSign(l, k, n + 1) <==> HasSign(l, k, n) || IsKeyOf(l, k, n)
      ensures StartsBlock(l, k, n + 1) <==> StartsBlock(l, k, n) || IsNewStart(l, k, n)
      ensures IsKeyOf(l, k, n) || IsNewStart(l, k, n) ==> !l[k].lex.LBlockEntry?
    {
      SimpleKeyStep(l, k, n);
      NewStartIsKey(l, k, n);
    }
    forall t ensures t in Signs(l, n + 1) <==> t in Signs(l, n) + NewSigns(l, n) {
      SignStep(l, n, t);
    }
  }

  lemma NewStartIsKey(l: seq<Lexeme>, k: nat, n: nat)
    requires k < n < |l|
    ensures IsNewStart(l, k, n) ==> IsKeyOf(l, k, n)
  {
  }

  lemma SignStep(l: seq<Lexeme>, n: nat, t: Token)
    requires n < |l|
    requires HasSign(l, n, n + 1) <==> l[n].lex.LKey?
    requires StartsBlock(l, n, n + 1) <==> StartsHere(l, n)
    requires forall k: nat :: k < n ==> (HasSign(l, k, n + 1) <==> HasSign(l, k, n) || IsKeyOf(l, k, n))
    requires forall k: nat :: k < n ==> (StartsBlock(l, k, n + 1) <==> StartsBlock(l, k, n) || IsNewStart(l, k, n))
    requires forall k: nat :: k < n && IsNewStart(l, k, n) ==> !l[k].lex.LBlockEntry?
    ensures t in Signs(l, n + 1) <==> t in Signs(l, n) + NewSigns(l, n)
  {
    hide HasSign, StartsBlock, StartsHere, IsNewStart, IsKeyOf, Depth;
  }

  // The state as a whole.

  /** The scanner's state with its stream is what the first n lexemes make of it, seen from a position behind them. */
  ghost predicate Agrees(q: Queue, l: seq<Lexeme>, n: nat, at: Position)
    requires n <= |l|
  {
    && q.flow == Depth(l, n) && KeysKnown(q.keys, l, n) && KeysKept(q.keys, l, n, at)
    && StackIs(q.blocks, l, n) && Marks(q.Stream()) == Signs(l, n)
  }

  lemma SameAgrees(q: Queue, q': Queue, l: seq<Lexeme>, n: nat, at: Position)
    requires n <= |l| && q'.flow == q.flow && q'.keys == q.keys && q'.blocks == q.blocks && q'.Stream() == q.Stream()
    ensures Agrees(q', l, n, at) <==> Agrees(q, l, n, at)
  {
  }

  /** A required key that is given up before the next lexeme is looked at is missed there. */
  lemma LateIsMistake(q: Queue, l: seq<Lexeme>, n: nat)
    requires IsText(l) && n < |l| && Agrees(q, l, n, EndOf(l, n)) && !NoRequiredStale(q.keys, EndOf(l, n))
    ensures Mistake(l, n)
  {
    hide Waiting, Depth, Required, MayStart, BlockOpen, Signs, Marks;
    StaleIsMissed(q.keys, l, n, EndOf(l, n), EndOf(l, n));
    var k: nat :| k < n && Waiting(l, k, n) && Required(l, k) && !Near(l[k].start, EndOf(l, n));
    OrderedTo(l, k, n);
    assert InOrder(l, n);
    if Near(l[k].start, l[n].start) { NearEarlier(l[k].start, EndOf(l, n), l[n].start); }
  }

  lemma StaledAgrees(q: Queue, q': Queue, l: seq<Lexeme>, n: nat, from: Position, at: Position)
    requires IsText(l) && n <= |l| && Agrees(q, l, n, from) && NotBefore(from, at) && from == EndOf(l, n)
    requires q'.flow == q.flow && q'.blocks == q.blocks && q'.Stream() == q.Stream()
    requires StalesDropped(q.keys, q'.keys, at) && NoRequiredStale(q.keys, at)
    ensures Agrees(q', l, n, at) && KeysNear(q'.keys, at)
  {
    hide Waiting, Depth, Required, BlockOpen, Signs, Marks;
    forall k: nat | k < n ensures NotBefore(l[k].start, from) { OrderedTo(l, k, n); }
    KeysStaled(q.keys, q'.keys, l, n, from, at);
  }

  /** The required keys that wait are not too far away for the n-th lexeme. */
  ghost predicate AllNear(l: seq<Lexeme>, n: nat)
    requires n < |l|
  {
    forall k: nat :: k < n && Waiting(l, k, n) && Required(l, k) ==> Near(l[k].start, l[n].start)
  }

  /** In front of a lexeme, a required key is too far away only if that is a mistake. */
  lemma StaleIsMistake(q: Queue, l: seq<Lexeme>, n: nat)
    requires n < |l| && Agrees(q, l, n, EndOf(l, n))
    ensures NoRequiredStale(q.keys, l[n].start) <==> AllNear(l, n)
    ensures !NoRequiredStale(q.keys, l[n].start) ==> Mistake(l, n)
  {
    hide Waiting, Depth, Required, MayStart, BlockOpen, Signs, Marks;
    StaleIsMissed(q.keys, l, n, EndOf(l, n), l[n].start);
  }

  /** Outside brackets, a key that is possible and no further away than the line allows: nothing but a part of the key
      or its ':' may follow, and no block is deeper than the key. */
  lemma KeyOutside(q: Queue, l: seq<Lexeme>, n: nat)
    requires IsText(l) && n < |l| && Agrees(q, l, n, l[n].start) && KeysNear(q.keys, l[n].start)
    requires q.flow == 0 && 0 in q.keys
    ensures !MayStart(l, n) && q.keys[0].column <= l[n].start.column
    ensures q.keys[0].required <==> q.keys[0].column in q.blocks
    ensures forall column: nat :: column in q.blocks ==> column <= q.keys[0].column
  {
    hide Waiting, Depth, MayStart, Required, BlockOpen;
    var k: nat :| k < n && KeyFrom(q.keys[0], 0, l, k, n);
    OrderedTo(l, k, n);
    WaitingForbids(l, k, n);
    StillOpen(l, k, n);
    forall column: nat | column in q.blocks ensures column <= q.keys[0].column {
      NoDeeperBlock(l, k, n, column);
    }
  }

  /** The blocks a lexeme ends by where it stands. */
  ghost predicate Unwound(before: seq<int>, after: seq<int>, level: int, column: nat) {
    forall c: nat :: c in after <==> c in before && (level == 0 ==> c <= column)
  }

  /** A lexeme opens a block at the column c, if none is open there. */
  ghost predicate OpensBlock(x: Lex, level: int, keys: map<int, SimpleKey>, column: nat, c: nat) {
    level == 0
    && if x.LValue? && 0 in keys then c == keys[0].column
       else (x.LBlockEntry? || x.LKey? || x.LValue?) && c == column
  }

  ghost predicate BlocksAfter(x: Lex, level: int, keys: map<int, SimpleKey>, column: nat, before: seq<int>,
                              after: seq<int>) {
    forall c: nat :: c in after <==>
        (c in before && !(IsMargin(x) && level == 0)) || OpensBlock(x, level, keys, column, c)
  }

  /** The KEY and the start of a block that a lexeme brings. */
  function SignsOf(x: Lex, level: int, keys: map<int, SimpleKey>, here: SimpleKey): set<Token> {
    if x.LValue? && level in keys then
      var key := keys[level];
      {Token(Key, key.index, key.column)}
      + if level == 0 && !key.required then {Token(BlockMappingStart, key.index, key.column)} else {}
    else
      (if x.LKey? then {Token(Key, here.index, here.column)} else {})
      + if level == 0 && !here.required && (x.LBlockEntry? || x.LKey? || x.LValue?)
        then {Token(StartKind(x), here.index, here.column)} else {}
  }

  /** Whether a simple key may follow what is fetched. */
  predicate AllowsKey(l: Lexeme, level: int, wasKey: bool) {
    match l.lex
    case LFlowSequenceStart | LFlowMappingStart | LFlowEntry | LBlockEntry | LBlockScalar => true
    case LKey => level == 0
    case LValue => level == 0 && !wasKey
    case LPlain => l.newLine
    case _ => false
  }

  /** A lexeme is refused: it drops a required key, or no entry may start where it stands. */
  predicate Refused(x: Lex, level: int, keys: map<int, SimpleKey>, allowed: bool) {
    || (!x.LValue? && !(CanBeKey(x) && !allowed) && level in keys && keys[level].required)
    || (level == 0 && !allowed && (x.LBlockEntry? || x.LKey? || (x.LValue? && level !in keys)))
  }

  lemma RefusedIsMistake(q: Queue, l: seq<Lexeme>, n: nat)
    requires n < |l| && Agrees(q, l, n, l[n].start) && KeysNear(q.keys, l[n].start)
    requires AllNear(l, n)
    ensures Refused(l[n].lex, q.flow, q.keys, MayStart(l, n)) <==> Mistake(l, n)
  {
    hide Waiting, Depth, Required, MayStart, HasKey, KeyMissed, BlockOpen, KeysKnown, KeysKept, KeysNear, Signs;
    DropIsMissed(q.keys, l, n);
    if l[n].lex.LValue? { ValueKey(q.keys, l, n); }
  }

  /** One lexeme further. */
  lemma AgreesNext(q: Queue, q': Queue, l: seq<Lexeme>, n: nat, blocks: seq<int>, here: SimpleKey)
    requires IsText(l) && n < |l| && Agrees(q, l, n, l[n].start) && KeysNear(q.keys, l[n].start)
    requires KeyIs(here, l, n) && !Mistake(l, n) && Unwound(q.blocks, blocks, q.flow, l[n].start.column)
    requires q'.flow == q.flow + FlowStep(KindOf(l[n].lex))
    requires q'.keys == KeysAfter(q.keys, l[n].lex, q.flow, MayStart(l, n), here)
    requires BlocksAfter(l[n].lex, q.flow, q.keys, l[n].start.column, blocks, q'.blocks)
    requires Marks(q'.Stream()) == Marks(q.Stream()) + SignsOf(l[n].lex, q.flow, q.keys, here)
    ensures Agrees(q', l, n + 1, EndOf(l, n + 1)) && Marks(q'.Stream()) == Signs(l, n + 1)
    ensures AllowedBehind(l, n + 1) <==> AllowsKey(l[n], q.flow, q.flow in q.keys)
  {
    hide Waiting, Required, MayStart, HasKey, KeyMissed, BlockOpen, KeyIs, IsKeyOf, Marks, Signs;
    hide Queue.Stream;
    KeysFetched(q.keys, l, n, here);
    SignsNext(q, l, n, here);
    BlocksNext(q, q'.blocks, l, n, blocks);
    if l[n].lex.LValue? { ValueKey(q.keys, l, n); }
  }

  lemma SignsNext(q: Queue, l: seq<Lexeme>, n: nat, here: SimpleKey)
    requires n < |l| && Agrees(q, l, n, l[n].start) && KeysNear(q.keys, l[n].start) && KeyIs(here, l, n)
    ensures Signs(l, n + 1) == Signs(l, n) + SignsOf(l[n].lex, q.flow, q.keys, here)
  {
    hide Waiting, Depth, Required, MayStart, BlockOpen, Signs, Marks, KeysKnown, KeysKept, KeysNear, StackIs;
    SignsStep(l, n);
    if l[n].lex.LValue? {
      ValueKey(q.keys, l, n);
      if q.flow in q.keys {
        var k: nat :| k < n && IsKeyOf(l, k, n) && KeyIs(q.keys[q.flow], l, k);
        OnlyKey(l, k, n);
      }
    }
  }

  lemma OnlyKey(l: seq<Lexeme>, k: nat, n: nat)
    requires k < n < |l| && IsKeyOf(l, k, n)
    ensures forall j: nat :: j < n && IsKeyOf(l, j, n) ==> j == k
  {
    hide Waiting, Depth;
    forall j: nat | j < n && IsKeyOf(l, j, n) ensures j == k { WaitingOnce(l, j, k, n); }
  }

  lemma BlocksNext(q: Queue, after: seq<int>, l: seq<Lexeme>, n: nat, blocks: seq<int>)
    requires IsText(l) && n < |l| && Agrees(q, l, n, l[n].start) && KeysNear(q.keys, l[n].start)
    requires Unwound(q.blocks, blocks, q.flow, l[n].start.column)
    requires BlocksAfter(l[n].lex, q.flow, q.keys, l[n].start.column, blocks, after)
    ensures StackIs(after, l, n + 1)
  {
    hide Waiting, Depth, Required, MayStart, HasKey, BlockOpen, Signs, Marks, KeysKnown, KeysKept, KeysNear;
    if l[n].lex.LValue? { ValueKey(q.keys, l, n); }
    forall column: nat ensures column in after <==> BlockOpen(l, column, n + 1) {
      BlockStep(l, column, n);
      OpensThere(q, l, n, column);
    }
  }

  lemma OpensThere(q: Queue, l: seq<Lexeme>, n: nat, column: nat)
    requires n < |l| && Agrees(q, l, n, l[n].start) && KeysNear(q.keys, l[n].start)
    ensures OpensAt(l, n, column) <==> OpensBlock(l[n].lex, q.flow, q.keys, l[n].start.column, column)
  {
    hide Waiting, Depth, Required, MayStart, HasKey, BlockOpen, Signs, Marks, KeysKnown, KeysKept, KeysNear;
    if l[n].lex.LValue? { ValueKey(q.keys, l, n); }
    assert (exists k: nat :: k < n && IsKeyOf(l, k, n)) ==> l[n].lex.LValue?;
  }
}
