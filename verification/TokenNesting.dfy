/** Tokens, how they nest in blocks and flow brackets, at which columns, and what inserting tokens does to it. */
module TokenNesting {

  datatype Kind =
    | StreamStart | StreamEnd | Directive | DocumentStart | DocumentEnd
    | BlockSequenceStart | BlockMappingStart | BlockEnd
    | FlowSequenceStart | FlowMappingStart | FlowSequenceEnd | FlowMappingEnd
    | BlockEntry | FlowEntry | Key | Value | Alias | Anchor | Tag | Scalar

  /** A token, with the index of the character it starts at and the column it counts with: its own, or -1 for what
      ends every block (directives, document indicators, the end of the stream) and the BLOCK-ENDs in front of it. */
  datatype Token = Token(kind: Kind, index: nat, column: int)

  predicate IsBlockStart(k: Kind) { k.BlockSequenceStart? || k.BlockMappingStart? }

  predicate IsFlowStart(k: Kind) { k.FlowSequenceStart? || k.FlowMappingStart? }

  predicate IsFlowEnd(k: Kind) { k.FlowSequenceEnd? || k.FlowMappingEnd? }

  predicate IsBracket(k: Kind) { IsBlockStart(k) || k.BlockEnd? || IsFlowStart(k) || IsFlowEnd(k) }

  /** ALIAS, ANCHOR, TAG, SCALAR, '[' and '{' may start a simple key. */
  predicate StartsKey(k: Kind) { k.Alias? || k.Anchor? || k.Tag? || k.Scalar? || IsFlowStart(k) }

  /** The tokens that the scanner adds to those of the text: KEYs, starts and ends of blocks, and the first one. */
  predicate IsAdded(k: Kind) { k.StreamStart? || k.Key? || IsBlockStart(k) || k.BlockEnd? }

  /** Flow openers minus flow closers. */
  function FlowDepth(s: seq<Token>): int {
    if s == [] then 0
    else FlowDepth(s[..|s| - 1]) + FlowStep(s[|s| - 1].kind)
  }

  function FlowStep(k: Kind): int {
    if IsFlowStart(k) then 1 else if IsFlowEnd(k) then -1 else 0
  }

  /** Every flow closer has its opener before it. */
  predicate ClosersMatch(s: seq<Token>) {
    s == [] || (ClosersMatch(s[..|s| - 1]) && FlowDepth(s) >= 0)
  }

  /** What is still open, blocks outside with their columns and flow collections inside. */
  datatype Open = Open(blocks: seq<int>, flows: nat) | Broken

  /** The column of the innermost block. */
  function Deepest(blocks: seq<int>): int { if blocks == [] then -1 else blocks[|blocks| - 1] }

  /** Outside all flow brackets a token stands in blocks whose columns are at most its own; '-' and KEY stand at the
      column of their block. */
  predicate FitsIn(blocks: seq<int>, t: Token) {
    Deepest(blocks) <= t.column && (t.kind.BlockEntry? || t.kind.Key? ==> Deepest(blocks) == t.column)
  }

  /** One more token. A block is opened deeper than the innermost one, and ended where a token stands less deep; inside
      flow brackets there are no blocks, and columns do not matter. */
  function Nest(o: Open, t: Token): Open {
    match o
    case Broken => Broken
    case Open(b, f) =>
      if IsBlockStart(t.kind) then if f == 0 && Deepest(b) < t.column then Open(b + [t.column], f) else Broken
      else if t.kind.BlockEnd? then
        if f == 0 && b != [] && t.column < Deepest(b) then Open(b[..|b| - 1], f) else Broken
      else if f == 0 && !FitsIn(b, t) then Broken
      else if IsFlowStart(t.kind) then Open(b, f + 1)
      else if IsFlowEnd(t.kind) then if f > 0 then Open(b, f - 1) else Broken
      else o
  }

  function Run(o: Open, s: seq<Token>): Open {
    if s == [] then o else Nest(Run(o, s[..|s| - 1]), s[|s| - 1])
  }

  /** The layout law: Broken where a token of the list breaks it. */
  function Nesting(s: seq<Token>): Open { Run(Open([], 0), s) }

  lemma {:induction false} RunJoin(o: Open, a: seq<Token>, b: seq<Token>)
    ensures Run(o, a + b) == Run(Run(o, a), b)
    decreases |b|
  {
    if b == [] {
      assert a + b == a;
    } else {
      assert (a + b)[..|a + b| - 1] == a + b[..|b| - 1];
      RunJoin(o, a, b[..|b| - 1]);
    }
  }

  lemma {:induction false} BrokenStays(s: seq<Token>)
    ensures Run(Broken, s) == Broken
    decreases |s|
  {
    if s != [] { BrokenStays(s[..|s| - 1]); }
  }

  lemma Snoc(s: seq<Token>, t: Token)
    ensures FlowDepth(s + [t]) == FlowDepth(s) + FlowStep(t.kind)
    ensures ClosersMatch(s + [t]) == (ClosersMatch(s) && FlowDepth(s + [t]) >= 0)
    ensures Nesting(s + [t]) == Nest(Nesting(s), t)
    ensures forall o: Open :: Run(o, s + [t]) == Nest(Run(o, s), t)
  {
    assert (s + [t])[..|s|] == s;
  }

  lemma NonNegative(s: seq<Token>)
    ensures ClosersMatch(s) ==> FlowDepth(s) >= 0
  {
  }

  /** A token that opens and ends no block, at the column or deeper. */
  predicate IsQuiet(t: Token, column: int) {
    !IsBlockStart(t.kind) && !t.kind.BlockEnd? && !t.kind.BlockEntry? && !t.kind.Key? && column <= t.column
  }

  /** Outside flow brackets there are only such tokens. */
  ghost predicate Quiet(o: Open, s: seq<Token>, column: int) {
    forall i :: 0 <= i < |s| && Run(o, s[..i]).Open? && Run(o, s[..i]).flows == 0 ==> IsQuiet(s[i], column)
  }

  lemma QuietMore(o: Open, s: seq<Token>, t: Token, column: int)
    requires Quiet(o, s, column)
    requires Run(o, s).Open? && Run(o, s).flows == 0 ==> IsQuiet(t, column)
    ensures Quiet(o, s + [t], column)
  {
    hide IsQuiet;
    forall i | 0 <= i < |s + [t]|
      ensures Run(o, (s + [t])[..i]).Open? && Run(o, (s + [t])[..i]).flows == 0 ==> IsQuiet((s + [t])[i], column)
    {
      assert (s + [t])[..i] == s[..i];
      if i == |s| { assert s[..i] == s; }
    }
  }

  lemma QuietLess(o: Open, s: seq<Token>, t: Token, column: int)
    requires Quiet(o, s + [t], column)
    ensures Quiet(o, s, column)
    ensures Run(o, s).Open? && Run(o, s).flows == 0 ==> IsQuiet(t, column)
  {
    hide IsQuiet;
    var u := s + [t];
    forall i | 0 <= i < |s| && Run(o, s[..i]).Open? && Run(o, s[..i]).flows == 0
      ensures IsQuiet(s[i], column)
    {
      assert u[..i] == s[..i] && u[i] == s[i];
    }
    assert u[..|s|] == s && u[|s|] == t;
  }

  /** Tokens that open and end no block leave the blocks alone, also where one more was opened at the column. */
  lemma {:induction false} QuietRuns(b: seq<int>, s: seq<Token>, column: int)
    requires Quiet(Open(b, 0), s, column) && Run(Open(b, 0), s).Open?
    ensures Run(Open(b, 0), s).blocks == b
    ensures Run(Open(b + [column], 0), s) == Open(b + [column], Run(Open(b, 0), s).flows)
    decreases |s|
  {
    hide Quiet, Run, FlowDepth, ClosersMatch;
    NothingRuns(b, column, s);
    if s != [] {
      var r, t := s[..|s| - 1], s[|s| - 1];
      assert s == r + [t];
      QuietLess(Open(b, 0), r, t, column);
      Snoc(r, t);
      QuietRuns(b, r, column);
    }
  }

  lemma NothingRuns(b: seq<int>, column: int, s: seq<Token>)
    ensures s == [] ==> Run(Open(b, 0), s) == Open(b, 0) && Run(Open(b + [column], 0), s) == Open(b + [column], 0)
  {
  }

  /** Tokens inserted in front of others, for the flow brackets. */
  lemma {:induction false} InsertFlows(p: seq<Token>, w: seq<Token>, q: seq<Token>)
    requires forall t <- w :: FlowStep(t.kind) == 0
    ensures FlowDepth(p + w + q) == FlowDepth(p + q)
    ensures ClosersMatch(p + w + q) == ClosersMatch(p + q)
    decreases |w| + |q|
  {
    hide Nesting, Run;
    if q != [] {
      var r, u := q[..|q| - 1], q[|q| - 1];
      InsertFlows(p, w, r);
      assert p + w + q == (p + w + r) + [u] && p + q == (p + r) + [u];
      Snoc(p + w + r, u);
      Snoc(p + r, u);
    } else if w != [] {
      var v, u := w[..|w| - 1], w[|w| - 1];
      InsertFlows(p, v, []);
      assert p + w + q == (p + v + []) + [u] && p + q == p + [] == p;
      Snoc(p + v + [], u);
      NonNegative(p + v + []);
    } else {
      assert p + w + q == p + q;
    }
  }

  /** KEY inside flow brackets, or at the column of the innermost block, changes nothing. */
  lemma KeyInserted(p: seq<Token>, key: Token, q: seq<Token>)
    requires key.kind.Key?
    requires Nesting(p).Open? ==> Nesting(p).flows > 0 || Deepest(Nesting(p).blocks) == key.column
    ensures Nesting(p + [key] + q) == Nesting(p + q)
  {
    RunJoin(Open([], 0), p, q);
    RunJoin(Open([], 0), p + [key], q);
    Snoc(p, key);
  }

  /** A block mapping that starts with KEY in front of tokens that open and end no block: one block more is open. */
  lemma MappingInserted(p: seq<Token>, start: Token, key: Token, q: seq<Token>)
    requires key.kind.Key? && start.kind.BlockMappingStart? && start.column == key.column
    requires Nesting(p + q).Open? ==> Nesting(p).Open? && Nesting(p).flows == 0
                                      && Deepest(Nesting(p).blocks) < key.column && Quiet(Nesting(p), q, key.column)
    ensures Nesting(p + q).Open? ==>
              Nesting(p + [start, key] + q) == Open(Nesting(p + q).blocks + [key.column], Nesting(p + q).flows)
              && Nesting(p + q).blocks == Nesting(p).blocks
  {
    RunJoin(Open([], 0), p, q);
    RunJoin(Open([], 0), p + [start, key], q);
    assert p + [start, key] == p + [start] + [key];
    Snoc(p, start);
    Snoc(p + [start], key);
    if Nesting(p + q).Open? { QuietRuns(Nesting(p).blocks, q, key.column); }
  }

  // Tokens side by side.

  /** What may stand directly behind a token: behind the end of a block what it is ended for, behind the start of a
      block its '-', KEY or VALUE, and behind a KEY what is the key; otherwise something further on in the text. */
  predicate Beside(a: Token, b: Token) {
    match a.kind
    case BlockEnd => b.index == a.index && b.column <= a.column
    case BlockSequenceStart => b == Token(BlockEntry, a.index, a.column)
    case BlockMappingStart => (b.kind.Key? || b.kind.Value?) && b.index == a.index && b.column == a.column
    case Key => a.index < b.index || (b.index == a.index && b.column == a.column && StartsKey(b.kind))
    case StreamStart => true
    case _ => a.index < b.index
  }

  predicate SideBySide(s: seq<Token>) { forall i :: 0 <= i < |s| - 1 ==> Beside(s[i], s[i + 1]) }

  predicate MayFollow(s: seq<Token>, t: Token) { s == [] || Beside(s[|s| - 1], t) }

  lemma SideBySideMore(s: seq<Token>, t: Token)
    requires SideBySide(s) && MayFollow(s, t)
    ensures SideBySide(s + [t])
  {
  }

  /** The KEY of a token goes in front of it, and the start of its mapping in front of the KEY, if none is there yet. */
  lemma SideBySideInserted(p: seq<Token>, w: seq<Token>, q: seq<Token>, key: Token)
    requires SideBySide(p + q) && q != [] && key == Token(Key, q[0].index, q[0].column) && StartsKey(q[0].kind)
    requires w == [key] || w == [key.(kind := BlockMappingStart), key]
    requires p != [] ==> !(p[|p| - 1].kind.Key? && p[|p| - 1].index == q[0].index)
    ensures SideBySide(p + w + q)
  {
    var s, u := p + q, p + w + q;
    forall i | 0 <= i < |u| - 1 ensures Beside(u[i], u[i + 1]) {
      if i < |p| - 1 {
        assert Beside(s[i], s[i + 1]);
      } else if i == |p| - 1 {
        assert Beside(s[i], s[i + 1]) && s[i + 1] == q[0];
      } else if i >= |p| + |w| {
        assert Beside(s[i - |w|], s[i - |w| + 1]);
      }
    }
  }
}
