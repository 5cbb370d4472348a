/** Which lexemes of a text are simple keys, which blocks are open at each, and which lexemes are mistakes: the layout
    rules of YAML read off the positions of the lexemes, with nothing of the scanner's queue and stacks. */
module TokenLayout {
  import opened TokenNesting

  datatype Position = Position(index: nat, line: nat, column: nat)

  /** What fetch_more_tokens decides to fetch. */
  datatype Lex =
    | LStreamEnd | LDirective | LDocumentStart | LDocumentEnd
    | LFlowSequenceStart | LFlowMappingStart | LFlowSequenceEnd | LFlowMappingEnd
    | LFlowEntry | LBlockEntry | LKey | LValue | LAlias | LAnchor | LTag | LBlockScalar | LFlowScalar | LPlain

  /** The token a lexeme stands for, whatever else is queued with it. */
  function KindOf(l: Lex): Kind {
    match l
    case LStreamEnd => StreamEnd
    case LDirective => Directive
    case LDocumentStart => DocumentStart
    case LDocumentEnd => DocumentEnd
    case LFlowSequenceStart => FlowSequenceStart
    case LFlowMappingStart => FlowMappingStart
    case LFlowSequenceEnd => FlowSequenceEnd
    case LFlowMappingEnd => FlowMappingEnd
    case LFlowEntry => FlowEntry
    case LBlockEntry => BlockEntry
    case LKey => Key
    case LValue => Value
    case LAlias => Alias
    case LAnchor => Anchor
    case LTag => Tag
    case LBlockScalar => Scalar
    case LFlowScalar => Scalar
    case LPlain => Scalar
  }

  /** A lexeme starts behind the white space and comments skipped before it; `newLine` if a plain
      scalar's scan ended at the beginning of a line. */
  datatype Lexeme = Lexeme(lex: Lex, start: Position, end: Position, newLine: bool)

  /** Not in front of a on the same line, and not on an earlier line. */
  predicate NotBefore(a: Position, b: Position) {
    a.index <= b.index && a.line <= b.line && (a.line == b.line ==> a.column <= b.column)
  }

  const ORIGIN := Position(0, 0, 0)

  /** Where the scanner stands behind n lexemes. */
  function EndOf(l: seq<Lexeme>, n: nat): Position
    requires n <= |l|
  {
    if n == 0 then ORIGIN else l[n - 1].end
  }

  /** The n-th lexeme stands behind the others. */
  predicate InOrder(l: seq<Lexeme>, n: nat)
    requires n < |l|
  {
    && NotBefore(EndOf(l, n), l[n].start) && NotBefore(l[n].start, l[n].end)
    && (!l[n].lex.LStreamEnd? ==> l[n].start.index < l[n].end.index)
    && (l[n].newLine ==> l[n].start.line < l[n].end.line)
  }

  /** Lexemes in the order of the text, of which only the last one is the end of the stream. */
  ghost predicate IsText(l: seq<Lexeme>) {
    && l != [] && l[|l| - 1].lex.LStreamEnd?
    && (forall i :: 0 <= i < |l| - 1 ==> !l[i].lex.LStreamEnd?)
    && forall i :: 0 <= i < |l| ==> InOrder(l, i)
  }

  /** What ends all blocks. */
  predicate IsMargin(x: Lex) { x.LStreamEnd? || x.LDirective? || x.LDocumentStart? || x.LDocumentEnd? }

  /** The column a lexeme counts with. */
  function ColumnOf(x: Lexeme): int { if IsMargin(x.lex) then -1 else x.start.column }

  /** How many flow brackets are open in front of the n-th lexeme. */
  function Depth(l: seq<Lexeme>, n: nat): int
    requires n <= |l|
  {
    if n == 0 then 0 else Depth(l, n - 1) + FlowStep(KindOf(l[n - 1].lex))
  }

  // Simple keys.

  /** Alias, anchor, tag, flow scalar, plain scalar and opening brackets may start a simple key. */
  predicate CanBeKey(x: Lex) {
    x.LAlias? || x.LAnchor? || x.LTag? || x.LFlowScalar? || x.LPlain? || x.LFlowSequenceStart? || x.LFlowMappingStart?
  }

  /** A simple key may start at the n-th lexeme: outside brackets on a new line, or where what is in front allows it. */
  ghost predicate MayStart(l: seq<Lexeme>, n: nat)
    requires n < |l|
    decreases n, 4
  {
    AllowedBehind(l, n) || (Depth(l, n) == 0 && l[n].start.line != EndOf(l, n).line)
  }

  /** Behind an opening bracket, a comma, '-', a block scalar, and a plain scalar that ended its line; outside brackets
      also behind '?', and behind a ':' without a simple key. */
  ghost predicate AllowedBehind(l: seq<Lexeme>, n: nat)
    requires n <= |l|
    decreases n, 3
  {
    n == 0 ||
    match l[n - 1].lex
    case LFlowSequenceStart | LFlowMappingStart | LFlowEntry | LBlockEntry | LBlockScalar => true
    case LKey => Depth(l, n - 1) == 0
    case LValue => Depth(l, n - 1) == 0 && !HasKey(l, n - 1)
    case LPlain => l[n - 1].newLine
    case _ => false
  }

  /** The ':' has a simple key. */
  ghost predicate HasKey(l: seq<Lexeme>, v: nat)
    requires v < |l|
    decreases v, 2
  {
    exists k: nat :: k < v && IsKeyOf(l, k, v)
  }

  /** The simple key of the ':' starts at k: on the same level and line, at most 1024 characters in front of it. */
  ghost predicate IsKeyOf(l: seq<Lexeme>, k: nat, v: nat)
    requires k < v < |l|
    decreases v, 1
  {
    l[v].lex.LValue? && Depth(l, k) == Depth(l, v) && Near(l[k].start, l[v].start) && Waiting(l, k, v)
  }

  predicate Near(a: Position, b: Position) { a.line == b.line && b.index - a.index <= 1024 }

  /** A key may start at k, and no lexeme up to the n-th ends it. */
  ghost predicate Waiting(l: seq<Lexeme>, k: nat, n: nat)
    requires k < n <= |l|
    decreases n, 0
  {
    && CanBeKey(l[k].lex) && MayStart(l, k) && Depth(l, k) <= Depth(l, n)
    && forall j: nat :: k < j < n ==> GoesOn(l, k, j)
  }

  /** The j-th lexeme is inside brackets of the key, or a further part of it. */
  ghost predicate GoesOn(l: seq<Lexeme>, k: nat, j: nat)
    requires k < j < |l|
    decreases j, 5
  {
    Depth(l, k) < Depth(l, j) || (Depth(l, k) == Depth(l, j) && CanBeKey(l[j].lex) && !MayStart(l, j))
  }

  // Blocks.

  /** A block stands at the column from the o-th lexeme on: '-', '?', a ':' without a simple key, or a simple key whose
      ':' comes before the n-th lexeme. */
  ghost predicate Opens(l: seq<Lexeme>, o: nat, column: nat, n: nat)
    requires o < n <= |l|
  {
    && Depth(l, o) == 0 && l[o].start.column == column
    && (l[o].lex.LBlockEntry? || l[o].lex.LKey? || (l[o].lex.LValue? && !HasKey(l, o)) || IsSimpleKey(l, o, n))
  }

  ghost predicate IsSimpleKey(l: seq<Lexeme>, k: nat, n: nat)
    requires k < n <= |l|
  {
    exists v: nat :: k < v < n && IsKeyOf(l, k, v)
  }

  /** In front of the n-th lexeme a block is open at the column: since it was opened, everything outside brackets stood
      there or deeper. */
  ghost predicate BlockOpen(l: seq<Lexeme>, column: nat, n: nat)
    requires n <= |l|
  {
    exists o: nat :: o < n && Opens(l, o, column, n) && StandsDeeper(l, o, column, n)
  }

  ghost predicate StandsDeeper(l: seq<Lexeme>, o: nat, column: nat, n: nat)
    requires o < n <= |l|
  {
    forall j: nat :: o < j < n && Depth(l, j) == 0 ==> column <= ColumnOf(l[j])
  }

  /** A lexeme at the column of a block must be an entry of it; if it may be a simple key, it must be one. */
  ghost predicate Required(l: seq<Lexeme>, k: nat)
    requires k < |l|
  {
    Depth(l, k) == 0 && BlockOpen(l, l[k].start.column, k)
  }

  // The tokens that the layout adds.

  function StartKind(x: Lex): Kind { if x.LBlockEntry? then BlockSequenceStart else BlockMappingStart }

  function SignAt(k: Kind, x: Lexeme): Token { Token(k, x.start.index, x.start.column) }

  ghost predicate StartsBlock(l: seq<Lexeme>, o: nat, n: nat)
    requires o < n <= |l|
  {
    Opens(l, o, l[o].start.column, n) && !Required(l, o)
  }

  ghost predicate HasSign(l: seq<Lexeme>, k: nat, n: nat)
    requires k < n <= |l|
  {
    l[k].lex.LKey? || IsSimpleKey(l, k, n)
  }

  /** KEY at each '?' and each simple key, and the start of a block where one stands and none is open at its column. */
  ghost function Signs(l: seq<Lexeme>, n: nat): set<Token>
    requires n <= |l|
  {
    (set k: nat | k < n && HasSign(l, k, n) :: SignAt(Key, l[k]))
    + (set o: nat | o < n && StartsBlock(l, o, n) :: SignAt(StartKind(l[o].lex), l[o]))
  }

  // Mistakes.

  /** The n-th lexeme ends a simple key of its level, if there is one, and is not its ':'. */
  ghost predicate Drops(l: seq<Lexeme>, n: nat)
    requires n < |l|
  {
    !l[n].lex.LValue? && !(CanBeKey(l[n].lex) && !MayStart(l, n))
  }

  /** A key that is required does not become one: at the n-th lexeme it is too late, or something else follows. */
  ghost predicate KeyMissed(l: seq<Lexeme>, n: nat)
    requires n < |l|
  {
    exists k: nat :: k < n && Waiting(l, k, n) && Required(l, k)
                     && (!Near(l[k].start, l[n].start) || (Depth(l, k) == Depth(l, n) && Drops(l, n)))
  }

  /** '-', '?' or ':' outside brackets where no entry may start. */
  ghost predicate Misplaced(l: seq<Lexeme>, n: nat)
    requires n < |l|
  {
    Depth(l, n) == 0 && !MayStart(l, n)
    && (l[n].lex.LBlockEntry? || l[n].lex.LKey? || (l[n].lex.LValue? && !HasKey(l, n)))
  }

  ghost predicate Mistake(l: seq<Lexeme>, n: nat)
    requires n < |l|
  {
    KeyMissed(l, n) || Misplaced(l, n)
  }

  ghost predicate HasMistake(l: seq<Lexeme>) { exists n: nat :: n < |l| && Mistake(l, n) }

  // How keys and blocks go on, lexeme by lexeme.

  lemma WaitingStep(l: seq<Lexeme>, k: nat, n: nat)
    requires k < n < |l|
    ensures Waiting(l, k, n + 1) <==> Waiting(l, k, n) && GoesOn(l, k, n) && Depth(l, k) <= Depth(l, n + 1)
  {
    hide GoesOn, MayStart, Depth;
    if Waiting(l, k, n + 1) {
      assert GoesOn(l, k, n);
      DepthThere(l, k, n);
    }
  }

  lemma DepthThere(l: seq<Lexeme>, k: nat, n: nat)
    requires k < n < |l| && GoesOn(l, k, n)
    ensures Depth(l, k) <= Depth(l, n)
  {
  }

  lemma WaitingHere(l: seq<Lexeme>, n: nat)
    requires n < |l|
    ensures Waiting(l, n, n + 1) <==> CanBeKey(l[n].lex) && MayStart(l, n)
  {
    hide MayStart;
  }

  /** At most one key waits on each level. */
  lemma WaitingOnce(l: seq<Lexeme>, a: nat, b: nat, n: nat)
    requires a < n <= |l| && b < n && Depth(l, a) == Depth(l, b) && Waiting(l, a, n) && Waiting(l, b, n)
    ensures a == b
  {
    hide MayStart, Depth, Waiting;
    if a < b { NoLaterKey(l, a, b, n); }
    if b < a { NoLaterKey(l, b, a, n); }
  }

  lemma NoLaterKey(l: seq<Lexeme>, a: nat, b: nat, n: nat)
    requires a < b < n <= |l| && Depth(l, a) == Depth(l, b) && Waiting(l, a, n)
    ensures !Waiting(l, b, n)
  {
    hide MayStart, Depth;
    assert GoesOn(l, a, b);
  }

  lemma {:induction false} OrderedTo(l: seq<Lexeme>, k: nat, n: nat)
    requires IsText(l) && k < n <= |l|
    ensures NotBefore(l[k].start, EndOf(l, n))
    ensures n < |l| ==> NotBefore(l[k].start, l[n].start) && l[k].start.index < l[n].start.index
    ensures n < |l| && l[k].newLine ==> l[k].start.line < l[n].start.line
    decreases n
  {
    assert InOrder(l, n - 1);
    if k < n - 1 { OrderedTo(l, k, n - 1); }
    if n < |l| { assert InOrder(l, n); }
    if k < n - 1 { assert InOrder(l, k) && !l[k].lex.LStreamEnd?; }
    if n < |l| { assert !l[n - 1].lex.LStreamEnd?; }
  }

  lemma NearEarlier(a: Position, b: Position, c: Position)
    requires NotBefore(a, b) && NotBefore(b, c) && Near(a, c)
    ensures Near(a, b)
  {
  }

  /** Outside brackets, no entry may start behind a key that waits on the line. */
  lemma WaitingForbids(l: seq<Lexeme>, k: nat, n: nat)
    requires IsText(l) && k < n < |l| && Waiting(l, k, n) && Depth(l, k) == Depth(l, n) == 0
    requires l[k].start.line == l[n].start.line
    ensures !MayStart(l, n)
  {
    hide HasKey, Waiting;
    var p := n - 1;
    OrderedTo(l, k, n);
    assert InOrder(l, n);
    if k < p { OrderedTo(l, k, p); }
    OrderedTo(l, p, n);
    LastPart(l, k, n);
  }

  /** What stands last in a key outside brackets: a part of the key, or a closing bracket. */
  lemma LastPart(l: seq<Lexeme>, k: nat, n: nat)
    requires k < n <= |l| && Waiting(l, k, n) && Depth(l, k) == Depth(l, n) == 0
    ensures IsFlowEnd(KindOf(l[n - 1].lex)) || (CanBeKey(l[n - 1].lex) && !IsFlowStart(KindOf(l[n - 1].lex)))
  {
    hide MayStart;
    if k < n - 1 { assert GoesOn(l, k, n - 1); }
  }
}
