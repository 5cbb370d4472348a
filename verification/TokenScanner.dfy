/** The scanner's fetchers (yaml/scanner.py): indentation, simple keys and the token queue. What the
    characters spell is a parameter: a list of lexemes with their positions. */
module TokenScanner {
  import opened TokenNesting
  import opened TokenQueue
  import opened TokenLayout
  import opened LayoutState

  ghost predicate IndentsOk(indents: seq<int>, indent: int) {
    && (indents == [] ==> indent == -1)
    && (indents != [] ==> indents[0] == -1 && indents[|indents| - 1] < indent)
    && forall i, j :: 0 <= i < j < |indents| ==> indents[i] < indents[j]
  }

  /** The columns of the open blocks. */
  function Columns(indents: seq<int>, indent: int): seq<int> { (indents + [indent])[1..] }

  lemma ColumnsOk(indents: seq<int>, indent: int)
    requires IndentsOk(indents, indent)
    ensures Deepest(Columns(indents, indent)) == indent
    ensures forall c <- Columns(indents, indent) :: 0 <= c <= indent
    ensures indent >= 0 ==> indent in Columns(indents, indent)
    ensures Columns(indents, indent) == [] <==> indent == -1
  {
    var s := indents + [indent];
    assert forall i :: 1 <= i < |s| ==> s[i] == s[1..][i - 1];
  }

  lemma ColumnsMore(indents: seq<int>, indent: int, target: int)
    requires IndentsOk(indents, indent) && indent < target
    ensures IndentsOk(indents + [indent], target)
    ensures Columns(indents + [indent], target) == Columns(indents, indent) + [target]
  {
  }

  lemma ColumnsLess(indents: seq<int>, indent: int)
    requires IndentsOk(indents, indent) && indent > -1
    ensures indents != [] && IndentsOk(indents[..|indents| - 1], indents[|indents| - 1])
    ensures var c := Columns(indents, indent);
            c != [] && Columns(indents[..|indents| - 1], indents[|indents| - 1]) == c[..|c| - 1]
  {
    var n := |indents| - 1;
    assert indents[..n] + [indents[n]] == indents;
  }

  /** Behind the last token anything may stand that starts at the index, and at the column or less deep. */
  predicate CanPut(s: seq<Token>, index: nat, column: int) {
    s == [] || Passed(s, index)
    || (s[|s| - 1].kind.BlockEnd? && s[|s| - 1].index == index && column <= s[|s| - 1].column)
  }

  /** The last token is one of the text, in front of the index. */
  predicate Passed(s: seq<Token>, index: nat) {
    s != [] &&
    var a := s[|s| - 1];
    a.kind.StreamStart? || (!a.kind.BlockEnd? && !IsBlockStart(a.kind) && a.index < index)
  }

  lemma PutFollows(s: seq<Token>, t: Token)
    requires CanPut(s, t.index, t.column)
    ensures MayFollow(s, t)
    ensures s != [] ==> !IsKeySign(s[|s| - 1], t)
  {
  }

  // The tokens the text spells, and those the scanner adds.

  /** The tokens the scanner has no choice about, in order. */
  function Spelled(s: seq<Token>): seq<Token> {
    if s == [] then []
    else Spelled(s[..|s| - 1]) + if IsAdded(s[|s| - 1].kind) then [] else [s[|s| - 1]]
  }

  /** The tokens a text spells. */
  function TokensOf(l: seq<Lexeme>): seq<Token> {
    if l == [] then [] else TokensOf(l[..|l| - 1]) + TokenOf(l[|l| - 1])
  }

  function TokenOf(l: Lexeme): seq<Token> { Spelled([TheToken(l)]) }

  function TheToken(l: Lexeme): Token { Token(KindOf(l.lex), l.start.index, ColumnOf(l)) }

  lemma {:induction false} SpelledJoin(a: seq<Token>, b: seq<Token>)
    ensures Spelled(a + b) == Spelled(a) + Spelled(b)
  {
    if b == [] {
      assert a + b == a;
    } else {
      assert (a + b)[..|a + b| - 1] == a + b[..|b| - 1];
      SpelledJoin(a, b[..|b| - 1]);
    }
  }

  predicate AllAdded(s: seq<Token>) { forall i :: 0 <= i < |s| ==> IsAdded(s[i].kind) }

  lemma {:induction false} AddedSpellNothing(s: seq<Token>)
    requires AllAdded(s)
    ensures Spelled(s) == []
  {
    if s != [] { AddedSpellNothing(s[..|s| - 1]); }
  }

  lemma NoMarks(s: seq<Token>)
    requires forall i :: 0 <= i < |s| ==> !s[i].kind.Key? && !IsBlockStart(s[i].kind)
    ensures Marks(s) == {}
  {
  }

  lemma MarksOfOne(t: Token)
    ensures Marks([t]) == if t.kind.Key? || IsBlockStart(t.kind) then {t} else {}
  {
  }

  /** A token behind others, with what is added in front of it. */
  lemma Appended(s: seq<Token>, added: seq<Token>, t: Token)
    requires AllAdded(added)
    ensures Spelled(s + added + [t]) == Spelled(s) + Spelled([t])
    ensures Marks(s + added + [t]) == Marks(s) + Marks(added) + Marks([t])
  {
    hide Spelled, Marks;
    SpelledJoin(s + added, [t]);
    SpelledJoin(s, added);
    AddedSpellNothing(added);
    assert Spelled(s) + [] == Spelled(s);
    MarksMore(s + added, [t]);
    MarksMore(s, added);
  }

  /** What is added in the middle. */
  lemma Inserted(s: seq<Token>, i: nat, w: seq<Token>)
    requires i <= |s| && AllAdded(w)
    ensures Spelled(s[..i] + w + s[i..]) == Spelled(s)
    ensures Marks(s[..i] + w + s[i..]) == Marks(s) + Marks(w)
  {
    hide Spelled, Marks;
    SpelledJoin(s[..i] + w, s[i..]);
    SpelledJoin(s[..i], w);
    AddedSpellNothing(w);
    SpelledJoin(s[..i], s[i..]);
    assert s[..i] + s[i..] == s && Spelled(s[..i]) + [] == Spelled(s[..i]);
    MarksMore(s[..i] + w, s[i..]);
    MarksMore(s[..i], w);
    MarksMore(s[..i], s[i..]);
  }

  lemma HasMember(s: set<int>)
    requires s != {}
    ensures exists x: int :: x in s
  {
    assert (forall x: int :: x !in s) ==> s == {};
  }

  const START := Token(StreamStart, 0, 0)

  class Scanner {
    const lexemes: seq<Lexeme>
    var next: nat
    var done: bool
    var flowLevel: int
    var tokens: seq<Token>
    var tokensTaken: nat
    var indent: int
    var indents: seq<int>
    var allowSimpleKey: bool
    var possibleSimpleKeys: map<int, SimpleKey>
    var index: nat
    var line: nat
    var column: nat
    ghost var emitted: seq<Token>

    ghost function Q(): Queue
      reads this
    {
      Queue(emitted, tokens, possibleSimpleKeys, flowLevel, Columns(indents, indent))
    }

    /** What holds between any two steps of a fetch. */
    ghost predicate Core()
      reads this
    {
      Q().Ok() && |emitted| == tokensTaken && IndentsOk(indents, indent)
    }

    ghost function Here(): Position
      reads this
    {
      Position(index, line, column)
    }

    ghost predicate Valid()
      reads this
    {
      && Core() && IsText(lexemes) && next <= |lexemes| && Knows()
      && (next == |lexemes| <==> done)
      && (done ==> possibleSimpleKeys == map[] && (flowLevel == 0 ==> indents == []))
    }

    /** Between two fetches: no lexeme so far is a mistake, and the state is what the lexemes so far make of it. */
    ghost predicate Knows()
      requires next <= |lexemes|
      reads this
    {
      && (forall n: nat :: n < next ==> !Mistake(lexemes, n))
      && Here() == EndOf(lexemes, next)
      && (allowSimpleKey <==> AllowedBehind(lexemes, next))
      && (if done then Marks(Q().Stream()) == Signs(lexemes, next)
          else Agrees(Q(), lexemes, next, Here()) && Passed(Q().Stream(), index))
    }

    constructor (lexemes: seq<Lexeme>)
      requires IsText(lexemes)
      ensures Valid() && this.lexemes == lexemes && next == 0 && !done && emitted == []
      ensures tokens == [START] && Faithful()
    {
      this.lexemes := lexemes;
      next, done, flowLevel, tokensTaken, indent, indents := 0, false, 0, 0, -1, [];
      tokens := [START];
      allowSimpleKey := true;
      possibleSimpleKeys := map[];
      index, line, column := 0, 0, 0;
      emitted := [];
      new;
      hide Queue.Ok, Agrees;
      StartIsOk();
      StartAgrees(lexemes);
      AddedSpellNothing(tokens);
    }

    static lemma StartIsOk()
      ensures Queue([], [START], map[], 0, []).Ok()
    {
      var none := Queue([], [], map[], 0, []);
      none.PushInPlace(START);
      assert none.Push(START).(flow := 0) == Queue([], [START], map[], 0, []);
    }

    static lemma StartAgrees(l: seq<Lexeme>)
      ensures Agrees(Queue([], [START], map[], 0, []), l, 0, ORIGIN)
    {
      assert Queue([], [START], map[], 0, []).Stream() == [START];
    }

    method MoveTo(p: Position)
      modifies `index, `line, `column
      ensures index == p.index && line == p.line && column == p.column
    {
      index, line, column := p.index, p.line, p.column;
    }

    /** self.tokens.append(TokenClass(...)) at the current index */
    method Append(kind: Kind, at: int)
      modifies `tokens
      ensures tokens == old(tokens) + [Token(kind, index, at)]
    {
      tokens := tokens + [Token(kind, index, at)];
    }

    // Simple keys.

    /** next_possible_simple_key: the least token number of a possible simple key. */
    method NextPossibleSimpleKey() returns (r: nat, found: bool)
      ensures found <==> possibleSimpleKeys != map[]
      ensures found ==> IsNearest(possibleSimpleKeys, r)
    {
      r, found := 0, false;
      var levels := possibleSimpleKeys.Keys;
      while |levels| > 0
        invariant levels <= possibleSimpleKeys.Keys
        invariant found ==> exists level :: level in possibleSimpleKeys && possibleSimpleKeys[level].tokenNumber == r
        invariant forall level :: level in possibleSimpleKeys && level !in levels ==>
                    found && r <= possibleSimpleKeys[level].tokenNumber
        decreases |levels|
      {
        HasMember(levels);
        var level :| level in levels;
        var key := possibleSimpleKeys[level];
        if !found || key.tokenNumber < r {
          r, found := key.tokenNumber, true;
        }
        levels := levels - {level};
      }
      if possibleSimpleKeys != map[] {
        assert possibleSimpleKeys.Keys != {};
        HasMember(possibleSimpleKeys.Keys);
      }
    }

    predicate IsStale(key: SimpleKey)
      reads this
    {
      Stale(key, index, line)
    }

    /** stale_possible_simple_keys: an error if a required key is stale, otherwise the others remain. */
    method StalePossibleSimpleKeys() returns (ok: bool)
      modifies `possibleSimpleKeys
      ensures ok <==> NoRequiredStale(old(possibleSimpleKeys), Here())
      ensures ok ==> StalesDropped(old(possibleSimpleKeys), possibleSimpleKeys, Here())
    {
      ghost var keys := possibleSimpleKeys;
      var levels := possibleSimpleKeys.Keys;
      while |levels| > 0
        invariant levels <= possibleSimpleKeys.Keys <= keys.Keys
        invariant forall level :: level in possibleSimpleKeys ==> possibleSimpleKeys[level] == keys[level]
        invariant forall level :: level in keys && level !in levels ==>
                    (level in possibleSimpleKeys <==> !IsStale(keys[level]))
                        && (IsStale(keys[level]) ==> !keys[level].required)
        decreases |levels|
      {
        HasMember(levels);
        var level :| level in levels;
        var key := possibleSimpleKeys[level];
        if IsStale(key) {
          if key.required {
            return false;
          }
          possibleSimpleKeys := possibleSimpleKeys - {level};
        }
        levels := levels - {level};
      }
      assert levels == {};
      return true;
    }

    /** remove_possible_simple_key: an error if the key of the current level was required. */
    method RemovePossibleSimpleKey() returns (ok: bool)
      modifies `possibleSimpleKeys
      ensures ok <==> flowLevel !in old(possibleSimpleKeys) || !old(possibleSimpleKeys)[flowLevel].required
      ensures ok ==> possibleSimpleKeys == old(possibleSimpleKeys) - {flowLevel}
    {
      if flowLevel in possibleSimpleKeys {
        if possibleSimpleKeys[flowLevel].required {
          return false;
        }
        possibleSimpleKeys := possibleSimpleKeys - {flowLevel};
      }
      return true;
    }

    /** The key the next token would start. */
    function KeyHere(): SimpleKey
      reads this
    {
      SimpleKey(tokensTaken + |tokens|, flowLevel == 0 && indent == column, index, line, column)
    }

    /** save_possible_simple_key */
    method SavePossibleSimpleKey() returns (ok: bool)
      modifies `possibleSimpleKeys
      ensures !allowSimpleKey ==> ok && possibleSimpleKeys == old(possibleSimpleKeys)
      ensures allowSimpleKey ==>
                (ok <==> flowLevel !in old(possibleSimpleKeys) || !old(possibleSimpleKeys)[flowLevel].required)
      ensures allowSimpleKey && ok ==> possibleSimpleKeys == old(possibleSimpleKeys)[flowLevel := KeyHere()]
    {
      if allowSimpleKey {
        ok := RemovePossibleSimpleKey();
        if !ok {
          return;
        }
        possibleSimpleKeys := possibleSimpleKeys[flowLevel := KeyHere()];
      }
      return true;
    }

    // Indentation.

    /** Between the steps of a fetch, when the possible key of the current level may be given up. */
    ghost predicate Bare()
      reads this
    {
      && Q().(keys := possibleSimpleKeys - {flowLevel}).Ok() && |emitted| == tokensTaken && IndentsOk(indents, indent)
    }

    /** unwind_indent: in the block context, BLOCK-ENDs until the column is reached. */
    method UnwindIndent(target: int)
      requires Bare() && target >= -1 && CanPut(Q().Stream(), index, target)
      modifies `tokens, `indent, `indents
      ensures Bare() && CanPut(Q().Stream(), index, target)
      ensures flowLevel != 0 || old(indent) <= target ==> unchanged(`tokens, `indent, `indents)
      ensures flowLevel == 0 ==> indent <= target
      ensures forall c :: c in Columns(indents, indent) <==>
                            c in old(Columns(indents, indent)) && (flowLevel == 0 ==> c <= target)
      ensures |tokens| - |old(tokens)| == |old(indents)| - |indents|
      ensures EndsBehind(old(tokens), tokens, Token(BlockEnd, index, target))
      ensures Spelled(tokens) == old(Spelled(tokens)) && Marks(tokens) == old(Marks(tokens))
    {
      if flowLevel != 0 {
        return;
      }
      hide Spelled, Queue.Ok, Queue.Stream, IndentsOk, Marks, Columns, CanPut, EndsBehind, Cut, Passed, Nesting,
           Queue.Push;
      ghost var keys := possibleSimpleKeys - {flowLevel};
      ghost var columns := Columns(indents, indent);
      NothingCut(columns, old(tokens), Token(BlockEnd, index, target), target);
      while indent > target
        invariant Bare() && CanPut(Q().Stream(), index, target)
        invariant |tokens| - |old(tokens)| == |old(indents)| - |indents|
        invariant old(indent) <= target ==> unchanged(`tokens, `indent, `indents)
        invariant EndsBehind(old(tokens), tokens, Token(BlockEnd, index, target))
        invariant Cut(columns, Columns(indents, indent), target)
        decreases |indents|
      {
        ghost var q, t := Q().(keys := keys), Token(BlockEnd, index, target);
        BlockEnds(q, indents, indent, t);
        CutMore(columns, q.blocks, old(tokens), tokens, t);
        indent := indents[|indents| - 1];
        indents := indents[..|indents| - 1];
        Append(BlockEnd, target);
        BlockEnded(q, Q().(keys := keys), t);
      }
      ColumnsOk(indents, indent);
      InFront(columns, Columns(indents, indent), target);
      UnwoundCounts(old(tokens), tokens, Token(BlockEnd, index, target));
    }

    static lemma BlockEnded(q: Queue, q': Queue, t: Token)
      requires q.blocks != [] && q'.blocks == q.blocks[..|q.blocks| - 1] && q'.tokens == q.tokens + [t]
      requires q'.emitted == q.emitted && q'.keys == q.keys && q'.flow == q.flow
      ensures q' == q.Push(t).(blocks := q'.blocks) && q'.Stream() == q.Push(t).Stream()
    {
    }

    static predicate EndsBehind(before: seq<Token>, after: seq<Token>, t: Token) {
      before <= after && forall i :: |before| <= i < |after| ==> after[i] == t
    }

    /** The columns in front of which those deeper than the target are cut off. */
    static predicate Cut(s: seq<int>, p: seq<int>, target: int) {
      p <= s && forall i :: |p| <= i < |s| ==> s[i] > target
    }

    static lemma NothingCut(s: seq<int>, tokens: seq<Token>, t: Token, target: int)
      ensures Cut(s, s, target) && EndsBehind(tokens, tokens, t)
    {
    }

    static lemma CutMore(s: seq<int>, p: seq<int>, before: seq<Token>, tokens: seq<Token>, t: Token)
      requires Cut(s, p, t.column) && p != [] && p[|p| - 1] > t.column && EndsBehind(before, tokens, t)
      ensures Cut(s, p[..|p| - 1], t.column) && EndsBehind(before, tokens + [t], t)
    {
    }

    /** The innermost block is ended. */
    static lemma BlockEnds(q: Queue, indents: seq<int>, indent: int, t: Token)
      requires q.Ok() && q.flow == 0 && 0 !in q.keys && IndentsOk(indents, indent)
      requires q.blocks == Columns(indents, indent) && -1 <= t.column < indent
      requires t.kind.BlockEnd? && CanPut(q.Stream(), t.index, t.column)
      ensures indents != [] && IndentsOk(indents[..|indents| - 1], indents[|indents| - 1])
      ensures q.blocks != [] && q.blocks[|q.blocks| - 1] > t.column
      ensures Columns(indents[..|indents| - 1], indents[|indents| - 1]) == q.blocks[..|q.blocks| - 1]
      ensures q.Push(t).(blocks := q.blocks[..|q.blocks| - 1]).Ok() && CanPut(q.Push(t).Stream(), t.index, t.column)
    {
      hide Queue.Ok, IndentsOk, Columns, MayFollow, Passed;
      ColumnsOk(indents, indent);
      ColumnsLess(indents, indent);
      PutFollows(q.Stream(), t);
      q.PushBlockEnd(t);
      q.PushStream(t);
    }

    static lemma InFront(s: seq<int>, p: seq<int>, target: int)
      requires Cut(s, p, target) && forall c <- p :: c <= target
      ensures forall c :: c in p <==> c in s && c <= target
    {
    }

    static lemma UnwoundCounts(before: seq<Token>, after: seq<Token>, t: Token)
      requires EndsBehind(before, after, t) && t.kind.BlockEnd?
      ensures Spelled(after) == Spelled(before) && Marks(after) == Marks(before)
    {
      hide Spelled, Marks;
      var ends := after[|before|..];
      assert after == before + ends;
      SpelledJoin(before, ends);
      AddedSpellNothing(ends);
      MarksMore(before, ends);
      NoMarks(ends);
    }

    /** add_indent */
    method AddIndent(target: nat) returns (added: bool)
      requires IndentsOk(indents, indent)
      modifies `indent, `indents
      ensures IndentsOk(indents, indent)
      ensures added <==> old(indent) < target
      ensures added ==> indents == old(indents) + [old(indent)] && indent == target
      ensures !added ==> unchanged(`indent, `indents)
    {
      if indent < target {
        indents := indents + [indent];
        indent := target;
        return true;
      }
      return false;
    }

    // Fetchers.

    /** When a lexeme is fetched: the deeper blocks are ended, and a key of level 0 stands in front of it, no deeper,
        with nothing deeper than it, and allows no entry here. */
    ghost predicate Ready()
      reads this
    {
      && Core() && CanPut(Q().Stream(), index, column)
      && (flowLevel == 0 ==> indent <= column)
      && (flowLevel == 0 && 0 in possibleSimpleKeys ==>
            !allowSimpleKey && indent <= possibleSimpleKeys[0].column <= column
            && (possibleSimpleKeys[0].required <==> indent == possibleSimpleKeys[0].column))
    }

    /** A token that opens and ends no block. */
    method AppendInPlace(kind: Kind, at: int)
      requires Core() && !IsBracket(kind) && MayFollow(Q().Stream(), Token(kind, index, at))
      requires flowLevel == 0 ==> indent <= at && (kind.BlockEntry? || kind.Key? ==> indent == at)
      requires flowLevel == 0 && 0 in possibleSimpleKeys ==>
                 IsQuiet(Token(kind, index, at), possibleSimpleKeys[0].column)
      modifies `tokens
      ensures Core() && tokens == old(tokens) + [Token(kind, index, at)]
    {
      hide Queue.Ok, IndentsOk, Columns, MayFollow;
      ghost var q, t := Q(), Token(kind, index, at);
      ColumnsOk(indents, indent);
      q.PushInPlace(t);
      Append(kind, at);
      assert Q() == q.Push(t).(flow := q.flow + FlowStep(kind));
    }

    /** BLOCK-SEQUENCE-START or BLOCK-MAPPING-START, if the column is deeper than the indentation. */
    method AppendBlockStart(kind: Kind, entry: Kind)
      requires (kind.BlockSequenceStart? && entry.BlockEntry?)
               || (kind.BlockMappingStart? && (entry.Key? || entry.Value?))
      requires Core() && flowLevel == 0 && 0 !in possibleSimpleKeys && indent <= column
      requires CanPut(Q().Stream(), index, column)
      modifies `tokens, `indent, `indents
      ensures Core() && indent == column && MayFollow(Q().Stream(), Token(entry, index, column))
      ensures tokens == old(tokens) + if old(indent) < column then [Token(kind, index, column)] else []
      ensures old(indent) == column ==> unchanged(`indent, `indents)
      ensures forall c :: c in Columns(indents, indent) <==> c in old(Columns(indents, indent)) || c == column
    {
      hide Queue.Ok, IndentsOk, Columns;
      ghost var q, t := Q(), Token(kind, index, column);
      ColumnsOk(indents, indent);
      if indent < column { ColumnsMore(indents, indent, column); }
      PutFollows(q.Stream(), t);
      PutFollows(q.Stream(), Token(entry, index, column));
      var added := AddIndent(column);
      if added {
        q.PushBlockStart(t);
        Append(kind, column);
        assert Q() == q.Push(t).(blocks := q.blocks + [column]);
      }
    }

    method ResetSimpleKey() returns (ok: bool)
      requires Bare()
      modifies `possibleSimpleKeys
      ensures ok ==> Core() && possibleSimpleKeys == old(possibleSimpleKeys) - {flowLevel}
      ensures ok <==> flowLevel !in old(possibleSimpleKeys) || !old(possibleSimpleKeys)[flowLevel].required
    {
      hide Queue.Ok;
      ok := RemovePossibleSimpleKey();
    }

    lemma BareIsCore()
      requires Bare() && flowLevel !in possibleSimpleKeys
      ensures Core()
    {
      hide Queue.Ok, IndentsOk;
      assert possibleSimpleKeys - {flowLevel} == possibleSimpleKeys;
    }

    lemma CoreIsBare()
      requires Core()
      ensures Bare()
    {
      hide Queue.Ok, IndentsOk;
      Q().DropKeys(possibleSimpleKeys - {flowLevel});
    }

    /** fetch_stream_end, fetch_directive and fetch_document_indicator up to the token: every block is ended, and the
        possible key of the level dropped. */
    method LeaveBlocks() returns (ok: bool)
      requires Ready()
      modifies `tokens, `indent, `indents, `possibleSimpleKeys, `allowSimpleKey
      ensures ok <==> flowLevel !in old(possibleSimpleKeys) || !old(possibleSimpleKeys)[flowLevel].required
      ensures ok ==> Core() && CanPut(Q().Stream(), index, -1) && !allowSimpleKey
      ensures ok ==> possibleSimpleKeys == old(possibleSimpleKeys) - {flowLevel} && old(tokens) <= tokens
      ensures flowLevel == 0 ==> indents == [] && indent == -1
      ensures forall c: nat :: c in Columns(indents, indent) <==> c in old(Columns(indents, indent)) && flowLevel != 0
      ensures Spelled(tokens) == old(Spelled(tokens)) && Marks(tokens) == old(Marks(tokens))
    {
      hide Queue.Ok, Spelled, Marks, Columns;
      CoreIsBare();
      UnwindIndent(-1);
      ok := ResetSimpleKey();
      allowSimpleKey := false;
    }

    /** fetch_stream_end */
    method FetchStreamEnd() returns (ok: bool)
      requires Ready()
      modifies `tokens, `indent, `indents, `possibleSimpleKeys, `allowSimpleKey, `done
      ensures ok <==> flowLevel !in old(possibleSimpleKeys) || !old(possibleSimpleKeys)[flowLevel].required
      ensures ok ==> Core() && done && possibleSimpleKeys == map[] && !allowSimpleKey
      ensures ok ==> old(tokens) < tokens && tokens[|tokens| - 1] == Token(StreamEnd, index, -1)
      ensures flowLevel == 0 ==> indents == []
      ensures forall c: nat :: c in Columns(indents, indent) <==> c in old(Columns(indents, indent)) && flowLevel != 0
      ensures ok ==> Spelled(tokens) == old(Spelled(tokens)) + Spelled([Token(StreamEnd, index, -1)])
      ensures ok ==> Marks(tokens) == old(Marks(tokens)) + Marks([Token(StreamEnd, index, -1)])
    {
      hide Queue.Ok, Spelled, Marks, Columns, IndentsOk, CanPut, MayFollow;
      ok := LeaveBlocks();
      if !ok {
        return;
      }
      ghost var q := Q();
      possibleSimpleKeys := map[];
      q.DropKeys(map[]);
      PutFollows(Q().Stream(), Token(StreamEnd, index, -1));
      Counted(tokens, Token(StreamEnd, index, -1));
      AppendInPlace(StreamEnd, -1);
      done := true;
    }

    static lemma Counted(s: seq<Token>, t: Token)
      ensures Spelled(s + [t]) == Spelled(s) + Spelled([t])
      ensures Marks(s + [t]) == Marks(s) + Marks([t])
    {
      hide Spelled, Marks;
      SpelledJoin(s, [t]);
      MarksMore(s, [t]);
    }

    /** fetch_directive and fetch_document_indicator */
    method FetchAtMargin(kind: Kind) returns (ok: bool)
      requires Ready() && (kind.Directive? || kind.DocumentStart? || kind.DocumentEnd?)
      modifies `tokens, `indent, `indents, `possibleSimpleKeys, `allowSimpleKey
      ensures ok <==> flowLevel !in old(possibleSimpleKeys) || !old(possibleSimpleKeys)[flowLevel].required
      ensures ok ==> Core() && !allowSimpleKey && possibleSimpleKeys == old(possibleSimpleKeys) - {flowLevel}
      ensures ok ==> old(tokens) < tokens && tokens[|tokens| - 1] == Token(kind, index, -1)
      ensures flowLevel == 0 ==> indents == []
      ensures forall c: nat :: c in Columns(indents, indent) <==> c in old(Columns(indents, indent)) && flowLevel != 0
      ensures ok ==> Spelled(tokens) == old(Spelled(tokens)) + Spelled([Token(kind, index, -1)])
      ensures ok ==> Marks(tokens) == old(Marks(tokens)) + Marks([Token(kind, index, -1)])
    {
      hide Queue.Ok, Spelled, Marks, Columns, IndentsOk, CanPut, MayFollow;
      ok := LeaveBlocks();
      if !ok {
        return;
      }
      PutFollows(Q().Stream(), Token(kind, index, -1));
      Counted(tokens, Token(kind, index, -1));
      AppendInPlace(kind, -1);
    }

    /** What a token that may start a simple key makes of the queue. */
    lemma KeyStarterQueued(t: Token)
      requires Ready() && StartsKey(t.kind) && t.index == index && t.column == column
      ensures var keys := if allowSimpleKey then possibleSimpleKeys[flowLevel := KeyHere()] else possibleSimpleKeys;
              Q().Push(t).(keys := keys, flow := flowLevel + FlowStep(t.kind)).Ok()
    {
      hide Queue.Ok, IndentsOk, Columns, MayFollow, CanPut;
      ColumnsOk(indents, indent);
      PutFollows(Q().Stream(), t);
      if allowSimpleKey {
        Q().PushKey(t, KeyHere());
      } else {
        Q().PushInPlace(t);
        assert Q().Push(t).(keys := possibleSimpleKeys, flow := flowLevel + FlowStep(t.kind))
            == Q().Push(t).(flow := flowLevel + FlowStep(t.kind));
      }
    }

    /** fetch_flow_collection_start */
    method FetchFlowCollectionStart(kind: Kind) returns (ok: bool)
      requires Ready() && IsFlowStart(kind)
      modifies `tokens, `possibleSimpleKeys, `allowSimpleKey, `flowLevel
      ensures ok <==> !(old(allowSimpleKey) && old(flowLevel) in old(possibleSimpleKeys)
                        && old(possibleSimpleKeys)[old(flowLevel)].required)
      ensures ok ==> Core() && flowLevel == old(flowLevel) + 1 && allowSimpleKey
      ensures ok ==> tokens == old(tokens) + [Token(kind, index, column)]
      ensures ok ==> possibleSimpleKeys ==
                       if old(allowSimpleKey) then old(possibleSimpleKeys)[old(flowLevel) := old(KeyHere())]
                         else old(possibleSimpleKeys)
    {
      hide Queue.Ok, IndentsOk, Columns, MayFollow, CanPut;
      ghost var q, t := Q(), Token(kind, index, column);
      KeyStarterQueued(t);
      ok := SavePossibleSimpleKey();
      if !ok {
        return;
      }
      flowLevel := flowLevel + 1;
      allowSimpleKey := true;
      Append(kind, column);
      assert Q() == q.Push(t).(keys := possibleSimpleKeys, flow := flowLevel);
    }

    /** fetch_flow_collection_end; the flow level may become negative, which the parser reports. */
    method FetchFlowCollectionEnd(kind: Kind) returns (ok: bool)
      requires Ready() && IsFlowEnd(kind)
      modifies `tokens, `possibleSimpleKeys, `allowSimpleKey, `flowLevel
      ensures ok <==> old(flowLevel) !in old(possibleSimpleKeys) || !old(possibleSimpleKeys)[old(flowLevel)].required
      ensures ok ==> Core() && flowLevel == old(flowLevel) - 1 && !allowSimpleKey
      ensures ok ==> tokens == old(tokens) + [Token(kind, index, column)]
      ensures ok ==> possibleSimpleKeys == old(possibleSimpleKeys) - {old(flowLevel)}
    {
      hide Queue.Ok, IndentsOk, Columns, MayFollow, CanPut;
      CoreIsBare();
      ok := ResetSimpleKey();
      if !ok {
        return;
      }
      ghost var q, t := Q(), Token(kind, index, column);
      ColumnsOk(indents, indent);
      PutFollows(q.Stream(), t);
      q.PushInPlace(t);
      flowLevel := flowLevel - 1;
      allowSimpleKey := false;
      Append(kind, column);
      assert Q() == q.Push(t).(flow := flowLevel);
    }

    method FetchFlowEntry() returns (ok: bool)
      requires Ready()
      modifies `tokens, `possibleSimpleKeys, `allowSimpleKey
      ensures ok <==> flowLevel !in old(possibleSimpleKeys) || !old(possibleSimpleKeys)[flowLevel].required
      ensures ok ==> Core() && allowSimpleKey && tokens == old(tokens) + [Token(FlowEntry, index, column)]
      ensures ok ==> possibleSimpleKeys == old(possibleSimpleKeys) - {flowLevel}
    {
      hide Queue.Ok, IndentsOk, Columns, MayFollow, CanPut;
      CoreIsBare();
      allowSimpleKey := true;
      ok := ResetSimpleKey();
      if ok {
        PutFollows(Q().Stream(), Token(FlowEntry, index, column));
        AppendInPlace(FlowEntry, column);
      }
    }

    /** fetch_block_entry and fetch_key, which differ in the tokens and in what may follow. */
    method FetchBlockIndicator(start: Kind, kind: Kind) returns (ok: bool)
      requires Ready() && ((start.BlockSequenceStart? && kind.BlockEntry?) || (start.BlockMappingStart? && kind.Key?))
      modifies `tokens, `possibleSimpleKeys, `allowSimpleKey, `indent, `indents
      ensures ok <==> (flowLevel == 0 ==> old(allowSimpleKey))
                      && (flowLevel !in old(possibleSimpleKeys) || !old(possibleSimpleKeys)[flowLevel].required)
      ensures ok ==> Core() && (allowSimpleKey <==> kind.BlockEntry? || flowLevel == 0)
      ensures ok ==> tokens == old(tokens)
                               + (if flowLevel == 0 && old(indent) < column then [Token(start, index, column)] else [])
                               + [Token(kind, index, column)]
      ensures ok ==> forall c :: c in Columns(indents, indent)
                                 <==> c in old(Columns(indents, indent)) || (flowLevel == 0 && c == column)
      ensures ok ==> possibleSimpleKeys == old(possibleSimpleKeys) - {flowLevel}
      ensures ok ==> Spelled(tokens) == old(Spelled(tokens)) + Spelled([Token(kind, index, column)])
      ensures ok ==> Marks(tokens) == old(Marks(tokens)) + SignsOf(if kind.Key? then LKey else LBlockEntry, flowLevel,
                                                                   old(possibleSimpleKeys), old(KeyHere()))
    {
      hide Queue.Ok, IndentsOk, Columns, MayFollow, CanPut, Spelled, Marks;
      ghost var added := if flowLevel == 0 && indent < column then [Token(start, index, column)] else [];
      Appended(tokens, added, Token(kind, index, column));
      NoMarks([]);
      MarksOfOne(Token(start, index, column));
      MarksOfOne(Token(kind, index, column));
      PutFollows(Q().Stream(), Token(kind, index, column));
      if flowLevel == 0 {
        if !allowSimpleKey {
          return false;
        }
        AppendBlockStart(start, kind);
      }
      CoreIsBare();
      allowSimpleKey := kind.BlockEntry? || flowLevel == 0;
      ok := ResetSimpleKey();
      if ok {
        AppendInPlace(kind, column);
      }
    }

    /** fetch_value: KEY, and BLOCK-MAPPING-START if the key opens a mapping, are inserted in front of the
        token that turns out to be a simple key. */
    method FetchValue() returns (ok: bool)
      requires Ready()
      modifies `tokens, `possibleSimpleKeys, `allowSimpleKey, `indent, `indents
      ensures ok <==> flowLevel in old(possibleSimpleKeys) || flowLevel != 0 || old(allowSimpleKey)
      ensures ok ==> Core() && possibleSimpleKeys == old(possibleSimpleKeys) - {flowLevel}
      ensures ok ==> (allowSimpleKey <==> flowLevel == 0 && flowLevel !in old(possibleSimpleKeys))
      ensures flowLevel in old(possibleSimpleKeys) ==>
                var key := old(possibleSimpleKeys)[flowLevel];
                && |old(emitted)| <= key.tokenNumber < |old(emitted)| + |old(tokens)|
                && var i := key.tokenNumber - |old(emitted)|;
                tokens == old(tokens)[..i] + KeyTokens(key, old(flowLevel == 0 && indent < key.column))
                          + old(tokens)[i..] + [Token(Value, index, column)]
      ensures ok && flowLevel !in old(possibleSimpleKeys) ==>
                tokens == old(tokens) + (if flowLevel == 0 && old(indent) < column
                                         then [Token(BlockMappingStart, index, column)] else [])
                                      + [Token(Value, index, column)]
      ensures ok ==> forall c: nat :: c in Columns(indents, indent)
                                 <==> c in old(Columns(indents, indent))
                                      || OpensBlock(LValue, flowLevel, old(possibleSimpleKeys), column, c)
      ensures ok ==> Spelled(tokens) == old(Spelled(tokens)) + Spelled([Token(Value, index, column)])
      ensures ok ==> Marks(tokens) == old(Marks(tokens))
                                      + SignsOf(LValue, flowLevel, old(possibleSimpleKeys), old(KeyHere()))
    {
      hide Queue.Ok, Ready, Core, Spelled, Marks, Columns;
      if flowLevel in possibleSimpleKeys {
        FetchSimpleValue();
        ok := true;
      } else {
        ok := FetchComplexValue();
      }
    }

    /** fetch_value where a simple key is possible. */
    method FetchSimpleValue()
      requires Ready() && flowLevel in possibleSimpleKeys
      modifies `tokens, `possibleSimpleKeys, `allowSimpleKey, `indent, `indents
      ensures Core() && possibleSimpleKeys == old(possibleSimpleKeys) - {flowLevel} && !allowSimpleKey
      ensures var key := old(possibleSimpleKeys)[flowLevel];
              && |old(emitted)| <= key.tokenNumber < |old(emitted)| + |old(tokens)|
              && (var i := key.tokenNumber - |old(emitted)|;
                  tokens == old(tokens)[..i] + KeyTokens(key, old(flowLevel == 0 && indent < key.column))
                            + old(tokens)[i..] + [Token(Value, index, column)])
              && (forall c :: c in Columns(indents, indent)
                              <==> c in old(Columns(indents, indent)) || (flowLevel == 0 && c == key.column))
      ensures Spelled(tokens) == old(Spelled(tokens)) + Spelled([Token(Value, index, column)])
      ensures Marks(tokens) == old(Marks(tokens))
                               + SignsOf(LValue, flowLevel, old(possibleSimpleKeys), old(KeyHere()))
    {
      hide Queue.Ok, Spelled, Marks, IndentsOk, Columns, CanPut, MayFollow, KeyTokens, SignsOf, IsQuiet, KeyHere;
      ghost var before := tokens;
      KeyMarks(possibleSimpleKeys, flowLevel, KeyHere(),
               flowLevel == 0 && indent < possibleSimpleKeys[flowLevel].column);
      InsertSimpleKey();
      PutStill(emitted, before, tokens, index, column);
      PutFollows(Q().Stream(), Token(Value, index, column));
      Counted(tokens, Token(Value, index, column));
      MarksOfOne(Token(Value, index, column));
      allowSimpleKey := false;
      AppendInPlace(Value, column);
    }

    /** fetch_value where no simple key is possible. */
    method FetchComplexValue() returns (ok: bool)
      requires Ready() && flowLevel !in possibleSimpleKeys
      modifies `tokens, `possibleSimpleKeys, `allowSimpleKey, `indent, `indents
      ensures ok <==> flowLevel != 0 || old(allowSimpleKey)
      ensures ok ==> Core() && possibleSimpleKeys == old(possibleSimpleKeys) && (allowSimpleKey <==> flowLevel == 0)
      ensures ok ==> tokens == old(tokens)
                               + (if flowLevel == 0 && old(indent) < column
                                  then [Token(BlockMappingStart, index, column)] else [])
                               + [Token(Value, index, column)]
      ensures ok ==> forall c :: c in Columns(indents, indent)
                                 <==> c in old(Columns(indents, indent)) || (flowLevel == 0 && c == column)
      ensures ok ==> Spelled(tokens) == old(Spelled(tokens)) + Spelled([Token(Value, index, column)])
      ensures ok ==> Marks(tokens) == old(Marks(tokens))
                                      + SignsOf(LValue, flowLevel, old(possibleSimpleKeys), old(KeyHere()))
    {
      hide Queue.Ok, Spelled, Marks, IndentsOk, Columns, MayFollow, CanPut;
      PutFollows(Q().Stream(), Token(Value, index, column));
      ghost var start :=
        if flowLevel == 0 && indent < column then [Token(BlockMappingStart, index, column)] else [];
      Appended(tokens, start, Token(Value, index, column));
      NoMarks([]);
      MarksOfOne(Token(BlockMappingStart, index, column));
      MarksOfOne(Token(Value, index, column));
      if flowLevel == 0 {
        if !allowSimpleKey {
          return false;
        }
        AppendBlockStart(BlockMappingStart, Value);
      }
      assert tokens == old(tokens) + start;
      CoreIsBare();
      allowSimpleKey := flowLevel == 0;
      ok := ResetSimpleKey();
      AppendInPlace(Value, column);
    }

    /** What is inserted in front of a simple key. */
    static function KeyTokens(key: SimpleKey, opens: bool): seq<Token> {
      (if opens then [Token(BlockMappingStart, key.index, key.column)] else []) + [Token(Key, key.index, key.column)]
    }

    /** The tokens of a simple key are the signs its ':' brings. */
    static lemma KeyMarks(keys: map<int, SimpleKey>, level: int, here: SimpleKey, opens: bool)
      requires level in keys && opens == (level == 0 && !keys[level].required)
      ensures Marks(KeyTokens(keys[level], opens)) == SignsOf(LValue, level, keys, here)
    {
      hide Marks;
      var key := keys[level];
      MarksOfOne(Token(Key, key.index, key.column));
      MarksOfOne(Token(BlockMappingStart, key.index, key.column));
      NoMarks([]);
      MarksMore(if opens then [Token(BlockMappingStart, key.index, key.column)] else [],
                [Token(Key, key.index, key.column)]);
    }

    /** The insertions of fetch_value: first KEY, then the start of the mapping in front of it. */
    method InsertSimpleKey()
      requires Core() && flowLevel in possibleSimpleKeys
      requires flowLevel == 0 ==> indent <= possibleSimpleKeys[0].column
      modifies `tokens, `possibleSimpleKeys, `indent, `indents
      ensures Core() && possibleSimpleKeys == old(possibleSimpleKeys) - {flowLevel}
      ensures var key := old(possibleSimpleKeys)[flowLevel];
              && |old(emitted)| <= key.tokenNumber < |old(emitted)| + |old(tokens)|
              && (var i := key.tokenNumber - |old(emitted)|;
                  tokens == old(tokens)[..i] + KeyTokens(key, old(flowLevel == 0 && indent < key.column))
                            + old(tokens)[i..])
              && (flowLevel == 0 ==> indent == key.column)
              && (forall c :: c in Columns(indents, indent)
                              <==> c in old(Columns(indents, indent)) || (flowLevel == 0 && c == key.column))
              && Marks(tokens) == old(Marks(tokens)) + Marks(KeyTokens(key, old(flowLevel == 0 && indent < key.column)))
      ensures tokens != [] && old(tokens) != [] && tokens[|tokens| - 1] == old(tokens[|tokens| - 1])
      ensures Spelled(tokens) == old(Spelled(tokens))
    {
      hide Queue.Ok, Queue.FlowsAt, Spelled, Marks, IndentsOk, Columns, ClosersMatch;
      ghost var q, before := Q(), tokens;
      ColumnsOk(indents, indent);
      var key := possibleSimpleKeys[flowLevel];
      ghost var opens := flowLevel == 0 && indent < key.column;
      ghost var w := KeyTokens(key, opens);
      if opens { ColumnsMore(indents, indent, key.column); }
      q.InsertKey(Token(Key, key.index, key.column), opens);
      var i := key.tokenNumber - tokensTaken;
      Inserted(before, i, w);
      possibleSimpleKeys := possibleSimpleKeys - {flowLevel};
      tokens := tokens[..i] + [Token(Key, key.index, key.column)] + tokens[i..];
      if flowLevel == 0 {
        var added := AddIndent(key.column);
        if added {
          tokens := tokens[..i] + [Token(BlockMappingStart, key.index, key.column)] + tokens[i..];
        }
      }
      InsertedTwice(before, i, key, opens);
      assert tokens == before[..i] + w + before[i..];
      assert Q() == q.Insert(key.tokenNumber, w)
                     .(keys := possibleSimpleKeys, blocks := if opens then q.blocks + [key.column] else q.blocks);
    }

    static lemma InsertedTwice(s: seq<Token>, i: nat, key: SimpleKey, opens: bool)
      requires i < |s|
      ensures var w, sign := KeyTokens(key, opens), Token(Key, key.index, key.column);
              var t, u := s[..i] + [sign] + s[i..], s[..i] + w + s[i..];
              && i <= |t| && (opens ==> t[..i] + [sign.(kind := BlockMappingStart)] + t[i..] == u)
              && (!opens ==> t == u) && u != [] && u[|u| - 1] == s[|s| - 1]
    {
      var sign := Token(Key, key.index, key.column);
      var t := s[..i] + [sign] + s[i..];
      assert t[..i] == s[..i] && t[i..] == [sign] + s[i..];
      assert [] + [sign] == [sign];
    }

    /** What stands behind everything is still there. */
    static lemma PutStill(e: seq<Token>, s: seq<Token>, u: seq<Token>, index: nat, column: int)
      requires s != [] && u != [] && s[|s| - 1] == u[|u| - 1] && CanPut(e + s, index, column)
      ensures CanPut(e + u, index, column)
    {
    }

    /** fetch_alias, fetch_anchor, fetch_tag, fetch_flow_scalar and fetch_plain */
    method FetchKeyStarter(kind: Kind, allowAfter: bool) returns (ok: bool)
      requires Ready() && StartsKey(kind) && !IsFlowStart(kind)
      modifies `tokens, `possibleSimpleKeys, `allowSimpleKey
      ensures ok <==> !(old(allowSimpleKey) && flowLevel in old(possibleSimpleKeys)
                        && old(possibleSimpleKeys)[flowLevel].required)
      ensures ok ==> Core() && allowSimpleKey == allowAfter && tokens == old(tokens) + [Token(kind, index, column)]
      ensures ok ==> possibleSimpleKeys ==
                       if old(allowSimpleKey) then old(possibleSimpleKeys)[flowLevel := old(KeyHere())]
                         else old(possibleSimpleKeys)
    {
      hide Queue.Ok, IndentsOk, Columns, MayFollow, CanPut;
      ghost var q, t := Q(), Token(kind, index, column);
      KeyStarterQueued(t);
      ok := SavePossibleSimpleKey();
      if !ok {
        return;
      }
      allowSimpleKey := allowAfter;
      Append(kind, column);
      assert Q() == q.Push(t).(keys := possibleSimpleKeys, flow := flowLevel + FlowStep(kind));
    }

    method FetchBlockScalar() returns (ok: bool)
      requires Ready()
      modifies `tokens, `possibleSimpleKeys, `allowSimpleKey
      ensures ok <==> flowLevel !in old(possibleSimpleKeys) || !old(possibleSimpleKeys)[flowLevel].required
      ensures ok ==> Core() && allowSimpleKey && tokens == old(tokens) + [Token(Scalar, index, column)]
      ensures ok ==> possibleSimpleKeys == old(possibleSimpleKeys) - {flowLevel}
    {
      hide Queue.Ok, IndentsOk, Columns, MayFollow, CanPut;
      CoreIsBare();
      allowSimpleKey := true;
      ok := ResetSimpleKey();
      if ok {
        PutFollows(Q().Stream(), Token(Scalar, index, column));
        AppendInPlace(Scalar, column);
      }
    }

    // Public methods.

    /** need_more_tokens: no token is handed out while it may still turn out to start a key. */
    method NeedMoreTokens() returns (ok: bool, more: bool)
      requires Valid()
      modifies `possibleSimpleKeys
      ensures if ok then Valid() else !done && Mistake(lexemes, next)
      ensures done || tokens == [] ==> ok && possibleSimpleKeys == old(possibleSimpleKeys)
      ensures ok && more ==> !done
      ensures ok && more && tokens != [] ==>
                exists level :: level in possibleSimpleKeys && possibleSimpleKeys[level].tokenNumber == tokensTaken
      ensures ok && !more && !done ==>
                tokens != [] && forall level :: level in possibleSimpleKeys ==>
                    possibleSimpleKeys[level].tokenNumber != tokensTaken
    {
      hide Queue.Ok, Agrees, Mistake, IndentsOk, AllowedBehind, Columns, IsText, Marks, Signs;
      if done {
        return true, false;
      }
      if tokens == [] {
        return true, true;
      }
      ghost var q := Q();
      ok := StalePossibleSimpleKeys();
      if !ok {
        LateIsMistake(q, lexemes, next);
        return false, false;
      }
      q.DropKeys(possibleSimpleKeys);
      Q().KeysInside();
      StaledAgrees(q, q.(keys := possibleSimpleKeys), lexemes, next, Here(), Here());
      var nearest, found := NextPossibleSimpleKey();
      more := found && nearest == tokensTaken;
    }

    /** fetch_more_tokens: one lexeme, refused exactly if it is a mistake. */
    method FetchMoreTokens() returns (ok: bool)
      requires Valid() && !done
      modifies this
      ensures ok <==> !Mistake(lexemes, old(next))
      ensures ok ==> Valid() && next == old(next) + 1
      ensures emitted == old(emitted)
      ensures ok ==> Spelled(tokens) == old(Spelled(tokens)) + TokenOf(lexemes[old(next)])
    {
      hide Queue.Ok, Spelled, Columns, IndentsOk, Mistake, Refused, Ready, CanPut, Passed, KeyIs, KeysAfter, Agrees;
      hide KeysNear, Marks, Signs, AllowedBehind, MayStart, Depth, AllowsKey, BlocksAfter, AllNear;
      ghost var n := next;
      var l := lexemes[next];
      ghost var q: Queue;
      ok, q := Approach(l);
      if !ok {
        return;
      }
      ghost var blocks, here := Columns(indents, indent), KeyHere();
      RefusedIsMistake(q, lexemes, n);
      ok := Fetch(l);
      if ok {
        next := next + 1;
        MoveTo(l.end);
        ghost var q' := Q().(keys := KeysAfter(q.keys, l.lex, q.flow, MayStart(lexemes, n), here));
        MarksMore(emitted, tokens);
        AgreesNext(q, q', lexemes, n, blocks, here);
        assert InOrder(lexemes, n);
        if !done { TokenPassed(emitted, tokens, l); }
      }
    }

    /** What fetch_more_tokens does before it looks at the first character: it skips to the lexeme, gives up the keys
        that are too far away, and ends the deeper blocks. The queue is the one before the blocks are ended. */
    method Approach(l: Lexeme) returns (ok: bool, ghost q: Queue)
      requires Valid() && !done && l == lexemes[next]
      modifies `possibleSimpleKeys, `allowSimpleKey, `index, `line, `column, `tokens, `indent, `indents
      ensures !ok ==> Mistake(lexemes, next)
      ensures ok ==> Ready() && Here() == l.start && KeyIs(KeyHere(), lexemes, next)
      ensures ok ==> (allowSimpleKey <==> MayStart(lexemes, next)) && AllNear(lexemes, next)
      ensures ok ==> q.keys == possibleSimpleKeys && q.flow == flowLevel
      ensures ok ==> Agrees(q, lexemes, next, Here()) && KeysNear(q.keys, Here())
      ensures ok ==> Unwound(q.blocks, Columns(indents, indent), flowLevel, column)
      ensures ok ==> Marks(q.Stream()) == Marks(emitted) + Marks(tokens)
      ensures ok ==> Spelled(tokens) == old(Spelled(tokens))
    {
      hide Queue.Ok, Spelled, Columns, IndentsOk, Mistake, Ready, Bare, CanPut, Passed, KeyIs, AllNear;
      hide KeysKnown, KeysKept, KeysNear, StackIs, Marks, Signs, AllowedBehind, Depth, EndsBehind;
      q := Q();
      assert InOrder(lexemes, next);
      if l.start.line != line && flowLevel == 0 {
        allowSimpleKey := true;
      }
      MoveTo(l.start);
      ok := StalePossibleSimpleKeys();
      StaleIsMistake(q, lexemes, next);
      if !ok {
        return;
      }
      q.DropKeys(possibleSimpleKeys);
      StaledAgrees(q, Q(), lexemes, next, EndOf(lexemes, next), l.start);
      CoreIsBare();
      PutBehind(q.Stream(), EndOf(lexemes, next).index, index, column);
      ColumnsOk(indents, indent);
      MarksMore(emitted, tokens);
      q := Q();
      UnwindIndent(column);
      IsReady(q);
    }

    static lemma PutBehind(s: seq<Token>, behind: nat, index: nat, column: int)
      requires Passed(s, behind) && behind <= index
      ensures CanPut(s, index, column)
    {
    }

    static lemma TokenPassed(s: seq<Token>, u: seq<Token>, l: Lexeme)
      requires u != [] && u[|u| - 1] == TheToken(l) && l.start.index < l.end.index
      ensures Passed(s + u, l.end.index)
    {
    }

    /** Behind the unwinding everything is ready for the lexeme, and a key here would be what the layout rules say. */
    lemma IsReady(q: Queue)
      requires Bare() && IsText(lexemes) && next < |lexemes| && Here() == lexemes[next].start
      requires q.Ok() && Agrees(q, lexemes, next, Here()) && KeysNear(q.keys, Here())
      requires q.keys == possibleSimpleKeys && q.flow == flowLevel
      requires allowSimpleKey <==> MayStart(lexemes, next)
      requires CanPut(Q().Stream(), index, column) && (flowLevel == 0 ==> indent <= column)
      requires flowLevel != 0 || Deepest(q.blocks) <= column ==> Q() == q
      requires Unwound(q.blocks, Columns(indents, indent), flowLevel, column)
      ensures Ready() && KeyIs(KeyHere(), lexemes, next)
    {
      hide Queue.Ok, Columns, IndentsOk, CanPut, KeysKnown, KeysKept, KeysNear, Marks, Signs, Depth, MayStart;
      hide BlockOpen;
      ColumnsOk(indents, indent);
      if flowLevel !in possibleSimpleKeys { BareIsCore(); }
      if flowLevel == 0 && 0 in possibleSimpleKeys {
        KeyOutside(q, lexemes, next);
        assert q.blocks != [] ==> Deepest(q.blocks) in q.blocks;
      }
    }

    /** The lexeme's token is queued, behind what has to be queued with it. */
    twostate predicate Fetched(l: Lexeme)
      reads this
    {
      && Core() && (done <==> l.lex.LStreamEnd?)
      && (done ==> possibleSimpleKeys == map[] && (flowLevel == 0 ==> indents == []))
      && tokens != [] && tokens[|tokens| - 1] == TheToken(l)
      && Spelled(tokens) == old(Spelled(tokens)) + TokenOf(l)
      && Marks(tokens) == old(Marks(tokens))
                          + SignsOf(l.lex, old(flowLevel), old(possibleSimpleKeys), old(KeyHere()))
      && flowLevel == old(flowLevel) + FlowStep(KindOf(l.lex))
      && allowSimpleKey == AllowsKey(l, old(flowLevel), old(flowLevel in possibleSimpleKeys))
      && (!done ==> possibleSimpleKeys == KeysAfter(old(possibleSimpleKeys), l.lex, old(flowLevel),
                                                    old(allowSimpleKey), old(KeyHere())))
      && BlocksAfter(l.lex, old(flowLevel), old(possibleSimpleKeys), column, old(Columns(indents, indent)),
                     Columns(indents, indent))
    }

    /** The dispatch of fetch_more_tokens. */
    method Fetch(l: Lexeme) returns (ok: bool)
      requires Ready() && !done && Here() == l.start
      modifies `tokens, `possibleSimpleKeys, `allowSimpleKey, `flowLevel, `indent, `indents, `done
      ensures ok <==> !Refused(l.lex, old(flowLevel), old(possibleSimpleKeys), old(allowSimpleKey))
      ensures ok ==> Fetched(l)
    {
      hide Fetched, Ready, Refused;
      match l.lex {
        case LStreamEnd | LDirective | LDocumentStart | LDocumentEnd => ok := FetchBoundary(l);
        case LFlowSequenceStart | LFlowMappingStart | LFlowSequenceEnd | LFlowMappingEnd => ok := FetchBracket(l);
        case LFlowEntry | LBlockEntry | LKey | LValue => ok := FetchIndicator(l);
        case LAlias | LAnchor | LTag | LBlockScalar | LFlowScalar | LPlain => ok := FetchNodePart(l);
      }
    }

    method FetchBoundary(l: Lexeme) returns (ok: bool)
      requires Ready() && !done && Here() == l.start && IsMargin(l.lex)
      modifies `tokens, `possibleSimpleKeys, `allowSimpleKey, `indent, `indents, `done
      ensures ok <==> !Refused(l.lex, old(flowLevel), old(possibleSimpleKeys), old(allowSimpleKey))
      ensures ok ==> Fetched(l)
    {
      hide Queue.Ok, Ready, Spelled, Marks, Columns;
      MarksOfOne(TheToken(l));
      if l.lex.LStreamEnd? {
        ok := FetchStreamEnd();
      } else {
        ok := FetchAtMargin(KindOf(l.lex));
      }
    }

    method FetchBracket(l: Lexeme) returns (ok: bool)
      requires Ready() && !done && Here() == l.start && (IsFlowStart(KindOf(l.lex)) || IsFlowEnd(KindOf(l.lex)))
      modifies `tokens, `possibleSimpleKeys, `allowSimpleKey, `flowLevel
      ensures ok <==> !Refused(l.lex, old(flowLevel), old(possibleSimpleKeys), old(allowSimpleKey))
      ensures ok ==> Fetched(l)
    {
      hide Queue.Ok, Ready, Spelled, Marks, Columns;
      Counted(tokens, TheToken(l));
      MarksOfOne(TheToken(l));
      if IsFlowStart(KindOf(l.lex)) {
        ok := FetchFlowCollectionStart(KindOf(l.lex));
      } else {
        ok := FetchFlowCollectionEnd(KindOf(l.lex));
      }
    }

    method FetchIndicator(l: Lexeme) returns (ok: bool)
      requires Ready() && !done && Here() == l.start
      requires l.lex.LFlowEntry? || l.lex.LBlockEntry? || l.lex.LKey? || l.lex.LValue?
      modifies `tokens, `possibleSimpleKeys, `allowSimpleKey, `indent, `indents
      ensures ok <==> !Refused(l.lex, old(flowLevel), old(possibleSimpleKeys), old(allowSimpleKey))
      ensures ok ==> Fetched(l)
    {
      hide Queue.Ok, Ready, Spelled, Marks, Columns;
      MarksOfOne(TheToken(l));
      Counted(tokens, TheToken(l));
      match l.lex {
        case LFlowEntry => ok := FetchFlowEntry();
        case LBlockEntry => ok := FetchBlockIndicator(BlockSequenceStart, BlockEntry);
        case LKey => ok := FetchBlockIndicator(BlockMappingStart, Key);
        case LValue => ok := FetchValue();
      }
    }

    /** A properties token, an alias or a scalar; only a block scalar starts no key. */
    method FetchNodePart(l: Lexeme) returns (ok: bool)
      requires Ready() && !done && Here() == l.start && StartsKey(KindOf(l.lex)) && !IsFlowStart(KindOf(l.lex))
      modifies `tokens, `possibleSimpleKeys, `allowSimpleKey
      ensures ok <==> !Refused(l.lex, old(flowLevel), old(possibleSimpleKeys), old(allowSimpleKey))
      ensures ok ==> Fetched(l)
    {
      hide Queue.Ok, Ready, Spelled, Marks, Columns;
      Counted(tokens, TheToken(l));
      MarksOfOne(TheToken(l));
      if l.lex.LBlockScalar? {
        ok := FetchBlockScalar();
      } else {
        ok := FetchKeyStarter(KindOf(l.lex), l.lex.LPlain? && l.newLine);
      }
    }

    /** get_token: the next token, none behind STREAM-END. */
    method GetToken() returns (ok: bool, token: seq<Token>)
      requires Valid()
      modifies this
      ensures if ok then Valid() else HasMistake(lexemes)
      ensures ok ==> emitted == old(emitted) + token && |token| <= 1 && next >= old(next)
      ensures ok && token == [] ==> done && tokens == []
      ensures ok && token != [] ==> next > old(next) || (next == old(next) && |tokens| < |old(tokens)|)
      ensures old(Faithful()) && ok ==> Faithful()
    {
      hide Queue.Ok, Spelled, TokensOf, Mistake, IndentsOk, Columns, IsText, Knows, TokenOf;
      token := [];
      var more: bool;
      ok, more := NeedMoreTokens();
      while ok && more
        invariant if ok then Valid() else HasMistake(lexemes)
        invariant ok ==> emitted == old(emitted) && next >= old(next)
        invariant ok && next == old(next) ==> tokens == old(tokens)
        invariant old(Faithful()) && ok ==> Faithful()
        invariant ok && more ==> !done
        invariant ok && !more && !done ==>
                    tokens != [] && forall level :: level in possibleSimpleKeys ==>
                        possibleSimpleKeys[level].tokenNumber != tokensTaken
        decreases ok, |lexemes| - next
      {
        TokensOfStep(lexemes, next);
        SpelledMore(emitted, tokens, TokensOf(lexemes[..next]), TokenOf(lexemes[next]));
        ok := FetchMoreTokens();
        if ok {
          ok, more := NeedMoreTokens();
        }
      }
      if ok && tokens != [] {
        token := Take();
      }
    }

    /** The first token leaves the queue. */
    method Take() returns (token: seq<Token>)
      requires Valid() && tokens != []
      requires forall level :: level in possibleSimpleKeys ==> possibleSimpleKeys[level].tokenNumber != tokensTaken
      modifies `tokens, `tokensTaken, `emitted
      ensures Valid() && emitted == old(emitted) + token && token == [old(tokens)[0]] && tokens == old(tokens)[1..]
      ensures old(Faithful()) ==> Faithful()
    {
      hide Queue.Ok, Spelled, TokensOf, Mistake, IndentsOk, Columns, IsText, Agrees, AllowedBehind, Passed;
      hide Signs, Marks, EndOf;
      ghost var q := Q();
      SpelledTake(emitted, tokens);
      q.TakeKeeps();
      token := [tokens[0]];
      tokensTaken := tokensTaken + 1;
      emitted := emitted + token;
      tokens := tokens[1..];
      assert Q() == q.(emitted := emitted, tokens := tokens);
      assert Q().Stream() == q.Stream();
      SameAgrees(q, Q(), lexemes, next, Here());
    }

    /** The tokens handed out and queued are those the text spells so far, in order, and added ones. */
    ghost predicate Faithful()
      reads this
    {
      next <= |lexemes| && Spelled(emitted) + Spelled(tokens) == TokensOf(lexemes[..next])
    }

    static lemma TokensOfStep(l: seq<Lexeme>, n: nat)
      requires n < |l|
      ensures TokensOf(l[..n + 1]) == TokensOf(l[..n]) + TokenOf(l[n])
    {
      assert l[..n + 1][..n] == l[..n];
    }

    static lemma SpelledMore(a: seq<Token>, b: seq<Token>, l: seq<Token>, t: seq<Token>)
      ensures Spelled(a) + Spelled(b) == l ==> Spelled(a) + (Spelled(b) + t) == l + t
    {
    }

    static lemma SpelledTake(a: seq<Token>, b: seq<Token>)
      requires b != []
      ensures Spelled(a + [b[0]]) + Spelled(b[1..]) == Spelled(a) + Spelled(b)
    {
      hide Spelled;
      SpelledJoin(a, [b[0]]);
      SpelledJoin([b[0]], b[1..]);
      assert [b[0]] + b[1..] == b;
    }

    /** All tokens of the text, refused exactly if some lexeme is a mistake. They are those the text spells, in order,
        with simple keys and blocks added; neighbours fit, KEYs stand where the layout rules find keys, and the
        layout law is kept with every block ended, if the flow brackets of the text match. */
    method ScanAll() returns (ok: bool, all: seq<Token>)
      requires Valid() && Faithful() && emitted == []
      modifies this
      ensures ok <==> !HasMistake(lexemes)
      ensures ok ==> done && tokens == [] && all == emitted
      ensures ok ==> Spelled(all) == TokensOf(lexemes)
      ensures ok ==> SideBySide(all) && Marks(all) == Signs(lexemes, |lexemes|)
      ensures ok && ClosersMatch(all) && FlowDepth(all) == 0 ==> Nesting(all) == Open([], 0)
    {
      hide Spelled, TokensOf, Mistake, Signs, Marks;
      all := [];
      var token: seq<Token> := [];
      ok, token := GetToken();
      while ok && token != []
        invariant if ok then Valid() else HasMistake(lexemes)
        invariant ok ==> Faithful() && emitted == all + token && (token == [] ==> done && tokens == [])
        decreases ok, |lexemes| - next, |tokens|, |token|
      {
        all := all + token;
        ok, token := GetToken();
      }
      if ok {
        assert Q().Stream() == emitted == all;
        AddedSpellNothing([]);
        assert lexemes[..next] == lexemes && Spelled(all) + [] == Spelled(all);
      }
    }
  }
}
