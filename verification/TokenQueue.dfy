/** The scanner's token queue with its possible simple keys: what every operation keeps. */
module TokenQueue {
  import opened TokenNesting

  datatype SimpleKey = SimpleKey(tokenNumber: nat, required: bool, index: nat, line: nat, column: nat)

  /** The tokens handed out, the tokens queued, the possible simple keys by flow level, the flow level,
      and the columns of the open block collections. */
  datatype Queue = Queue(emitted: seq<Token>, tokens: seq<Token>, keys: map<int, SimpleKey>, flow: int,
                         blocks: seq<int>) {
    function Stream(): seq<Token> { emitted + tokens }

    /** The key's token number is that of the queued token that started it, which has no KEY yet. */
    predicate PointsAtToken(key: SimpleKey) {
      && |emitted| <= key.tokenNumber < |Stream()|
      && var t := Stream()[key.tokenNumber];
         && StartsKey(t.kind) && t.index == key.index && t.column == key.column
         && (key.tokenNumber > 0 ==> !IsKeySign(Stream()[key.tokenNumber - 1], t))
    }

    ghost predicate KeysOk() {
      && (forall level :: level in keys ==> level <= flow && PointsAtToken(keys[level]))
      && (forall a, b :: a in keys && b in keys && a < b ==> keys[a].tokenNumber < keys[b].tokenNumber)
    }

    /** As long as no flow closer is unmatched, the stream keeps the layout law, with the blocks open whose columns
        the scanner has on its stack and as many flow collections as it counts; every key stands at its flow level,
        and behind the key of level 0 no block is opened or ended. */
    ghost predicate NestingOk() {
      && FlowDepth(Stream()) == flow
      && (ClosersMatch(Stream()) ==> Nesting(Stream()) == Open(blocks, flow))
      && (ClosersMatch(Stream()) ==> forall level :: level in keys && PointsAtToken(keys[level]) ==>
            FlowsAt(keys[level].tokenNumber) == level)
      && (ClosersMatch(Stream()) && 0 in keys ==> QuietBehind(keys[0]))
    }

    ghost predicate QuietBehind(key: SimpleKey) {
      key.tokenNumber <= |Stream()|
      && Quiet(Nesting(Stream()[..key.tokenNumber]), Stream()[key.tokenNumber..], key.column)
    }

    /** The flow collections open in front of the n-th token, -1 if the brackets are broken. */
    function FlowsAt(n: nat): int {
      if n <= |Stream()| && Nesting(Stream()[..n]).Open? then Nesting(Stream()[..n]).flows else -1
    }

    ghost predicate Ok() { KeysOk() && NestingOk() && SideBySide(Stream()) }

    function Push(t: Token): Queue { this.(tokens := tokens + [t]) }

    lemma PushStream(t: Token)
      ensures Push(t).Stream() == Stream() + [t]
      ensures FlowDepth(Push(t).Stream()) == FlowDepth(Stream()) + FlowStep(t.kind)
      ensures ClosersMatch(Push(t).Stream()) == (ClosersMatch(Stream()) && FlowDepth(Push(t).Stream()) >= 0)
      ensures Nesting(Push(t).Stream()) == Nest(Nesting(Stream()), t)
      ensures forall n: nat :: n <= |Stream()| ==> Push(t).FlowsAt(n) == FlowsAt(n)
    {
      Snoc(Stream(), t);
      assert Push(t).Stream() == Stream() + [t];
      forall n: nat | n <= |Stream()| ensures Push(t).FlowsAt(n) == FlowsAt(n) {
        assert (Stream() + [t])[..n] == Stream()[..n];
      }
    }

    /** A queue's levels are those of its stream. */
    lemma SameStream(q: Queue, r: Queue)
      requires q.emitted == r.emitted && q.tokens == r.tokens
      ensures q.Stream() == r.Stream()
      ensures forall n: nat :: q.FlowsAt(n) == r.FlowsAt(n)
      ensures forall key :: q.PointsAtToken(key) == r.PointsAtToken(key)
      ensures forall key :: q.QuietBehind(key) == r.QuietBehind(key)
    {
    }

    lemma PushPoints(t: Token, key: SimpleKey)
      requires PointsAtToken(key)
      ensures Push(t).PointsAtToken(key)
    {
    }

    lemma PushParts(t: Token, n: nat)
      requires n <= |Stream()|
      ensures var s, u := Stream(), Push(t).Stream();
              s == s[..n] + s[n..] && u == s + [t] && u[..n] == s[..n] && u[n..] == s[n..] + [t]
    {
    }

    lemma PushQuiet(t: Token)
      requires Ok() && ClosersMatch(Stream()) && 0 in keys && (flow == 0 ==> IsQuiet(t, keys[0].column))
      ensures Push(t).QuietBehind(keys[0])
    {
      hide Run, Nest, IsQuiet, ClosersMatch, FlowDepth, Quiet, Beside;
      var n := keys[0].tokenNumber;
      KeysInside();
      var s := Stream();
      PushParts(t, n);
      RunJoin(Open([], 0), s[..n], s[n..]);
      QuietMore(Nesting(s[..n]), s[n..], t, keys[0].column);
    }

    /** One more token, which must fit. */
    lemma PushKeeps(t: Token, blocks': seq<int>)
      requires Ok() && MayFollow(Stream(), t)
      requires ClosersMatch(Stream()) && flow + FlowStep(t.kind) >= 0 ==>
                 Nest(Open(blocks, flow), t) == Open(blocks', flow + FlowStep(t.kind))
      requires forall level :: level in keys ==> level <= flow + FlowStep(t.kind)
      requires ClosersMatch(Stream()) && flow == 0 && 0 in keys ==> IsQuiet(t, keys[0].column)
      ensures Push(t).(blocks := blocks', flow := flow + FlowStep(t.kind)).Ok()
    {
      hide Nest, Run, FlowDepth, ClosersMatch, IsQuiet, FlowsAt, PointsAtToken, QuietBehind, Beside;
      PushStream(t);
      NonNegative(Stream());
      var q := Push(t).(blocks := blocks', flow := flow + FlowStep(t.kind));
      SameStream(q, Push(t));
      forall level | level in keys ensures q.PointsAtToken(keys[level]) {
        PushPoints(t, keys[level]);
      }
      KeysInside();
      SideBySideMore(Stream(), t);
      if ClosersMatch(Stream()) && 0 in keys { PushQuiet(t); }
    }

    /** One more token that opens and ends no block, where it stands in the innermost one. */
    lemma PushInPlace(t: Token)
      requires Ok() && MayFollow(Stream(), t) && !IsBlockStart(t.kind) && !t.kind.BlockEnd?
      requires flow == 0 ==> FitsIn(blocks, t)
      requires flow == 0 && 0 in keys ==> IsQuiet(t, keys[0].column)
      requires IsFlowEnd(t.kind) ==> flow !in keys
      ensures Push(t).(flow := flow + FlowStep(t.kind)).Ok()
    {
      hide Run, FlowDepth, ClosersMatch, FlowsAt, PointsAtToken, QuietBehind, Beside;
      NonNegative(Stream());
      PushKeeps(t, blocks);
      assert Push(t).(blocks := blocks, flow := flow + FlowStep(t.kind))
          == Push(t).(flow := flow + FlowStep(t.kind));
    }

    lemma PushBlockStart(t: Token)
      requires Ok() && MayFollow(Stream(), t) && IsBlockStart(t.kind) && flow == 0 && 0 !in keys
      requires Deepest(blocks) < t.column
      ensures Push(t).(blocks := blocks + [t.column]).Ok()
    {
      hide Run, FlowDepth, ClosersMatch, FlowsAt, PointsAtToken, QuietBehind, Beside;
      PushKeeps(t, blocks + [t.column]);
      assert Push(t).(blocks := blocks + [t.column], flow := flow + FlowStep(t.kind))
          == Push(t).(blocks := blocks + [t.column]);
    }

    lemma PushBlockEnd(t: Token)
      requires Ok() && MayFollow(Stream(), t) && t.kind.BlockEnd? && flow == 0 && 0 !in keys
      requires blocks != [] && t.column < Deepest(blocks)
      ensures Push(t).(blocks := blocks[..|blocks| - 1]).Ok()
    {
      hide Run, FlowDepth, ClosersMatch, FlowsAt, PointsAtToken, QuietBehind, Beside;
      PushKeeps(t, blocks[..|blocks| - 1]);
      assert Push(t).(blocks := blocks[..|blocks| - 1], flow := flow + FlowStep(t.kind))
          == Push(t).(blocks := blocks[..|blocks| - 1]);
    }

    lemma KeysInside()
      requires Ok()
      ensures forall level :: level in keys ==> |emitted| <= keys[level].tokenNumber <= |Stream()|
    {
    }

    /** The key of the last token. */
    lemma AddKey(level: int, key: SimpleKey)
      requires Ok() && level !in keys && level <= flow && forall a :: a in keys ==> a < level
      requires Stream() != [] && key.tokenNumber == |Stream()| - 1 && PointsAtToken(key)
      requires forall a :: a in keys ==> keys[a].tokenNumber < key.tokenNumber
      requires ClosersMatch(Stream()) ==> FlowsAt(key.tokenNumber) == level
      ensures this.(keys := keys[level := key]).Ok()
    {
      hide Nest, Run, FlowDepth, ClosersMatch, FlowsAt, QuietBehind, Beside, PointsAtToken, SideBySide;
      var q := this.(keys := keys[level := key]);
      SameStream(q, this);
      if level == 0 { LastIsQuiet(key); }
    }

    lemma LastIsQuiet(key: SimpleKey)
      requires Stream() != [] && key.tokenNumber == |Stream()| - 1 && PointsAtToken(key)
      ensures QuietBehind(key)
    {
    }

    /** The token that may start a key is queued with its key, which replaces that of its level. */
    lemma PushKey(t: Token, key: SimpleKey)
      requires Ok() && MayFollow(Stream(), t) && StartsKey(t.kind)
      requires key.tokenNumber == |Stream()| && key.index == t.index && key.column == t.column
      requires Stream() != [] ==> !IsKeySign(Stream()[|Stream()| - 1], t)
      requires ClosersMatch(Stream()) && flow == 0 ==> FitsIn(blocks, t)
      ensures Push(t).(keys := keys[flow := key], flow := flow + FlowStep(t.kind)).Ok()
    {
      hide KeysOk, NestingOk, SideBySide, Nest, PointsAtToken, MayFollow, FitsIn, IsKeySign, FlowsAt;
      var fewer := keys - {flow};
      DropKeys(fewer);
      var r := this.(keys := fewer);
      SameStream(r, this);
      r.StartFits(t);
      r.PushKeeps(t, blocks);
      var u := r.Push(t).(blocks := blocks, flow := flow + FlowStep(t.kind));
      LastKey(t, key, u);
      u.AddKey(flow, key);
      assert u.(keys := fewer[flow := key]) == Push(t).(keys := keys[flow := key], flow := flow + FlowStep(t.kind));
    }

    /** The key points at the token just queued, behind those of the outer levels. */
    lemma LastKey(t: Token, key: SimpleKey, u: Queue)
      requires Ok() && StartsKey(t.kind) && key.tokenNumber == |Stream()| && key.index == t.index
      requires key.column == t.column
      requires Stream() != [] ==> !IsKeySign(Stream()[|Stream()| - 1], t)
      requires u.emitted == emitted && u.tokens == tokens + [t] && u.keys == keys - {flow} && u.Ok()
      ensures u.Stream() == Stream() + [t] && u.PointsAtToken(key)
      ensures forall a :: a in u.keys ==> a < flow && u.keys[a].tokenNumber < key.tokenNumber
      ensures ClosersMatch(u.Stream()) ==> u.FlowsAt(key.tokenNumber) == flow
    {
      hide Run, FlowDepth, ClosersMatch, FlowsAt, QuietBehind, Beside, NestingOk;
      PushStream(t);
      SameStream(u, Push(t));
      LevelHere();
      KeysStrictlyInside();
    }

    lemma KeysStrictlyInside()
      requires KeysOk()
      ensures forall level :: level in keys ==> keys[level].tokenNumber < |Stream()|
    {
    }

    /** A token that may start a key does not change the blocks. */
    lemma StartFits(t: Token)
      requires Ok() && StartsKey(t.kind) && (ClosersMatch(Stream()) && flow == 0 ==> FitsIn(blocks, t))
      requires flow !in keys
      ensures ClosersMatch(Stream()) && flow + FlowStep(t.kind) >= 0 ==>
                Nest(Open(blocks, flow), t) == Open(blocks, flow + FlowStep(t.kind))
      ensures forall level :: level in keys ==> level <= flow + FlowStep(t.kind)
    {
      hide Run, FlowDepth, ClosersMatch, PointsAtToken;
      NonNegative(Stream());
    }

    lemma LevelHere()
      requires Ok()
      ensures ClosersMatch(Stream()) ==> FlowsAt(|Stream()|) == flow
    {
      hide Run, FlowDepth, ClosersMatch;
      NonNegative(Stream());
      assert Stream()[..|Stream()|] == Stream();
    }

    lemma DropKeys(fewer: map<int, SimpleKey>)
      requires Ok() && forall level :: level in fewer ==> level in keys && fewer[level] == keys[level]
      ensures this.(keys := fewer).Ok()
    {
      hide Run, FlowDepth, ClosersMatch, FlowsAt, QuietBehind, PointsAtToken, Beside;
      SameStream(this.(keys := fewer), this);
    }

    /** The first token is handed out, unless a key may still have to be inserted before it. */
    lemma TakeKeeps()
      requires Ok() && tokens != [] && forall level :: level in keys ==> keys[level].tokenNumber != |emitted|
      ensures this.(emitted := emitted + [tokens[0]], tokens := tokens[1..]).Ok()
    {
      hide Run, FlowDepth, ClosersMatch, Quiet, Beside;
      var q := this.(emitted := emitted + [tokens[0]], tokens := tokens[1..]);
      assert q.Stream() == Stream();
      forall level | level in keys ensures q.PointsAtToken(keys[level]) {
        assert PointsAtToken(keys[level]);
      }
      assert forall n: nat :: q.FlowsAt(n) == FlowsAt(n);
      assert 0 in keys ==> q.QuietBehind(keys[0]) == QuietBehind(keys[0]);
    }

    function Insert(n: nat, w: seq<Token>): Queue
      requires |emitted| <= n <= |Stream()|
    {
      var i := n - |emitted|;
      this.(tokens := tokens[..i] + w + tokens[i..])
    }

    lemma InsertStream(n: nat, w: seq<Token>)
      requires |emitted| <= n <= |Stream()|
      ensures Insert(n, w).Stream() == Stream()[..n] + w + Stream()[n..]
      ensures Stream() == Stream()[..n] + Stream()[n..]
      ensures forall m: nat :: m <= n ==> Insert(n, w).FlowsAt(m) == FlowsAt(m)
    {
      var i := n - |emitted|;
      assert Stream()[..n] == emitted + tokens[..i] && Stream()[n..] == tokens[i..];
      assert Insert(n, w).Stream() == Stream()[..n] + w + Stream()[n..];
      forall m: nat | m <= n ensures Insert(n, w).FlowsAt(m) == FlowsAt(m) {
        assert (Stream()[..n] + w + Stream()[n..])[..m] == Stream()[..m];
      }
    }

    /** What is inserted at the key of the current level leaves the outer keys at their tokens. */
    lemma OuterKey(n: nat, w: seq<Token>, key: SimpleKey)
      requires |emitted| <= n <= |Stream()| && PointsAtToken(key) && key.tokenNumber < n
      ensures Insert(n, w).PointsAtToken(key)
    {
      InsertStream(n, w);
    }

    /** Where the key of the current level stands. */
    lemma KeyHere()
      requires Ok() && flow in keys
      ensures var n := keys[flow].tokenNumber;
              && |emitted| <= n < |Stream()| && PointsAtToken(keys[flow])
              && (forall a :: a in keys && a != flow ==> keys[a].tokenNumber < n && a < flow)
              && (ClosersMatch(Stream()) ==> FlowsAt(n) == flow >= 0)
    {
      NonNegative(Stream());
      assert PointsAtToken(keys[flow]);
    }

    /** The blocks in front of the key of flow level 0 are those that are still open. */
    lemma BlocksHere()
      requires Ok() && flow == 0 && 0 in keys && ClosersMatch(Stream())
      ensures var n := keys[0].tokenNumber;
              && n < |Stream()| && Nesting(Stream()[..n]) == Open(blocks, 0)
              && Quiet(Nesting(Stream()[..n]), Stream()[n..], keys[0].column)
              && Deepest(blocks) <= keys[0].column
    {
      hide FlowDepth, ClosersMatch, Quiet, SideBySide, Run;
      KeyHere();
      var n := keys[0].tokenNumber;
      var p, q := Stream()[..n], Stream()[n..];
      assert p + q == Stream();
      RunJoin(Open([], 0), p, q);
      QuietRuns(Nesting(p).blocks, q, keys[0].column);
      FirstFits(Nesting(p).blocks, q);
    }

    lemma FirstFits(b: seq<int>, q: seq<Token>)
      requires q != [] && StartsKey(q[0].kind) && Run(Open(b, 0), q).Open?
      ensures Deepest(b) <= q[0].column
    {
      assert q == [q[0]] + q[1..];
      RunJoin(Open(b, 0), [q[0]], q[1..]);
      assert [q[0]][..0] == [];
      assert Run(Open(b, 0), [q[0]]) == Nest(Open(b, 0), q[0]);
      if Deepest(b) > q[0].column { BrokenStays(q[1..]); }
    }

    /** KEY inside flow brackets keeps what is behind an outer key quiet. */
    lemma OuterQuiet(n: nat, key: Token)
      requires Ok() && ClosersMatch(Stream()) && 0 in keys && keys[0].tokenNumber < n <= |Stream()| && |emitted| <= n
      requires key.kind.Key? && FlowsAt(n) > 0
      ensures Insert(n, [key]).QuietBehind(keys[0])
    {
      hide FlowDepth, ClosersMatch, IsQuiet;
      InsertStream(n, [key]);
      var k := keys[0].tokenNumber;
      var s, u := Stream(), Insert(n, [key]).Stream();
      var a, b := s[k..n], s[n..];
      assert s[..n] == s[..k] + a && s[k..] == a + b && u[..k] == s[..k] && u[k..] == a + [key] + b;
      var o := Nesting(s[..k]);
      RunJoin(Open([], 0), s[..k], a);
      QuietInserted(o, a, key, b, keys[0].column);
    }

    lemma QuietInserted(o: Open, a: seq<Token>, key: Token, b: seq<Token>, column: int)
      requires Quiet(o, a + b, column) && key.kind.Key? && Run(o, a).Open? && Run(o, a).flows > 0
      ensures Quiet(o, a + [key] + b, column)
    {
      hide IsQuiet;
      var u := a + [key] + b;
      Snoc(a, key);
      forall i | 0 <= i < |u|
        ensures Run(o, u[..i]).Open? && Run(o, u[..i]).flows == 0 ==> IsQuiet(u[i], column)
      {
        if i < |a| {
          assert u[..i] == (a + b)[..i] && u[i] == (a + b)[i];
        } else if i == |a| {
          assert u[..i] == a;
        } else {
          var j := i - |a| - 1;
          assert u[..i] == a + [key] + b[..j] && (a + b)[..|a| + j] == a + b[..j] && u[i] == (a + b)[|a| + j];
          RunJoin(o, a + [key], b[..j]);
          RunJoin(o, a, b[..j]);
        }
      }
    }

    /** A key of the current level is found: KEY goes in front of its token, and the start of its mapping in front of
        KEY where it is deeper than the innermost block. The keys of outer levels stay in front of it. */
    lemma InsertKey(key: Token, opens: bool)
      requires Ok() && flow in keys && key == Token(Key, keys[flow].index, keys[flow].column)
      requires opens == (flow == 0 && Deepest(blocks) < key.column)
      ensures |emitted| <= keys[flow].tokenNumber < |Stream()|
      ensures var w := (if opens then [key.(kind := BlockMappingStart)] else []) + [key];
              Insert(keys[flow].tokenNumber, w)
                .(keys := keys - {flow}, blocks := if opens then blocks + [key.column] else blocks).Ok()
    {
      hide Run, FlowDepth, ClosersMatch, FlowsAt, QuietBehind, Beside, PointsAtToken;
      KeyHere();
      var n := keys[flow].tokenNumber;
      var w := (if opens then [key.(kind := BlockMappingStart)] else []) + [key];
      var q := Insert(n, w).(keys := keys - {flow}, blocks := if opens then blocks + [key.column] else blocks);
      InsertStream(n, w);
      SameStream(q, Insert(n, w));
      InsertFlows(Stream()[..n], w, Stream()[n..]);
      forall a | a in q.keys ensures q.PointsAtToken(q.keys[a]) {
        OuterKey(n, w, keys[a]);
      }
      InsertedBeside(n, w, key, opens);
      if ClosersMatch(Stream()) {
        InsertedNesting(n, w, key, opens);
        if 0 in keys && flow != 0 {
          assert w == [key];
          OuterQuiet(n, key);
        }
      }
    }

    lemma InsertedBeside(n: nat, w: seq<Token>, key: Token, opens: bool)
      requires Ok() && flow in keys && key == Token(Key, keys[flow].index, keys[flow].column)
      requires n == keys[flow].tokenNumber < |Stream()| && PointsAtToken(keys[flow])
      requires w == (if opens then [key.(kind := BlockMappingStart)] else []) + [key]
      ensures SideBySide(Stream()[..n] + w + Stream()[n..])
    {
      hide Run, FlowDepth, ClosersMatch, NestingOk, KeysOk, SideBySide;
      assert Stream()[..n] + Stream()[n..] == Stream() && Stream()[n..][0] == Stream()[n];
      SideBySideInserted(Stream()[..n], w, Stream()[n..], key);
    }

    lemma InsertedNesting(n: nat, w: seq<Token>, key: Token, opens: bool)
      requires Ok() && flow in keys && key == Token(Key, keys[flow].index, keys[flow].column)
      requires n == keys[flow].tokenNumber < |Stream()| && ClosersMatch(Stream()) && FlowsAt(n) == flow >= 0
      requires opens == (flow == 0 && Deepest(blocks) < key.column)
      requires w == (if opens then [key.(kind := BlockMappingStart)] else []) + [key]
      ensures Nesting(Stream()[..n] + w + Stream()[n..]) == Open(if opens then blocks + [key.column] else blocks, flow)
    {
      hide Run, FlowDepth, ClosersMatch, PointsAtToken, Beside, SideBySide;
      var p, q := Stream()[..n], Stream()[n..];
      assert p + q == Stream();
      if flow == 0 { BlocksHere(); }
      if opens {
        var start := key.(kind := BlockMappingStart);
        assert w == [start, key];
        MappingInserted(p, start, key, q);
      } else {
        assert w == [key];
        KeyInserted(p, key, q);
      }
    }
  }

  /** The KEY in front of the token that is the key. */
  predicate IsKeySign(a: Token, t: Token) { a.kind.Key? && a.index == t.index }

  ghost predicate IsNearest(keys: map<int, SimpleKey>, n: nat) {
    && (exists level :: level in keys && keys[level].tokenNumber == n)
    && (forall level :: level in keys ==> n <= keys[level].tokenNumber)
  }

  /** The shortcut the source keeps as a comment: the key of the least level is the nearest one. */
  lemma LeastLevelIsNearest(q: Queue, least: int, n: nat)
    requires q.KeysOk() && least in q.keys && forall level :: level in q.keys ==> least <= level
    ensures IsNearest(q.keys, n) <==> n == q.keys[least].tokenNumber
  {
    assert forall level :: level in q.keys && level != least ==> q.keys[least].tokenNumber < q.keys[level].tokenNumber;
  }
}
