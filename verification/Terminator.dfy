/** The synchronized shutdown of code/alephbft/consensus/src/terminator.rs: a tree of components linked by
    one-shot channels, of which any one may take a step, crash or gain offspring at any time. */
module Terminator {
  import opened Options

  /** A one-shot channel as its receiver sees it; Closed when the sender was dropped unused. */
  datatype Channel = Open | Sent | Closed

  /** Where a component is between two awaits: before its exit, in one of the loops of terminate_sync (with
      the number of offspring already dealt with), or gone. */
  datatype Phase =
    | Running
    | SendingExits(k: nat)
    | AwaitingOffspring(k: nat)
    | Notifying
    | AwaitingPermit
    | SendingPermits(k: nat)
    | Finished
    | Crashed

  /** Component 0 is the root. Of component c: its parent, its place among the parent's offspring, its own
      offspring in the order of their connections; the channel its exit comes through, the one it notifies
      its parent through and the one its permit comes through. */
  datatype State = State(
    parent: seq<nat>, slot: seq<nat>, offspring: seq<seq<nat>>,
    phase: seq<Phase>, exit: seq<Channel>, ready: seq<Channel>, permit: seq<Channel>)

  datatype Move =
    /** The owner of the root's exit sends it, or drops it. */
    | Exit(result: Channel)
    /** The next step of component c. */
    | Advance(c: nat)
    /** Component c stops and drops its ends of the channels. That is also what calling terminate_sync before
        the exit has come amounts to. */
    | Crash(c: nat)
    /** add_offspring_connection */
    | Spawn(p: nat)

  const INITIAL := State([0], [0], [[]], [Running], [Open], [Open], [Open])

  predicate Sized(s: State) {
    && |s.parent| == |s.slot| == |s.offspring| == |s.phase| == |s.exit| == |s.ready| == |s.permit| >= 1
    && forall p | 0 <= p < |s.offspring| :: forall k | 0 <= k < |s.offspring[p]| :: s.offspring[p][k] < |s.phase|
  }

  function Goes(s: State, c: nat, p: Phase): State
    requires c < |s.phase|
  {
    s.(phase := s.phase[c := p])
  }

  /** One step of get_exit and terminate_sync; None while it waits, and when it is over. */
  function Advanced(s: State, c: nat): (r: Option<State>)
    requires Sized(s) && c < |s.phase|
    ensures r.Some? ==> Sized(r.value) && |r.value.phase| == |s.phase|
  {
    var kids := s.offspring[c];
    match s.phase[c]
    case Running => if s.exit[c] == Open then None else Some(Goes(s, c, SendingExits(0)))
    case SendingExits(k) =>
      if k < |kids| then Some(Goes(s.(exit := s.exit[kids[k] := Sent]), c, SendingExits(k + 1)))
      else Some(Goes(s, c, AwaitingOffspring(0)))
    case AwaitingOffspring(k) =>
      if k < |kids| then
        if s.ready[kids[k]] == Open then None else Some(Goes(s, c, AwaitingOffspring(k + 1)))
      else Some(Goes(s, c, if c == 0 then SendingPermits(0) else Notifying))
    case Notifying => Some(Goes(s.(ready := s.ready[c := Sent]), c, AwaitingPermit))
    case AwaitingPermit => if s.permit[c] == Open then None else Some(Goes(s, c, SendingPermits(0)))
    case SendingPermits(k) =>
      if k < |kids| then Some(Goes(s.(permit := s.permit[kids[k] := Sent]), c, SendingPermits(k + 1)))
      else Some(Goes(s, c, Finished))
    case Finished => None
    case Crashed => None
  }

  predicate Live(s: State, c: nat) { c < |s.phase| && s.phase[c] != Finished && s.phase[c] != Crashed }

  function Dropped(channel: Channel): Channel { if channel == Open then Closed else channel }

  /** The unused senders of c are dropped. */
  function CrashedAt(s: State, c: nat): (r: State)
    requires Sized(s) && c < |s.phase|
    ensures Sized(r) && |r.phase| == |s.phase|
  {
    State(s.parent, s.slot, s.offspring, s.phase[c := Crashed],
          seq(|s.exit|, i requires 0 <= i < |s.exit| => if i in s.offspring[c] then Dropped(s.exit[i]) else s.exit[i]),
          s.ready[c := Dropped(s.ready[c])],
          seq(|s.permit|, i requires 0 <= i < |s.permit| => if i in s.offspring[c]
              then Dropped(s.permit[i]) else s.permit[i]))
  }

  function Spawned(s: State, p: nat): (r: State)
    requires Sized(s) && p < |s.phase|
    ensures Sized(r) && |r.phase| == |s.phase| + 1
  {
    State(s.parent + [p], s.slot + [|s.offspring[p]|], s.offspring[p := s.offspring[p] + [|s.phase|]] + [[]],
          s.phase + [Running], s.exit + [Open], s.ready + [Open], s.permit + [Open])
  }

  /** What a move leads to; None when it is not possible. */
  function Moved(s: State, m: Move): (r: Option<State>)
    requires Sized(s)
    ensures r.Some? ==> Sized(r.value)
  {
    match m
    case Exit(result) => if s.exit[0] == Open && result != Open then Some(s.(exit := s.exit[0 := result])) else None
    case Advance(c) => if c < |s.phase| then Advanced(s, c) else None
    case Crash(c) => if Live(s, c) then Some(CrashedAt(s, c)) else None
    case Spawn(p) => if p < |s.phase| && s.phase[p] == Running then Some(Spawned(s, p)) else None
  }

  // What holds in every state.

  predicate BeforeExit(p: Phase, k: nat) { p == Running || (p.SendingExits? && p.k <= k) }

  predicate BeforePermit(p: Phase, k: nat) { p != Finished && p != Crashed && (p.SendingPermits? ==> p.k <= k) }

  predicate BeforeReady(p: Phase) {
    p == Running || p.SendingExits? || p.AwaitingOffspring? || p == Notifying
  }

  /** Component c has left the channels behind that it has waited for. */
  predicate Passed(s: State, c: nat)
    requires Sized(s) && c < |s.phase|
  {
    var kids, p := s.offspring[c], s.phase[c];
    && (p != Running && p != Crashed ==> s.exit[c] != Open)
    && ((p.SendingPermits? || p == Finished) && c != 0 ==> s.permit[c] != Open)
    && ((p.SendingExits? || p.AwaitingOffspring? || p.SendingPermits?) ==> p.k <= |kids|)
    && (c == 0 ==> p != Notifying && p != AwaitingPermit)
    && (forall j | 0 <= j < |kids| && AwaitedOffspring(p, j) :: s.ready[kids[j]] != Open)
  }

  /** The offspring in place j has been heard of. */
  predicate AwaitedOffspring(p: Phase, j: nat) {
    (p.AwaitingOffspring? && j < p.k) || p == Notifying || p == AwaitingPermit || p.SendingPermits? || p == Finished
  }

  /** Component c hangs below its parent; its channels are open exactly as long as their senders wait. */
  predicate Linked(s: State, c: nat)
    requires Sized(s) && 0 < c < |s.phase|
  {
    var p, k := s.parent[c], s.slot[c];
    && p < c && k < |s.offspring[p]| && s.offspring[p][k] == c
    && (s.exit[c] == Open <==> BeforeExit(s.phase[p], k))
    && (s.permit[c] == Open <==> BeforePermit(s.phase[p], k))
    && (s.ready[c] == Open <==> BeforeReady(s.phase[c]))
  }

  predicate IsOffspring(s: State, p: nat, k: nat)
    requires Sized(s) && p < |s.phase| && k < |s.offspring[p]|
  {
    var c := s.offspring[p][k];
    p < c && s.parent[c] == p && s.slot[c] == k
  }

  ghost predicate Inv(s: State) {
    && Sized(s)
    && (forall p, k | 0 <= p < |s.phase| && 0 <= k < |s.offspring[p]| :: IsOffspring(s, p, k))
    && (forall c | 0 < c < |s.phase| :: Linked(s, c))
    && (forall c | 0 <= c < |s.phase| :: Passed(s, c))
  }

  lemma InvInitially()
    ensures Inv(INITIAL)
  {
  }

  lemma AdvanceKeepsInv(s: State, c: nat)
    requires Inv(s) && c < |s.phase| && Advanced(s, c).Some?
    ensures Inv(Advanced(s, c).value)
  {
    var r := Advanced(s, c).value;
    assert Passed(s, c);
    assert c != 0 ==> Linked(s, c);
    forall p, k | 0 <= p < |r.phase| && 0 <= k < |r.offspring[p]| ensures IsOffspring(r, p, k) {
      assert IsOffspring(s, p, k);
    }
    forall d | 0 < d < |r.phase| ensures Linked(r, d) {
      assert Linked(s, d);
      LinkAfterAdvance(s, c, d);
    }
    forall d | 0 <= d < |r.phase| ensures Passed(r, d) {
      assert Passed(s, d);
      PassedAfterAdvance(s, c, d);
    }
  }

  lemma LinkAfterAdvance(s: State, c: nat, d: nat)
    requires Inv(s) && c < |s.phase| && 0 < d < |s.phase| && Advanced(s, c).Some?
    ensures Linked(Advanced(s, c).value, d)
  {
    hide Inv;
    InvAt(s, c, d);
    var p := s.phase[c];
    if (p.SendingExits? || p.SendingPermits?) && p.k < |s.offspring[c]| {
      InvOffspring(s, c, p.k);
      LinkAfterSending(s, c, d);
    } else {
      LinkAfterStep(s, c, d);
    }
  }

  lemma LinkAfterSending(s: State, c: nat, d: nat)
    requires Sized(s) && c < |s.phase| && 0 < d < |s.phase| && Passed(s, c) && Linked(s, d)
    requires s.phase[c].SendingExits? || s.phase[c].SendingPermits?
    requires s.phase[c].k < |s.offspring[c]| && IsOffspring(s, c, s.phase[c].k)
    ensures Linked(Advanced(s, c).value, d)
  {
  }

  lemma LinkAfterStep(s: State, c: nat, d: nat)
    requires Sized(s) && c < |s.phase| && 0 < d < |s.phase| && Passed(s, c) && Linked(s, d) && Advanced(s, c).Some?
    requires s.phase[c].SendingExits? || s.phase[c].SendingPermits? ==> s.phase[c].k == |s.offspring[c]|
    ensures Linked(Advanced(s, c).value, d)
  {
    hide IsOffspring;
  }

  lemma InvAt(s: State, c: nat, d: nat)
    requires Inv(s) && c < |s.phase| && d < |s.phase|
    ensures Sized(s) && Passed(s, c) && (d != 0 ==> Linked(s, d))
  {
  }

  lemma InvOffspring(s: State, p: nat, k: nat)
    requires Inv(s) && p < |s.phase| && k < |s.offspring[p]|
    ensures IsOffspring(s, p, k)
  {
  }

  lemma PassedAfterAdvance(s: State, c: nat, d: nat)
    requires Inv(s) && c < |s.phase| && d < |s.phase| && Advanced(s, c).Some?
    ensures Passed(Advanced(s, c).value, d)
  {
    assert Passed(s, d) && Passed(s, c);
  }

  lemma CrashKeepsInv(s: State, c: nat)
    requires Inv(s) && Live(s, c)
    ensures Inv(CrashedAt(s, c))
  {
    var r := CrashedAt(s, c);
    forall p, k | 0 <= p < |r.phase| && 0 <= k < |r.offspring[p]| ensures IsOffspring(r, p, k) {
      assert IsOffspring(s, p, k);
    }
    forall d | 0 < d < |r.phase| ensures Linked(r, d) {
      assert Linked(s, d);
      if d in s.offspring[c] {
        var k :| 0 <= k < |s.offspring[c]| && s.offspring[c][k] == d;
        assert IsOffspring(s, c, k);
      }
    }
    forall d | 0 <= d < |r.phase| ensures Passed(r, d) {
      assert Passed(s, d);
    }
  }

  lemma SpawnKeepsInv(s: State, p: nat)
    requires Inv(s) && p < |s.phase| && s.phase[p] == Running
    ensures Inv(Spawned(s, p))
  {
    var r, n := Spawned(s, p), |s.phase|;
    forall q, k | 0 <= q < |r.phase| && 0 <= k < |r.offspring[q]| ensures IsOffspring(r, q, k) {
      if q < n && k < |s.offspring[q]| { assert IsOffspring(s, q, k); }
    }
    forall d | 0 < d < |r.phase| ensures Linked(r, d) {
      if d < n { assert Linked(s, d); }
    }
    forall d | 0 <= d < |r.phase| ensures Passed(r, d) {
      if d < n { assert Passed(s, d); }
    }
  }

  lemma MoveKeepsInv(s: State, m: Move)
    requires Inv(s) && Moved(s, m).Some?
    ensures Inv(Moved(s, m).value)
  {
    match m
    case Exit(result) =>
      var r := Moved(s, m).value;
      forall p, k | 0 <= p < |r.phase|
          && 0 <= k < |r.offspring[p]| ensures IsOffspring(r, p, k) { assert IsOffspring(s, p, k); }
      forall d | 0 < d < |r.phase| ensures Linked(r, d) { assert Linked(s, d); }
      forall d | 0 <= d < |r.phase| ensures Passed(r, d) { assert Passed(s, d); }
    case Advance(c) => AdvanceKeepsInv(s, c);
    case Crash(c) => CrashKeepsInv(s, c);
    case Spawn(p) => SpawnKeepsInv(s, p);
  }

  // Runs.

  /** The state after the moves, None where one of them is not possible. */
  function Run(moves: seq<Move>): (s: Option<State>)
    ensures s.Some? ==> Sized(s.value)
  {
    if moves == [] then Some(INITIAL)
    else
      match Run(moves[..|moves| - 1])
      case None => None
      case Some(s) => Moved(s, moves[|moves| - 1])
  }

  lemma {:induction false} InvAlways(moves: seq<Move>)
    requires Run(moves).Some?
    ensures Inv(Run(moves).value)
  {
    if moves == [] {
      InvInitially();
    } else {
      InvAlways(moves[..|moves| - 1]);
      MoveKeepsInv(Run(moves[..|moves| - 1]).value, moves[|moves| - 1]);
    }
  }

  // What the channels tell.

  /** Between component c and its parent: a channel is closed only by a crash of its sender, and a parent sends an exit
      only behind its own, and a permit only behind its own, if it is not the root. */
  predicate ToldTruly(s: State, c: nat)
    requires Sized(s) && 0 < c < |s.phase|
  {
    var p := s.parent[c];
    && p < c
    && (s.exit[c] == Closed || s.permit[c] == Closed ==> s.phase[p] == Crashed)
    && (s.ready[c] == Closed ==> s.phase[c] == Crashed)
    && (s.exit[c] == Sent ==> s.exit[p] != Open)
    && (s.permit[c] == Sent ==> p == 0 || s.permit[p] != Open)
    && (s.ready[c] == Sent ==> forall k | 0 <= k < |s.offspring[c]| :: s.ready[s.offspring[c][k]] != Open)
  }

  ghost predicate AllTold(s: State)
    requires Sized(s)
  {
    forall c | 0 < c < |s.phase| :: ToldTruly(s, c)
  }

  /** A channel that has been used or closed stays what it is: get_exit may keep its first answer. */
  predicate Settled(before: seq<Channel>, after: seq<Channel>) {
    |before| <= |after| && forall c | 0 <= c < |before| :: before[c] != Open ==> after[c] == before[c]
  }

  lemma AdvanceTells(s: State, c: nat)
    requires Inv(s) && AllTold(s) && c < |s.phase| && Advanced(s, c).Some?
    ensures AllTold(Advanced(s, c).value) && Settled(s.exit, Advanced(s, c).value.exit)
  {
    var r := Advanced(s, c).value;
    hide Advanced;
    forall d | 0 < d < |r.phase| ensures ToldTruly(r, d) { ToldAfterAdvance(s, c, d); }
    ExitsAfterAdvance(s, c);
  }

  lemma ToldAfterAdvance(s: State, c: nat, d: nat)
    requires Inv(s) && AllTold(s) && c < |s.phase| && 0 < d < |s.phase| && Advanced(s, c).Some?
    ensures ToldTruly(Advanced(s, c).value, d)
  {
    hide Inv;
    InvAt(s, c, d);
    assert ToldTruly(s, d);
    var p := s.phase[c];
    if (p.SendingExits? || p.SendingPermits?) && p.k < |s.offspring[c]| {
      InvOffspring(s, c, p.k);
      InvAt(s, c, s.offspring[c][p.k]);
    }
  }

  lemma ExitsAfterAdvance(s: State, c: nat)
    requires Inv(s) && c < |s.phase| && Advanced(s, c).Some?
    ensures Settled(s.exit, Advanced(s, c).value.exit)
  {
    hide Inv;
    var p := s.phase[c];
    if p.SendingExits? && p.k < |s.offspring[c]| {
      InvOffspring(s, c, p.k);
      InvAt(s, c, s.offspring[c][p.k]);
    }
  }

  lemma CrashTells(s: State, c: nat)
    requires Inv(s) && AllTold(s) && Live(s, c)
    ensures AllTold(CrashedAt(s, c)) && Settled(s.exit, CrashedAt(s, c).exit)
  {
    var r := CrashedAt(s, c);
    forall d | 0 < d < |r.phase| ensures ToldTruly(r, d) {
      assert ToldTruly(s, d) && Linked(s, d);
      if d in s.offspring[c] {
        var k :| 0 <= k < |s.offspring[c]| && s.offspring[c][k] == d;
        assert IsOffspring(s, c, k);
      }
    }
  }

  lemma SpawnTells(s: State, p: nat)
    requires Inv(s) && AllTold(s) && p < |s.phase| && s.phase[p] == Running
    ensures AllTold(Spawned(s, p)) && Settled(s.exit, Spawned(s, p).exit)
  {
    var r, n := Spawned(s, p), |s.phase|;
    assert p != 0 ==> Linked(s, p);
    forall d | 0 < d < |r.phase| ensures ToldTruly(r, d) {
      if d < n { assert ToldTruly(s, d); }
    }
  }

  lemma MoveTells(s: State, m: Move)
    requires Inv(s) && AllTold(s) && Moved(s, m).Some?
    ensures AllTold(Moved(s, m).value) && Settled(s.exit, Moved(s, m).value.exit)
  {
    match m
    case Exit(_) =>
      var r := Moved(s, m).value;
      forall d | 0 < d < |r.phase| ensures ToldTruly(r, d) { assert ToldTruly(s, d); }
    case Advance(c) => AdvanceTells(s, c);
    case Crash(c) => CrashTells(s, c);
    case Spawn(p) => SpawnTells(s, p);
  }

  lemma {:induction false} AlwaysTold(moves: seq<Move>)
    requires Run(moves).Some?
    ensures AllTold(Run(moves).value)
  {
    if moves != [] {
      var before := moves[..|moves| - 1];
      AlwaysTold(before);
      InvAlways(before);
      MoveTells(Run(before).value, moves[|moves| - 1]);
    }
  }

  /** What get_exit returns, Err where the channel was closed: Err only below a parent that crashed, Ok only below one
      whose own exit has come, and Ok for sure as soon as a parent that has not crashed is past sending. */
  lemma ExitAnswers(moves: seq<Move>, c: nat)
    requires Run(moves).Some? && 0 < c < |Run(moves).value.phase|
    ensures
      var s := Run(moves).value;
      var p := s.parent[c];
      && p < c && (s.exit[c] == Closed ==> s.phase[p] == Crashed) && (s.exit[c] == Sent ==> s.exit[p] != Open)
      && (s.phase[p] != Crashed ==> (s.exit[c] == Sent <==> !BeforeExit(s.phase[p], s.slot[c])))
  {
    InvAlways(moves);
    AlwaysTold(moves);
    assert Linked(Run(moves).value, c) && ToldTruly(Run(moves).value, c);
  }

  /** The answer stays the same for the rest of the run. */
  lemma {:induction false} AnswerStays(moves: seq<Move>, more: seq<Move>)
    requires Run(moves + more).Some?
    ensures Run(moves).Some? && Settled(Run(moves).value.exit, Run(moves + more).value.exit)
    decreases |more|
  {
    if more == [] {
      assert moves + more == moves;
    } else {
      var less := more[..|more| - 1];
      assert (moves + more)[..|moves + more| - 1] == moves + less;
      AnswerStays(moves, less);
      InvAlways(moves + less);
      AlwaysTold(moves + less);
      MoveTells(Run(moves + less).value, more[|more| - 1]);
    }
  }

  // The barrier.

  predicate CrashFree(moves: seq<Move>) { forall i | 0 <= i < |moves| :: !moves[i].Crash? }

  predicate NoneCrashed(s: State) { forall c | 0 <= c < |s.phase| :: s.phase[c] != Crashed }

  lemma {:induction false} CrashFreeRuns(moves: seq<Move>)
    requires CrashFree(moves) && Run(moves).Some?
    ensures NoneCrashed(Run(moves).value)
  {
    hide Moved;
    if moves != [] {
      CrashFreeRuns(moves[..|moves| - 1]);
      CrashFreeMove(Run(moves[..|moves| - 1]).value, moves[|moves| - 1]);
    }
  }

  lemma CrashFreeMove(s: State, m: Move)
    requires Sized(s) && NoneCrashed(s) && !m.Crash? && Moved(s, m).Some?
    ensures NoneCrashed(Moved(s, m).value)
  {
  }

  /** Past the wait for the parent's permission; the root, which has no parent, past gathering. */
  predicate Permitted(p: Phase) { p.SendingPermits? || p == Finished }

  /** A permit comes down from the root. */
  lemma {:induction false} RootPermits(s: State, c: nat)
    requires Inv(s) && NoneCrashed(s) && c < |s.phase| && Permitted(s.phase[c])
    ensures Permitted(s.phase[0])
  {
    if c != 0 {
      assert Linked(s, c) && Passed(s, c);
      RootPermits(s, s.parent[c]);
    }
  }

  /** A component behind its barrier has all that hang below it behind theirs. */
  lemma {:induction false} AllHaveReported(s: State, c: nat)
    requires Inv(s) && NoneCrashed(s) && c < |s.phase| && Permitted(s.phase[0])
    ensures c == 0 || s.phase[c] == AwaitingPermit || Permitted(s.phase[c])
  {
    if c != 0 {
      var p := s.parent[c];
      assert Linked(s, c) && Passed(s, p);
      AllHaveReported(s, p);
      assert AwaitedOffspring(s.phase[p], s.slot[c]);
    }
  }

  /** The barrier: in a run without crashes, when some component has got past its wait for permission, or the
      root has begun to give permits, every component has received its exit and has reported to its parent. */
  lemma Barrier(moves: seq<Move>, c: nat, d: nat)
    requires Run(moves).Some? && CrashFree(moves) && c < |Run(moves).value.phase| && d < |Run(moves).value.phase|
    requires Permitted(Run(moves).value.phase[c])
    ensures
      var s := Run(moves).value;
      && (s.phase[d] == AwaitingPermit || Permitted(s.phase[d]))
      && s.exit[d] != Open && (d != 0 ==> s.ready[d] != Open)
  {
    var s := Run(moves).value;
    InvAlways(moves);
    CrashFreeRuns(moves);
    RootPermits(s, c);
    AllHaveReported(s, d);
    assert Passed(s, d) && (d != 0 ==> Linked(s, d));
  }

  // No deadlock, whatever has crashed.

  predicate CanAdvance(s: State, c: nat)
    requires Sized(s)
  {
    Live(s, c) && Advanced(s, c).Some?
  }

  /** A component that waits for its exit has an ancestor that can go on. */
  lemma {:induction false} ExitIsOnItsWay(s: State, c: nat) returns (d: nat)
    requires Inv(s) && s.exit[0] != Open && c < |s.phase| && s.phase[c] == Running
    ensures CanAdvance(s, d)
  {
    d := c;
    if s.exit[c] == Open {
      assert Linked(s, c);
      var p := s.parent[c];
      d := p;
      if s.phase[p] == Running { d := ExitIsOnItsWay(s, p); }
    }
  }

  /** A component that waits for its offspring has a descendant, or an ancestor of one, that can go on. */
  lemma {:induction false} ReportIsOnItsWay(s: State, c: nat) returns (d: nat)
    requires Inv(s) && s.exit[0] != Open && c < |s.phase| && BeforeReady(s.phase[c])
    ensures CanAdvance(s, d)
    decreases |s.phase| - c
  {
    d := c;
    if s.phase[c] == Running {
      d := ExitIsOnItsWay(s, c);
    } else if s.phase[c].AwaitingOffspring? && s.phase[c].k < |s.offspring[c]| {
      var kid := s.offspring[c][s.phase[c].k];
      if s.ready[kid] == Open {
        assert IsOffspring(s, c, s.phase[c].k);
        assert Linked(s, kid);
        d := ReportIsOnItsWay(s, kid);
      }
    }
  }

  /** So has one that waits for its permit. */
  lemma {:induction false} PermitIsOnItsWay(s: State, c: nat) returns (d: nat)
    requires Inv(s) && s.exit[0] != Open && Live(s, c)
    ensures CanAdvance(s, d)
    decreases c
  {
    d := c;
    if BeforeReady(s.phase[c]) {
      d := ReportIsOnItsWay(s, c);
    } else if s.phase[c] == AwaitingPermit && s.permit[c] == Open {
      assert Passed(s, c) && Linked(s, c);
      d := PermitIsOnItsWay(s, s.parent[c]);
    }
  }

  /** Once the root's exit has been sent or dropped, as long as any component is left, one of those left can
      take its next step, whatever components have crashed. */
  lemma NoDeadlock(moves: seq<Move>, c: nat) returns (d: nat)
    requires Run(moves).Some? && Run(moves).value.exit[0] != Open && Live(Run(moves).value, c)
    ensures Live(Run(moves).value, d) && Run(moves + [Advance(d)]).Some?
  {
    InvAlways(moves);
    d := PermitIsOnItsWay(Run(moves).value, c);
    assert (moves + [Advance(d)])[..|moves|] == moves;
  }

  // The number of steps is bounded.

  /** The steps component c may still take. */
  function Left(s: State, c: nat): int
    requires Sized(s) && c < |s.phase|
  {
    var n := |s.offspring[c]|;
    match s.phase[c]
    case Running => 3 * n + 6
    case SendingExits(k) => 3 * n - k + 5
    case AwaitingOffspring(k) => 2 * n - k + 4
    case Notifying => n + 3
    case AwaitingPermit => n + 2
    case SendingPermits(k) => n - k + 1
    case Finished => 0
    case Crashed => 0
  }

  /** What the first k components and the root's exit may still do. */
  function LeftOf(s: State, k: nat): int
    requires Sized(s) && k <= |s.phase|
  {
    if k == 0 then (if s.exit[0] == Open then 1 else 0) else LeftOf(s, k - 1) + Left(s, k - 1)
  }

  lemma LeftPositive(s: State, c: nat)
    requires Inv(s) && c < |s.phase|
    ensures Left(s, c) >= 0 && (Live(s, c) ==> Left(s, c) > 0)
  {
    assert Passed(s, c);
  }

  lemma {:induction false} LeftOfNatural(s: State, k: nat)
    requires Inv(s) && k <= |s.phase|
    ensures LeftOf(s, k) >= 0
  {
    if k > 0 {
      LeftOfNatural(s, k - 1);
      LeftPositive(s, k - 1);
    }
  }

  /** Only component c has another phase, and no offspring has come. */
  lemma {:induction false} LeftChanges(s: State, r: State, c: nat, k: nat)
    requires Sized(s) && Sized(r) && c < |s.phase| == |r.phase| && k <= |s.phase|
    requires r.offspring == s.offspring && forall d | 0 <= d < |s.phase| && d != c :: r.phase[d] == s.phase[d]
    requires (r.exit[0] == Open <==> s.exit[0] == Open)
    ensures LeftOf(r, k) - LeftOf(s, k) == if c < k then Left(r, c) - Left(s, c) else 0
  {
    if k > 0 { LeftChanges(s, r, c, k - 1); }
  }

  lemma {:induction false} LeftAfterExit(s: State, r: State, k: nat)
    requires Sized(s) && Sized(r) && r.phase == s.phase && r.offspring == s.offspring && k <= |s.phase|
    requires s.exit[0] == Open && r.exit[0] != Open
    ensures LeftOf(r, k) == LeftOf(s, k) - 1
  {
    if k > 0 { LeftAfterExit(s, r, k - 1); }
  }

  lemma {:induction false} LeftAfterSpawn(s: State, p: nat, k: nat)
    requires Inv(s) && p < |s.phase| && s.phase[p] == Running && k <= |s.phase|
    ensures LeftOf(Spawned(s, p), k) == LeftOf(s, k) + if p < k then 3 else 0
  {
    if k > 0 { LeftAfterSpawn(s, p, k - 1); }
  }

  /** Every move but a spawn takes away at least one step; a spawn adds nine. */
  lemma MoveTakesAway(s: State, m: Move)
    requires Inv(s) && Moved(s, m).Some?
    ensures
      var r := Moved(s, m).value;
      LeftOf(r, |r.phase|) <= LeftOf(s, |s.phase|) + if m.Spawn? then 9 else -1
  {
    var r := Moved(s, m).value;
    match m
    case Exit(_) => LeftAfterExit(s, r, |s.phase|);
    case Advance(c) =>
      RootExitStays(s, m);
      LeftChanges(s, r, c, |s.phase|);
      assert Passed(s, c);
    case Crash(c) =>
      RootExitStays(s, m);
      LeftChanges(s, r, c, |s.phase|);
      LeftPositive(s, c);
    case Spawn(p) => LeftAfterSpawn(s, p, |s.phase|);
  }

  lemma RootExitStays(s: State, m: Move)
    requires Inv(s) && Moved(s, m).Some? && (m.Advance? || m.Crash?)
    ensures Moved(s, m).value.exit[0] == Open <==> s.exit[0] == Open
  {
    if m.Advance? {
      var p := s.phase[m.c];
      if p.SendingExits? && p.k < |s.offspring[m.c]| { assert IsOffspring(s, m.c, p.k); }
    } else {
      RootIsNoOffspring(s, m.c);
    }
  }

  lemma RootIsNoOffspring(s: State, c: nat)
    requires Inv(s) && c < |s.phase|
    ensures 0 !in s.offspring[c]
  {
    forall k | 0 <= k < |s.offspring[c]| ensures s.offspring[c][k] != 0 { assert IsOffspring(s, c, k); }
  }

  function Spawns(moves: seq<Move>): nat {
    if moves == [] then 0 else Spawns(moves[..|moves| - 1]) + if moves[|moves| - 1].Spawn? then 1 else 0
  }

  lemma {:induction false} StepsTaken(moves: seq<Move>)
    requires Run(moves).Some?
    ensures var s := Run(moves).value; |moves| + LeftOf(s, |s.phase|) <= 7 + 10 * Spawns(moves)
  {
    if moves == [] {
      assert LeftOf(INITIAL, 1) == LeftOf(INITIAL, 0) + Left(INITIAL, 0);
    } else {
      var before := moves[..|moves| - 1];
      StepsTaken(before);
      InvAlways(before);
      MoveTakesAway(Run(before).value, moves[|moves| - 1]);
    }
  }

  /** Any run is at most 7 moves long, and 10 longer for every offspring connection. */
  lemma BoundedRuns(moves: seq<Move>)
    requires Run(moves).Some?
    ensures |moves| <= 7 + 10 * Spawns(moves)
  {
    InvAlways(moves);
    StepsTaken(moves);
    LeftOfNatural(Run(moves).value, |Run(moves).value.phase|);
  }
}
