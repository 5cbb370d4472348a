/** The doubling-delay scheduler of code/alephbft/rmc/src/scheduler.rs. Instants and durations are numbers
    of nanoseconds; the clock never goes back. */
module Scheduler {
  import opened Options

  type Instant = nat
  type Duration = nat

  datatype ScheduledTask<T> = ScheduledTask(task: T, delay: Duration)

  /** An instant and the index of a task, ordered by the instant first. */
  datatype IndexedInstant = IndexedInstant(instant: Instant, index: nat) {
    predicate AtMost(other: IndexedInstant) {
      instant < other.instant || (instant == other.instant && index <= other.index)
    }
  }

  type Heap = multiset<IndexedInstant>

  predicate IsLeast(e: IndexedInstant, h: Heap) { e in h && forall f <- h :: e.AtMost(f) }

  lemma {:induction false} HasLeast(h: Heap)
    requires h != multiset{}
    ensures exists e :: IsLeast(e, h)
    decreases |h|
  {
    var e :| e in h;
    var rest := h - multiset{e};
    if rest == multiset{} {
      assert h == multiset{e};
      assert IsLeast(e, h);
    } else {
      HasLeast(rest);
      var f :| IsLeast(f, rest);
      assert forall g <- h :: g == e || g in rest;
      assert IsLeast(if e.AtMost(f) then e else f, h);
    }
  }

  function Pow2(k: nat): nat { if k == 0 then 1 else 2 * Pow2(k - 1) }

  /** When a task was first due, and how often it has been yielded. */
  datatype Slot = Slot(start: Instant, fired: nat)

  /** The k-th firing, counted from 0. */
  function Firing(start: Instant, k: nat, initial: Duration): Instant {
    Pow2Positive(k);
    start + (Pow2(k) - 1) * initial
  }

  lemma {:induction false} Pow2Positive(k: nat)
    ensures Pow2(k) >= 1
  {
    if k > 0 { Pow2Positive(k - 1); }
  }

  function Due(s: Slot, initial: Duration): Instant { Firing(s.start, s.fired, initial) }

  /** How often a task is due up to the instant d. */
  function Pending(s: Slot, initial: Duration, d: Instant): nat
    requires initial > 0
    decreases d - Due(s, initial) + 1
  {
    if Due(s, initial) > d then 0
    else
      NextFiring(s, initial);
      1 + Pending(s.(fired := s.fired + 1), initial, d)
  }

  lemma NextFiring(s: Slot, initial: Duration)
    ensures Due(s.(fired := s.fired + 1), initial) == Due(s, initial) + Pow2(s.fired) * initial
    ensures initial > 0 ==> Due(s.(fired := s.fired + 1), initial) > Due(s, initial)
  {
    Pow2Positive(s.fired);
    var p := Pow2(s.fired);
    assert (2 * p - 1) * initial == (p - 1) * initial + p * initial;
  }

  /** The yields up to the one at which all of the first k tasks are past the instant d. */
  function Backlog(slots: seq<Slot>, initial: Duration, d: Instant, k: nat): nat
    requires initial > 0 && k <= |slots|
  {
    if k == 0 then 0 else Backlog(slots, initial, d, k - 1) + Pending(slots[k - 1], initial, d)
  }

  lemma {:induction false} BacklogChanges(a: seq<Slot>, b: seq<Slot>, initial: Duration, d: Instant, i: nat, k: nat)
    requires initial > 0 && k <= |a| <= |b| && i < |a| && forall j | 0 <= j < |a| && j != i :: b[j] == a[j]
    ensures Backlog(b, initial, d, k) - Backlog(a, initial, d, k)
            == if i < k then Pending(b[i], initial, d) - Pending(a[i], initial, d) else 0
  {
    if k > 0 { BacklogChanges(a, b, initial, d, i, k - 1); }
  }

  function Entry(slots: seq<Slot>, initial: Duration, i: nat): IndexedInstant
    requires i < |slots|
  {
    IndexedInstant(Due(slots[i], initial), i)
  }

  /** Each index is in the heap exactly once, with the instant its next firing is due. */
  predicate HeapOk(h: Heap, slots: seq<Slot>, initial: Duration) {
    && (forall i | 0 <= i < |slots| :: h[Entry(slots, initial, i)] == 1)
    && (forall e <- h :: e.index < |slots| && e == Entry(slots, initial, e.index))
  }

  /** Each delay has doubled with every firing, and nothing is due before the last yield. */
  predicate TasksOk<T>(tasks: seq<ScheduledTask<T>>, slots: seq<Slot>, initial: Duration, lastDue: Instant) {
    |tasks| == |slots| && forall i | 0 <= i < |slots| :: TaskOk(tasks[i], slots[i], initial, lastDue)
  }

  predicate TaskOk<T>(task: ScheduledTask<T>, s: Slot, initial: Duration, lastDue: Instant) {
    task.delay == Pow2(s.fired) * initial && lastDue <= Due(s, initial)
  }

  function TasksOf<T>(tasks: seq<ScheduledTask<T>>): seq<T> {
    seq(|tasks|, i requires 0 <= i < |tasks| => tasks[i].task)
  }

  lemma TasksStep<T>(tasks: seq<ScheduledTask<T>>, slots: seq<Slot>, initial: Duration, lastDue: Instant, i: nat)
    requires TasksOk(tasks, slots, initial, lastDue) && i < |slots|
    requires forall j | 0 <= j < |slots| :: Due(slots[i], initial) <= Due(slots[j], initial)
    ensures
      var later := tasks[i := tasks[i].(delay := tasks[i].delay * 2)];
      var s := slots[i].(fired := slots[i].fired + 1);
      && TasksOk(later, slots[i := s], initial, Due(slots[i], initial)) && TasksOf(later) == TasksOf(tasks)
      && Due(s, initial) == Due(slots[i], initial) + tasks[i].delay && lastDue <= Due(slots[i], initial)
  {
    assert TaskOk(tasks[i], slots[i], initial, lastDue);
    NextFiring(slots[i], initial);
    Doubled(tasks[i].delay, slots[i].fired, initial);
    var later := tasks[i := tasks[i].(delay := tasks[i].delay * 2)];
    var s := slots[i].(fired := slots[i].fired + 1);
    hide Due, Firing, Pow2;
    forall j | 0 <= j < |slots|
      ensures TaskOk(later[j], slots[i := s][j], initial, Due(slots[i], initial))
    {
      assert TaskOk(tasks[j], slots[j], initial, lastDue);
    }
    assert TasksOf(later) == TasksOf(tasks);
  }

  function Fired(slots: seq<Slot>, i: nat): seq<Slot>
    requires i < |slots|
  {
    slots[i := slots[i].(fired := slots[i].fired + 1)]
  }

  function Again<T>(e: IndexedInstant,
                    t: ScheduledTask<T>): IndexedInstant { IndexedInstant(e.instant + t.delay, e.index) }

  function Delayed<T>(t: ScheduledTask<T>): ScheduledTask<T> { t.(delay := t.delay * 2) }

  lemma YieldStep<T>(h: Heap, tasks: seq<ScheduledTask<T>>, slots: seq<Slot>, initial: Duration, lastDue: Instant,
                     e: IndexedInstant)
    requires HeapOk(h, slots, initial) && TasksOk(tasks, slots, initial, lastDue) && IsLeast(e, h)
    ensures
      var i := e.index;
      && i < |slots| == |tasks| == |TasksOf(tasks)| && e == Entry(slots, initial, i)
         && TasksOf(tasks)[i] == tasks[i].task
      && HeapOk(h - multiset{e} + multiset{Again(e, tasks[i])}, Fired(slots, i), initial)
      && TasksOk(tasks[i := Delayed(tasks[i])], Fired(slots, i), initial, e.instant)
      && TasksOf(tasks[i := Delayed(tasks[i])]) == TasksOf(tasks) && lastDue <= e.instant
    ensures forall j | 0 <= j < |slots| :: e.AtMost(Entry(slots, initial, j))
  {
    hide Due, HeapOk, TasksOk;
    LeastIsFirst(h, slots, initial, e);
    SameLength(h, tasks, slots, initial, lastDue);
    HeapStep(h, slots, initial, e.index, slots[e.index].(fired := slots[e.index].fired + 1));
    TasksStep(tasks, slots, initial, lastDue, e.index);
  }

  lemma SameLength<T>(h: Heap, tasks: seq<ScheduledTask<T>>, slots: seq<Slot>, initial: Duration, lastDue: Instant)
    requires HeapOk(h, slots, initial) && TasksOk(tasks, slots, initial, lastDue)
    ensures |tasks| == |slots| == |TasksOf(tasks)| && (h == multiset{} <==> slots == [])
  {
    if slots != [] { assert Entry(slots, initial, 0) in h; }
    if h != multiset{} { var e :| e in h; }
  }

  lemma LeastIsFirst(h: Heap, slots: seq<Slot>, initial: Duration, e: IndexedInstant)
    requires HeapOk(h, slots, initial) && IsLeast(e, h)
    ensures e.index < |slots| && e == Entry(slots, initial, e.index)
    ensures forall j | 0 <= j < |slots| :: e.AtMost(Entry(slots, initial, j)) && e.instant <= Due(slots[j], initial)
  {
    hide Due;
    forall j | 0 <= j < |slots|
      ensures e.AtMost(Entry(slots, initial, j)) && e.instant <= Due(slots[j], initial)
    {
      assert Entry(slots, initial, j) in h;
    }
  }

  lemma TasksPush<T>(tasks: seq<ScheduledTask<T>>, slots: seq<Slot>, initial: Duration, lastDue: Instant, t: T,
                     start: Instant)
    requires TasksOk(tasks, slots, initial, lastDue) && lastDue <= start
    ensures TasksOk(tasks + [ScheduledTask(t, initial)], slots + [Slot(start, 0)], initial, lastDue)
    ensures TasksOf(tasks + [ScheduledTask(t, initial)]) == TasksOf(tasks) + [t]
    ensures Due(Slot(start, 0), initial) == start
  {
    assert Pow2(0) == 1 && Due(Slot(start, 0), initial) == start;
    hide Due, Firing, Pow2;
    forall j | 0 <= j < |slots|
      ensures TaskOk((tasks + [ScheduledTask(t, initial)])[j], (slots + [Slot(start, 0)])[j], initial, lastDue)
    {
      assert TaskOk(tasks[j], slots[j], initial, lastDue);
    }
  }

  /** Popping the entry of task i and pushing the one of its next firing. */
  lemma HeapStep(h: Heap, slots: seq<Slot>, initial: Duration, i: nat, later: Slot)
    requires HeapOk(h, slots, initial) && i < |slots|
    ensures HeapOk(h - multiset{Entry(slots, initial, i)} + multiset{IndexedInstant(Due(later, initial), i)},
                   slots[i := later], initial)
  {
    hide Due;
    var r := h - multiset{Entry(slots, initial, i)} + multiset{IndexedInstant(Due(later, initial), i)};
    var s := slots[i := later];
    forall j | 0 <= j < |s|
      ensures r[Entry(s, initial, j)] == 1
    {
      if j != i { assert Entry(s, initial, j) == Entry(slots, initial, j); }
      if j == i && Entry(s, initial, j) in h { assert Entry(s, initial, j) == Entry(slots, initial, i); }
    }
    forall e <- r
      ensures e.index < |s| && e == Entry(s, initial, e.index)
    {
      if e.index != i { assert e in h; }
      assert e in h && e.index == i ==> e == Entry(slots, initial, i);
      assert h[Entry(slots, initial, i)] == 1;
    }
  }

  lemma HeapPush(h: Heap, slots: seq<Slot>, initial: Duration, s: Slot)
    requires HeapOk(h, slots, initial)
    ensures HeapOk(h + multiset{IndexedInstant(Due(s, initial), |slots|)}, slots + [s], initial)
  {
    hide Due;
    var r, t := h + multiset{IndexedInstant(Due(s, initial), |slots|)}, slots + [s];
    forall j | 0 <= j < |t|
      ensures r[Entry(t, initial, j)] == 1
    {
      if j < |slots| { assert Entry(t, initial, j) == Entry(slots, initial, j); }
      if j == |slots| { assert Entry(t, initial, j) !in h; }
    }
    forall e <- r
      ensures e.index < |t| && e == Entry(t, initial, e.index)
    {
      if e in h { assert e == Entry(slots, initial, e.index); }
    }
  }

  /** initial_delay.div(n).mul(i), the first of n tasks at once and each a fraction of the delay later. */
  function Spread(delay: Duration, n: nat, i: nat): Duration
    requires n > 0
  {
    var delta: nat := delay / n;
    Product(delta, i);
    delta * i
  }

  lemma Product(a: nat, b: nat)
    ensures a * b >= 0
  {
  }

  /** The first firings of n tasks: at once, then at equal distances, and one distance short of the delay at most. */
  lemma SpreadIsEven(delay: Duration, n: nat, i: nat)
    requires i < n
    ensures Spread(delay, n, 0) == 0 && Spread(delay, n, i) <= delay - delay / n
    ensures Spread(delay, n, i + 1) - Spread(delay, n, i) == delay / n
  {
    var delta: nat := delay / n;
    assert delta * (i + 1) == delta * i + delta;
    AtMostTimes(delta, i + 1, n);
    assert delta * n <= delay;
  }

  lemma AtMostTimes(a: nat, b: nat, c: nat)
    requires b <= c
    ensures a * b <= a * c
  {
  }

  /** A task that is first due after d does not delay what is due by d. */
  lemma LaterTasksDoNotDelay(slots: seq<Slot>, s: Slot, initial: Duration, d: Instant)
    requires initial > 0 && Due(s, initial) > d
    ensures Backlog(slots + [s], initial, d, |slots| + 1) == Backlog(slots, initial, d, |slots|)
  {
    BacklogPush(slots, s, initial, d, |slots|);
  }

  class DoublingDelayScheduler<T> {
    const initialDelay: Duration
    var scheduledInstants: Heap
    var scheduledTasks: seq<ScheduledTask<T>>
    ghost var slots: seq<Slot>
    /** The last instant the clock has shown, and the last one a task was yielded for. */
    ghost var clock: Instant
    ghost var lastDue: Instant

    /** Each index is in the heap exactly once, with the instant its next firing is due, and each delay has
        doubled with every firing. */
    ghost predicate Valid()
      reads this
    {
      lastDue <= clock && HeapOk(scheduledInstants, slots, initialDelay)
      && TasksOk(scheduledTasks, slots, initialDelay, lastDue)
    }

    ghost function At(i: nat): IndexedInstant
      requires i < |slots|
      reads this
    {
      Entry(slots, initialDelay, i)
    }

    ghost function Tasks(): seq<T>
      reads this
    {
      TasksOf(scheduledTasks)
    }

    constructor (delay: Duration, now: Instant)
      ensures Valid() && initialDelay == delay && scheduledTasks == [] && clock == now && lastDue == 0
    {
      initialDelay := delay;
      scheduledInstants, scheduledTasks := multiset{}, [];
      slots, clock, lastDue := [], now, 0;
    }

    /** A task that is first due `delta` from now. */
    method AddTaskAfter(task: T, delta: Duration, now: Instant)
      requires Valid() && clock <= now
      modifies this
      ensures Valid() && clock == now && lastDue == old(lastDue)
      ensures Tasks() == old(Tasks()) + [task]
      ensures slots == old(slots) + [Slot(now + delta, 0)]
    {
      var i := |scheduledTasks|;
      var instant := now + delta;
      scheduledInstants := scheduledInstants + multiset{IndexedInstant(instant, i)};
      scheduledTasks := scheduledTasks + [ScheduledTask(task, initialDelay)];
      slots, clock := slots + [Slot(instant, 0)], now;
      HeapPush(old(scheduledInstants), old(slots), initialDelay, Slot(instant, 0));
      TasksPush(old(scheduledTasks), old(slots), initialDelay, lastDue, task, instant);
    }

    method AddTask(task: T, now: Instant)
      requires Valid() && clock <= now
      modifies this
      ensures Valid() && clock == now && lastDue == old(lastDue)
      ensures Tasks() == old(Tasks()) + [task]
      ensures slots == old(slots) + [Slot(now, 0)]
    {
      AddTaskAfter(task, 0, now);
    }

    /** The next task and its index: the one whose next firing is due first and, of several, the one added
        first. The clock shows `now` at the call; where the task is not due yet, the wait ends `oversleep` after
        it is. None while there are no tasks, when the wait never ends. */
    method NextTask(now: Instant, oversleep: Duration) returns (task: Option<T>, at: Instant, ghost i: nat)
      requires Valid() && clock <= now
      modifies this
      ensures Valid() && Tasks() == old(Tasks()) && clock == at >= now
      ensures task.None? <==> old(slots) == []
      ensures task.None? ==> slots == [] && lastDue == old(lastDue)
      ensures task.Some? ==> i < |old(slots)| && task.value == old(Tasks()[i]) && slots == old(Fired(slots, i))
      ensures task.Some? ==> forall j | 0 <= j < |old(slots)| :: old(At(i)).AtMost(old(At(j)))
      ensures task.Some? ==> old(lastDue) <= lastDue == old(Due(slots[i], initialDelay)) <= clock
      ensures task.Some? ==> at == if now < lastDue then lastDue + oversleep else now
    {
      hide Due, TasksOf, TasksOk, HeapOk, IsLeast;
      i := 0;
      SameLength(scheduledInstants, scheduledTasks, slots, initialDelay, lastDue);
      if scheduledInstants == multiset{} {
        clock := now;
        return None, now, 0;
      }
      HasLeast(scheduledInstants);
      var e :| IsLeast(e, scheduledInstants);
      i := e.index;
      YieldStep(scheduledInstants, scheduledTasks, slots, initialDelay, lastDue, e);
      at := if now < e.instant then e.instant + oversleep else now;
      var scheduled := scheduledTasks[e.index];
      scheduledInstants := scheduledInstants - multiset{e} + multiset{Again(e, scheduled)};
      scheduledTasks := scheduledTasks[e.index := Delayed(scheduled)];
      slots, clock, lastDue := Fired(slots, i), at, e.instant;
      task := Some(scheduled.task);
    }

    static lemma NoTasksYet(delay: Duration)
      ensures HeapOk(multiset{}, [], delay) && TasksOk<T>([], [], delay, 0)
    {
    }

    /** with_tasks: the first firings are spread over the initial delay; the clock is read for each task. */
    constructor WithTasks(tasks: seq<T>, delay: Duration, readings: seq<Instant>)
      requires |tasks| < 0x1_0000_0000 && |readings| == |tasks|
      requires forall i, j | 0 <= i < j < |readings| :: readings[i] <= readings[j]
      ensures Valid() && initialDelay == delay && Tasks() == tasks && |slots| == |tasks|
      ensures clock == if tasks == [] then 0 else readings[|tasks| - 1]
      ensures forall i | 0 <= i < |tasks| :: slots[i] == Slot(readings[i] + Spread(delay, |tasks|, i), 0)
    {
      initialDelay := delay;
      scheduledInstants, scheduledTasks := multiset{}, [];
      slots, clock, lastDue := [], 0, 0;
      new;
      hide HeapOk, TasksOk, Spread;
      NoTasksYet(delay);
      if tasks == [] {
        return;
      }
      for i := 0 to |tasks|
        invariant Valid() && clock == (if i == 0 then 0 else readings[i - 1]) && |slots| == i && Tasks() == tasks[..i]
        invariant forall j | 0 <= j < i :: slots[j] == Slot(readings[j] + Spread(delay, |tasks|, j), 0)
      {
        AddTaskAfter(tasks[i], Spread(delay, |tasks|, i), readings[i]);
      }
    }

    /** Yields until task i has fired, for a positive initial delay, however long each wait is overslept and
        although a task may be added after each yield: every task that is due is reached. */
    method NextTasksUntil(i: nat, now: Instant, oversleep: nat -> Duration, arrivals: seq<(T, Duration)>)
      returns (yielded: seq<T>, ghost arrived: seq<Slot>)
      requires Valid() && clock <= now && i < |slots| && initialDelay > 0
      modifies this
      ensures Valid() && yielded != [] && yielded[|yielded| - 1] == old(Tasks()[i])
      ensures |arrived| <= |arrivals| && Tasks() == old(Tasks()) + FirstTasks(arrivals, |arrived|)
      ensures i < |slots| && slots[i] == old(slots[i]).(fired := old(slots[i].fired) + 1)
      ensures |yielded| <= old(Backlog(slots, initialDelay, Due(slots[i], initialDelay), |slots|))
                           + Backlog(arrived, initialDelay, old(Due(slots[i], initialDelay)), |arrived|)
    {
      hide Firing, Pow2, Pending;
      ghost var d := Due(slots[i], initialDelay);
      var delay := scheduledTasks[i].delay;
      var at := now;
      yielded, arrived := [], [];
      var next := 0;
      while true
        invariant Valid() && clock <= at && |slots| == |old(slots)| + |arrived| && slots[i] == old(slots[i])
        invariant next == |arrived| <= |arrivals| && Tasks() == old(Tasks()) + FirstTasks(arrivals, |arrived|)
        invariant scheduledTasks[i].delay == delay
        invariant |yielded| + Backlog(slots, initialDelay, d, |slots|)
                  <= old(Backlog(slots, initialDelay, d, |slots|)) + Backlog(arrived, initialDelay, d, |arrived|)
        decreases |arrivals| - |arrived|, Backlog(slots, initialDelay, d, |slots|)
      {
        ghost var before := slots;
        assert TaskOk(scheduledTasks[i], slots[i], initialDelay, lastDue);
        var task, woken, j := NextTask(at, oversleep(|yielded|));
        at := woken;
        assert TaskOk(scheduledTasks[i], slots[i], initialDelay, lastDue);
        DueFirst(before, slots, initialDelay, i, j);
        DelayGrows(before[i].fired, initialDelay);
        assert task.value == Tasks()[j];
        yielded := yielded + [task.value];
        if scheduledTasks[i].delay != delay {
          return;
        }
        if next < |arrivals| {
          ghost var s := Slot(at + arrivals[next].1, 0);
          BacklogPush(slots, s, initialDelay, d, |slots|);
          BacklogPush(arrived, s, initialDelay, d, |arrived|);
          AddTaskAfter(arrivals[next].0, arrivals[next].1, at);
          assert TaskOk(scheduledTasks[i], slots[i], initialDelay, lastDue);
          arrived := arrived + [s];
          next := next + 1;
        }
      }
    }
  }

  function FirstTasks<T>(arrivals: seq<(T, Duration)>, n: nat): seq<T>
    requires n <= |arrivals|
  {
    seq(n, k requires 0 <= k < n => arrivals[k].0)
  }

  /** A task that is added lengthens the backlog by what it is due itself. */
  lemma {:induction false} BacklogPush(slots: seq<Slot>, s: Slot, initial: Duration, d: Instant, k: nat)
    requires initial > 0 && k <= |slots|
    ensures Backlog(slots + [s], initial, d, k) == Backlog(slots, initial, d, k)
    ensures k == |slots| ==>
              Backlog(slots + [s], initial, d, k + 1) == Backlog(slots, initial, d, k) + Pending(s, initial, d)
  {
    if k > 0 { BacklogPush(slots, s, initial, d, k - 1); }
  }

  /** A task that is yielded before task i is due no later, so the backlog gets shorter by one. */
  lemma DueFirst(a: seq<Slot>, b: seq<Slot>, initial: Duration, i: nat, j: nat)
    requires initial > 0 && i < |a| && j < |a| && b == a[j := a[j].(fired := a[j].fired + 1)]
    requires Due(a[j], initial) <= Due(a[i], initial)
    ensures var d := Due(a[i], initial);
            Backlog(b, initial, d, |a|) == Backlog(a, initial, d, |a|) - 1
  {
    BacklogChanges(a, b, initial, Due(a[i], initial), j, |a|);
  }

  lemma DelayGrows(k: nat, initial: Duration)
    requires initial > 0
    ensures Pow2(k + 1) * initial != Pow2(k) * initial
  {
    Pow2Positive(k);
  }

  lemma Doubled(delay: Duration, k: nat, initial: Duration)
    requires delay == Pow2(k) * initial
    ensures delay * 2 == Pow2(k + 1) * initial
  {
  }
}
