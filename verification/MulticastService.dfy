/** code/alephbft/rmc/src/service.rs: the handler with the scheduler of the broadcasts. */
module MulticastService {
  import opened Options
  import opened Multisignatures
  import opened MulticastHandler
  import opened MulticastHistory
  import opened Scheduler

  class Service {
    const scheduler: DoublingDelayScheduler<Message>
    const handler: Handler

    ghost predicate Valid()
      reads this, scheduler, handler
    {
      scheduler.Valid() && handler.Valid()
    }

    constructor (s: DoublingDelayScheduler<Message>, h: Handler)
      requires s.Valid() && h.Valid()
      ensures Valid() && scheduler == s && handler == h
    {
      scheduler, handler := s, h;
    }

    ghost predicate Response(r: Option<Multisigned>, before: States, input: Input)
      requires handler.keychain.Sound() && StatesOk(handler.keychain, before)
      reads handler
    {
      && handler.hashStates == Next(handler.keychain, before, input)
      && (r.Some? <==> Returns(handler.keychain, before, input))
      && (r.Some? ==> HashOf(input) in handler.hashStates
                      && r.value == Multisigned(HashOf(input), handler.hashStates[HashOf(input)].signature))
    }

    method StartRmc(h: Hash, now: Instant) returns (r: Option<Multisigned>)
      requires Valid() && scheduler.clock <= now
      modifies scheduler, handler
      ensures Valid() && Response(r, old(handler.hashStates), Start(h))
      ensures scheduler.Tasks()
              == old(scheduler.Tasks()) + old(Broadcast(handler.keychain, handler.hashStates, Start(h)))
      ensures scheduler.slots == old(scheduler.slots)
              + seq(|scheduler.slots| - |old(scheduler.slots)|, _ => Slot(now, 0))
    {
      var response := handler.OnStartRmc(h);
      match response
      case SignedResponse(message) =>
        scheduler.AddTask(message, now);
        r := None;
      case MultisignedResponse(multisigned) =>
        scheduler.AddTask(MultisignedHash(multisigned.hash, multisigned.signature), now);
        r := Some(multisigned);
      case Noop =>
        r := None;
    }

    method ProcessMessage(message: Message, now: Instant) returns (r: Option<Multisigned>)
      requires Valid() && scheduler.clock <= now
      modifies scheduler, handler
      ensures Valid() && Response(r, old(handler.hashStates), Receive(message))
      ensures scheduler.Tasks()
              == old(scheduler.Tasks()) + old(Broadcast(handler.keychain, handler.hashStates, Receive(message)))
      ensures scheduler.slots == old(scheduler.slots)
              + seq(|scheduler.slots| - |old(scheduler.slots)|, _ => Slot(now, 0))
    {
      var result: Result;
      match message {
        case SignedHash(h, i, s) => result := handler.OnSignedHash(h, i, s);
        case MultisignedHash(h, m) => result := handler.OnMultisignedHash(h, m);
      }
      r := None;
      if result.Ok? && result.value.Some? {
        var multisigned := result.value.value;
        scheduler.AddTask(MultisignedHash(multisigned.hash, multisigned.signature), now);
        r := Some(multisigned);
      }
    }
  }

  /** What an input puts up for broadcast: the multisignature it completes; the node's own signature of a
      hash it starts, unless that is complete already. */
  function Broadcast(k: Keychain, states: States, input: Input): seq<Message>
    requires k.Sound() && StatesOk(k, states)
  {
    var h := HashOf(input);
    if Returns(k, states, input) then [MultisignedHash(h, Next(k, states, input)[h].signature)]
    else if input.Start? && !IsDone(states, h) then [SignedHash(h, k.index, k.sign(h))]
    else []
  }

  /** Everything put up for broadcast over a log. */
  function Broadcasts(k: Keychain, log: seq<Input>): seq<Message>
    requires k.Sound()
  {
    if log == [] then []
    else
      var before := log[..|log| - 1];
      Broadcasts(k, before) + Broadcast(k, After(k, before), log[|log| - 1])
  }

  /** The multisigned broadcasts of h. */
  function MultisignedOf(l: seq<Message>, h: Hash): nat {
    if l == [] then 0
    else MultisignedOf(l[..|l| - 1], h) + if l[|l| - 1].MultisignedHash? && l[|l| - 1].hash == h then 1 else 0
  }

  lemma {:induction false} MultisignedOfJoin(a: seq<Message>, b: seq<Message>, h: Hash)
    ensures MultisignedOf(a + b, h) == MultisignedOf(a, h) + MultisignedOf(b, h)
  {
    if b == [] {
      assert a + b == a;
    } else {
      assert (a + b)[..|a + b| - 1] == a + b[..|b| - 1];
      MultisignedOfJoin(a, b[..|b| - 1], h);
    }
  }

  /** A multisigned broadcast is put up for each hash that is complete, exactly one, and for no other. */
  lemma {:induction false} OneMultisignedBroadcast(k: Keychain, log: seq<Input>, h: Hash)
    requires k.Sound()
    ensures MultisignedOf(Broadcasts(k, log), h) == TimesReturned(k, log, h) == if ShouldBeDone(k, log, h) then 1 else 0
  {
    ReturnedOnce(k, log, h);
    DoneExactlyWhenSeen(k, log, h);
    if log != [] {
      var before, last := log[..|log| - 1], log[|log| - 1];
      OneMultisignedBroadcast(k, before, h);
      var l := Broadcast(k, After(k, before), last);
      MultisignedOfJoin(Broadcasts(k, before), l, h);
      hide After;
      assert l != [] ==> l[..|l| - 1] == [];
    }
  }

  /** The broadcasts of a single signature of h. */
  function SignedOf(l: seq<Message>, h: Hash): nat {
    if l == [] then 0
    else SignedOf(l[..|l| - 1], h) + if l[|l| - 1].SignedHash? && l[|l| - 1].hash == h then 1 else 0
  }

  lemma {:induction false} SignedOfJoin(a: seq<Message>, b: seq<Message>, h: Hash)
    ensures SignedOf(a + b, h) == SignedOf(a, h) + SignedOf(b, h)
  {
    if b == [] {
      assert a + b == a;
    } else {
      assert (a + b)[..|a + b| - 1] == a + b[..|b| - 1];
      SignedOfJoin(a, b[..|b| - 1], h);
    }
  }

  /** How often h is started without being complete afterwards. */
  function OpenStarts(k: Keychain, log: seq<Input>, h: Hash): nat {
    if log == [] then 0
    else OpenStarts(k, log[..|log| - 1], h)
         + if log[|log| - 1] == Start(h) && !ShouldBeDone(k, log, h) then 1 else 0
  }

  predicate IsOwnSignature(k: Keychain, m: Message) { m == SignedHash(m.hash, k.index, k.sign(m.hash)) }

  /** A single signature is put up for each start of a hash that leaves it incomplete, and for nothing else; it is
      the node's own. */
  lemma {:induction false} OwnSignatureBroadcast(k: Keychain, log: seq<Input>, h: Hash)
    requires k.Sound()
    ensures SignedOf(Broadcasts(k, log), h) == OpenStarts(k, log, h)
    ensures forall m <- Broadcasts(k, log) :: m.SignedHash? ==> IsOwnSignature(k, m)
  {
    if log != [] {
      var before, last := log[..|log| - 1], log[|log| - 1];
      OwnSignatureBroadcast(k, before, h);
      DoneExactlyWhenSeen(k, log, HashOf(last));
      var l := Broadcast(k, After(k, before), last);
      SignedOfJoin(Broadcasts(k, before), l, h);
      assert After(k, log) == Next(k, After(k, before), last);
      hide After;
      assert l != [] ==> l[..|l| - 1] == [];
    }
  }
}
