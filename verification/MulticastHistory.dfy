/** Over any sequence of starts and messages the handler does what its simple specification says. */
module MulticastHistory {
  import opened Multisignatures
  import opened MulticastHandler

  /** The states after all inputs of a log. */
  function After(k: Keychain, log: seq<Input>): (states: States)
    requires k.Sound()
    ensures StatesOk(k, states)
  {
    if log == [] then map[] else NextStatesOk(k, After(k, log[..|log| - 1]), log[|log| - 1])
  }

  function NextStatesOk(k: Keychain, states: States, input: Input): (r: States)
    requires k.Sound() && StatesOk(k, states)
    ensures r == Next(k, states, input) && StatesOk(k, r)
  {
    Next(k, states, input)
  }

  // The simple specification.

  /** The nodes of which the input is a valid signature of h: the node itself when it starts h. */
  function SignersIn(k: Keychain, input: Input, h: Hash): set<NodeIndex> {
    match input
    case Start(g) => if g == h then {k.index} else {}
    case Receive(SignedHash(g, i, s)) => if g == h && k.verify(h, s, i) then {i} else {}
    case Receive(MultisignedHash(_, _)) => {}
  }

  function SignersSeen(k: Keychain, log: seq<Input>, h: Hash): set<NodeIndex> {
    if log == [] then {} else SignersSeen(k, log[..|log| - 1], h) + SignersIn(k, log[|log| - 1], h)
  }

  predicate IsMultisigned(k: Keychain, input: Input, h: Hash) {
    input.Receive? && input.message.MultisignedHash? && input.message.hash == h
        && IsComplete(k, h, input.message.multisignature)
  }

  /** A valid complete multisignature of h has arrived. */
  predicate MultisignatureSeen(k: Keychain, log: seq<Input>, h: Hash) {
    exists i | 0 <= i < |log| :: IsMultisigned(k, log[i], h)
  }

  predicate ShouldBeDone(k: Keychain, log: seq<Input>, h: Hash) {
    MultisignatureSeen(k, log, h) || |SignersSeen(k, log, h)| >= Threshold(k.count)
  }

  /** The state of h against what has been seen. */
  ghost predicate HashOk(k: Keychain, log: seq<Input>, h: Hash)
    requires k.Sound()
  {
    var states := After(k, log);
    if h !in states then SignersSeen(k, log, h) == {} && !MultisignatureSeen(k, log, h)
    else if states[h].Incomplete? then SignedBy(k, states[h], SignersSeen(k, log, h)) && !MultisignatureSeen(k, log, h)
    else IsComplete(k, h, states[h].signature) && ShouldBeDone(k, log, h)
  }

  lemma {:induction false} HashAlwaysOk(k: Keychain, log: seq<Input>, h: Hash)
    requires k.Sound()
    ensures HashOk(k, log, h)
  {
    if log != [] {
      HashAlwaysOk(k, log[..|log| - 1], h);
      HashStaysOk(k, log[..|log| - 1], log[|log| - 1], h);
      assert log[..|log| - 1] + [log[|log| - 1]] == log;
    }
  }

  lemma SeenMore(k: Keychain, log: seq<Input>, input: Input, h: Hash)
    requires k.Sound()
    ensures SignersSeen(k, log + [input], h) == SignersSeen(k, log, h) + SignersIn(k, input, h)
    ensures MultisignatureSeen(k, log + [input], h) <==> MultisignatureSeen(k, log, h) || IsMultisigned(k, input, h)
    ensures After(k, log + [input]) == Next(k, After(k, log), input)
    ensures |SignersSeen(k, log + [input], h)| >= |SignersSeen(k, log, h)|
  {
    var more := log + [input];
    assert more[..|more| - 1] == log;
    if MultisignatureSeen(k, log, h) {
      var i :| 0 <= i < |log| && IsMultisigned(k, log[i], h);
      assert IsMultisigned(k, more[i], h);
    }
    if IsMultisigned(k, input, h) { assert IsMultisigned(k, more[|log|], h); }
    SubsetSize(SignersSeen(k, log, h), SignersSeen(k, more, h));
  }

  lemma HashStaysOk(k: Keychain, log: seq<Input>, input: Input, h: Hash)
    requires k.Sound() && HashOk(k, log, h)
    ensures HashOk(k, log + [input], h)
  {
    hide After, SignersSeen, MultisignatureSeen;
    SeenMore(k, log, input, h);
    var states := After(k, log);
    var seen := SignersSeen(k, log, h);
    if HashOf(input) == h && !IsDone(states, h) {
      match input
      case Start(_) => SignatureStep(k, states, h, k.index, k.sign(h), seen);
      case Receive(SignedHash(_, i, s)) => if k.verify(h, s, i) { SignatureStep(k, states, h, i, s, seen); }
      case Receive(MultisignedHash(_, _)) =>
    }
  }

  lemma SignatureStep(k: Keychain, states: States, h: Hash, i: NodeIndex, s: Signature, seen: set<NodeIndex>)
    requires k.Sound() && StatesOk(k, states) && !IsDone(states, h) && k.verify(h, s, i)
    requires if h in states then SignedBy(k, states[h], seen) else seen == {}
    ensures
      var p := WithSignature(k, states, h, i, s);
      SignedBy(k, p, seen + {i}) && p.hash == h && (p.Complete? ==> IsComplete(k, h, p.signature))
  {
    if h in states {
      AddSignatureSigns(states[h], k, i, s, seen);
    } else {
      BootstrapSigns(k, h, i, s);
      assert {} + {i} == {i};
    }
    CountOfSigners(WithSignature(k, states, h, i, s).signature);
  }

  /** A hash is complete exactly when a valid complete multisignature of it has arrived or valid signatures
      of at least the threshold of different nodes have been seen. */
  lemma DoneExactlyWhenSeen(k: Keychain, log: seq<Input>, h: Hash)
    requires k.Sound()
    ensures IsDone(After(k, log), h) <==> ShouldBeDone(k, log, h)
  {
    HashAlwaysOk(k, log, h);
  }

  /** How often h has been returned as complete. */
  function TimesReturned(k: Keychain, log: seq<Input>, h: Hash): nat
    requires k.Sound()
  {
    if log == [] then 0
    else
      var before := log[..|log| - 1];
      TimesReturned(k, before, h)
      + if HashOf(log[|log| - 1]) == h && Returns(k, After(k, before), log[|log| - 1]) then 1 else 0
  }

  /** A hash is returned at most once: once if it is complete, and never otherwise. */
  lemma {:induction false} ReturnedOnce(k: Keychain, log: seq<Input>, h: Hash)
    requires k.Sound()
    ensures TimesReturned(k, log, h) == if IsDone(After(k, log), h) then 1 else 0
  {
    if log != [] {
      ReturnedOnce(k, log[..|log| - 1], h);
    }
  }

  /** The signatures of a quorum, for one of the honest nodes alone, make a hash complete. */
  lemma QuorumCompletes(k: Keychain, log: seq<Input>, h: Hash, faulty: set<NodeIndex>)
    requires k.Sound() && 3 * |faulty| < k.count && faulty <= Nodes(k.count)
    requires Nodes(k.count) - faulty <= SignersSeen(k, log, h)
    ensures IsDone(After(k, log), h)
  {
    HonestAreQuorum(faulty, k.count);
    SubsetSize(Nodes(k.count) - faulty, SignersSeen(k, log, h));
    DoneExactlyWhenSeen(k, log, h);
  }
}
