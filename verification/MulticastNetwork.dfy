/** Reliable multicast in a network with faulty nodes: what a multisigned hash at an honest node proves. */
module MulticastNetwork {
  import opened Multisignatures
  import opened MulticastHandler
  import opened MulticastHistory

  /** An input at an honest node. What the faulty nodes do appears in the messages that arrive; messages may
      be lost, repeated and come in any order. */
  datatype Event = Event(node: NodeIndex, input: Input)

  /** `count` nodes with the public `verify` and the secret `sign` of each. */
  datatype Network = Network(
    count: nat, faulty: set<NodeIndex>, sign: (NodeIndex, Hash) -> Signature,
        verify: (Hash, Signature, NodeIndex) -> bool)
  {
    function KeychainOf(i: NodeIndex): Keychain { Keychain(count, i, h => sign(i, h), verify) }

    ghost predicate Ok() {
      && 3 * |faulty| < count && faulty <= Nodes(count)
      && (forall h: Hash, s: Signature, i: NodeIndex :: verify(h, s, i) ==> i < count)
      && (forall h: Hash, i: NodeIndex | i < count :: verify(h, sign(i, h), i))
    }

    predicate Honest(i: NodeIndex) { i < count && i !in faulty }

    lemma KeychainSound(i: NodeIndex)
      requires Ok() && i < count
      ensures KeychainOf(i).Sound()
    {
    }
  }

  function LogOf(run: seq<Event>, i: NodeIndex): seq<Input> {
    if run == [] then []
    else
      var last := run[|run| - 1];
      LogOf(run[..|run| - 1], i) + if last.node == i then [last.input] else []
  }

  /** The nodes that have started h. */
  function Starters(run: seq<Event>, h: Hash): set<NodeIndex> {
    if run == [] then {}
    else
      var last := run[|run| - 1];
      Starters(run[..|run| - 1], h) + if last.input == Start(h) then {last.node} else {}
  }

  /** The nodes whose valid signatures of its hash a message holds. */
  function ClaimedBy(n: Network, m: Message): set<NodeIndex> {
    match m
    case SignedHash(h, i, s) => if n.verify(h, s, i) then {i} else {}
    case MultisignedHash(h, s) => set i | 0 <= i < |s| && s[i].Some? && n.verify(h, s[i].value, i)
  }

  /** Signatures cannot be forged: a valid signature of an honest node in a message means that the node has
      started the hash before. */
  predicate Unforged(n: Network, run: seq<Event>) {
    run == [] ||
    var before, last := run[..|run| - 1], run[|run| - 1];
    && Unforged(n, before) && n.Honest(last.node)
    && (last.input.Receive? ==>
          forall i <- ClaimedBy(n, last.input.message) :: n.Honest(i) ==>
              i in Starters(before, last.input.message.hash))
  }

  function StatesOf(n: Network, run: seq<Event>, i: NodeIndex): States
    requires n.Ok() && n.Honest(i)
  {
    n.KeychainSound(i);
    After(n.KeychainOf(i), LogOf(run, i))
  }

  /** The honest signatures a node has of h come from nodes that started it. */
  predicate Backed(n: Network, run: seq<Event>, states: States, h: Hash) {
    h in states ==> forall j <- Signers(states[h].signature) :: n.Honest(j) ==> j in Starters(run, h)
  }

  lemma {:induction false} AlwaysBacked(n: Network, run: seq<Event>, i: NodeIndex, h: Hash)
    requires n.Ok() && n.Honest(i) && Unforged(n, run)
    ensures Backed(n, run, StatesOf(n, run, i), h)
  {
    if run != [] {
      var before, last := run[..|run| - 1], run[|run| - 1];
      AlwaysBacked(n, before, i, h);
      assert Starters(before, h) <= Starters(run, h);
      if last.node == i {
        n.KeychainSound(i);
        var k, log := n.KeychainOf(i), LogOf(before, i);
        SeenMore(k, log, last.input, h);
        assert LogOf(run, i) == log + [last.input];
        StaysBacked(n, run, i, h, After(k, log), last.input);
      } else {
        assert LogOf(run, i) == LogOf(before, i);
      }
    }
  }

  lemma StaysBacked(n: Network, run: seq<Event>, i: NodeIndex, h: Hash, states: States, input: Input)
    requires n.Ok() && n.Honest(i) && n.KeychainOf(i).Sound() && StatesOk(n.KeychainOf(i), states)
    requires Backed(n, run, states, h)
    requires input.Start? ==> i in Starters(run, input.hash)
    requires input.Receive? ==>
               forall j <- ClaimedBy(n, input.message) :: n.Honest(j) ==> j in Starters(run, input.message.hash)
    ensures Backed(n, run, Next(n.KeychainOf(i), states, input), h)
  {
    hide Starters;
    var k := n.KeychainOf(i);
    if HashOf(input) == h && !IsDone(states, h) {
      match input
      case Start(_) => SignatureBacked(n, run, k, states, h, i, k.sign(h));
      case Receive(SignedHash(_, j, s)) => if k.verify(h, s, j) { SignatureBacked(n, run, k, states, h, j, s); }
      case Receive(MultisignedHash(_, m)) =>
        if IsComplete(k, h, m) {
          forall j <- Signers(m) ensures j in ClaimedBy(n, input.message) {}
        }
    }
  }

  lemma SignatureBacked(n: Network, run: seq<Event>, k: Keychain, states: States, h: Hash, j: NodeIndex, s: Signature)
    requires k.Sound() && StatesOk(k, states) && Backed(n, run, states, h) && !IsDone(states, h) && j < k.count
    requires n.Honest(j) ==> j in Starters(run, h)
    ensures Backed(n, run, states[h := WithSignature(k, states, h, j, s)], h)
  {
    hide Starters;
    var p := WithSignature(k, states, h, j, s);
    if h in states {
      assert Signers(p.signature) == Signers(states[h].signature) + {j};
    } else {
      assert Signers(p.signature) == {j};
    }
  }

  /** In every run with fewer than a third of the nodes faulty: a hash that is multisigned at an honest node
      was started by at least the threshold less the faulty nodes, which is more than there are faulty ones. */
  lemma MultisignedWasStarted(n: Network, run: seq<Event>, i: NodeIndex, h: Hash)
    requires n.Ok() && n.Honest(i) && Unforged(n, run) && IsDone(StatesOf(n, run, i), h)
    ensures |Starters(run, h) - n.faulty| >= Threshold(n.count) - |n.faulty| > |n.faulty|
  {
    n.KeychainSound(i);
    var k := n.KeychainOf(i);
    var states := StatesOf(n, run, i);
    HashAlwaysOk(k, LogOf(run, i), h);
    AlwaysBacked(n, run, i, h);
    var q := Signers(states[h].signature);
    CompleteIsQuorum(k, h, states[h].signature);
    QuorumIsMostlyHonest(q, n.faulty, n.count);
    SubsetSize(q - n.faulty, Starters(run, h) - n.faulty);
  }

  /** Any two hashes multisigned at honest nodes, the same or not, have an honest node that started both. */
  lemma QuorumsMeet(n: Network, run: seq<Event>, i: NodeIndex, g: Hash, j: NodeIndex, h: Hash) returns (m: NodeIndex)
    requires n.Ok() && n.Honest(i) && n.Honest(j) && Unforged(n, run)
    requires IsDone(StatesOf(n, run, i), g) && IsDone(StatesOf(n, run, j), h)
    ensures n.Honest(m) && m in Starters(run, g) && m in Starters(run, h)
  {
    n.KeychainSound(i);
    n.KeychainSound(j);
    HashAlwaysOk(n.KeychainOf(i), LogOf(run, i), g);
    HashAlwaysOk(n.KeychainOf(j), LogOf(run, j), h);
    AlwaysBacked(n, run, i, g);
    AlwaysBacked(n, run, j, h);
    var p, q := Signers(StatesOf(n, run, i)[g].signature), Signers(StatesOf(n, run, j)[h].signature);
    CompleteIsQuorum(n.KeychainOf(i), g, StatesOf(n, run, i)[g].signature);
    CompleteIsQuorum(n.KeychainOf(j), h, StatesOf(n, run, j)[h].signature);
    QuorumsShareHonest(p, q, n.faulty, n.count);
    m :| m in p && m in q && m !in n.faulty;
  }
}
