/** Signatures and multisignatures (code/alephbft/crypto/src/signature.rs): a multisignature is a list with
    a place for the signature of every node, complete with more than two thirds of them. Data are
    identified with the hashes that are signed. */
module Multisignatures {
  import opened Options

  type Hash = nat
  type Signature = nat
  type NodeIndex = nat

  /** NodeCount::consensus_threshold */
  function Threshold(count: nat): nat { count * 2 / 3 + 1 }

  datatype Keychain = Keychain(
    count: nat, index: NodeIndex, sign: Hash -> Signature, verify: (Hash, Signature, NodeIndex) -> bool)
  {
    /** What is asked of a keychain: no signature verifies outside the node range, and its own do. */
    ghost predicate Sound() {
      && index < count
      && (forall h: Hash, s: Signature, i: NodeIndex :: verify(h, s, i) ==> i < count)
      && (forall h: Hash :: verify(h, sign(h), index))
    }
  }

  /** NodeMap: the signature of node i in place i. */
  type SignatureSet = seq<Option<Signature>>

  /** iter().count() */
  function ItemCount(s: SignatureSet): nat {
    if s == [] then 0 else ItemCount(s[..|s| - 1]) + if s[|s| - 1].Some? then 1 else 0
  }

  function Signers(s: SignatureSet): set<NodeIndex> { set i | 0 <= i < |s| && s[i].Some? }

  lemma {:induction false} CountOfSigners(s: SignatureSet)
    ensures ItemCount(s) == |Signers(s)|
  {
    if s != [] {
      var t := s[..|s| - 1];
      CountOfSigners(t);
      assert Signers(s) == if s[|s| - 1].Some? then Signers(t) + {|s| - 1} else Signers(t);
    }
  }

  predicate AllVerify(k: Keychain, h: Hash, s: SignatureSet) {
    forall i | 0 <= i < |s| && s[i].Some? :: k.verify(h, s[i].value, i)
  }

  /** is_complete */
  predicate IsComplete(k: Keychain, h: Hash, s: SignatureSet) {
    ItemCount(s) >= Threshold(k.count) && AllVerify(k, h, s)
  }

  /** bootstrap_multi */
  function Bootstrap(k: Keychain, s: Signature, i: NodeIndex): SignatureSet
    requires i < k.count
  {
    seq(k.count, j => None)[i := Some(s)]
  }

  datatype PartiallyMultisigned = Incomplete(hash: Hash, signature: SignatureSet) | Complete(hash: Hash,
      signature: SignatureSet)

  function Gauged(k: Keychain, h: Hash, s: SignatureSet): PartiallyMultisigned {
    if IsComplete(k, h, s) then Complete(h, s) else Incomplete(h, s)
  }

  /** into_partially_multisigned */
  function IntoPartiallyMultisigned(k: Keychain, h: Hash, i: NodeIndex, s: Signature): PartiallyMultisigned
    requires i < k.count
  {
    Gauged(k, h, Bootstrap(k, s, i))
  }

  /** PartiallyMultisigned::add_signature */
  function AddSignature(p: PartiallyMultisigned, k: Keychain, h: Hash, i: NodeIndex, s: Signature): PartiallyMultisigned
    requires i < |p.signature|
  {
    if p.hash != h || p.Complete? then p else Gauged(k, h, p.signature[i := Some(s)])
  }

  /** What is known of a multisignature while it grows: valid signatures of exactly the nodes `signers`. */
  predicate SignedBy(k: Keychain, p: PartiallyMultisigned, signers: set<NodeIndex>) {
    && |p.signature| == k.count && AllVerify(k, p.hash, p.signature) && Signers(p.signature) == signers
    && (p.Complete? <==> |signers| >= Threshold(k.count))
  }

  lemma BootstrapSigns(k: Keychain, h: Hash, i: NodeIndex, s: Signature)
    requires i < k.count && k.verify(h, s, i)
    ensures SignedBy(k, IntoPartiallyMultisigned(k, h, i, s), {i}) && IntoPartiallyMultisigned(k, h, i, s).hash == h
  {
    var m := Bootstrap(k, s, i);
    assert Signers(m) == {i};
    CountOfSigners(m);
  }

  /** Adding a valid signature adds its signer, and completes the multisignature when that makes enough. */
  lemma AddSignatureSigns(p: PartiallyMultisigned, k: Keychain, i: NodeIndex, s: Signature, signers: set<NodeIndex>)
    requires p.Incomplete? && SignedBy(k, p, signers) && i < k.count && k.verify(p.hash, s, i)
    ensures SignedBy(k, AddSignature(p, k, p.hash, i, s), signers + {i})
    ensures AddSignature(p, k, p.hash, i, s).hash == p.hash
  {
    var m := p.signature[i := Some(s)];
    assert Signers(m) == signers + {i};
    CountOfSigners(m);
  }

  // Quorums.

  predicate IsQuorum(q: set<NodeIndex>, count: nat) { |q| >= Threshold(count) && forall i <- q :: i < count }

  function Nodes(count: nat): (r: set<NodeIndex>)
    ensures |r| == count && forall i: nat :: i in r <==> i < count
  {
    if count == 0 then {} else Nodes(count - 1) + {count - 1}
  }

  lemma SubsetSize(a: set<NodeIndex>, b: set<NodeIndex>)
    requires a <= b
    ensures |a| <= |b|
  {
    assert b == a + (b - a);
  }

  /** A complete multisignature is signed by a quorum. */
  lemma CompleteIsQuorum(k: Keychain, h: Hash, s: SignatureSet)
    requires k.Sound() && IsComplete(k, h, s)
    ensures IsQuorum(Signers(s), k.count)
  {
    CountOfSigners(s);
  }

  /** With fewer than a third of the nodes faulty, two quorums have an honest node in common. */
  lemma QuorumsShareHonest(p: set<NodeIndex>, q: set<NodeIndex>, faulty: set<NodeIndex>, count: nat)
    requires IsQuorum(p, count) && IsQuorum(q, count) && 3 * |faulty| < count
    ensures exists i :: i in p && i in q && i !in faulty
  {
    assert p + q <= Nodes(count);
    SubsetSize(p + q, Nodes(count));
    assert |p| + |q| == |p + q| + |p * q|;
    if p * q <= faulty {
      SubsetSize(p * q, faulty);
      assert false;
    }
    var i :| i in p * q && i !in faulty;
  }

  /** A quorum has more honest nodes than there are faulty ones. */
  lemma QuorumIsMostlyHonest(q: set<NodeIndex>, faulty: set<NodeIndex>, count: nat)
    requires IsQuorum(q, count) && 3 * |faulty| < count
    ensures |q - faulty| >= Threshold(count) - |faulty| > |faulty|
  {
    assert q == (q - faulty) + q * faulty;
    SubsetSize(q * faulty, faulty);
  }

  /** The honest nodes alone are a quorum. */
  lemma HonestAreQuorum(faulty: set<NodeIndex>, count: nat)
    requires 3 * |faulty| < count && faulty <= Nodes(count)
    ensures IsQuorum(Nodes(count) - faulty, count)
  {
    assert Nodes(count) == (Nodes(count) - faulty) + faulty;
  }
}
