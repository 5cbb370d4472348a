/** The canonical encoding of a set of nodes (code/alephbft/crypto/src/node.rs): its capacity as a u32, then
    its bits in bytes, most significant bit first. */
module NodeSubset {

  type Byte = b: int | 0 <= b < 256

  datatype Result<+T> = Ok(value: T) | Err

  const U32 := 0x1_0000_0000

  function BitValue(b: bool): int { if b then 1 else 0 }

  /** Up to eight bits from i on, the first one most significant, zeros behind the end. */
  function ByteAt(bits: seq<bool>, i: nat, n: nat): (v: nat)
    requires n <= 8
    ensures v < Power(n)
    decreases n
  {
    if n == 0 then 0
    else
      var first := i < |bits| && bits[i];
      BitValue(first) * Power(n - 1) + ByteAt(bits, i + 1, n - 1)
  }

  function Power(n: nat): nat
    requires n <= 8
  {
    if n == 0 then 1 else if n == 1 then 2 else if n == 2 then 4 else if n == 3 then 8 else if n == 4 then 16
    else if n == 5 then 32 else if n == 6 then 64 else if n == 7 then 128 else 256
  }

  function ByteCount(n: nat): nat { (n + 7) / 8 }

  /** BitVec::to_bytes */
  function ToBytes(bits: seq<bool>): seq<Byte> {
    seq(ByteCount(|bits|), i requires 0 <= i < ByteCount(|bits|) => ByteAt(bits, 8 * i, 8))
  }

  function BitOf(b: Byte, j: nat): bool
    requires j < 8
  {
    b / Power(7 - j) % 2 == 1
  }

  /** BitVec::from_bytes */
  function FromBytes(bytes: seq<Byte>): seq<bool> {
    seq(8 * |bytes|, k requires 0 <= k < 8 * |bytes| => BitOf(bytes[k / 8], k % 8))
  }

  /** What is written: the capacity, cut to 32 bits, and the bytes. */
  function Encode(bits: seq<bool>): (int, seq<Byte>) { (|bits| % U32, ToBytes(bits)) }

  lemma BitsOfByteAt(bits: seq<bool>, i: nat)
    ensures
      var b := ByteAt(bits, i, 8);
      && BitValue(BitOf(b, 0)) == BitAt(bits, i) && BitValue(BitOf(b, 1)) == BitAt(bits, i + 1)
      && BitValue(BitOf(b, 2)) == BitAt(bits, i + 2) && BitValue(BitOf(b, 3)) == BitAt(bits, i + 3)
      && BitValue(BitOf(b, 4)) == BitAt(bits, i + 4) && BitValue(BitOf(b, 5)) == BitAt(bits, i + 5)
      && BitValue(BitOf(b, 6)) == BitAt(bits, i + 6) && BitValue(BitOf(b, 7)) == BitAt(bits, i + 7)
  {
    ByteOfBits(bits, i);
    hide ByteAt, BitOf;
    BitsOfSum(ByteAt(bits, i, 8), BitAt(bits, i), BitAt(bits, i + 1), BitAt(bits, i + 2), BitAt(bits, i + 3),
              BitAt(bits, i + 4), BitAt(bits, i + 5), BitAt(bits, i + 6), BitAt(bits, i + 7));
  }

  /** A bit of a byte is the bit that went into it. */
  lemma BitOfByteAt(bits: seq<bool>, i: nat, j: nat)
    requires j < 8
    ensures BitOf(ByteAt(bits, i, 8), j) == (i + j < |bits| && bits[i + j])
  {
    hide ByteAt, BitOf;
    BitsOfByteAt(bits, i);
    assert BitValue(BitOf(ByteAt(bits, i, 8), j)) == BitAt(bits, i + j);
  }

  function BitAt(bits: seq<bool>, i: nat): int { BitValue(i < |bits| && bits[i]) }

  lemma ByteOfBits(bits: seq<bool>, i: nat)
    ensures ByteAt(bits, i, 8) == 128 * BitAt(bits, i) + 64 * BitAt(bits, i + 1) + 32 * BitAt(bits, i + 2)
                                  + 16 * BitAt(bits, i + 3) + 8 * BitAt(bits, i + 4) + 4 * BitAt(bits, i + 5)
                                  + 2 * BitAt(bits, i + 6) + BitAt(bits, i + 7)
  {
    assert ByteAt(bits, i + 7, 1) == BitAt(bits, i + 7) + ByteAt(bits, i + 8, 0);
    assert ByteAt(bits, i + 6, 2) == 2 * BitAt(bits, i + 6) + ByteAt(bits, i + 7, 1);
    assert ByteAt(bits, i + 5, 3) == 4 * BitAt(bits, i + 5) + ByteAt(bits, i + 6, 2);
    assert ByteAt(bits, i + 4, 4) == 8 * BitAt(bits, i + 4) + ByteAt(bits, i + 5, 3);
    assert ByteAt(bits, i + 3, 5) == 16 * BitAt(bits, i + 3) + ByteAt(bits, i + 4, 4);
    assert ByteAt(bits, i + 2, 6) == 32 * BitAt(bits, i + 2) + ByteAt(bits, i + 3, 5);
    assert ByteAt(bits, i + 1, 7) == 64 * BitAt(bits, i + 1) + ByteAt(bits, i + 2, 6);
    assert ByteAt(bits, i, 8) == 128 * BitAt(bits, i) + ByteAt(bits, i + 1, 7);
  }

  predicate ZeroFrom(bits: seq<bool>, n: nat) { forall k | n <= k < |bits| :: !bits[k] }

  /** The bytes hold the bits and then zeros. */
  lemma BytesHoldBits(bits: seq<bool>)
    ensures var all := FromBytes(ToBytes(bits));
            |all| == 8 * ByteCount(|bits|) >= |bits| && all[..|bits|] == bits && ZeroFrom(all, |bits|)
  {
    var bytes := ToBytes(bits);
    var all := FromBytes(bytes);
    forall k | 0 <= k < |all|
      ensures all[k] == (k < |bits| && bits[k])
    {
      BitOfByteAt(bits, 8 * (k / 8), k % 8);
    }
  }

  lemma Halves(b: Byte)
    ensures b / 4 == b / 2 / 2 && b / 8 == b / 4 / 2 && b / 16 == b / 8 / 2 && b / 32 == b / 16 / 2
    ensures b / 64 == b / 32 / 2 && b / 128 == b / 64 / 2 && b / 128 < 2
  {
  }

  /** A byte is the sum of its bits. */
  lemma ByteOfItsBits(b: Byte)
    ensures b == 128 * BitValue(BitOf(b, 0)) + 64 * BitValue(BitOf(b, 1)) + 32 * BitValue(BitOf(b, 2))
                 + 16 * BitValue(BitOf(b, 3)) + 8 * BitValue(BitOf(b, 4)) + 4 * BitValue(BitOf(b, 5))
                 + 2 * BitValue(BitOf(b, 6)) + BitValue(BitOf(b, 7))
  {
    LowBits(b);
    HighBits(b);
  }

  lemma LowBits(b: Byte)
    ensures b == 16 * (b / 16) + 8 * BitValue(BitOf(b, 4)) + 4 * BitValue(BitOf(b, 5)) + 2 * BitValue(BitOf(b, 6))
            + BitValue(BitOf(b, 7))
  {
    Halves(b);
    var h1, h2, h3, h4 := b / 2, b / 4, b / 8, b / 16;
    assert BitValue(BitOf(b, 7)) == b - 2 * h1;
    assert BitValue(BitOf(b, 6)) == h1 - 2 * h2;
    assert BitValue(BitOf(b, 5)) == h2 - 2 * h3;
    assert BitValue(BitOf(b, 4)) == h3 - 2 * h4;
  }

  lemma HighBits(b: Byte)
    ensures b / 16 == 8 * BitValue(BitOf(b, 0)) + 4 * BitValue(BitOf(b, 1)) + 2 * BitValue(BitOf(b, 2))
            + BitValue(BitOf(b, 3))
  {
    Halves(b);
    var h4, h5, h6, h7 := b / 16, b / 32, b / 64, b / 128;
    assert BitValue(BitOf(b, 3)) == h4 - 2 * h5;
    assert BitValue(BitOf(b, 2)) == h5 - 2 * h6;
    assert BitValue(BitOf(b, 1)) == h6 - 2 * h7;
    assert BitValue(BitOf(b, 0)) == h7;
  }

  /** The bits of a sum of bits. */
  lemma BitsOfSum(b: Byte, b0: int, b1: int, b2: int, b3: int, b4: int, b5: int, b6: int, b7: int)
    requires 0 <= b0 <= 1 && 0 <= b1 <= 1 && 0 <= b2 <= 1 && 0 <= b3 <= 1
    requires 0 <= b4 <= 1 && 0 <= b5 <= 1 && 0 <= b6 <= 1 && 0 <= b7 <= 1
    requires b == 128 * b0 + 64 * b1 + 32 * b2 + 16 * b3 + 8 * b4 + 4 * b5 + 2 * b6 + b7
    ensures BitValue(BitOf(b, 0)) == b0 && BitValue(BitOf(b, 1)) == b1 && BitValue(BitOf(b, 2)) == b2
    ensures BitValue(BitOf(b, 3)) == b3 && BitValue(BitOf(b, 4)) == b4 && BitValue(BitOf(b, 5)) == b5
    ensures BitValue(BitOf(b, 6)) == b6 && BitValue(BitOf(b, 7)) == b7
  {
    var h6 := 2 * b0 + b1;
    var h5 := 2 * h6 + b2;
    var h4 := 2 * h5 + b3;
    var h3 := 2 * h4 + b4;
    var h2 := 2 * h3 + b5;
    var h1 := 2 * h2 + b6;
    assert b == 2 * h1 + b7;
    Halves(b);
    assert b / 2 == h1 && b / 4 == h2 && b / 8 == h3 && b / 16 == h4 && b / 32 == h5 && b / 64 == h6 && b / 128 == b0;
  }

  /** Bits followed only by zeros, up to the end of their last byte, are the ones the bytes encode. */
  lemma BitsGiveBytes(bytes: seq<Byte>, n: nat)
    requires |bytes| == ByteCount(n) && ZeroFrom(FromBytes(bytes), n)
    ensures n <= 8 * |bytes| && ToBytes(FromBytes(bytes)[..n]) == bytes
  {
    var all := FromBytes(bytes);
    var bits := all[..n];
    forall i | 0 <= i < |bytes|
      ensures ToBytes(bits)[i] == bytes[i]
    {
      SameByte(bytes, n, i);
    }
  }

  lemma SameByte(bytes: seq<Byte>, n: nat, i: nat)
    requires |bytes| == ByteCount(n) && ZeroFrom(FromBytes(bytes), n) && i < |bytes| && n <= 8 * |bytes|
    ensures ByteAt(FromBytes(bytes)[..n], 8 * i, 8) == bytes[i]
  {
    hide ByteAt, BitOf;
    var all := FromBytes(bytes);
    var bits := all[..n];
    ByteOfBits(bits, 8 * i);
    ByteOfItsBits(bytes[i]);
    BitBack(bytes, n, i, 0);
    BitBack(bytes, n, i, 1);
    BitBack(bytes, n, i, 2);
    BitBack(bytes, n, i, 3);
    BitBack(bytes, n, i, 4);
    BitBack(bytes, n, i, 5);
    BitBack(bytes, n, i, 6);
    BitBack(bytes, n, i, 7);
  }

  lemma BitBack(bytes: seq<Byte>, n: nat, i: nat, j: nat)
    requires |bytes| == ByteCount(n) && ZeroFrom(FromBytes(bytes), n) && i < |bytes| && n <= 8 * |bytes| && j < 8
    ensures BitAt(FromBytes(bytes)[..n], 8 * i + j) == BitValue(BitOf(bytes[i], j))
  {
    hide BitOf;
    assert (8 * i + j) / 8 == i && (8 * i + j) % 8 == j;
    assert FromBytes(bytes)[8 * i + j] == BitOf(bytes[i], j);
  }

  /** What decoding accepts: the bytes that hold the capacity in bits and then only zeros. */
  predicate Accepted(capacity: nat, bytes: seq<Byte>) {
    |bytes| == ByteCount(capacity) && ZeroFrom(FromBytes(bytes), capacity)
  }

  /** What decoding gives, where it accepts. */
  function Decoded(capacity: nat, bytes: seq<Byte>): seq<bool>
    requires Accepted(capacity, bytes)
  {
    FromBytes(bytes)[..capacity]
  }

  /** NodeSubset::decode, behind the decoding of the integer and of the byte vector. */
  method Decode(capacity: nat, bytes: seq<Byte>) returns (r: Result<seq<bool>>)
    requires capacity < U32
    ensures r.Ok? <==> Accepted(capacity, bytes)
    ensures r.Ok? ==> r.value == Decoded(capacity, bytes)
  {
    var bv := FromBytes(bytes);
    if |bv| != 8 * ((capacity + 7) / 8) {
      return Err;
    }
    while |bv| > capacity
      invariant capacity <= |bv| <= 8 * |bytes| && bv == FromBytes(bytes)[..|bv|] && ZeroFrom(FromBytes(bytes), |bv|)
    {
      if bv[|bv| - 1] {
        return Err;
      }
      bv := bv[..|bv| - 1];
    }
    r := Ok(bv);
  }

  /** Decoding what was encoded gives the set back exactly when its capacity fits 32 bits; a larger one is
      rejected. */
  lemma RoundTripFits(bits: seq<bool>)
    ensures
      var (capacity, bytes) := Encode(bits);
      && (|bits| < U32 <==> Accepted(capacity, bytes))
      && (|bits| < U32 ==> Decoded(capacity, bytes) == bits)
  {
    BytesHoldBits(bits);
    assert |ToBytes(bits)| == ByteCount(|bits|);
    hide ToBytes, FromBytes;
    CutCapacity(|bits|);
  }

  lemma CutCapacity(n: nat)
    ensures n < U32 ==> n % U32 == n
    ensures n >= U32 ==> ByteCount(n % U32) < ByteCount(n)
  {
    if n >= U32 {
      assert n % U32 <= n - U32;
    }
  }

  /** Every accepted encoding is the encoding of what it decodes to: no set has two encodings. */
  lemma Canonical(capacity: nat, bytes: seq<Byte>)
    requires capacity < U32 && Accepted(capacity, bytes)
    ensures Encode(Decoded(capacity, bytes)) == (capacity, bytes)
  {
    BitsGiveBytes(bytes, capacity);
  }
}
