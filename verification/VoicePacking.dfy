/** Bits most significant first: two coded speech subframes in one voice
    payload and back. */
module VoicePacking {
  import opened Bits

  /** Coded bits of one subframe, and the bytes the codec keeps them in. */
  const CODED_BITS: nat := 137
  const CODED_BYTES: nat := 18

  /** A payload is a header byte and the bits of two subframes. */
  const PAYLOAD_BYTES: nat := 36
  const TOTAL_BITS: nat := 274

  /** Counted from the most significant. */
  predicate BitOf(b: bv8, j: nat)
    requires j < 8
  {
    Bit(b, 7 - j)
  }

  function TakeBit(b: bv8, j: nat): (bit: bv8)
    requires j < 8
    ensures bit == if BitOf(b, j) then 1 else 0
  {
    (b >> (7 - j)) & 1
  }

  predicate BitAt(bytes: seq<bv8>, i: nat)
    requires i < 8 * |bytes|
  {
    BitOf(bytes[i / 8], i % 8)
  }

  function BytesFor(bits: nat): nat {
    (bits + 7) / 8
  }

  /** The first `n` bits, one 0 or 1 each. */
  function Unpack(packed: seq<bv8>, n: nat): (bits: seq<bv8>)
    requires n <= 8 * |packed|
    ensures |bits| == n && forall i :: 0 <= i < n ==> bits[i] == if BitAt(packed, i) then 1 else 0
  {
    seq(n, i requires 0 <= i < n => TakeBit(packed[i / 8], i % 8))
  }

  /** `out` holds just the bits that are set in `bits`, and zeros up to the byte. */
  ghost predicate Holds(out: seq<bv8>, bits: seq<bv8>) {
    |out| == BytesFor(|bits|) && forall i :: 0 <= i < 8 * |out| ==> (BitAt(out, i) <==> i < |bits| && bits[i] != 0)
  }

  lemma SetBit(a: bv8, k: nat, j: nat)
    requires k < 8 && j < 8
    ensures BitOf(a | (1 << (7 - k)), j) == (j == k || BitOf(a, j))
  {
    hide BitOf;
    OneBit(k, j);
    BitOfOr(a, 1 << (7 - k), j);
  }

  lemma OneBit(k: nat, j: nat)
    requires k < 8 && j < 8
    ensures BitOf(1 << (7 - k), j) == (j == k)
  {
  }

  lemma BitOfOr(a: bv8, b: bv8, j: nat)
    requires j < 8
    ensures BitOf(a | b, j) == (BitOf(a, j) || BitOf(b, j))
  {
  }

  lemma SetBitAt(bytes: seq<bv8>, k: nat, i: nat)
    requires k < 8 * |bytes| && i < 8 * |bytes|
    ensures BitAt(bytes[k / 8 := bytes[k / 8] | (1 << (7 - k % 8))], i) == (i == k || BitAt(bytes, i))
  {
    hide BitOf;
    if i / 8 == k / 8 {
      SetBit(bytes[k / 8], k % 8, i % 8);
    }
  }

  /** The bytes of `bits`, given bit by bit. */
  function Pack(bits: seq<bv8>): (out: seq<bv8>)
    ensures |out| == BytesFor(|bits|)
  {
    if bits == [] then []
    else
      var k := |bits| - 1;
      var zeroed := Pack(bits[..k]) + if k % 8 == 0 then [0] else [];
      if bits[k] != 0 then zeroed[k / 8 := zeroed[k / 8] | (1 << (7 - k % 8))] else zeroed
  }

  lemma ZeroAdded(bytes: seq<bv8>, more: bool, i: nat)
    requires i < 8 * (|bytes| + if more then 1 else 0)
    ensures BitAt(bytes + if more then [0] else [], i) <==> i < 8 * |bytes| && BitAt(bytes, i)
  {
    hide Bit;
    if i / 8 == |bytes| { NoBit(7 - i % 8); }
  }

  lemma PackNothing()
    ensures Pack([]) == []
  {
  }

  lemma {:induction false} PackHolds(bits: seq<bv8>)
    ensures Holds(Pack(bits), bits)
  {
    hide BitAt, Pack;
    if bits == [] {
      PackNothing();
    } else {
      var k := |bits| - 1;
      var init := Pack(bits[..k]);
      PackHolds(bits[..k]);
      forall i | 0 <= i < 8 * |Pack(bits)| ensures BitAt(Pack(bits), i) <==> i < |bits| && bits[i] != 0 {
        PackOneMore(bits, i);
        assert i < 8 * |init| ==> (BitAt(init, i) <==> i < k && bits[..k][i] != 0);
      }
    }
  }

  lemma PackOneMore(bits: seq<bv8>, i: nat)
    requires bits != [] && i < 8 * |Pack(bits)|
    ensures var (k, init) := (|bits| - 1, Pack(bits[..|bits| - 1]));
      BitAt(Pack(bits), i) <==> (i == k && bits[k] != 0) || (i < 8 * |init| && BitAt(init, i))
  {
    hide BitAt;
    var k := |bits| - 1;
    var init := Pack(bits[..k]);
    ZeroAdded(init, k % 8 == 0, i);
    if bits[k] != 0 { SetBitAt(init + if k % 8 == 0 then [0] else [], k, i); }
  }

  lemma SameBytes(a: seq<bv8>, b: seq<bv8>)
    requires |a| == |b| && forall i :: 0 <= i < 8 * |a| ==> BitAt(a, i) == BitAt(b, i)
    ensures a == b
  {
    hide Bit;
    forall k | 0 <= k < |a| ensures a[k] == b[k] {
      forall j | 0 <= j < 8 ensures Bit(a[k], j) == Bit(b[k], j) {
        var i := 8 * k + 7 - j;
        assert i / 8 == k && i % 8 == 7 - j;
        assert BitAt(a, i) == BitAt(b, i);
      }
      SameByte(a[k], b[k]);
    }
  }

  /** Only one byte string holds given bits. */
  lemma HoldsOnce(a: seq<bv8>, b: seq<bv8>, bits: seq<bv8>)
    requires Holds(a, bits) && Holds(b, bits)
    ensures a == b
  {
    hide BitAt;
    SameBytes(a, b);
  }

  /** Sets the bits one by one in a zeroed buffer. */
  method PackInPlace(bits: seq<bv8>) returns (out: array<bv8>)
    ensures fresh(out) && out[..] == Pack(bits)
  {
    hide Bit;
    out := new bv8[BytesFor(|bits|)](_ => 0);
    forall i | 0 <= i < 8 * out.Length ensures !BitAt(out[..], i) { NoBit(7 - i % 8); }
    var k := 0;
    while k < |bits|
      invariant k <= |bits|
      invariant forall i :: 0 <= i < 8 * out.Length ==> (BitAt(out[..], i) <==> i < k && bits[i] != 0)
    {
      if bits[k] != 0 {
        ghost var before := out[..];
        out[k / 8] := out[k / 8] | (1 << (7 - k % 8));
        assert out[..] == before[k / 8 := before[k / 8] | (1 << (7 - k % 8))];
        forall i | 0 <= i < 8 * out.Length ensures BitAt(out[..], i) <==> i == k || BitAt(before, i) {
          SetBitAt(before, k, i);
        }
      }
      k := k + 1;
    }
    PackHolds(bits);
    HoldsOnce(out[..], Pack(bits), bits);
  }

  // ----- inverses, for every number of bits -----

  /** Unpacking what was packed gives every bit back, as 0 or 1. */
  lemma UnpackPack(bits: seq<bv8>, i: nat)
    requires i < |bits|
    ensures |bits| <= 8 * |Pack(bits)| && Unpack(Pack(bits), |bits|)[i] == if bits[i] != 0 then 1 else 0
  {
    PackHolds(bits);
  }

  /** Packing what was unpacked gives the bytes back, all later bits cleared. */
  lemma PackUnpack(packed: seq<bv8>, n: nat, i: nat)
    requires n <= 8 * |packed| && i < 8 * BytesFor(n)
    ensures |Pack(Unpack(packed, n))| == BytesFor(n) <= |packed|
    ensures BitAt(Pack(Unpack(packed, n)), i) <==> i < n && BitAt(packed, i)
  {
    PackHolds(Unpack(packed, n));
  }

  /** So nothing is lost exactly if the pad bits were clear. */
  lemma PackUnpackIff(packed: seq<bv8>, n: nat)
    requires n <= 8 * |packed| && |packed| == BytesFor(n)
    ensures Pack(Unpack(packed, n)) == packed <==> forall i :: n <= i < 8 * |packed| ==> !BitAt(packed, i)
  {
    hide BitAt;
    forall i | 0 <= i < 8 * |packed| ensures BitAt(Pack(Unpack(packed, n)), i) <==> i < n && BitAt(packed, i) {
      PackUnpack(packed, n, i);
    }
    if forall i :: n <= i < 8 * |packed| ==> !BitAt(packed, i) {
      SameBytes(Pack(Unpack(packed, n)), packed);
    }
  }

  // ----- voice payloads -----

  function PackPayload(sub1: seq<bv8>, sub2: seq<bv8>): (payload: seq<bv8>)
    requires |sub1| == |sub2| == CODED_BYTES
    ensures |payload| == PAYLOAD_BYTES
  {
    [0] + Pack(Unpack(sub1, CODED_BITS) + Unpack(sub2, CODED_BITS))
  }

  function UnpackPayload(payload: seq<bv8>): (subs: (seq<bv8>, seq<bv8>))
    requires |payload| == PAYLOAD_BYTES
    ensures |subs.0| == |subs.1| == CODED_BYTES
  {
    var bits := Unpack(payload[1..], TOTAL_BITS);
    (Pack(bits[..CODED_BITS]), Pack(bits[CODED_BITS..]))
  }

  /** A subframe with its seven pad bits cleared. */
  function Unpadded(sub: seq<bv8>): seq<bv8>
    requires |sub| == CODED_BYTES
  {
    sub[17 := sub[17] & 0x80]
  }

  lemma MaskOne(b: bv8, j: nat)
    requires j < 8
    ensures BitOf(b & 0x80, j) <==> j < 1 && BitOf(b, j)
  {
  }

  lemma MaskTwo(b: bv8, j: nat)
    requires j < 8
    ensures BitOf(b & 0xC0, j) <==> j < 2 && BitOf(b, j)
  {
  }

  lemma UnpaddedHolds(sub: seq<bv8>)
    requires |sub| == CODED_BYTES
    ensures Pack(Unpack(sub, CODED_BITS)) == Unpadded(sub)
  {
    hide BitOf;
    var packed := Pack(Unpack(sub, CODED_BITS));
    forall i | 0 <= i < 8 * CODED_BYTES ensures BitAt(packed, i) == BitAt(Unpadded(sub), i) {
      PackUnpack(sub, CODED_BITS, i);
      if i / 8 == 17 { MaskOne(sub[17], i % 8); }
    }
    SameBytes(packed, Unpadded(sub));
  }

  /** Bits that are packed and unpacked are the same bits. */
  lemma SameBits(bits: seq<bv8>)
    requires forall i :: 0 <= i < |bits| ==> bits[i] == 0 || bits[i] == 1
    ensures |bits| <= 8 * |Pack(bits)| && Unpack(Pack(bits), |bits|) == bits
  {
    PackHolds(bits);
    forall i | 0 <= i < |bits| ensures Unpack(Pack(bits), |bits|)[i] == bits[i] { UnpackPack(bits, i); }
  }

  /** The far end gets both subframes, with nothing but their pad bits cleared. */
  lemma PayloadCarriesBoth(sub1: seq<bv8>, sub2: seq<bv8>)
    requires |sub1| == |sub2| == CODED_BYTES
    ensures UnpackPayload(PackPayload(sub1, sub2)) == (Unpadded(sub1), Unpadded(sub2))
  {
    hide Pack, BitAt;
    var (a, b) := (Unpack(sub1, CODED_BITS), Unpack(sub2, CODED_BITS));
    SameBits(a + b);
    assert PackPayload(sub1, sub2)[1..] == Pack(a + b);
    assert (a + b)[..CODED_BITS] == a && (a + b)[CODED_BITS..] == b;
    UnpaddedHolds(sub1);
    UnpaddedHolds(sub2);
  }

  /** A relayed payload is the same but for its header and its last six bits. */
  lemma PayloadRestored(payload: seq<bv8>)
    requires |payload| == PAYLOAD_BYTES
    ensures var subs := UnpackPayload(payload);
      PackPayload(subs.0, subs.1) == payload[0 := 0][35 := payload[35] & 0xC0]
  {
    hide BitOf, Pack;
    var packed := payload[1..];
    var bits := Unpack(packed, TOTAL_BITS);
    SameBits(bits[..CODED_BITS]);
    SameBits(bits[CODED_BITS..]);
    assert bits[..CODED_BITS] + bits[CODED_BITS..] == bits;
    var cleared := packed[34 := packed[34] & 0xC0];
    forall i | 0 <= i < 8 * |packed| ensures BitAt(Pack(bits), i) == BitAt(cleared, i) {
      PackUnpack(packed, TOTAL_BITS, i);
      if i / 8 == 34 { MaskTwo(packed[34], i % 8); }
    }
    SameBytes(Pack(bits), cleared);
  }

  /** Subframes with clear pads, as the codec writes them, survive unchanged. */
  lemma PayloadLosslessIff(sub1: seq<bv8>, sub2: seq<bv8>)
    requires |sub1| == |sub2| == CODED_BYTES
    ensures UnpackPayload(PackPayload(sub1, sub2)) == (sub1, sub2) <==> sub1[17] & 0x7F == 0 && sub2[17] & 0x7F == 0
  {
    PayloadCarriesBoth(sub1, sub2);
    PadClear(sub1[17]);
    PadClear(sub2[17]);
    assert Unpadded(sub1) == sub1 <==> sub1[17] & 0x80 == sub1[17];
    assert Unpadded(sub2) == sub2 <==> sub2[17] & 0x80 == sub2[17];
  }

  lemma PadClear(b: bv8)
    ensures b & 0x80 == b <==> b & 0x7F == 0
  {
  }
}
