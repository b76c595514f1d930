/** Voice payloads and talker names bit by bit, each bit as the number it counts. */
module BitRules {
  import opened Bits
  import opened VoicePacking
  import SevenBit

  const Counts: seq<bv8> := [1, 2, 4, 8, 16, 32, 64, 128]

  lemma BitCounts(b: bv8, j: nat)
    requires j < 8
    ensures Bit(b, j) <==> b & Counts[j] != 0
  {
    if j == 0 {
    } else if j == 1 {
    } else if j == 2 {
    } else if j == 3 {
    } else if j == 4 {
    } else if j == 5 {
    } else if j == 6 {
    }
  }

  // ----- voice: the highest bit comes first -----

  predicate High(bytes: seq<bv8>, i: nat)
    requires i < 8 * |bytes|
  {
    bytes[i / 8] & Counts[7 - i % 8] != 0
  }

  lemma HighIs(bytes: seq<bv8>, i: nat)
    requires i < 8 * |bytes|
    ensures BitAt(bytes, i) <==> High(bytes, i)
  {
    hide Bit;
    BitCounts(bytes[i / 8], 7 - i % 8);
  }

  /** A payload: an empty byte, 137 bits of the first subframe, 137 of the second,
      and six empty bits. */
  lemma PayloadBits(sub1: seq<bv8>, sub2: seq<bv8>, i: nat)
    requires |sub1| == |sub2| == 18 && i < 288
    ensures var p := PackPayload(sub1, sub2);
      && |p| == 36
      && (High(p, i) <==> (8 <= i < 145 && High(sub1, i - 8)) || (145 <= i < 282 && High(sub2, i - 145)))
  {
    hide BitAt, Pack;
    var bits := Unpack(sub1, CODED_BITS) + Unpack(sub2, CODED_BITS);
    var p := PackPayload(sub1, sub2);
    HighIs(p, i);
    if 8 <= i < 145 { HighIs(sub1, i - 8); }
    if 145 <= i < 282 { HighIs(sub2, i - 145); }
    PackHolds(bits);
    if i < 8 {
      FirstByte(p, i);
    } else {
      NextByte(p[0], Pack(bits), i);
    }
  }

  lemma FirstByte(p: seq<bv8>, i: nat)
    requires |p| > 0 && p[0] == 0 && i < 8
    ensures !BitAt(p, i)
  {
    hide Bit;
    NoBit(7 - i);
  }

  lemma NextByte(b: bv8, rest: seq<bv8>, i: nat)
    requires 8 <= i < 8 + 8 * |rest|
    ensures BitAt([b] + rest, i) == BitAt(rest, i - 8)
  {
    hide Bit;
    assert ([b] + rest)[i / 8] == rest[(i - 8) / 8];
  }

  /** And back: each subframe is its 137 bits and seven empty ones. */
  lemma SubframeBits(payload: seq<bv8>, i: nat)
    requires |payload| == 36 && i < 144
    ensures var subs := UnpackPayload(payload);
      && |subs.0| == |subs.1| == 18
      && (High(subs.0, i) <==> i < 137 && High(payload, 8 + i))
      && (High(subs.1, i) <==> i < 137 && High(payload, 145 + i))
  {
    hide BitAt, Pack;
    var subs := UnpackPayload(payload);
    var bits := Unpack(payload[1..], TOTAL_BITS);
    HighIs(subs.0, i);
    HighIs(subs.1, i);
    PackHolds(bits[..CODED_BITS]);
    PackHolds(bits[CODED_BITS..]);
    if i < 137 {
      HighIs(payload, 8 + i);
      HighIs(payload, 145 + i);
      assert payload == [payload[0]] + payload[1..];
      NextByte(payload[0], payload[1..], 8 + i);
      NextByte(payload[0], payload[1..], 145 + i);
    }
  }

  // ----- names: the lowest bit comes first -----

  predicate Low(bytes: seq<bv8>, i: nat) {
    i / 8 < |bytes| && bytes[i / 8] & Counts[i % 8] != 0
  }

  /** Character `i` is the seven bits from bit `7 * i` on, the lowest first. */
  lemma CharacterBits(data: seq<bv8>, lenBits: nat, out: seq<bv8>, i: nat, j: nat)
    requires SevenBit.Decoded(data, lenBits, out) && i < |out| && j < 7
    ensures (out[i] & Counts[j] != 0 <==> Low(data, 7 * i + j)) && out[i] & 128 == 0
  {
    hide Bit;
    var at := 7 * i + j;
    assert Bit(out[i], j) == SevenBit.StreamBit(data, at);
    BitCounts(out[i], j);
    BitCounts(out[i], 7);
    if at / 8 < |data| { BitCounts(data[at / 8], at % 8); }
  }
}
