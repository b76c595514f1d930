/** Talker names in seven bits a character, lowest bit first. */
module SevenBit {
  import opened Bits

  /** Bit `i` of the data, counted from the lowest bit of the first byte. */
  predicate StreamBit(data: seq<bv8>, i: nat) {
    i / 8 < |data| && Bit(data[i / 8], i % 8)
  }

  function Wide(b: bv8): bv16 {
    b as bv16
  }

  /** Seven bits from bit `off` of `lo` on, continued in `next`. */
  function Septet(lo: bv8, next: bv8, off: nat): bv8
    requires off < 8
  {
    (((Wide(lo) >> off) | (Wide(next) << (8 - off))) & 0x7f) as bv8
  }

  lemma SeptetBits(lo: bv8, next: bv8, off: nat, j: nat)
    requires off < 8 && j < 7
    ensures Bit(Septet(lo, next, off), j) == if off + j < 8 then Bit(lo, off + j) else Bit(next, off + j - 8)
  {
    if off == 0 {
    } else if off == 1 {
    } else if off == 2 {
    } else if off == 3 {
    } else if off == 4 {
    } else if off == 5 {
    } else if off == 6 {
    }
  }

  lemma SeptetHigh(lo: bv8, next: bv8, off: nat)
    requires off < 8
    ensures !Bit(Septet(lo, next, off), 7)
  {
  }

  /** `out` are the characters of `lenBits` bits, as far as there is data; bits
      behind the data are zero. */
  ghost predicate Decoded(data: seq<bv8>, lenBits: nat, out: seq<bv8>) {
    && |out| == (if 7 * (lenBits / 7) < 8 * |data| then lenBits / 7 else (8 * |data| + 6) / 7)
    && (forall i, j :: 0 <= i < |out| && 0 <= j < 7 ==> Bit(out[i], j) == StreamBit(data, 7 * i + j))
    && forall i :: 0 <= i < |out| ==> !Bit(out[i], 7)
  }

  /** One character at its place in the data. */
  lemma SeptetAt(data: seq<bv8>, i: nat, next: bv8, j: nat)
    requires 7 * i / 8 < |data| && j < 7
    requires 7 * i % 8 > 1 ==> next == if 7 * i / 8 + 1 < |data| then data[7 * i / 8 + 1] else 0
    ensures Bit(Septet(data[7 * i / 8], next, 7 * i % 8), j) == StreamBit(data, 7 * i + j)
  {
    hide Septet, Bit;
    var (at, off) := (7 * i / 8, 7 * i % 8);
    SeptetBits(data[at], next, off, j);
    if off + j < 8 {
      assert (7 * i + j) / 8 == at && (7 * i + j) % 8 == off + j;
    } else {
      assert (7 * i + j) / 8 == at + 1 && (7 * i + j) % 8 == off + j - 8;
      NoBit(off + j - 8);
    }
  }

  method Decode(data: seq<bv8>, lenBits: nat) returns (out: seq<bv8>)
    ensures Decoded(data, lenBits, out)
  {
    hide Septet, Bit, StreamBit;
    out := [];
    var pos := 0;
    for k := 0 to lenBits / 7
      invariant pos == 7 * k && |out| == k && (k > 0 ==> 7 * (k - 1) / 8 < |data|)
      invariant forall i, j :: 0 <= i < |out| && 0 <= j < 7 ==> Bit(out[i], j) == StreamBit(data, 7 * i + j)
      invariant forall i :: 0 <= i < |out| ==> !Bit(out[i], 7)
    {
      var (at, off) := (pos / 8, pos % 8);
      if at >= |data| {
        break;
      }
      var next := if off > 1 && at + 1 < |data| then data[at + 1] else 0;
      var septet := Septet(data[at], next, off);
      SeptetHigh(data[at], next, off);
      forall j | 0 <= j < 7 ensures Bit(septet, j) == StreamBit(data, 7 * k + j) { SeptetAt(data, k, next, j); }
      out := out + [septet];
      pos := pos + 7;
    }
  }

  /** `data` holds the characters `text` one after the other, seven bits each. */
  ghost predicate Carries(data: seq<bv8>, text: seq<bv8>) {
    && 8 * |data| >= 7 * |text|
    && (forall i, j :: 0 <= i < |text| && 0 <= j < 7 ==> StreamBit(data, 7 * i + j) == Bit(text[i], j))
    && forall i :: 0 <= i < |text| ==> !Bit(text[i], 7)
  }

  /** Whatever text of seven-bit characters the data holds is what comes out. */
  lemma DecodesBack(data: seq<bv8>, text: seq<bv8>, out: seq<bv8>)
    requires Carries(data, text) && Decoded(data, 7 * |text|, out)
    ensures out == text
  {
    hide Bit, StreamBit;
    forall i | 0 <= i < |text| ensures out[i] == text[i] {
      forall j | 0 <= j < 8 ensures Bit(out[i], j) == Bit(text[i], j) {
        if j < 7 { assert StreamBit(data, 7 * i + j) == Bit(text[i], j); }
      }
      SameByte(out[i], text[i]);
    }
  }
}
