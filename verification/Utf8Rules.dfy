/** Valid texts are exactly the UTF-8 forms of sequences of characters
    (RFC 3629, section 3). */
module Utf8Rules {
  import opened FedTypes
  import opened Utf8

  /** What can be a character: no surrogate and nothing above the last plane. */
  predicate Scalar(c: nat) {
    c < 0xD800 || 0xE000 <= c < 0x11_0000
  }

  function Encode(c: nat): Bytes
    requires Scalar(c)
  {
    if c < 0x80 then [c]
    else if c < 0x800 then [0xC0 + c / 64, 0x80 + c % 64]
    else if c < 0x1_0000 then [0xE0 + c / 4096, 0x80 + c / 64 % 64, 0x80 + c % 64]
    else [0xF0 + c / 262144, 0x80 + c / 4096 % 64, 0x80 + c / 64 % 64, 0x80 + c % 64]
  }

  function EncodeAll(cs: seq<nat>): Bytes
    requires forall c :: c in cs ==> Scalar(c)
  {
    if cs == [] then [] else Encode(cs[0]) + EncodeAll(cs[1..])
  }

  /** What the bytes at the front carry, the marks on each taken off. */
  function Carried(b: u8): nat {
    if b < 0x80 then b else if b < 0xC0 then b - 0x80 else if b < 0xE0 then b - 0xC0 else if b < 0xF0 then b - 0xE0
    else if b < 0xF8 then b - 0xF0 else 0
  }

  function Number(bs: Bytes): nat {
    if bs == [] then 0 else 64 * Number(bs[..|bs| - 1]) + Carried(bs[|bs| - 1])
  }

  /** A character at the front is the form of one. */
  lemma FrontReads(bs: Bytes)
    requires CharLen(bs) > 0
    ensures var c := Number(bs[..CharLen(bs)]); Scalar(c) && Encode(c) == bs[..CharLen(bs)]
  {
    hide Number;
    var n := CharLen(bs);
    var f := bs[..n];
    forall k | 1 <= k < n ensures Continues(f[k]) { assert bs[1..n][k - 1] == f[k]; }
    assert CharLen(f) == n by { CharLenOfPrefix(bs, n); }
    NumberOf(f);
    if n == 2 {
      Apart(Carried(f[0]), Carried(f[1]));
    } else if n == 3 {
      Apart(64 * Carried(f[0]) + Carried(f[1]), Carried(f[2]));
      Apart(Carried(f[0]), Carried(f[1]));
    } else if n == 4 {
      Apart(4096 * Carried(f[0]) + 64 * Carried(f[1]) + Carried(f[2]), Carried(f[3]));
      Apart(64 * Carried(f[0]) + Carried(f[1]), Carried(f[2]));
      Apart(Carried(f[0]), Carried(f[1]));
    }
  }

  lemma Apart(x: nat, y: nat)
    requires y < 64
    ensures (64 * x + y) / 64 == x && (64 * x + y) % 64 == y
  {
  }

  lemma NumberOf(f: Bytes)
    requires 0 < |f| <= 4
    ensures Number(f) ==
      match |f|
      case 1 => Carried(f[0])
      case 2 => 64 * Carried(f[0]) + Carried(f[1])
      case 3 => 4096 * Carried(f[0]) + 64 * Carried(f[1]) + Carried(f[2])
      case _ => 262144 * Carried(f[0]) + 4096 * Carried(f[1]) + 64 * Carried(f[2]) + Carried(f[3])
  {
    hide Carried;
    if |f| > 1 { NumberOf(f[..|f| - 1]); }
  }

  lemma EncodedIsFront(c: nat, rest: Bytes)
    requires Scalar(c)
    ensures CharLen(Encode(c) + rest) == |Encode(c)|
  {
    var (e, bs) := (Encode(c), Encode(c) + rest);
    forall k | 0 <= k < |e| ensures bs[k] == e[k] {}
    assert bs[1..|e|] == e[1..];
  }

  /** A text is valid exactly if it is the UTF-8 form of some characters. */
  lemma {:induction false} ValidIff(bs: Bytes)
    ensures ValidText(bs) <==> exists cs: seq<nat> :: (forall c :: c in cs ==> Scalar(c)) && bs == EncodeAll(cs)
    decreases |bs|
  {
    if ValidText(bs) { Characters(bs); }
    if cs: seq<nat> :| (forall c :: c in cs ==> Scalar(c)) && bs == EncodeAll(cs) { EncodedValid(cs); }
  }

  lemma {:induction false} Characters(bs: Bytes)
    requires ValidText(bs)
    ensures exists cs: seq<nat> :: (forall c :: c in cs ==> Scalar(c)) && bs == EncodeAll(cs)
    decreases |bs|
  {
    hide Encode, Number, CharLen, Scalar;
    if bs == [] {
      assert bs == EncodeAll([]);
    } else {
      var n := CharLen(bs);
      FrontReads(bs);
      Characters(bs[n..]);
      var cs: seq<nat> :| (forall c :: c in cs ==> Scalar(c)) && bs[n..] == EncodeAll(cs);
      var all := [Number(bs[..n])] + cs;
      assert all[1..] == cs;
      assert forall c :: c in all ==> Scalar(c);
      assert bs == EncodeAll(all);
    }
  }

  lemma {:induction false} EncodedValid(cs: seq<nat>)
    requires forall c :: c in cs ==> Scalar(c)
    ensures ValidText(EncodeAll(cs))
  {
    if cs != [] {
      var rest := EncodeAll(cs[1..]);
      EncodedIsFront(cs[0], rest);
      EncodedValid(cs[1..]);
      assert (Encode(cs[0]) + rest)[|Encode(cs[0])|..] == rest;
    }
  }
}
