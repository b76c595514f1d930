/** Numbers as little-endian bytes. */
module ByteOrder {
  import opened FedTypes

  function Pow256(k: nat): (p: nat)
    ensures p >= 1
  {
    if k == 0 then 1 else 256 * Pow256(k - 1)
  }

  /** The `k` low bytes of `n`, least significant first. */
  function Le(n: nat, k: nat): (r: Bytes)
    ensures |r| == k
  {
    if k == 0 then [] else [n % 256] + Le(n / 256, k - 1)
  }

  function FromLe(bs: Bytes): (n: nat)
    ensures n < Pow256(|bs|)
  {
    if bs == [] then 0 else bs[0] + 256 * FromLe(bs[1..])
  }

  lemma {:induction false} ReadsBack(n: nat, k: nat)
    requires n < Pow256(k)
    ensures FromLe(Le(n, k)) == n
  {
    if k > 0 {
      ReadsBack(n / 256, k - 1);
      assert Le(n, k)[1..] == Le(n / 256, k - 1);
    }
  }

  lemma {:induction false} WritesBack(bs: Bytes)
    ensures Le(FromLe(bs), |bs|) == bs
  {
    if bs != [] {
      WritesBack(bs[1..]);
      assert FromLe(bs) % 256 == bs[0] && FromLe(bs) / 256 == FromLe(bs[1..]);
    }
  }

  lemma {:induction false} PowGrows(j: nat, k: nat)
    requires j <= k
    ensures Pow256(j) <= Pow256(k)
  {
    if j < k { PowGrows(j, k - 1); }
  }

  /** The first bytes of a number are those of its remainder. */
  lemma {:induction false} LePrefix(n: nat, j: nat, k: nat)
    requires j <= k
    ensures Le(n, k)[..j] == Le(n, j)
  {
    if j > 0 {
      LePrefix(n / 256, j - 1, k - 1);
      assert Le(n, k)[..j] == [n % 256] + Le(n / 256, k - 1)[..j - 1];
    }
  }

  /** Bytes put in front only make a number larger. */
  lemma {:induction false} FromLeBehind(a: Bytes, b: Bytes)
    ensures FromLe(a + b) >= if a == [] then FromLe(b) else 256 * FromLe(b)
  {
    if a == [] {
      assert a + b == b;
    } else {
      FromLeBehind(a[1..], b);
      assert (a + b)[1..] == a[1..] + b;
    }
  }

  lemma Pow256Values()
    ensures Pow256(1) == 0x100 && Pow256(2) == 0x1_0000
    ensures Pow256(4) == 0x1_0000_0000 && Pow256(8) == 0x1_0000_0000_0000_0000
  {
    assert Pow256(2) == 256 * Pow256(1);
    assert Pow256(3) == 256 * Pow256(2);
    assert Pow256(4) == 256 * Pow256(3);
    assert Pow256(5) == 256 * Pow256(4);
    assert Pow256(6) == 256 * Pow256(5);
    assert Pow256(7) == 256 * Pow256(6);
    assert Pow256(8) == 256 * Pow256(7);
  }

  // ----- the numbers of a message, at their offsets -----

  function U16At(raw: Bytes, o: nat): u16
    requires o + 2 <= |raw|
  {
    Pow256Values();
    FromLe(raw[o..o + 2])
  }

  function U32At(raw: Bytes, o: nat): u32
    requires o + 4 <= |raw|
  {
    Pow256Values();
    FromLe(raw[o..o + 4])
  }

  function U64At(raw: Bytes, o: nat): u64
    requires o + 8 <= |raw|
  {
    Pow256Values();
    FromLe(raw[o..o + 8])
  }
}
