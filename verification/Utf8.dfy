/** Texts as UTF-8 bytes, and how they are shortened for the wire. */
module Utf8 {
  import opened FedTypes

  const MAX_BTS_TEXT: nat := 64

  predicate Continues(b: u8) {
    0x80 <= b <= 0xBF
  }

  predicate AllContinue(bs: Bytes) {
    forall k :: 0 <= k < |bs| ==> Continues(bs[k])
  }

  /** Length of the character at the front, by the table of well-formed UTF-8
      byte sequences (no overlong forms, no surrogates); 0 if there is none. */
  function CharLen(bs: Bytes): (n: nat)
    ensures n <= |bs| && n <= 4
    ensures n > 0 ==> !Continues(bs[0]) && AllContinue(bs[1..n])
  {
    if bs == [] then 0
    else if bs[0] < 0x80 then 1
    else if 0xC2 <= bs[0] <= 0xDF && |bs| >= 2 && AllContinue(bs[1..2]) then 2
    else if 0xE0 <= bs[0] <= 0xEF && |bs| >= 3 && AllContinue(bs[1..3])
      && (bs[0] == 0xE0 ==> bs[1] >= 0xA0) && (bs[0] == 0xED ==> bs[1] <= 0x9F) then 3
    else if 0xF0 <= bs[0] <= 0xF4 && |bs| >= 4 && AllContinue(bs[1..4])
      && (bs[0] == 0xF0 ==> bs[1] >= 0x90) && (bs[0] == 0xF4 ==> bs[1] <= 0x8F) then 4
    else 0
  }

  predicate ValidText(bs: Bytes)
    decreases |bs|
  {
    bs == [] || (CharLen(bs) > 0 && ValidText(bs[CharLen(bs)..]))
  }

  predicate CharBoundary(s: Bytes, at: nat) {
    at == 0 || at == |s| || (at < |s| && !Continues(s[at]))
  }

  /** The last character boundary at or before `end`. */
  function BoundaryBefore(s: Bytes, end: nat): (at: nat)
    ensures at <= end && CharBoundary(s, at) && forall e :: at < e <= end ==> !CharBoundary(s, e)
  {
    if CharBoundary(s, end) then end else BoundaryBefore(s, end - 1)
  }

  function ClipLen(s: Bytes): (n: nat)
    ensures n <= |s| && n <= MAX_BTS_TEXT
  {
    BoundaryBefore(s, if |s| <= MAX_BTS_TEXT then |s| else MAX_BTS_TEXT)
  }

  function Clipped(s: Bytes): Bytes {
    s[..ClipLen(s)]
  }

  method Clip(s: Bytes) returns (r: Bytes)
    ensures r == Clipped(s)
  {
    var end: nat := if |s| <= MAX_BTS_TEXT then |s| else MAX_BTS_TEXT;
    while !CharBoundary(s, end)
      invariant end <= |s|
      invariant BoundaryBefore(s, end) == ClipLen(s)
      decreases end
    {
      end := end - 1;
    }
    return s[..end];
  }

  /** What is in front decides the first character. */
  lemma CharLenOfPrefix(s: Bytes, n: nat)
    requires CharLen(s) > 0 && CharLen(s) <= n <= |s|
    ensures CharLen(s[..n]) == CharLen(s)
  {
    var k := CharLen(s);
    assert s[..n][1..k] == s[1..k];
  }

  /** A text cut at a character boundary is a text. */
  lemma {:induction false} CutText(s: Bytes, at: nat)
    requires ValidText(s) && at <= |s| && CharBoundary(s, at)
    ensures ValidText(s[..at])
    decreases |s|
  {
    PastFirst(s, at);
    if at > 0 {
      var n := CharLen(s);
      CharLenOfPrefix(s, at);
      assert s[..at][n..] == s[n..][..at - n];
      CutText(s[n..], at - n);
    }
  }

  /** No boundary lies within the first character. */
  lemma PastFirst(s: Bytes, at: nat)
    requires ValidText(s) && at <= |s|
    ensures CharBoundary(s, at) && at > 0 ==> CharLen(s) <= at
  {
    if 0 < at < CharLen(s) { assert s[1..CharLen(s)][at - 1] == s[at]; }
  }

  /** Characters are at most four bytes: a boundary is never far. */
  lemma {:induction false} BoundaryNear(s: Bytes, end: nat)
    requires ValidText(s) && end <= |s|
    ensures BoundaryBefore(s, end) + 3 >= end
    decreases |s|
  {
    var n := CharLen(s);
    if end < 4 || end < n {
    } else {
      BoundaryNear(s[n..], end - n);
      var e := BoundaryBefore(s[n..], end - n);
      assert CharBoundary(s, e + n) by {
        if e < |s[n..]| { assert !Continues(s[n..][e]) && s[n..][e] == s[n + e]; }
      }
    }
  }

  /** A shortened text is a text of at most 64 bytes, a prefix, and no more than
      three bytes are lost to the last character. */
  lemma ClippedOk(s: Bytes)
    requires ValidText(s)
    ensures ValidText(Clipped(s)) && |Clipped(s)| <= MAX_BTS_TEXT && Clipped(s) <= s
    ensures |s| <= MAX_BTS_TEXT ==> Clipped(s) == s
    ensures |s| > MAX_BTS_TEXT ==> |Clipped(s)| >= MAX_BTS_TEXT - 3
  {
    CutText(s, ClipLen(s));
    BoundaryNear(s, if |s| <= MAX_BTS_TEXT then |s| else MAX_BTS_TEXT);
  }
}
