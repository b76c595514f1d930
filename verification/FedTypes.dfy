/** Vocabulary shared by the federation modules: machine integers, connections,
    registrations and the messages a peer link carries. */
module FedTypes {

  type u8 = x: int | 0 <= x < 0x100
  type u16 = x: int | 0 <= x < 0x1_0000
  type u32 = x: int | 0 <= x < 0x1_0000_0000
  type u64 = x: int | 0 <= x < 0x1_0000_0000_0000_0000

  type Bytes = seq<u8>

  const U64_MAX: u64 := 0xFFFF_FFFF_FFFF_FFFF

  /** A connection's uuid, compared as a number. */
  type ClientId = nat
  type ServerId = u64
  type Issi = u32
  type Gssi = u32

  datatype Option<+T> = None | Some(value: T)

  datatype Mode = Terminal | Basestation | Peer

  /** Most servers a route may cross, origin included. */
  const MAX_PATH: nat := 16

  /** An advert registered further ahead than this of the local clock is refused. */
  const MAX_FUTURE_MS: u64 := 86_400_000

  /** Where an effective route leads: `path` runs from the next hop to the
      origin and is empty for an ISSI registered at this server. */
  datatype Route = Route(reg: u64, path: seq<ServerId>)

  /** One neighbour's offer: `path[0]` is the neighbour, the last entry the origin. */
  datatype Advert = Advert(reg: u64, path: seq<ServerId>, groups: seq<Gssi>)

  /** An entry of the effective table. */
  datatype Subscriber = Subscriber(client: ClientId, groups: set<Gssi>, mode: Mode, route: Route)

  datatype SubKind = Register | Reregister | Deregister | Affiliate | Deaffiliate | UnknownKind

  /** Registration traffic queued on a peer link: adverts on a loop-safe link,
      SUB messages on a legacy one. */
  datatype Msg =
    | FedRoute(issi: Issi, advert: Advert)
    | FedWithdraw(issi: Issi)
    | SubMsg(kind: SubKind, issi: Issi, groups: seq<Gssi>)

  /** Rust's `u64::saturating_add`. */
  function SatAdd(a: u64, b: u64): u64 {
    if a + b <= U64_MAX then a + b else U64_MAX
  }

  function Max(a: u64, b: u64): u64 {
    if a < b then b else a
  }

  function Get<K, V>(m: map<K, V>, k: K): Option<V> {
    if k in m then Some(m[k]) else None
  }

  function Put<K(!new), V>(m: map<K, V>, k: K, v: Option<V>): (r: map<K, V>)
    ensures Get(r, k) == v
    ensures forall j :: j != k ==> Get(r, j) == Get(m, j)
  {
    match v
    case Some(x) => m[k := x]
    case None => m - {k}
  }

  ghost predicate Distinct<T(!new)>(s: seq<T>) {
    forall i, j :: 0 <= i < j < |s| ==> s[i] != s[j]
  }

  function Elems<T(!new)>(s: seq<T>): (r: set<T>)
    ensures forall x :: x in r <==> x in s
  {
    set x | x in s
  }

  ghost predicate IsLeast(s: set<u32>, m: u32) {
    m in s && forall x :: x in s ==> m <= x
  }

  lemma {:induction false} LeastExists(s: set<u32>)
    requires s != {}
    ensures exists m :: IsLeast(s, m)
  {
    var a :| a in s;
    var rest := s - {a};
    assert forall x :: x in s ==> x == a || x in rest;
    if rest == {} {
      assert IsLeast(s, a);
    } else {
      LeastExists(rest);
      var b :| IsLeast(rest, b);
      assert IsLeast(s, if b < a then b else a);
    }
  }

  /** The least element of a non-empty set of numbers. */
  function Least(s: set<u32>): (m: u32)
    requires s != {}
    ensures IsLeast(s, m)
  {
    LeastExists(s);
    var m :| m in s && forall x :: x in s ==> m <= x;
    m
  }

  /** The elements of a set in ascending order (`fedroute::sorted`). */
  function Sorted(s: set<u32>): (r: seq<u32>)
    ensures Elems(r) == s
    ensures forall i, j :: 0 <= i < j < |r| ==> r[i] < r[j]
  {
    if s == {} then []
    else
      var m := Least(s);
      var rest := Sorted(s - {m});
      assert forall i :: 0 <= i < |rest| ==> rest[i] in Elems(rest);
      [m] + rest
  }
}
