/** The messages byte by byte: where each field stands, in plain numbers. */
module WireRules {
  import opened FedTypes
  import opened ByteOrder
  import opened Utf8
  import Codec = FedCodec
  import Control = CallControl

  // ----- numbers -----

  /** Two, four or eight bytes, the lowest first. */
  function Two(raw: Bytes, o: nat): nat
    requires o + 2 <= |raw|
  {
    (raw[o] as int) + 0x100 * (raw[o + 1] as int)
  }

  function Four(raw: Bytes, o: nat): nat
    requires o + 4 <= |raw|
  {
    (raw[o] as int) + 0x100 * (raw[o + 1] as int) + 0x1_0000 * (raw[o + 2] as int) + 0x100_0000 * (raw[o + 3] as int)
  }

  function Eight(raw: Bytes, o: nat): nat
    requires o + 8 <= |raw|
  {
    Four(raw, o) + 0x1_0000_0000 * Four(raw, o + 4)
  }

  lemma FromLeFront(x: u8, b: Bytes)
    ensures FromLe([x] + b) == (x as int) + 256 * FromLe(b)
  {
    assert ([x] + b)[1..] == b;
  }

  lemma FromLeSplits(a: Bytes, b: Bytes)
    requires |a| == 4
    ensures FromLe(a + b) == Four(a, 0) + 0x1_0000_0000 * FromLe(b)
  {
    hide FromLe;
    var b3 := [a[3]] + b;
    var b2 := [a[2]] + b3;
    var b1 := [a[1]] + b2;
    FromLeFront(a[0], b1);
    FromLeFront(a[1], b2);
    FromLeFront(a[2], b3);
    FromLeFront(a[3], b);
    assert a + b == [a[0]] + b1;
  }

  lemma FourIs(bs: Bytes)
    requires |bs| == 4
    ensures FromLe(bs) == Four(bs, 0)
  {
    FromLeSplits(bs, []);
    assert bs + [] == bs && FromLe([]) == 0;
  }

  lemma TwoIs(bs: Bytes)
    requires |bs| == 2
    ensures FromLe(bs) == Two(bs, 0)
  {
    FromLeFront(bs[0], [bs[1]]);
    FromLeFront(bs[1], []);
    assert bs == [bs[0]] + [bs[1]] && [bs[1]] + [] == [bs[1]];
  }

  /** The numbers read off a message. */
  lemma NumbersAt(raw: Bytes, o: nat)
    ensures o + 2 <= |raw| ==> U16At(raw, o) == Two(raw, o)
    ensures o + 4 <= |raw| ==> U32At(raw, o) == Four(raw, o)
    ensures o + 8 <= |raw| ==> U64At(raw, o) == Eight(raw, o)
  {
    hide Pow256, FromLe;
    if o + 2 <= |raw| { TwoIs(raw[o..o + 2]); }
    if o + 4 <= |raw| { FourIs(raw[o..o + 4]); }
    if o + 8 <= |raw| {
      FromLeSplits(raw[o..o + 4], raw[o + 4..o + 8]);
      FourIs(raw[o + 4..o + 8]);
      assert raw[o..o + 8] == raw[o..o + 4] + raw[o + 4..o + 8];
    }
  }

  /** What is written at a place is what is read there. */
  lemma WrittenFour(raw: Bytes, o: nat, x: u32)
    requires o + 4 <= |raw| && raw[o..o + 4] == Le(x, 4)
    ensures Four(raw, o) == x
  {
    hide Le, U32At, Four;
    Codec.U32Is(raw, o, x);
    NumbersAt(raw, o);
  }

  lemma WrittenEight(raw: Bytes, o: nat, x: u64)
    requires o + 8 <= |raw| && raw[o..o + 8] == Le(x, 8)
    ensures Eight(raw, o) == x
  {
    hide Le, U64At, Eight;
    Codec.U64Is(raw, o, x);
    NumbersAt(raw, o);
  }

  lemma {:induction false} WordAt(ws: seq<nat>, k: nat, j: nat)
    requires (k == 4 || k == 8) && j < |ws|
    ensures k * j + k <= |Codec.Words(ws, k)| && Codec.Words(ws, k)[k * j..k * j + k] == Le(ws[j], k)
    decreases |ws|
  {
    hide Le;
    if j > 0 {
      WordAt(ws[1..], k, j - 1);
      assert k * j == k + k * (j - 1);
      BehindFront(Le(ws[0], k), Codec.Words(ws[1..], k), k * (j - 1), k);
    }
  }

  lemma BehindFront(a: Bytes, b: Bytes, i: nat, n: nat)
    requires i + n <= |b|
    ensures (a + b)[|a| + i..|a| + i + n] == b[i..i + n]
  {
  }

  lemma Within(raw: Bytes, o: nat, n: nat, i: nat, k: nat)
    requires o + n <= |raw| && i + k <= n
    ensures raw[o..o + n][i..i + k] == raw[o + i..o + i + k]
  {
    var (a, b) := (raw[o..o + n][i..i + k], raw[o + i..o + i + k]);
    forall x | 0 <= x < k ensures a[x] == b[x] { }
  }

  lemma {:induction false} WordsSize(ws: seq<nat>, k: nat)
    requires k == 4 || k == 8
    ensures |Codec.Words(ws, k)| == k * |ws|
  {
    hide Le;
    if ws != [] { WordsSize(ws[1..], k); }
  }

  /** `path` stands at `o`, eight bytes a server. */
  ghost predicate PathAt(raw: Bytes, o: nat, path: seq<ServerId>) {
    o + 8 * |path| <= |raw| && forall j :: 0 <= j < |path| ==> Eight(raw, o + 8 * j) == path[j]
  }

  lemma PathWritten(raw: Bytes, o: nat, path: seq<ServerId>)
    requires o + 8 * |path| <= |raw| && raw[o..o + 8 * |path|] == Codec.Words(path, 8)
    ensures PathAt(raw, o, path)
  {
    hide Eight;
    forall j | 0 <= j < |path| ensures Eight(raw, o + 8 * j) == path[j] { HopWritten(raw, o, path, j); }
  }

  lemma HopWritten(raw: Bytes, o: nat, path: seq<ServerId>, j: nat)
    requires o + 8 * |path| <= |raw| && raw[o..o + 8 * |path|] == Codec.Words(path, 8) && j < |path|
    ensures Eight(raw, o + 8 * j) == path[j]
  {
    hide Le, Eight, Codec.Words;
    WordsSize(path, 8);
    WordAt(path, 8, j);
    PartWritten(raw, o, Codec.Words(path, 8), 8 * j, path[j]);
  }

  lemma PartWritten(raw: Bytes, o: nat, part: Bytes, i: nat, x: u64)
    requires o + |part| <= |raw| && raw[o..o + |part|] == part && i + 8 <= |part| && part[i..i + 8] == Le(x, 8)
    ensures Eight(raw, o + i) == x
  {
    hide Le, Eight;
    Within(raw, o, |part|, i, 8);
    WrittenEight(raw, o + i, x);
  }

  ghost predicate GroupsAt(raw: Bytes, o: nat, groups: seq<Gssi>) {
    o + 4 * |groups| == |raw| && forall j :: 0 <= j < |groups| ==> Four(raw, o + 4 * j) == groups[j]
  }

  lemma GroupsWritten(raw: Bytes, o: nat, groups: seq<Gssi>)
    requires o <= |raw| && raw[o..] == Codec.Words(groups, 4)
    ensures GroupsAt(raw, o, groups)
  {
    hide Le, Four, Codec.Words;
    WordsSize(groups, 4);
    forall j | 0 <= j < |groups| ensures Four(raw, o + 4 * j) == groups[j] {
      WordAt(groups, 4, j);
      Within(raw, o, 4 * |groups|, 4 * j, 4);
      WrittenFour(raw, o + 4 * j, groups[j]);
    }
  }

  /** `text`, shortened to 64 bytes, stands at `o` behind its length. */
  ghost predicate TextAt(raw: Bytes, o: nat, text: Bytes, end: nat) {
    var n := |Clipped(text)|;
    o + 1 + n == end <= |raw| && raw[o] == n && raw[o + 1..end] == Clipped(text)
  }

  lemma TextWritten(raw: Bytes, o: nat, text: Bytes, rest: Bytes)
    requires o <= |raw| && raw[o..] == Codec.TextField(text) + rest
    ensures TextAt(raw, o, text, |raw| - |rest|)
  {
    hide ClipLen;
    assert raw[o + 1..|raw| - |rest|] == raw[o..][1..|raw| - |rest| - o];
  }

  // ----- federation messages -----

  lemma RouteBytes(issi: Issi, a: Advert)
    ensures var (raw, n) := (Codec.Build(Codec.RouteTo(issi, a)), |a.path|);
      && |raw| == 15 + 8 * n + 4 * |a.groups| && raw[0] == 254 && raw[1] == 1
      && Four(raw, 2) == issi && Eight(raw, 6) == a.reg && raw[14] == n % 256
      && PathAt(raw, 15, a.path) && GroupsAt(raw, 15 + 8 * n, a.groups)
  {
    hide Le, Codec.Words, Four, Eight, Codec.BuildRoute;
    var raw := Codec.Build(Codec.RouteTo(issi, a));
    Codec.RouteLayout(issi, a);
    WrittenFour(raw, 2, issi);
    WrittenEight(raw, 6, a.reg);
    PathWritten(raw, 15, a.path);
    GroupsWritten(raw, 15 + 8 * |a.path|, a.groups);
  }

  lemma ShortBytes(issi: Issi, id: Bytes, source: Issi, version: u8)
    requires |id| == 16
    ensures var raw := Codec.Build(Codec.Withdraw(issi));
      |raw| == 6 && raw[0] == 254 && raw[1] == 0 && Four(raw, 2) == issi
    ensures var raw := Codec.Build(Codec.Prune(id, source));
      |raw| == 22 && raw[0] == 254 && raw[1] == 2 && raw[2..18] == id && Four(raw, 18) == source
    ensures Codec.Build(Codec.BtsHello(version)) == [254, 3, version]
  {
    hide Le, Four;
    WrittenFour(Codec.Build(Codec.Withdraw(issi)), 2, issi);
    WrittenFour(Codec.Build(Codec.Prune(id, source)), 18, source);
  }

  lemma BtsBytes(a: Codec.BtsAdvert)
    ensures var (raw, n) := (Codec.Build(Codec.Bts(a)), |a.path|);
      && |raw| > 28 + 8 * n && raw[0] == 254 && raw[1] == 4
      && Eight(raw, 2) == a.stamp && raw[10] == (if a.online then 1 else 0)
      && Eight(raw, 11) == a.lat && Eight(raw, 19) == a.lon && raw[27] == n % 256 && PathAt(raw, 28, a.path)
      && TextAt(raw, 28 + 8 * n, a.key, 29 + 8 * n + |Clipped(a.key)|)
      && TextAt(raw, 29 + 8 * n + |Clipped(a.key)|, a.name, |raw|)
  {
    hide Le, Codec.Words, Eight, Codec.BuildBts, Codec.TextField, Clipped, ClipLen;
    var (raw, end) := (Codec.Build(Codec.Bts(a)), 28 + 8 * |a.path|);
    Codec.BtsLayout(a);
    WrittenEight(raw, 2, a.stamp);
    WrittenEight(raw, 11, a.lat);
    WrittenEight(raw, 19, a.lon);
    PathWritten(raw, 28, a.path);
    FieldSize(a.key);
    FieldSize(a.name);
    TextWritten(raw, end, a.key, Codec.TextField(a.name));
    var mid := |raw| - |Codec.TextField(a.name)|;
    assert raw[mid..] == raw[end..][|Codec.TextField(a.key)|..] == Codec.TextField(a.name) + [];
    TextWritten(raw, mid, a.name, []);
  }

  lemma FieldSize(s: Bytes)
    ensures |Codec.TextField(s)| == 1 + |Clipped(s)|
  {
  }

  /** Path and text at the end of a message, from `o` on. */
  lemma TailBytes(raw: Bytes, o: nat, path: seq<ServerId>, text: Bytes)
    requires o <= |raw| && raw[o..] == Codec.TailBytes(path, text)
    ensures o < |raw| && raw[o] == |path| % 256 && PathAt(raw, o + 1, path)
    ensures TextAt(raw, o + 1 + 8 * |path|, text, |raw|)
  {
    hide Le, Codec.Words, Codec.TextField, Clipped, ClipLen;
    WordsSize(path, 8);
    Codec.TailBytesAre(path, text);
    Codec.ThreeParts(raw, o, |path| % 256, Codec.Words(path, 8), Codec.TextField(text));
    PathWritten(raw, o + 1, path);
    assert Codec.TextField(text) + [] == Codec.TextField(text);
    TextWritten(raw, o + 1 + 8 * |path|, text, []);
  }

  lemma PosBytes(a: Codec.PosAdvert)
    ensures var (raw, n) := (Codec.Build(Codec.MsPos(a)), |a.path|);
      && |raw| > 31 + 8 * n && raw[0] == 254 && raw[1] == 5
      && Eight(raw, 2) == a.at && Four(raw, 10) == a.issi && Eight(raw, 14) == a.lat && Eight(raw, 22) == a.lon
      && raw[30] == n % 256 && PathAt(raw, 31, a.path) && TextAt(raw, 31 + 8 * n, a.station, |raw|)
  {
    hide Le, Four, Eight, Codec.BuildPos, Codec.TailBytes;
    var raw := Codec.Build(Codec.MsPos(a));
    Codec.PosLayout(a);
    WrittenEight(raw, 2, a.at);
    WrittenFour(raw, 10, a.issi);
    WrittenEight(raw, 14, a.lat);
    WrittenEight(raw, 22, a.lon);
    TailBytes(raw, 30, a.path, a.station);
  }

  lemma EmergencyBytes(a: Codec.EmAdvert)
    ensures var (raw, n) := (Codec.Build(Codec.Emergency(a)), |a.path|);
      && |raw| > 20 + 8 * n && raw[0] == 254 && raw[1] == 6
      && Eight(raw, 2) == a.stamp && raw[10] == (if a.active then 1 else 0) && Four(raw, 11) == a.issi
      && Four(raw, 15) == (if a.dest.Some? then a.dest.value else 0)
      && raw[19] == n % 256 && PathAt(raw, 20, a.path) && TextAt(raw, 20 + 8 * n, a.bts, |raw|)
  {
    hide Le, Four, Eight, Codec.BuildEmergency, Codec.TailBytes;
    var raw := Codec.Build(Codec.Emergency(a));
    Codec.EmergencyLayout(a);
    WrittenEight(raw, 2, a.stamp);
    WrittenFour(raw, 11, a.issi);
    WrittenFour(raw, 15, if a.dest.Some? then a.dest.value else 0);
    TailBytes(raw, 19, a.path, a.bts);
  }

  /** A message is too short exactly below the fixed part of its kind; an empty
      hello is of version 1. */
  lemma FixedParts(raw: Bytes, nbr: ServerId)
    ensures Codec.Parse(raw, nbr) == Codec.Err(Codec.TooShort) <==>
      |raw| < 2 || (raw[1] == 1 && |raw| < 15) || (raw[1] == 4 && |raw| < 28) || (raw[1] == 5 && |raw| < 32)
      || (raw[1] == 6 && |raw| < 21)
    ensures |raw| >= 2 && raw[1] == 3 ==>
      Codec.Parse(raw, nbr) == Codec.Ok(Codec.BtsHello(if |raw| == 2 then 1 else raw[2]))
  {
  }

  /** Any other kind of message is passed over. */
  lemma UnknownBytes(raw: Bytes, nbr: ServerId)
    requires |raw| >= 2 && raw[1] > 6
    ensures Codec.Parse(raw, nbr) == Codec.Ok(Codec.Unknown(raw[1]))
  {
  }

  // ----- call control messages -----

  /** A talker's set-up of a group call. */
  lemma GroupTxBytes(raw: Bytes, version: Control.Version)
    requires |raw| >= 18 && raw[1] == 2
    ensures var r := Control.Parse(raw, version);
      if |raw| < 30 then r == Control.TooShort(|raw|)
      else
        && r.Ok? && r.call.state == 2 && r.call.id == raw[2..18] && r.call.payload.GroupTransmission?
        && var p := r.call.payload;
        && p.source == Four(raw, 18) && p.destination == Four(raw, 22) && p.priority == raw[26]
        && p.access == raw[27] && p.service == Two(raw, 28)
        && (|raw| == 30 ==> p.name.None? && r.version == version)
        && (|raw| > 30 ==> p.name == Some(raw[30..if |raw| < 64 then |raw| else 64]) && r.version == Control.V1)
  {
    hide U32At, U16At, Four, Two;
    Behind(raw);
    if |raw| > 30 {
      assert raw[18..][12..if |raw| < 64 then |raw| - 18 else 46] == raw[30..if |raw| < 64 then |raw| else 64];
    }
  }

  /** The numbers and bytes behind the 18 bytes every message starts with. */
  lemma Behind(raw: Bytes)
    requires |raw| >= 18
    ensures var p := raw[18..];
      && (forall o: nat :: o + 4 <= |p| ==> U32At(p, o) == Four(raw, 18 + o))
      && (forall o: nat :: o + 2 <= |p| ==> U16At(p, o) == Two(raw, 18 + o))
      && (forall o: nat :: o < |p| ==> p[o] == raw[18 + o])
  {
    hide U32At, U16At;
    var p := raw[18..];
    forall o: nat | o + 4 <= |p| ensures U32At(p, o) == Four(raw, 18 + o) { NumbersAt(p, o); }
    forall o: nat | o + 2 <= |p| ensures U16At(p, o) == Two(raw, 18 + o) { NumbersAt(p, o); }
  }

  /** The text ends at its first zero. */
  ghost predicate EndsAtZero(field: Bytes, text: Bytes) {
    && text <= field && (forall k :: 0 <= k < |text| ==> text[k] != 0)
    && (|text| < |field| ==> field[|text|] == 0)
  }

  lemma {:induction false} ZeroEnds(field: Bytes)
    ensures EndsAtZero(field, Control.UpToZero(field))
  {
    if field != [] && field[0] != 0 {
      ZeroEnds(field[1..]);
      assert field == [field[0]] + field[1..];
    }
  }

  /** A call to one subscriber: its set-up may carry the caller's name, its
      connection never does. */
  lemma CircularBytes(raw: Bytes, version: Control.Version)
    requires |raw| >= 18 && (raw[1] == 4 || raw[1] == 8)
    ensures var (r, named) := (Control.Parse(raw, version), raw[1] == 4 && |raw| >= 103);
      if |raw| < 69 then r == Control.TooShort(|raw|)
      else
        && r.Ok? && r.call.state == raw[1] && r.call.id == raw[2..18] && r.call.payload.CircularCall?
        && var p := r.call.payload;
        && p.source == Four(raw, 18) && p.destination == Four(raw, 22) && EndsAtZero(raw[26..58], p.number)
        && p.priority == raw[58] && p.serviceByte == raw[59]
        && p.name == (if named then Some(raw[69..103]) else None)
        && r.version == if named then Control.V1 else version
  {
    hide U32At, U16At, Four, Two, Control.UpToZero;
    Behind(raw);
    if |raw| >= 69 {
      assert raw[18..][8..40] == raw[26..58];
      ZeroEnds(raw[26..58]);
    }
    if |raw| >= 103 { assert raw[18..][51..85] == raw[69..103]; }
  }

  /** All others. */
  lemma OtherBytes(raw: Bytes, version: Control.Version)
    requires |raw| >= 18 && raw[1] != 2 && raw[1] != 4 && raw[1] != 8
    ensures var (r, s) := (Control.Parse(raw, version), raw[1]);
      if ((s == 3 || s == 6 || s == 10) && |raw| == 18) || (s == 11 && |raw| < 26) then r == Control.TooShort(|raw|)
      else
        && r.Ok? && r.call.state == s && r.call.id == raw[2..18] && r.version == version
        && r.call.payload ==
             if s == 3 || s == 6 || s == 10 then Control.Cause(raw[18])
             else if s == 5 || s == 7 then Control.Nothing
             else if s == 11 then Control.ShortTransfer(Four(raw, 18), Four(raw, 22))
             else Control.Raw(raw[18..])
  {
    hide U32At, U16At, Four, Two;
    Behind(raw);
  }

  lemma TooShortBytes(raw: Bytes, version: Control.Version)
    requires |raw| < 18
    ensures Control.Parse(raw, version) == Control.TooShort(|raw|)
  {
  }

  /** A version 0 connection gets group transmissions cut to 30 bytes and set-ups
      to 69, all else as it is. */
  lemma AdaptedBytes(raw: Bytes, version: Control.Version)
    ensures Control.Adapt(raw, version) ==
      if version.V0? && |raw| > 30 && raw[0] == 241 && raw[1] == 2 then raw[..30]
      else if version.V0? && |raw| > 69 && raw[0] == 241 && raw[1] == 4 then raw[..69]
      else raw
  {
  }
}
