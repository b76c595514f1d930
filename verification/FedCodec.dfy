/** The bytes of federation messages: what is built is parsed again, and what
    is parsed could have been built. */
module FedCodec {
  import opened FedTypes
  import opened ByteOrder
  import opened Utf8

  const CLASS_FEDERATION: u8 := 0xfe
  const FED_WITHDRAW: u8 := 0
  const FED_ROUTE: u8 := 1
  const FED_PRUNE: u8 := 2
  const FED_BTS_HELLO: u8 := 3
  const FED_BTS: u8 := 4
  const FED_MS_POS: u8 := 5
  const FED_EMERGENCY: u8 := 6

  /** A double as its eight bytes. */
  type F64 = u64

  datatype BtsAdvert = BtsAdvert(key: Bytes, name: Bytes, lat: F64, lon: F64, online: bool, stamp: u64,
                                 path: seq<ServerId>)
  datatype PosAdvert = PosAdvert(issi: Issi, lat: F64, lon: F64, at: u64, station: Bytes, path: seq<ServerId>)
  datatype EmAdvert = EmAdvert(issi: Issi, dest: Option<Issi>, bts: Bytes, active: bool, stamp: u64,
                               path: seq<ServerId>)

  datatype FedMessage =
    | Withdraw(issi: Issi)
    | RouteTo(issi: Issi, advert: Advert)
    | Prune(id: Bytes, source: Issi)
    | BtsHello(version: u8)
    | Bts(bts: BtsAdvert)
    | MsPos(pos: PosAdvert)
    | Emergency(alarm: EmAdvert)
    | Unknown(kind: u8)

  datatype Error = TooShort | WrongLength | PathLength | PathStart | PathTwice | TextTooLong | NotUtf8

  datatype Result<+T> = Ok(value: T) | Err(error: Error)

  // ----- lists of numbers -----

  function Words(ws: seq<nat>, k: nat): Bytes {
    if ws == [] then [] else Le(ws[0], k) + Words(ws[1..], k)
  }

  /** Whole groups of `k` bytes from the front, each as a number. */
  function ReadWords(bs: Bytes, k: nat): (ws: seq<nat>)
    requires k > 0
    ensures forall i :: 0 <= i < |ws| ==> ws[i] < Pow256(k)
    ensures k == 4 || k == 8 ==> |ws| == |bs| / k
  {
    if |bs| < k then [] else [FromLe(bs[..k])] + ReadWords(bs[k..], k)
  }

  lemma {:induction false} WordsBack(ws: seq<nat>, k: nat)
    requires (k == 4 || k == 8) && forall i :: 0 <= i < |ws| ==> ws[i] < Pow256(k)
    ensures ReadWords(Words(ws, k), k) == ws && |Words(ws, k)| == k * |ws|
  {
    hide Le, FromLe, Pow256;
    if ws != [] {
      ReadsBack(ws[0], k);
      WordsBack(ws[1..], k);
      assert Words(ws, k)[..k] == Le(ws[0], k) && Words(ws, k)[k..] == Words(ws[1..], k);
    }
  }

  lemma OneWordLess(n: nat, k: nat)
    requires (k == 4 || k == 8) && n % k == 0
    ensures if n < k then n == 0 else (n - k) % k == 0
  {
    if k == 4 { assert n % 4 == 0; } else { assert n % 8 == 0; }
  }

  lemma {:induction false} WordsAgain(bs: Bytes, k: nat)
    requires (k == 4 || k == 8) && |bs| % k == 0
    ensures Words(ReadWords(bs, k), k) == bs
    decreases |bs|
  {
    hide Le, FromLe, Pow256;
    OneWordLess(|bs|, k);
    if |bs| >= k {
      WritesBack(bs[..k]);
      WordsAgain(bs[k..], k);
      assert bs == bs[..k] + bs[k..];
      assert ReadWords(bs, k)[1..] == ReadWords(bs[k..], k);
    }
  }

  function ReadIds(bs: Bytes): (ws: seq<u64>)
    ensures |ws| == |bs| / 8 && ws == ReadWords(bs, 8)
  {
    Pow256Values();
    var ws := ReadWords(bs, 8);
    seq<u64>(|ws|, i requires 0 <= i < |ws| => ws[i])
  }

  function ReadGroups(bs: Bytes): (ws: seq<u32>)
    ensures |ws| == |bs| / 4 && ws == ReadWords(bs, 4)
  {
    Pow256Values();
    var ws := ReadWords(bs, 4);
    seq<u32>(|ws|, i requires 0 <= i < |ws| => ws[i])
  }

  function Flag(b: bool): u8 {
    if b then 1 else 0
  }

  // ----- building -----

  /** Length of a path or text as one byte: what does not fit is cut off. */
  function CountByte(n: nat): u8 {
    n % 256
  }

  function BuildRoute(issi: Issi, a: Advert): Bytes {
    [CLASS_FEDERATION, FED_ROUTE] + Le(issi, 4) + Le(a.reg, 8) + [CountByte(|a.path|)] + Words(a.path, 8) +
        Words(a.groups, 4)
  }

  function BuildBts(a: BtsAdvert): Bytes {
    [CLASS_FEDERATION, FED_BTS] + Le(a.stamp, 8) + [Flag(a.online)] + Le(a.lat, 8) + Le(a.lon, 8)
    + ([CountByte(|a.path|)] + Words(a.path, 8) + (TextField(a.key) + TextField(a.name)))
  }

  /** How a position or an alarm ends: the path and one text. */
  function TailBytes(path: seq<ServerId>, text: Bytes): Bytes {
    [CountByte(|path|)] + Words(path, 8) + TextField(text)
  }

  function BuildPos(a: PosAdvert): Bytes {
    [CLASS_FEDERATION, FED_MS_POS] + Le(a.at, 8) + Le(a.issi, 4) + Le(a.lat, 8) + Le(a.lon, 8) +
        TailBytes(a.path, a.station)
  }

  function BuildEmergency(a: EmAdvert): Bytes {
    [CLASS_FEDERATION, FED_EMERGENCY] + Le(a.stamp, 8) + [Flag(a.active)] + Le(a.issi, 4)
    + Le(if a.dest.Some? then a.dest.value else 0, 4) + TailBytes(a.path, a.bts)
  }

  function TextField(s: Bytes): Bytes {
    [CountByte(ClipLen(s))] + Clipped(s)
  }

  function Build(m: FedMessage): Bytes
    requires !m.Unknown?
  {
    match m
    case Withdraw(issi) => [CLASS_FEDERATION, FED_WITHDRAW] + Le(issi, 4)
    case RouteTo(issi, a) => BuildRoute(issi, a)
    case Prune(id, source) => [CLASS_FEDERATION, FED_PRUNE] + id + Le(source, 4)
    case BtsHello(version) => [CLASS_FEDERATION, FED_BTS_HELLO, version]
    case Bts(a) => BuildBts(a)
    case MsPos(a) => BuildPos(a)
    case Emergency(a) => BuildEmergency(a)
  }

  // ----- parsing -----

  /** A path must start at the neighbour and cross no server twice. */
  function CheckPath(path: seq<ServerId>, nbr: ServerId): (r: Option<Error>)
    requires path != []
    ensures r.None? <==> path[0] == nbr && Distinct(path)
  {
    if path[0] != nbr then Some(PathStart)
    else if exists i, j :: 0 <= j < i < |path| && path[j] == path[i] then Some(PathTwice)
    else None
  }

  function ParseRoute(raw: Bytes, nbr: ServerId): Result<FedMessage> {
    if |raw| < 15 then Err(TooShort)
    else
      var n := raw[14] as nat;
      if n == 0 || n > MAX_PATH then Err(PathLength)
      else if |raw| < 15 + 8 * n || (|raw| - 15 - 8 * n) % 4 != 0 then Err(WrongLength)
      else
        var path := ReadIds(raw[15..15 + 8 * n]);
        var bad := CheckPath(path, nbr);
        if bad.Some? then Err(bad.value)
        else Ok(RouteTo(U32At(raw, 2), Advert(U64At(raw, 6), path, ReadGroups(raw[15 + 8 * n..]))))
  }

  /** A text and where it ends. */
  function ParseText(raw: Bytes, at: nat): (r: Result<(Bytes, nat)>)
    ensures r.Ok? ==> at < r.value.1 <= |raw|
  {
    if at >= |raw| || at + 1 + raw[at] > |raw| then Err(WrongLength)
    else if raw[at] > MAX_BTS_TEXT then Err(TextTooLong)
    else
      var text := raw[at + 1..at + 1 + raw[at]];
      if ValidText(text) then Ok((text, at + 1 + raw[at])) else Err(NotUtf8)
  }

  function ParseBts(raw: Bytes, nbr: ServerId): Result<FedMessage> {
    if |raw| < 28 then Err(TooShort)
    else
      var n := raw[27] as nat;
      if n == 0 || n > MAX_PATH then Err(PathLength)
      else if |raw| < 28 + 8 * n then Err(WrongLength)
      else
        var path := ReadIds(raw[28..28 + 8 * n]);
        var bad := CheckPath(path, nbr);
        if bad.Some? then Err(bad.value)
        else
          var key := ParseText(raw, 28 + 8 * n);
          if key.Err? then Err(key.error)
          else
            var name := ParseText(raw, key.value.1);
            if name.Err? then Err(name.error)
            else if name.value.1 != |raw| then Err(WrongLength)
            else Ok(Bts(BtsAdvert(key.value.0, name.value.0, U64At(raw, 11), U64At(raw, 19), raw[10] != 0,
                                  U64At(raw, 2), path)))
  }

  /** The rest of a message from its path length at `at` on: path and one text. */
  function ParseTail(raw: Bytes, nbr: ServerId, at: nat): (r: Result<(seq<ServerId>, Bytes)>)
    requires at < |raw|
  {
    var n := raw[at] as nat;
    var end := at + 1 + 8 * n;
    if n == 0 || n > MAX_PATH then Err(PathLength)
    else if end >= |raw| || raw[end] > MAX_BTS_TEXT || |raw| != end + 1 + raw[end] then Err(WrongLength)
    else
      var path := ReadIds(raw[at + 1..end]);
      var bad := CheckPath(path, nbr);
      if bad.Some? then Err(bad.value)
      else if !ValidText(raw[end + 1..]) then Err(NotUtf8)
      else Ok((path, raw[end + 1..]))
  }

  function ParsePos(raw: Bytes, nbr: ServerId): Result<FedMessage> {
    if |raw| < 32 then Err(TooShort)
    else
      var tail := ParseTail(raw, nbr, 30);
      if tail.Err? then Err(tail.error)
      else Ok(MsPos(PosAdvert(U32At(raw, 10), U64At(raw, 14), U64At(raw, 22), U64At(raw, 2), tail.value.1,
                              tail.value.0)))
  }

  function ParseEmergency(raw: Bytes, nbr: ServerId): Result<FedMessage> {
    if |raw| < 21 then Err(TooShort)
    else
      var tail := ParseTail(raw, nbr, 19);
      if tail.Err? then Err(tail.error)
      else
        var dest := U32At(raw, 15);
        var to := if dest != 0 then Some(dest) else None;
        Ok(Emergency(EmAdvert(U32At(raw, 11), to, tail.value.1, raw[10] != 0, U64At(raw, 2), tail.value.0)))
  }

  function Parse(raw: Bytes, nbr: ServerId): Result<FedMessage> {
    if |raw| < 2 then Err(TooShort)
    else if raw[1] == FED_WITHDRAW then (if |raw| == 6 then Ok(Withdraw(U32At(raw, 2))) else Err(WrongLength))
    else if raw[1] == FED_PRUNE then (if |raw| == 22 then Ok(Prune(raw[2..18], U32At(raw, 18))) else Err(WrongLength))
    else if raw[1] == FED_ROUTE then ParseRoute(raw, nbr)
    else if raw[1] == FED_BTS_HELLO then Ok(BtsHello(if |raw| > 2 then raw[2] else 1))
    else if raw[1] == FED_MS_POS then ParsePos(raw, nbr)
    else if raw[1] == FED_EMERGENCY then ParseEmergency(raw, nbr)
    else if raw[1] == FED_BTS then ParseBts(raw, nbr)
    else Ok(Unknown(raw[1]))
  }

  // ----- what can come out of parsing -----

  /** A path as a neighbour takes it from us. */
  ghost predicate PathFor(path: seq<ServerId>, nbr: ServerId) {
    0 < |path| <= MAX_PATH && path[0] == nbr && Distinct(path)
  }

  ghost predicate TextOk(s: Bytes) {
    ValidText(s) && |s| <= MAX_BTS_TEXT
  }

  /** What a message must be for a neighbour to get it as it is. */
  ghost predicate Fit(m: FedMessage, nbr: ServerId) {
    match m
    case RouteTo(_, a) => PathFor(a.path, nbr)
    case Prune(id, _) => |id| == 16
    case Bts(a) => PathFor(a.path, nbr) && TextOk(a.key) && TextOk(a.name)
    case MsPos(a) => PathFor(a.path, nbr) && TextOk(a.station)
    case Emergency(a) => PathFor(a.path, nbr) && TextOk(a.bts) && a.dest != Some(0)
    case _ => true
  }

  lemma TailParsesToFit(raw: Bytes, nbr: ServerId, at: nat)
    requires at < |raw| && ParseTail(raw, nbr, at).Ok?
    ensures PathFor(ParseTail(raw, nbr, at).value.0, nbr) && TextOk(ParseTail(raw, nbr, at).value.1)
  {
    hide ReadWords, ValidText, CheckPath;
  }

  /** Whatever bytes arrive, only fitting messages come out. */
  lemma ParsesToFit(raw: Bytes, nbr: ServerId)
    ensures Parse(raw, nbr).Ok? ==> Fit(Parse(raw, nbr).value, nbr)
  {
    hide FromLe, ReadWords, ValidText, U32At, U64At, ParseTail, CheckPath;
    if |raw| >= 32 && ParseTail(raw, nbr, 30).Ok? {
      TailParsesToFit(raw, nbr, 30);
    }
    if |raw| >= 21 && ParseTail(raw, nbr, 19).Ok? {
      TailParsesToFit(raw, nbr, 19);
    }
  }

  // ----- parse after build -----

  lemma U32Is(raw: Bytes, o: nat, x: u32)
    requires o + 4 <= |raw| && raw[o..o + 4] == Le(x, 4)
    ensures U32At(raw, o) == x
  {
    hide Le, FromLe, Pow256;
    Pow256Values();
    ReadsBack(x, 4);
  }

  lemma U64Is(raw: Bytes, o: nat, x: u64)
    requires o + 8 <= |raw| && raw[o..o + 8] == Le(x, 8)
    ensures U64At(raw, o) == x
  {
    hide Le, FromLe, Pow256;
    Pow256Values();
    ReadsBack(x, 8);
  }

  lemma IdsIs(path: seq<ServerId>)
    ensures ReadIds(Words(path, 8)) == path && |Words(path, 8)| == 8 * |path|
  {
    hide Le, FromLe, Pow256;
    Pow256Values();
    WordsBack(path, 8);
  }

  lemma GroupsIs(groups: seq<Gssi>)
    ensures ReadGroups(Words(groups, 4)) == groups && |Words(groups, 4)| == 4 * |groups|
  {
    hide Le, FromLe, Pow256;
    Pow256Values();
    WordsBack(groups, 4);
  }

  lemma RouteLayout(issi: Issi, a: Advert)
    ensures var raw := BuildRoute(issi, a);
      && |raw| == 15 + 8 * |a.path| + 4 * |a.groups|
      && raw[0] == CLASS_FEDERATION && raw[1] == FED_ROUTE && raw[2..6] == Le(issi, 4) && raw[6..14] == Le(a.reg, 8)
      && raw[14] == CountByte(|a.path|)
      && raw[15..15 + 8 * |a.path|] == Words(a.path, 8) && raw[15 + 8 * |a.path|..] == Words(a.groups, 4)
  {
    hide Le, Words, CountByte, ReadWords;
    IdsIs(a.path);
    GroupsIs(a.groups);
  }

  lemma RouteSurvives(issi: Issi, a: Advert, nbr: ServerId)
    requires PathFor(a.path, nbr)
    ensures Parse(BuildRoute(issi, a), nbr) == Ok(RouteTo(issi, a))
  {
    hide Le, Words, FromLe, U32At, U64At, BuildRoute, ReadIds, ReadGroups, ReadWords;
    var raw := BuildRoute(issi, a);
    RouteLayout(issi, a);
    U32Is(raw, 2, issi);
    U64Is(raw, 6, a.reg);
    IdsIs(a.path);
    GroupsIs(a.groups);
  }

  lemma TextFieldIs(raw: Bytes, at: nat, s: Bytes, rest: Bytes)
    requires at <= |raw| && raw[at..] == TextField(s) + rest && ValidText(s)
    ensures var end := at + 1 + |Clipped(s)|;
      && end <= |raw| && ParseText(raw, at) == Ok((Clipped(s), end)) && raw[end..] == rest
      && raw[at] == |Clipped(s)| <= MAX_BTS_TEXT && raw[at + 1..end] == Clipped(s) && ValidText(Clipped(s))
  {
    hide ValidText, Clipped, ClipLen;
    ClippedOk(s);
    ClippedSize(s);
    assert raw[at] == raw[at..][0];
    var end := at + 1 + |Clipped(s)|;
    assert |raw| == at + 1 + |Clipped(s)| + |rest|;
    assert raw[at + 1..end] == raw[at..][1..1 + |Clipped(s)|] == Clipped(s);
    assert raw[end..] == raw[at..][1 + |Clipped(s)|..];
  }

  lemma ClippedSize(s: Bytes)
    ensures |Clipped(s)| == ClipLen(s)
  {
  }

  lemma TailBytesAre(path: seq<ServerId>, text: Bytes)
    ensures TailBytes(path, text) == [CountByte(|path|)] + Words(path, 8) + TextField(text)
  {
    hide Words, TextField, CountByte;
  }

  lemma ThreeParts(raw: Bytes, at: nat, c: u8, a: Bytes, b: Bytes)
    requires at <= |raw| && raw[at..] == [c] + a + b
    ensures at + 1 + |a| <= |raw| && raw[at] == c && raw[at + 1..at + 1 + |a|] == a && raw[at + 1 + |a|..] == b
  {
    var rest := raw[at..];
    assert raw == raw[..at] + rest;
    assert rest[1..1 + |a|] == a && rest[1 + |a|..] == b;
  }

  lemma TailSurvives(raw: Bytes, at: nat, path: seq<ServerId>, text: Bytes, nbr: ServerId)
    requires at < |raw| && raw[at..] == TailBytes(path, text) && PathFor(path, nbr) && ValidText(text)
    ensures ParseTail(raw, nbr, at) == Ok((path, Clipped(text)))
  {
    hide Words, ValidText, Clipped, ClipLen, ReadIds, TextField, ParseText, TailBytes, ReadWords, Le, FromLe, Pow256;
    var end := at + 1 + 8 * |path|;
    TailLayout(raw, at, path, text, nbr);
    assert TextField(text) + [] == TextField(text);
    TextFieldIs(raw, end, text, []);
    assert raw[end + 1..] == raw[end + 1..end + 1 + |Clipped(text)|];
  }

  lemma TailLayout(raw: Bytes, at: nat, path: seq<ServerId>, text: Bytes, nbr: ServerId)
    requires at < |raw| && raw[at..] == TailBytes(path, text) && PathFor(path, nbr) && ValidText(text)
    ensures var end := at + 1 + 8 * |path|;
      && end <= |raw| && raw[at] == |path| && ReadIds(raw[at + 1..end]) == path && raw[end..] == TextField(text)
      && 0 < |path| <= MAX_PATH
  {
    hide ValidText, Clipped, ClipLen, ReadIds, TextField, TailBytes, ReadWords, Words, Le, FromLe, Pow256;
    IdsIs(path);
    TailBytesAre(path, text);
    ThreeParts(raw, at, CountByte(|path|), Words(path, 8), TextField(text));
  }

  lemma PosLayout(a: PosAdvert)
    ensures var raw := BuildPos(a);
      && |raw| == 30 + |TailBytes(a.path, a.station)| && raw[0] == CLASS_FEDERATION && raw[1] == FED_MS_POS
      && raw[2..10] == Le(a.at, 8) && raw[10..14] == Le(a.issi, 4) && raw[14..22] == Le(a.lat, 8) &&
          raw[22..30] == Le(a.lon, 8)
      && raw[30..] == TailBytes(a.path, a.station)
  {
    hide Le, TailBytes;
  }

  lemma TailSize(path: seq<ServerId>, text: Bytes)
    ensures |TailBytes(path, text)| >= 2 + 8 * |path|
  {
    IdsIs(path);
  }

  /** A text that is too long arrives shortened; otherwise nothing is lost. */
  lemma PosSurvives(a: PosAdvert, nbr: ServerId)
    requires PathFor(a.path, nbr) && ValidText(a.station)
    ensures Parse(BuildPos(a), nbr) == Ok(MsPos(a.(station := Clipped(a.station))))
  {
    hide Le, FromLe, U32At, U64At, BuildPos, TailBytes, ParseTail, ValidText, Clipped;
    var raw := BuildPos(a);
    PosLayout(a);
    TailSize(a.path, a.station);
    U64Is(raw, 2, a.at);
    U32Is(raw, 10, a.issi);
    U64Is(raw, 14, a.lat);
    U64Is(raw, 22, a.lon);
    TailSurvives(raw, 30, a.path, a.station, nbr);
  }

  lemma EmergencyLayout(a: EmAdvert)
    ensures var raw := BuildEmergency(a);
      && |raw| == 19 + |TailBytes(a.path, a.bts)| && raw[0] == CLASS_FEDERATION && raw[1] == FED_EMERGENCY
      && raw[2..10] == Le(a.stamp, 8) && raw[10] == Flag(a.active) && raw[11..15] == Le(a.issi, 4)
      && raw[15..19] == Le(if a.dest.Some? then a.dest.value else 0, 4)
      && raw[19..] == TailBytes(a.path, a.bts)
  {
    hide Le, TailBytes;
  }

  lemma EmergencySurvives(a: EmAdvert, nbr: ServerId)
    requires PathFor(a.path, nbr) && ValidText(a.bts)
    ensures Parse(BuildEmergency(a), nbr) ==
      Ok(Emergency(a.(bts := Clipped(a.bts), dest := if a.dest == Some(0) then None else a.dest)))
  {
    hide Le, FromLe, U32At, U64At, BuildEmergency, TailBytes, ParseTail, ValidText, Clipped;
    var raw := BuildEmergency(a);
    EmergencyLayout(a);
    TailSize(a.path, a.bts);
    U64Is(raw, 2, a.stamp);
    U32Is(raw, 11, a.issi);
    U32Is(raw, 15, if a.dest.Some? then a.dest.value else 0);
    TailSurvives(raw, 19, a.path, a.bts, nbr);
  }

  lemma BtsLayout(a: BtsAdvert)
    ensures var (raw, end) := (BuildBts(a), 28 + 8 * |a.path|);
      && |raw| == end + |TextField(a.key) + TextField(a.name)| && raw[0] == CLASS_FEDERATION && raw[1] == FED_BTS
      && raw[2..10] == Le(a.stamp, 8) && raw[10] == Flag(a.online) && raw[11..19] == Le(a.lat, 8) &&
          raw[19..27] == Le(a.lon, 8)
      && raw[27] == CountByte(|a.path|) && raw[28..end] == Words(a.path, 8) &&
          raw[end..] == TextField(a.key) + TextField(a.name)
  {
    hide Le, Words, TextField, CountByte, ReadWords;
    IdsIs(a.path);
  }

  lemma BtsIs(raw: Bytes, nbr: ServerId, path: seq<ServerId>, mid: nat, key: Bytes, name: Bytes)
    requires PathFor(path, nbr) && |raw| >= 28 + 8 * |path|
    requires raw[27] == |path| && ReadIds(raw[28..28 + 8 * |path|]) == path
    requires ParseText(raw, 28 + 8 * |path|) == Ok((key, mid)) && ParseText(raw, mid) == Ok((name, |raw|))
    ensures ParseBts(raw, nbr) ==
      Ok(Bts(BtsAdvert(key, name, U64At(raw, 11), U64At(raw, 19), raw[10] != 0, U64At(raw, 2), path)))
  {
    hide ReadIds, ParseText, U64At;
  }

  lemma TwoTexts(raw: Bytes, at: nat, a: Bytes, b: Bytes)
    requires at <= |raw| && raw[at..] == TextField(a) + TextField(b) && ValidText(a) && ValidText(b)
    ensures var mid := at + 1 + |Clipped(a)|;
      && ParseText(raw, at) == Ok((Clipped(a), mid)) && mid <= |raw|
      && ParseText(raw, mid) == Ok((Clipped(b), |raw|))
  {
    hide TextField, ParseText, ValidText, Clipped;
    TextFieldIs(raw, at, a, TextField(b));
    var mid := at + 1 + |Clipped(a)|;
    assert TextField(b) + [] == TextField(b);
    TextFieldIs(raw, mid, b, []);
    NothingBehind(raw, mid + 1 + |Clipped(b)|);
  }

  lemma BtsSurvives(a: BtsAdvert, nbr: ServerId)
    requires PathFor(a.path, nbr) && ValidText(a.key) && ValidText(a.name)
    ensures Parse(BuildBts(a), nbr) == Ok(Bts(a.(key := Clipped(a.key), name := Clipped(a.name))))
  {
    hide Le, Words, U64At, BuildBts, TextField, ParseText, ValidText, Clipped, ReadIds, ParseBts;
    var (raw, end) := (BuildBts(a), 28 + 8 * |a.path|);
    BtsLayout(a);
    U64Is(raw, 2, a.stamp);
    U64Is(raw, 11, a.lat);
    U64Is(raw, 19, a.lon);
    IdsIs(a.path);
    var mid := end + 1 + |Clipped(a.key)|;
    TwoTexts(raw, end, a.key, a.name);
    BtsIs(raw, nbr, a.path, mid, Clipped(a.key), Clipped(a.name));
  }

  lemma NothingBehind(raw: Bytes, end: nat)
    requires end <= |raw| && raw[end..] == []
    ensures end == |raw|
  {
  }

  lemma TextOkStays(s: Bytes)
    requires TextOk(s)
    ensures Clipped(s) == s
  {
    ClippedOk(s);
  }

  lemma ShortSurvives(m: FedMessage, nbr: ServerId)
    requires m.Withdraw? || m.BtsHello? || (m.Prune? && |m.id| == 16)
    ensures Parse(Build(m), nbr) == Ok(m)
  {
    hide Le, FromLe, U32At;
    var raw := Build(m);
    match m
    case Withdraw(issi) =>
      assert raw[2..6] == Le(issi, 4);
      U32Is(raw, 2, issi);
    case Prune(id, source) =>
      assert raw[2..18] == id && raw[18..22] == Le(source, 4);
      U32Is(raw, 18, source);
    case BtsHello(_) =>
  }

  /** A message arrives as it was built exactly if it fits. */
  lemma SurvivesIff(m: FedMessage, nbr: ServerId)
    requires !m.Unknown?
    ensures Parse(Build(m), nbr) == Ok(m) <==> Fit(m, nbr)
  {
    hide Parse, PathFor, TextOk, BuildRoute, BuildBts, BuildPos, BuildEmergency;
    ParsesToFit(Build(m), nbr);
    if Fit(m, nbr) {
      match m
      case RouteTo(issi, a) => RouteSurvives(issi, a, nbr);
      case Bts(a) =>
        assert ValidText(a.key) && ValidText(a.name) by { TextsValid(a.key); TextsValid(a.name); }
        BtsSurvives(a, nbr);
        TextOkStays(a.key);
        TextOkStays(a.name);
      case MsPos(a) =>
        TextsValid(a.station);
        PosSurvives(a, nbr);
        TextOkStays(a.station);
      case Emergency(a) =>
        TextsValid(a.bts);
        EmergencySurvives(a, nbr);
        TextOkStays(a.bts);
      case _ => ShortSurvives(m, nbr);
    }
  }

  lemma TextsValid(s: Bytes)
    ensures TextOk(s) ==> ValidText(s)
  {
  }

  // ----- build after parse -----

  /** The one way to write a message; elsewhere any non-zero flag byte counts
      as set, and a hello may be shorter or longer. */
  predicate Canonical(raw: Bytes)
    requires |raw| >= 2
  {
    && (raw[1] == FED_BTS || raw[1] == FED_EMERGENCY ==> |raw| > 10 && raw[10] <= 1)
    && (raw[1] == FED_BTS_HELLO ==> |raw| == 3)
  }

  lemma U32Again(raw: Bytes, o: nat)
    requires o + 4 <= |raw|
    ensures Le(U32At(raw, o), 4) == raw[o..o + 4]
  {
    hide Le, FromLe, Pow256;
    WritesBack(raw[o..o + 4]);
  }

  lemma U64Again(raw: Bytes, o: nat)
    requires o + 8 <= |raw|
    ensures Le(U64At(raw, o), 8) == raw[o..o + 8]
  {
    hide Le, FromLe, Pow256;
    WritesBack(raw[o..o + 8]);
  }

  lemma IdsAgain(bs: Bytes)
    requires |bs| % 8 == 0
    ensures Words(ReadIds(bs), 8) == bs
  {
    hide Words, ReadWords;
    WordsAgain(bs, 8);
  }

  lemma GroupsAgain(bs: Bytes)
    requires |bs| % 4 == 0
    ensures Words(ReadGroups(bs), 4) == bs
  {
    hide Words, ReadWords;
    WordsAgain(bs, 4);
  }

  lemma RoutePieces(raw: Bytes, end: nat)
    requires 15 <= end <= |raw|
    ensures raw == [raw[0], raw[1]] + raw[2..6] + raw[6..14] + [raw[14]] + raw[15..end] + raw[end..]
  {
    assert [raw[0], raw[1]] + raw[2..6] + raw[6..14] + [raw[14]] == raw[..15];
    assert raw[..15] + raw[15..end] == raw[..end];
  }

  lemma RouteFields(raw: Bytes, nbr: ServerId)
    requires ParseRoute(raw, nbr).Ok?
    ensures |raw| >= 15 && var end := 15 + 8 * raw[14];
      && end <= |raw| && (|raw| - end) % 4 == 0 && raw[14] <= MAX_PATH && ParseRoute(raw, nbr).value.RouteTo?
      && var m := ParseRoute(raw, nbr).value;
      && m.issi == U32At(raw, 2) && m.advert.reg == U64At(raw, 6) && |m.advert.path| == raw[14]
      && m.advert.path == ReadIds(raw[15..end]) && m.advert.groups == ReadGroups(raw[end..])
  {
    hide ReadWords, CheckPath, U32At, U64At;
  }

  /** Any route that parses is built again byte for byte. */
  lemma RouteRebuilt(raw: Bytes, nbr: ServerId)
    requires |raw| >= 2 && raw[0] == CLASS_FEDERATION && raw[1] == FED_ROUTE && ParseRoute(raw, nbr).Ok?
    ensures Build(ParseRoute(raw, nbr).value) == raw
  {
    hide Le, Words, ReadIds, ReadGroups, ParseRoute, U32At, U64At;
    RouteFields(raw, nbr);
    var end := 15 + 8 * raw[14] as nat;
    U32Again(raw, 2);
    U64Again(raw, 6);
    IdsAgain(raw[15..end]);
    GroupsAgain(raw[end..]);
    RoutePieces(raw, end);
  }

  lemma TextAgain(raw: Bytes, at: nat)
    requires ParseText(raw, at).Ok?
    ensures var (text, end) := (ParseText(raw, at).value.0, ParseText(raw, at).value.1); TextField(text) == raw[at..end]
  {
    hide ValidText, Clipped;
    var text := ParseText(raw, at).value.0;
    TextOkStays(text);
    ClippedSize(text);
  }

  lemma TailAgain(raw: Bytes, nbr: ServerId, at: nat)
    requires at < |raw| && ParseTail(raw, nbr, at).Ok?
    ensures var (path, text) := (ParseTail(raw, nbr, at).value.0, ParseTail(raw, nbr, at).value.1);
      TailBytes(path, text) == raw[at..]
  {
    hide Words, ReadIds, CheckPath, ValidText, Clipped, TextField, ReadWords;
    var n := raw[at] as nat;
    var end := at + 1 + 8 * n;
    IdsAgain(raw[at + 1..end]);
    TextAgain(raw, end) by { assert raw[end + 1..] == raw[end + 1..end + 1 + raw[end]]; }
    assert raw[end..] == raw[end..|raw|];
    assert raw[at..] == [raw[at]] + raw[at + 1..end] + raw[end..];
  }

  lemma PosPieces(raw: Bytes)
    requires |raw| >= 30
    ensures raw == [raw[0], raw[1]] + raw[2..10] + raw[10..14] + raw[14..22] + raw[22..30] + raw[30..]
  {
  }

  lemma PosRebuilt(raw: Bytes, nbr: ServerId)
    requires |raw| >= 2 && raw[0] == CLASS_FEDERATION && raw[1] == FED_MS_POS && ParsePos(raw, nbr).Ok?
    ensures Build(ParsePos(raw, nbr).value) == raw
  {
    hide Le, FromLe, U32At, U64At, TailBytes, ParseTail;
    U64Again(raw, 2);
    U32Again(raw, 10);
    U64Again(raw, 14);
    U64Again(raw, 22);
    TailAgain(raw, nbr, 30);
    PosPieces(raw);
  }

  lemma EmergencyPieces(raw: Bytes)
    requires |raw| >= 19
    ensures raw == [raw[0], raw[1]] + raw[2..10] + [raw[10]] + raw[11..15] + raw[15..19] + raw[19..]
  {
  }

  lemma EmergencyFields(raw: Bytes, nbr: ServerId) returns (a: EmAdvert)
    requires ParseEmergency(raw, nbr).Ok?
    ensures |raw| >= 21 && ParseEmergency(raw, nbr) == Ok(Emergency(a))
    ensures ParseTail(raw, nbr, 19) == Ok((a.path, a.bts))
    ensures a.issi == U32At(raw, 11) && a.stamp == U64At(raw, 2) && a.active == (raw[10] != 0)
    ensures (if a.dest.Some? then a.dest.value else 0) == U32At(raw, 15)
  {
    hide U32At, U64At, ParseTail;
    a := ParseEmergency(raw, nbr).value.alarm;
  }

  lemma EmergencyRebuilt(raw: Bytes, nbr: ServerId)
    requires |raw| > 10 && raw[0] == CLASS_FEDERATION && raw[1] == FED_EMERGENCY
    requires ParseEmergency(raw, nbr).Ok? && raw[10] <= 1
    ensures BuildEmergency(ParseEmergency(raw, nbr).value.alarm) == raw
  {
    hide Le, U32At, U64At, TailBytes, ParseTail, ParseEmergency;
    var a := EmergencyFields(raw, nbr);
    U64Again(raw, 2);
    U32Again(raw, 11);
    U32Again(raw, 15);
    TailAgain(raw, nbr, 19);
    assert Flag(a.active) == raw[10];
    EmergencyPieces(raw);
  }

  lemma EmergencyRebuiltIff(raw: Bytes, nbr: ServerId)
    requires |raw| >= 2 && raw[0] == CLASS_FEDERATION && raw[1] == FED_EMERGENCY && ParseEmergency(raw, nbr).Ok?
    ensures |raw| > 10 && (Build(ParseEmergency(raw, nbr).value) == raw <==> raw[10] <= 1)
  {
    hide BuildEmergency, ParseEmergency;
    var a := EmergencyFields(raw, nbr);
    EmergencyLayout(a);
    if raw[10] <= 1 {
      EmergencyRebuilt(raw, nbr);
    }
  }

  lemma BtsPieces(raw: Bytes, end: nat, mid: nat)
    requires 28 <= end <= mid <= |raw|
    ensures raw == [raw[0], raw[1]] + raw[2..10] + [raw[10]] + raw[11..19] + raw[19..27]
      + ([raw[27]] + raw[28..end] + (raw[end..mid] + raw[mid..|raw|]))
  {
    assert [raw[0], raw[1]] + raw[2..10] + [raw[10]] + raw[11..19] + raw[19..27] == raw[..27];
    assert [raw[27]] + raw[28..end] == raw[27..end];
    assert raw[end..mid] + raw[mid..|raw|] == raw[end..];
    assert raw[27..end] + raw[end..] == raw[27..];
  }

  lemma BtsFields(raw: Bytes, nbr: ServerId) returns (a: BtsAdvert, end: nat, mid: nat)
    requires ParseBts(raw, nbr).Ok?
    ensures ParseBts(raw, nbr) == Ok(Bts(a))
    ensures |raw| >= 28 && raw[27] == |a.path| && end == 28 + 8 * |a.path| && end <= mid <= |raw|
    ensures ParseText(raw, end) == Ok((a.key, mid)) && ParseText(raw, mid) == Ok((a.name, |raw|))
    ensures a.online == (raw[10] != 0) && a.stamp == U64At(raw, 2) && a.lat == U64At(raw, 11) && a.lon == U64At(raw, 19)
    ensures |a.path| <= MAX_PATH && a.path == ReadIds(raw[28..end])
  {
    hide ReadWords, CheckPath, U64At, ParseText;
    a := ParseBts(raw, nbr).value.bts;
    end := 28 + 8 * |a.path|;
    mid := ParseText(raw, end).value.1;
  }

  lemma BtsRebuilt(raw: Bytes, nbr: ServerId)
    requires |raw| > 10 && raw[0] == CLASS_FEDERATION && raw[1] == FED_BTS && ParseBts(raw, nbr).Ok? && raw[10] <= 1
    ensures BuildBts(ParseBts(raw, nbr).value.bts) == raw
  {
    hide Le, Words, U64At, TextField, ParseText, ReadIds, ParseBts, CheckPath;
    var a, end, mid := BtsFields(raw, nbr);
    U64Again(raw, 2);
    U64Again(raw, 11);
    U64Again(raw, 19);
    IdsAgain(raw[28..end]);
    TextAgain(raw, end);
    TextAgain(raw, mid);
    assert Flag(a.online) == raw[10] && CountByte(|a.path|) == raw[27];
    BtsPieces(raw, end, mid);
  }

  lemma BtsRebuiltIff(raw: Bytes, nbr: ServerId)
    requires |raw| >= 2 && raw[0] == CLASS_FEDERATION && raw[1] == FED_BTS && ParseBts(raw, nbr).Ok?
    ensures |raw| > 10 && (Build(ParseBts(raw, nbr).value) == raw <==> raw[10] <= 1)
  {
    hide BuildBts, ParseBts;
    var a, _, _ := BtsFields(raw, nbr);
    BtsLayout(a);
    if raw[10] <= 1 {
      BtsRebuilt(raw, nbr);
    }
  }

  lemma ShortRebuiltIff(raw: Bytes, nbr: ServerId)
    requires |raw| >= 2 && raw[0] == CLASS_FEDERATION && Parse(raw, nbr).Ok?
    requires raw[1] == FED_WITHDRAW || raw[1] == FED_PRUNE || raw[1] == FED_BTS_HELLO
    ensures Build(Parse(raw, nbr).value) == raw <==> (raw[1] == FED_BTS_HELLO ==> |raw| == 3)
  {
    hide Le, FromLe, U32At;
    if raw[1] == FED_WITHDRAW {
      U32Again(raw, 2);
      assert raw == raw[..2] + raw[2..6];
    } else if raw[1] == FED_PRUNE {
      U32Again(raw, 18);
      assert raw == raw[..2] + raw[2..18] + raw[18..22];
    }
  }

  /** Bytes that parse to a known message are built again exactly if canonical. */
  lemma RebuiltIff(raw: Bytes, nbr: ServerId)
    requires |raw| >= 2 && raw[0] == CLASS_FEDERATION && Parse(raw, nbr).Ok? && !Parse(raw, nbr).value.Unknown?
    ensures Build(Parse(raw, nbr).value) == raw <==> Canonical(raw)
  {
    hide Build, ParseRoute, ParsePos, ParseEmergency, ParseBts;
    if raw[1] == FED_ROUTE {
      RouteRebuilt(raw, nbr);
    } else if raw[1] == FED_MS_POS {
      PosRebuilt(raw, nbr);
    } else if raw[1] == FED_EMERGENCY {
      EmergencyRebuiltIff(raw, nbr);
    } else if raw[1] == FED_BTS {
      BtsRebuiltIff(raw, nbr);
    } else {
      ShortRebuiltIff(raw, nbr);
    }
  }
}
