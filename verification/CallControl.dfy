/** Call control messages and the two versions of the protocol: a version 0
    connection is sent the same message without the talker's name. */
module CallControl {
  import opened FedTypes
  import opened ByteOrder

  const CLASS_CALL_CONTROL: u8 := 0xf1
  const CALL_GROUP_TX: u8 := 2
  const CALL_GROUP_IDLE: u8 := 3
  const CALL_SETUP_REQUEST: u8 := 4
  const CALL_SETUP_ACCEPT: u8 := 5
  const CALL_SETUP_REJECT: u8 := 6
  const CALL_ALERT: u8 := 7
  const CALL_CONNECT_REQUEST: u8 := 8
  const CALL_RELEASE: u8 := 10
  const CALL_SHORT_TRANSFER: u8 := 11

  const GROUP_TX_BASE_LEN: nat := 12
  const CIRCULAR_CALL_BASE_LEN: nat := 51
  const MNEMONIC_FIELD_LEN: nat := 34

  datatype Version = V0 | V1

  /** `name` is the bytes of the talker name field, if there is one. */
  datatype Payload =
    | GroupTransmission(source: u32, destination: u32, priority: u8, access: u8, service: u16, name: Option<Bytes>)
    | CircularCall(source: u32, destination: u32, number: Bytes, priority: u8, serviceByte: u8, name: Option<Bytes>)
    | Cause(cause: u8)
    | Nothing
    | ShortTransfer(source: u32, destination: u32)
    | Raw(bytes: Bytes)

  datatype Call = Call(state: u8, id: Bytes, payload: Payload)

  datatype Parsed = Ok(call: Call, version: Version) | TooShort(size: nat)

  /** The bytes before the first zero. */
  function UpToZero(bs: Bytes): Bytes {
    if bs == [] || bs[0] == 0 then [] else [bs[0]] + UpToZero(bs[1..])
  }

  function Circular(p: Bytes, name: Option<Bytes>): Payload
    requires |p| >= CIRCULAR_CALL_BASE_LEN
  {
    CircularCall(U32At(p, 0), U32At(p, 4), UpToZero(p[8..40]), p[40], p[41], name)
  }

  function GroupTx(p: Bytes, name: Option<Bytes>): Payload
    requires |p| >= GROUP_TX_BASE_LEN
  {
    GroupTransmission(U32At(p, 0), U32At(p, 4), p[8], p[9], U16At(p, 10), name)
  }

  function Parse(raw: Bytes, version: Version): Parsed {
    if |raw| < 18 then TooShort(|raw|)
    else
      var p := raw[18..];
      var call := Call(raw[1], raw[2..18], Nothing);
      if raw[1] == CALL_GROUP_TX then
        if |p| < GROUP_TX_BASE_LEN then TooShort(|raw|)
        else if |p| == GROUP_TX_BASE_LEN then Ok(call.(payload := GroupTx(p, None)), version)
        else
          var full := GROUP_TX_BASE_LEN + MNEMONIC_FIELD_LEN;
          var end := if |p| >= full then full else |p|;
          Ok(call.(payload := GroupTx(p, Some(p[GROUP_TX_BASE_LEN..end]))), V1)
      else if raw[1] == CALL_SETUP_REQUEST then
        if |p| < CIRCULAR_CALL_BASE_LEN then TooShort(|raw|)
        else if |p| < CIRCULAR_CALL_BASE_LEN + MNEMONIC_FIELD_LEN then Ok(call.(payload := Circular(p, None)), version)
        else
          var end := CIRCULAR_CALL_BASE_LEN + MNEMONIC_FIELD_LEN;
          Ok(call.(payload := Circular(p, Some(p[CIRCULAR_CALL_BASE_LEN..end]))), V1)
      else if raw[1] == CALL_CONNECT_REQUEST then
        if |p| < CIRCULAR_CALL_BASE_LEN then TooShort(|raw|) else Ok(call.(payload := Circular(p, None)), version)
      else if raw[1] == CALL_GROUP_IDLE || raw[1] == CALL_SETUP_REJECT || raw[1] == CALL_RELEASE then
        if p == [] then TooShort(|raw|) else Ok(call.(payload := Cause(p[0])), version)
      else if raw[1] == CALL_SETUP_ACCEPT || raw[1] == CALL_ALERT then Ok(call, version)
      else if raw[1] == CALL_SHORT_TRANSFER then
        if |p| < 8 then TooShort(|raw|) else Ok(call.(payload := ShortTransfer(U32At(p, 0), U32At(p, 4))), version)
      else Ok(call.(payload := Raw(p)), version)
  }

  /** `raw` as a connection of that version may receive it. */
  function Adapt(raw: Bytes, version: Version): Bytes {
    if version == V1 || |raw| < 2 || raw[0] != CLASS_CALL_CONTROL then raw
    else if raw[1] != CALL_GROUP_TX && raw[1] != CALL_SETUP_REQUEST then raw
    else
      var size := 18 + if raw[1] == CALL_GROUP_TX then GROUP_TX_BASE_LEN else CIRCULAR_CALL_BASE_LEN;
      if |raw| > size then raw[..size] else raw
  }

  /** A message without the talker's name, for a version 0 connection. */
  function Unnamed(r: Parsed): Parsed {
    match r
    case TooShort(_) => r
    case Ok(call, _) =>
      var payload := match call.payload
        case GroupTransmission(s, d, pr, a, se, _) => GroupTransmission(s, d, pr, a, se, None)
        case CircularCall(s, d, n, pr, se, _) => CircularCall(s, d, n, pr, se, None)
        case other => other;
      Ok(call.(payload := payload), V0)
  }

  lemma SameNumbers(a: Bytes, b: Bytes)
    requires a <= b
    ensures forall o :: 0 <= o && o + 4 <= |a| ==> U32At(a, o) == U32At(b, o)
    ensures forall o :: 0 <= o && o + 2 <= |a| ==> U16At(a, o) == U16At(b, o)
  {
    forall o | 0 <= o && o + 4 <= |a| ensures U32At(a, o) == U32At(b, o) { assert a[o..o + 4] == b[o..o + 4]; }
    forall o | 0 <= o && o + 2 <= |a| ensures U16At(a, o) == U16At(b, o) { assert a[o..o + 2] == b[o..o + 2]; }
  }

  /** Adapting loses the name and nothing else: a version 0 parser reads the
      same message, or the same error, and is never taken for version 1. */
  lemma AdaptKeepsMeaning(raw: Bytes)
    requires |raw| >= 2 && raw[0] == CLASS_CALL_CONTROL
    ensures Parse(Adapt(raw, V0), V0) == Unnamed(Parse(raw, V0))
  {
    hide U32At, U16At;
    var cut := Adapt(raw, V0);
    if |cut| < |raw| {
      SameNumbers(cut[18..], raw[18..]) by { assert raw[18..][..|cut| - 18] == cut[18..]; }
      assert cut[2..18] == raw[2..18];
      if raw[1] == CALL_SETUP_REQUEST {
        assert cut[18..][8..40] == raw[18..][8..40];
      }
    }
  }

  /** What is sent is a prefix; the whole of it exactly if the connection is
      version 1 or there is nothing behind the version 0 layout. */
  lemma AdaptCutsIff(raw: Bytes, version: Version)
    ensures Adapt(raw, version) <= raw && Adapt(Adapt(raw, version), version) == Adapt(raw, version)
    ensures Adapt(raw, version) != raw <==>
      && version == V0 && |raw| >= 2 && raw[0] == CLASS_CALL_CONTROL
      && ((raw[1] == CALL_GROUP_TX && |raw| > 30) || (raw[1] == CALL_SETUP_REQUEST && |raw| > 69))
  {
  }
}
