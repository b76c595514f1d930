/** The SMS Center's queue: messages kept for a destination that is not
    reachable, delivered one attempt at a time. */
module SmsQueue {
  import opened FedTypes

  type Uuid = nat

  /** Two copies of a message closer than this are one radio's retransmission. */
  const DUPLICATE_WINDOW_MS: u64 := 60_000

  datatype Config = Config(enabled: bool, excluded: set<u8>, maxPerDestination: nat, maxTotal: nat,
                           ttlSeconds: u64, retrySeconds: u64, ackSeconds: u64, maxAttempts: u32)

  /** What a message is; the rest of a queued message is about its delivery. */
  datatype Letter = Letter(id: Uuid, source: Issi, destination: Issi, lengthBits: u16, data: Bytes, storedAt: u64,
                           expiresAt: u64)

  datatype Sms = Sms(letter: Letter, attempts: nat, lastAttempt: Option<u64>, inFlight: Option<Uuid>)

  datatype StoreOutcome = Stored(m: Sms) | Duplicate(m: Sms) | QueueFull | Skipped

  function SatMul(a: u64, b: u64): u64 {
    if a * b <= U64_MAX then a * b else U64_MAX
  }

  function SatSub(a: u64, b: u64): u64 {
    if a < b then 0 else a - b
  }

  function Ms(seconds: u64): u64 {
    SatMul(seconds, 1000)
  }

  // ----- storing -----

  predicate SameText(m: Sms, source: Issi, destination: Issi, data: Bytes) {
    m.letter.source == source && m.letter.destination == destination && m.letter.data == data
  }

  predicate Retransmits(m: Sms, source: Issi, destination: Issi, data: Bytes, now: u64) {
    SameText(m, source, destination, data) && SatSub(now, m.letter.storedAt) < DUPLICATE_WINDOW_MS
  }

  function CountFor(q: seq<Sms>, destination: Issi): nat {
    if q == [] then 0
    else CountFor(q[..|q| - 1], destination) + if q[|q| - 1].letter.destination == destination then 1 else 0
  }

  function Fresh(cfg: Config, source: Issi, destination: Issi, lengthBits: u16, data: Bytes, now: u64, id: Uuid): Sms {
    Sms(Letter(id, source, destination, lengthBits, data, now, SatAdd(now, Ms(cfg.ttlSeconds))), 0, None, None)
  }

  predicate Storable(cfg: Config, lengthBits: u16, data: Bytes) {
    cfg.enabled && data != [] && data[0] !in cfg.excluded && (lengthBits + 7) / 8 <= |data|
  }

  predicate Full(cfg: Config, q: seq<Sms>, destination: Issi) {
    CountFor(q, destination) >= cfg.maxPerDestination || |q| >= cfg.maxTotal
  }

  /** Index of the queued message a new one merely repeats. */
  function Original(q: seq<Sms>, source: Issi, destination: Issi, data: Bytes, now: u64): (k: Option<nat>)
    ensures k.Some? ==>
      k.value < |q| && Retransmits(q[k.value], source, destination, data, now)
      && forall j :: 0 <= j < k.value ==> !Retransmits(q[j], source, destination, data, now)
    ensures k.None? ==> forall m :: m in q ==> !Retransmits(m, source, destination, data, now)
  {
    if q == [] then None
    else
      var k := Original(q[..|q| - 1], source, destination, data, now);
      if k.Some? then k
      else if Retransmits(q[|q| - 1], source, destination, data, now) then Some(|q| - 1)
      else None
  }

  function StoreResult(cfg: Config, q: seq<Sms>, source: Issi, destination: Issi, lengthBits: u16, data: Bytes,
                       now: u64, id: Uuid): StoreOutcome {
    if !Storable(cfg, lengthBits, data) then Skipped
    else if Original(q, source, destination, data, now).Some? then
      Duplicate(q[Original(q, source, destination, data, now).value])
    else if Full(cfg, q, destination) then QueueFull
    else Stored(Fresh(cfg, source, destination, lengthBits, data, now, id))
  }

  function AfterStore(q: seq<Sms>, outcome: StoreOutcome): seq<Sms> {
    match outcome
    case Stored(m) => q + [m]
    case _ => q
  }

  // ----- attempts -----

  /** Not tried within the retry interval. */
  predicate Rested(cfg: Config, m: Sms, now: u64) {
    m.lastAttempt.None? || SatSub(now, m.lastAttempt.value) >= Ms(cfg.retrySeconds)
  }

  predicate Takeable(cfg: Config, m: Sms, issi: Issi, force: bool, now: u64) {
    && m.letter.destination == issi && m.inFlight.None? && now < m.letter.expiresAt
    && (force || Rested(cfg, m, now))
  }

  /** `k` is the oldest takeable message, the first of them in the queue. */
  ghost predicate IsPick(cfg: Config, q: seq<Sms>, issi: Issi, force: bool, now: u64, k: nat) {
    && k < |q| && Takeable(cfg, q[k], issi, force, now)
    && forall j :: 0 <= j < |q| && Takeable(cfg, q[j], issi, force, now) ==>
         && q[k].letter.storedAt <= q[j].letter.storedAt
         && (j < k ==> q[k].letter.storedAt < q[j].letter.storedAt)
  }

  function Pick(cfg: Config, q: seq<Sms>, issi: Issi, force: bool, now: u64): (k: Option<nat>)
    ensures k.Some? ==> IsPick(cfg, q, issi, force, now, k.value)
    ensures k.None? ==> forall m :: m in q ==> !Takeable(cfg, m, issi, force, now)
  {
    if q == [] then None
    else
      var k := Pick(cfg, q[..|q| - 1], issi, force, now);
      var m := q[|q| - 1];
      if Takeable(cfg, m, issi, force, now) && (k.None? || m.letter.storedAt < q[k.value].letter.storedAt) then
        Some(|q| - 1)
      else k
  }

  function Attempted(m: Sms, now: u64, tag: Uuid): Sms {
    m.(inFlight := Some(tag), attempts := m.attempts + 1, lastAttempt := Some(now))
  }

  function AfterTake(cfg: Config, q: seq<Sms>, issi: Issi, force: bool, now: u64, tag: Uuid): seq<Sms> {
    var k := Pick(cfg, q, issi, force, now);
    if !cfg.enabled || k.None? then q else q[k.value := Attempted(q[k.value], now, tag)]
  }

  /** Whose attempt `tag` is. */
  function TaggedAt(q: seq<Sms>, tag: Uuid): (k: Option<nat>)
    ensures k.Some? ==>
      k.value < |q| && q[k.value].inFlight == Some(tag) && forall j :: 0 <= j < k.value ==> q[j].inFlight != Some(tag)
    ensures k.None? ==> forall m :: m in q ==> m.inFlight != Some(tag)
  {
    if q == [] then None
    else
      var k := TaggedAt(q[..|q| - 1], tag);
      if k.Some? then k
      else if q[|q| - 1].inFlight == Some(tag) then Some(|q| - 1)
      else None
  }

  function Released(m: Sms): Sms {
    m.(inFlight := None, attempts := if m.attempts == 0 then 0 else m.attempts - 1)
  }

  function AfterRelease(q: seq<Sms>, tag: Uuid): seq<Sms> {
    var k := TaggedAt(q, tag);
    if k.None? then q else q[k.value := Released(q[k.value])]
  }

  function Cut(q: seq<Sms>, k: nat): seq<Sms>
    requires k < |q|
  {
    q[..k] + q[k + 1..]
  }

  function AfterReport(q: seq<Sms>, tag: Uuid): seq<Sms> {
    var k := TaggedAt(q, tag);
    if k.None? then q else Cut(q, k.value)
  }

  // ----- housekeeping -----

  datatype Fate = Waits | Expires | Fails

  /** An attempt whose report never came counts as over. */
  function Freed(cfg: Config, m: Sms, now: u64): Sms {
    if m.inFlight.Some? && (m.lastAttempt.None? || SatSub(now, m.lastAttempt.value) >= Ms(cfg.ackSeconds)) then
      m.(inFlight := None)
    else m
  }

  /** What a sweep decides about a message once its attempt was looked at. */
  function FateOf(cfg: Config, m: Sms, now: u64): Fate {
    if m.inFlight.Some? then Waits
    else if now >= m.letter.expiresAt then Expires
    else if cfg.maxAttempts > 0 && m.attempts >= cfg.maxAttempts then Fails
    else Waits
  }

  /** The messages of `q`, freed, that meet `fate` in a sweep. */
  function Swept(cfg: Config, q: seq<Sms>, now: u64, fate: Fate): seq<Sms> {
    if q == [] then []
    else
      var m := Freed(cfg, q[|q| - 1], now);
      Swept(cfg, q[..|q| - 1], now, fate) + if FateOf(cfg, m, now) == fate then [m] else []
  }

  lemma SweptNone(cfg: Config, q: seq<Sms>, now: u64)
    ensures forall fate: Fate :: Swept(cfg, q[..0], now, fate) == []
  {
  }

  lemma SweptOne(cfg: Config, q: seq<Sms>, now: u64, k: nat)
    requires k < |q|
    ensures var m := Freed(cfg, q[k], now);
      forall fate: Fate ::
        Swept(cfg, q[..k + 1], now, fate) ==
          Swept(cfg, q[..k], now, fate) + if FateOf(cfg, m, now) == fate then [m] else []
  {
    assert q[..k + 1][..k] == q[..k];
  }

  function WithId(q: seq<Sms>, id: Uuid, keep: bool): seq<Sms> {
    if q == [] then []
    else WithId(q[..|q| - 1], id, keep) + if (q[|q| - 1].letter.id == id) == keep then [q[|q| - 1]] else []
  }

  /** Destinations with a message waiting to be tried; expiry is not looked at. */
  function DueDestinations(cfg: Config, q: seq<Sms>, now: u64): set<Issi> {
    if !cfg.enabled then {}
    else set m | m in q && m.inFlight.None? && Rested(cfg, m, now) :: m.letter.destination
  }

  ghost predicate DistinctIds(q: seq<Sms>) {
    forall i, j :: 0 <= i < j < |q| ==> q[i].letter.id != q[j].letter.id
  }

  /** What happens in one round of a delivery pass: whether the destination is
      still registered, and whether its connection took the message. */
  datatype Round = Round(present: bool, now: u64, tag: Uuid, sent: bool)

  /** How a delivery pass ends: the queue, what was tried, and whether it
      stopped because the destination went away. */
  datatype Outcome = Outcome(queue: seq<Sms>, tried: seq<Sms>, cut: bool)

  /** Number of messages no attempt is under way for. */
  function Waiting(q: seq<Sms>): nat {
    if q == [] then 0 else Waiting(q[..|q| - 1]) + if q[|q| - 1].inFlight.None? then 1 else 0
  }

  lemma {:induction false} WaitingLess(q: seq<Sms>, k: nat, m: Sms)
    requires k < |q| && q[k].inFlight.None? && m.inFlight.Some?
    ensures Waiting(q[k := m]) == Waiting(q) - 1
  {
    if k < |q| - 1 {
      WaitingLess(q[..|q| - 1], k, m);
      assert q[k := m][..|q| - 1] == q[..|q| - 1][k := m];
    } else {
      assert q[k := m][..|q| - 1] == q[..|q| - 1];
    }
  }

  /** A delivery pass from its `n`-th round on. */
  function Pass(cfg: Config, q: seq<Sms>, issi: Issi, force: bool, world: nat -> Round, n: nat): Outcome
    decreases Waiting(q)
  {
    var r := world(n);
    var k := Pick(cfg, q, issi, force, r.now);
    if !r.present then Outcome(q, [], true)
    else if !cfg.enabled || k.None? then Outcome(q, [], false)
    else
      var q' := AfterTake(cfg, q, issi, force, r.now, r.tag);
      WaitingLess(q, k.value, q'[k.value]);
      if !r.sent then Outcome(AfterRelease(q', r.tag), [q'[k.value]], true)
      else
        var rest := Pass(cfg, q', issi, force, world, n + 1);
        rest.(tried := [q'[k.value]] + rest.tried)
  }

  class SmsCenter {
    const cfg: Config
    var messages: seq<Sms>
    /** Grows with every change, so that a standby knows when to copy the queue. */
    var revision: nat

    constructor (cfg: Config)
      ensures this.cfg == cfg && messages == []
    {
      this.cfg := cfg;
      messages, revision := [], 1;
    }

    method Store(source: Issi, destination: Issi, lengthBits: u16, data: Bytes, now: u64,
                 id: Uuid) returns (outcome: StoreOutcome)
      modifies this
      ensures outcome == StoreResult(cfg, old(messages), source, destination, lengthBits, data, now, id)
      ensures messages == AfterStore(old(messages), outcome)
      ensures outcome.Stored? ==>
        && messages == old(messages) + [outcome.m]
        && outcome.m.letter.id == id && outcome.m.letter.source == source && outcome.m.letter.destination == destination
        && outcome.m.letter.lengthBits == lengthBits && outcome.m.letter.data == data
        && outcome.m.letter.storedAt == now
        && (outcome.m.letter.expiresAt ==
              if now + 1000 * cfg.ttlSeconds <= U64_MAX then now + 1000 * cfg.ttlSeconds else U64_MAX)
        && outcome.m.attempts == 0 && outcome.m.lastAttempt.None? && outcome.m.inFlight.None?
      ensures revision == old(revision) + if messages != old(messages) then 1 else 0
    {
      if !cfg.enabled || data == [] || data[0] in cfg.excluded || (lengthBits + 7) / 8 > |data| {
        return Skipped;
      }
      var original := Original(messages, source, destination, data, now);
      if original.Some? {
        return Duplicate(messages[original.value]);
      }
      if CountFor(messages, destination) >= cfg.maxPerDestination || |messages| >= cfg.maxTotal {
        return QueueFull;
      }
      var m := Fresh(cfg, source, destination, lengthBits, data, now, id);
      messages, revision := messages + [m], revision + 1;
      return Stored(m);
    }

    method TakeNextDue(issi: Issi, force: bool, now: u64, tag: Uuid) returns (taken: Option<Sms>)
      modifies this
      ensures messages == AfterTake(cfg, old(messages), issi, force, now, tag)
      ensures var k := Pick(cfg, old(messages), issi, force, now);
        taken == if cfg.enabled && k.Some? then Some(messages[k.value]) else None
      ensures revision == old(revision) + if messages != old(messages) then 1 else 0
    {
      if !cfg.enabled {
        return None;
      }
      var k := Pick(cfg, messages, issi, force, now);
      if k.None? {
        return None;
      }
      var m := Attempted(messages[k.value], now, tag);
      messages, revision := messages[k.value := m], revision + 1;
      return Some(m);
    }

    method Release(tag: Uuid)
      modifies this
      ensures messages == AfterRelease(old(messages), tag)
      ensures revision == old(revision) + if messages != old(messages) then 1 else 0
    {
      var k := TaggedAt(messages, tag);
      if k.Some? {
        messages, revision := messages[k.value := Released(messages[k.value])], revision + 1;
      }
    }

    method OnReport(tag: Uuid) returns (done: Option<Sms>)
      modifies this
      ensures messages == AfterReport(old(messages), tag)
      ensures var k := TaggedAt(old(messages), tag); done == if k.Some? then Some(old(messages)[k.value]) else None
      ensures revision == old(revision) + if messages != old(messages) then 1 else 0
    {
      var k := TaggedAt(messages, tag);
      if k.None? {
        return None;
      }
      done := Some(messages[k.value]);
      assert |Cut(messages, k.value)| < |messages|;
      messages, revision := Cut(messages, k.value), revision + 1;
    }

    method Sweep(now: u64) returns (expired: seq<Sms>, failed: seq<Sms>)
      modifies this
      ensures cfg.enabled ==>
        && messages == Swept(cfg, old(messages), now, Waits)
        && expired == Swept(cfg, old(messages), now, Expires)
        && failed == Swept(cfg, old(messages), now, Fails)
      ensures !cfg.enabled ==> messages == old(messages) && expired == failed == []
      ensures revision == old(revision) + if messages != old(messages) then 1 else 0
    {
      hide Swept;
      expired, failed := [], [];
      if !cfg.enabled {
        return;
      }
      SweptNone(cfg, messages, now);
      var (keep, changed, k) := ([], false, 0);
      while k < |messages|
        invariant 0 <= k <= |messages|
        invariant keep == Swept(cfg, messages[..k], now, Waits)
        invariant expired == Swept(cfg, messages[..k], now, Expires)
        invariant failed == Swept(cfg, messages[..k], now, Fails)
        invariant changed <==> keep != messages[..k]
        invariant |keep| <= k
        invariant messages == old(messages) && revision == old(revision)
      {
        var m := messages[k];
        SweptOne(cfg, messages, now, k);
        if m.inFlight.Some? && (m.lastAttempt.None? || SatSub(now, m.lastAttempt.value) >= Ms(cfg.ackSeconds)) {
          m := m.(inFlight := None);
          changed := true;
        }
        if m.inFlight.None? && now >= m.letter.expiresAt {
          expired := expired + [m];
          changed := true;
        } else if m.inFlight.None? && cfg.maxAttempts > 0 && m.attempts >= cfg.maxAttempts {
          failed := failed + [m];
          changed := true;
        } else {
          keep := keep + [m];
        }
        k := k + 1;
      }
      assert messages[..k] == messages;
      messages := keep;
      if changed {
        revision := revision + 1;
      }
    }

    method Delete(id: Uuid) returns (removed: bool)
      modifies this
      ensures messages == WithId(old(messages), id, false)
      ensures removed <==> exists m :: m in old(messages) && m.letter.id == id
      ensures revision == old(revision) + if messages != old(messages) then 1 else 0
    {
      var rest := WithId(messages, id, false);
      removed := |rest| != |messages|;
      WithIdSize(messages, id);
      messages := rest;
      if removed {
        revision := revision + 1;
      }
    }

    /** Delivers what waits for `issi`, one message at a time. */
    method DeliverPending(issi: Issi, force: bool, world: nat -> Round) returns (tried: seq<Sms>, cut: bool)
      modifies this
      ensures Outcome(messages, tried, cut) == Pass(cfg, old(messages), issi, force, world, 0)
    {
      hide Pick, AfterRelease, AfterTake, Waiting, Pass, Joined;
      tried, cut := [], false;
      JoinedNone(Pass(cfg, messages, issi, force, world, 0));
      var n := 0;
      while true
        invariant Joined(tried, Pass(cfg, messages, issi, force, world, n)) ==
          Pass(cfg, old(messages), issi, force, world, 0)
        decreases Waiting(messages)
      {
        var r := world(n);
        PassStep(cfg, messages, issi, force, world, n);
        JoinedMore(tried, [], messages, true);
        JoinedMore(tried, [], messages, false);
        assert tried + [] == tried;
        if !r.present {
          return tried, true;
        }
        ghost var k := Pick(cfg, messages, issi, force, r.now);
        var taken := TakeNextDue(issi, force, r.now, r.tag);
        if taken.None? {
          return;
        }
        JoinedMore(tried, [taken.value], AfterRelease(messages, r.tag), true);
        JoinedTwice(tried, [taken.value], Pass(cfg, messages, issi, force, world, n + 1));
        tried := tried + [taken.value];
        if !r.sent {
          Release(r.tag);
          return tried, true;
        }
        n := n + 1;
      }
    }
  }

  function Joined(tried: seq<Sms>, rest: Outcome): Outcome {
    rest.(tried := tried + rest.tried)
  }

  lemma JoinedNone(o: Outcome)
    ensures Joined([], o) == o
  {
  }

  lemma JoinedMore(a: seq<Sms>, b: seq<Sms>, q: seq<Sms>, cut: bool)
    ensures Joined(a, Outcome(q, b, cut)) == Outcome(q, a + b, cut)
  {
  }

  lemma JoinedTwice(a: seq<Sms>, b: seq<Sms>, o: Outcome)
    ensures Joined(a, Joined(b, o)) == Joined(a + b, o)
  {
  }

  /** The first round of a pass and what is left after it. */
  lemma PassStep(cfg: Config, q: seq<Sms>, issi: Issi, force: bool, world: nat -> Round, n: nat)
    ensures var (r, pass) := (world(n), Pass(cfg, q, issi, force, world, n));
      var k := Pick(cfg, q, issi, force, r.now);
      var q' := AfterTake(cfg, q, issi, force, r.now, r.tag);
      if !r.present then pass == Outcome(q, [], true)
      else if !cfg.enabled || k.None? then pass == Outcome(q, [], false) && q' == q
      else
        && k.value < |q| && |q'| == |q| && Waiting(q') < Waiting(q)
        && if r.sent then pass == Joined([q'[k.value]], Pass(cfg, q', issi, force, world, n + 1))
           else pass == Outcome(AfterRelease(q', r.tag), [q'[k.value]], true)
  {
    var r := world(n);
    var k := Pick(cfg, q, issi, force, r.now);
    if cfg.enabled && k.Some? {
      var q' := AfterTake(cfg, q, issi, force, r.now, r.tag);
      WaitingLess(q, k.value, q'[k.value]);
    }
  }

  lemma {:induction false} WithIdSize(q: seq<Sms>, id: Uuid)
    ensures |WithId(q, id, false)| <= |q|
    ensures |WithId(q, id, false)| != |q| <==> exists m :: m in q && m.letter.id == id
    ensures |WithId(q, id, false)| == |q| ==> WithId(q, id, false) == q
  {
    if q != [] {
      WithIdSize(q[..|q| - 1], id);
      assert q == q[..|q| - 1] + [q[|q| - 1]];
    }
  }
}
