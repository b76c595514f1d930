/** What each operation of the SMS Center does to a message, in plain numbers,
    and how long a message is kept over whole runs. */
module SmsRules {
  import opened FedTypes
  import opened SmsQueue
  import opened SmsLaws

  /** At least `seconds` have passed since `t`, by a clock that never runs past
      its end and takes the future for the present. */
  predicate Passed(now: u64, t: u64, seconds: u64) {
    now - t >= 1000 * seconds || seconds == 0 || (now == U64_MAX && t == 0)
  }

  // ----- storing -----

  /** When a message stored at `at` expires. */
  function Deadline(cfg: Config, at: u64): u64 {
    if at + 1000 * cfg.ttlSeconds <= U64_MAX then at + 1000 * cfg.ttlSeconds else U64_MAX
  }

  ghost predicate Repeats(q: seq<Sms>, k: nat, source: Issi, destination: Issi, data: Bytes, now: u64)
    requires k < |q|
  {
    var l := q[k].letter;
    l.source == source && l.destination == destination && l.data == data && now < l.storedAt + 60_000
  }

  /** Places in the queue that are taken by messages for `destination`. */
  ghost function PlacesOf(q: seq<Sms>, destination: Issi): set<nat> {
    set k: nat | k < |q| && q[k].letter.destination == destination
  }

  lemma {:induction false} CountIsPlaces(q: seq<Sms>, destination: Issi)
    ensures CountFor(q, destination) == |PlacesOf(q, destination)|
  {
    if q != [] {
      var (init, last) := (q[..|q| - 1], |q| - 1);
      CountIsPlaces(init, destination);
      var rest := PlacesOf(init, destination);
      assert PlacesOf(q, destination) == if q[last].letter.destination == destination then rest + {last} else rest;
    }
  }

  /** Stored is what has a payload that is not excluded and long enough, is no
      copy of one stored within the last minute, and has room. */
  lemma StoreCases(cfg: Config, q: seq<Sms>, source: Issi, destination: Issi, bits: u16, data: Bytes,
                   now: u64, id: Uuid)
    ensures var o := StoreResult(cfg, q, source, destination, bits, data, now, id);
      var fits := cfg.enabled && |data| > 0 && data[0] !in cfg.excluded && bits <= 8 * |data|;
      var copied := exists k: nat :: k < |q| && Repeats(q, k, source, destination, data, now);
      var full := |PlacesOf(q, destination)| >= cfg.maxPerDestination || |q| >= cfg.maxTotal;
      && (o.Skipped? <==> !fits) && (o.Duplicate? <==> fits && copied)
      && (o.QueueFull? <==> fits && !copied && full) && (o.Stored? <==> fits && !copied && !full)
      && AfterStore(q, o) == if o.Stored? then q + [o.m] else q
  {
    hide CountFor, Fresh, Original;
    CountIsPlaces(q, destination);
    var k := Original(q, source, destination, data, now);
    if k.Some? {
      assert Repeats(q, k.value, source, destination, data, now);
    } else {
      forall j: nat | j < |q| ensures !Repeats(q, j, source, destination, data, now) { assert q[j] in q; }
    }
  }

  /** A repeated text is answered with the first message it repeats. */
  lemma RepeatsTheFirst(cfg: Config, q: seq<Sms>, source: Issi, destination: Issi, bits: u16, data: Bytes,
                        now: u64, id: Uuid)
    requires StoreResult(cfg, q, source, destination, bits, data, now, id).Duplicate?
    ensures exists k: nat ::
      && k < |q| && Repeats(q, k, source, destination, data, now)
      && StoreResult(cfg, q, source, destination, bits, data, now, id).m == q[k]
      && forall j: nat :: j < k ==> !Repeats(q, j, source, destination, data, now)
  {
    hide Original;
    var k := Original(q, source, destination, data, now).value;
    assert Repeats(q, k, source, destination, data, now);
  }

  /** It is kept as it came, never tried, for the configured time. */
  lemma StoredAsGiven(cfg: Config, q: seq<Sms>, source: Issi, destination: Issi, bits: u16, data: Bytes,
                      now: u64, id: Uuid)
    requires StoreResult(cfg, q, source, destination, bits, data, now, id).Stored?
    ensures StoreResult(cfg, q, source, destination, bits, data, now, id).m ==
      Sms(Letter(id, source, destination, bits, data, now, Deadline(cfg, now)), 0, None, None)
  {
    hide Original;
  }

  // ----- attempts -----

  predicate MayGo(cfg: Config, m: Sms, issi: Issi, force: bool, now: u64) {
    && m.letter.destination == issi && m.inFlight.None? && now < m.letter.expiresAt
    && (force || m.lastAttempt.None? || Passed(now, m.lastAttempt.value, cfg.retrySeconds))
  }

  /** Taken is the oldest message that may go, the first of equals; it is then
      one attempt older and in flight, and nothing else changed. */
  lemma TakeRule(cfg: Config, q: seq<Sms>, issi: Issi, force: bool, now: u64, tag: Uuid)
    ensures var q' := AfterTake(cfg, q, issi, force, now, tag);
      if !cfg.enabled || forall m :: m in q ==> !MayGo(cfg, m, issi, force, now) then q' == q
      else exists k: nat ::
        && k < |q| && MayGo(cfg, q[k], issi, force, now)
        && q' == q[k := Sms(q[k].letter, q[k].attempts + 1, Some(now), Some(tag))]
        && forall j: nat :: j < |q| && MayGo(cfg, q[j], issi, force, now) ==>
             if j < k then q[k].letter.storedAt < q[j].letter.storedAt else q[k].letter.storedAt <= q[j].letter.storedAt
  {
    hide Pick, Takeable, MayGo;
    forall m ensures MayGo(cfg, m, issi, force, now) <==> Takeable(cfg, m, issi, force, now) {
      MayGoIff(cfg, m, issi, force, now);
    }
    var k := Pick(cfg, q, issi, force, now);
    if k.Some? { assert q[k.value] in q; }
  }

  lemma MayGoIff(cfg: Config, m: Sms, issi: Issi, force: bool, now: u64)
    ensures MayGo(cfg, m, issi, force, now) <==> Takeable(cfg, m, issi, force, now)
  {
  }

  /** `k` is the first message whose attempt is `tag`. */
  ghost predicate FirstTagged(q: seq<Sms>, tag: Uuid, k: nat) {
    k < |q| && q[k].inFlight == Some(tag) && forall j: nat :: j < k ==> q[j].inFlight != Some(tag)
  }

  /** An attempt given back waits again, counted one less. */
  lemma ReleaseRule(q: seq<Sms>, tag: Uuid)
    ensures var q' := AfterRelease(q, tag);
      if forall m :: m in q ==> m.inFlight != Some(tag) then q' == q
      else exists k: nat ::
        && FirstTagged(q, tag, k)
        && q' == q[k := Sms(q[k].letter, if q[k].attempts > 0 then q[k].attempts - 1 else 0, q[k].lastAttempt, None)]
  {
    hide TaggedAt;
    var k := TaggedAt(q, tag);
    if k.Some? { assert FirstTagged(q, tag, k.value) && q[k.value] in q; }
  }

  /** An acknowledged message leaves the queue, the others keep their order. */
  lemma ReportRule(q: seq<Sms>, tag: Uuid)
    ensures var q' := AfterReport(q, tag);
      if forall m :: m in q ==> m.inFlight != Some(tag) then q' == q
      else exists k: nat :: FirstTagged(q, tag, k) && q' == q[..k] + q[k + 1..]
  {
    hide TaggedAt;
    var k := TaggedAt(q, tag);
    if k.Some? { assert FirstTagged(q, tag, k.value) && q[k.value] in q; }
  }

  // ----- housekeeping -----

  /** A sweep looks at one message after the other. */
  lemma {:induction false} SweepJoins(cfg: Config, a: seq<Sms>, b: seq<Sms>, now: u64, fate: Fate)
    ensures Swept(cfg, a + b, now, fate) == Swept(cfg, a, now, fate) + Swept(cfg, b, now, fate)
    decreases |b|
  {
    if b == [] {
      assert a + b == a;
    } else {
      assert (a + b)[..|a + b| - 1] == a + b[..|b| - 1];
      SweepJoins(cfg, a, b[..|b| - 1], now, fate);
    }
  }

  /** An attempt whose report is overdue is given up first. Then an attempt under
      way is waited for; what is past its time expires; what was tried as often
      as allowed fails; the rest stays. */
  lemma SweepRule(cfg: Config, m: Sms, now: u64)
    ensures var overdue := m.lastAttempt.None? || Passed(now, m.lastAttempt.value, cfg.ackSeconds);
      var n := if overdue then m.(inFlight := None) else m;
      var late := n.inFlight.None? && now >= m.letter.expiresAt;
      var spent := n.inFlight.None? && now < m.letter.expiresAt && 0 < cfg.maxAttempts <= m.attempts;
      && Swept(cfg, [m], now, Expires) == (if late then [n] else [])
      && Swept(cfg, [m], now, Fails) == (if spent then [n] else [])
      && Swept(cfg, [m], now, Waits) == (if late || spent then [] else [n])
  {
    assert [m][..0] == [];
    assert forall fate: Fate :: Swept(cfg, [], now, fate) == [];
  }

  lemma {:induction false} DeleteJoins(a: seq<Sms>, b: seq<Sms>, id: Uuid, keep: bool)
    ensures WithId(a + b, id, keep) == WithId(a, id, keep) + WithId(b, id, keep)
    decreases |b|
  {
    if b == [] {
      assert a + b == a;
    } else {
      assert (a + b)[..|a + b| - 1] == a + b[..|b| - 1];
      DeleteJoins(a, b[..|b| - 1], id, keep);
    }
  }

  /** Deleting takes exactly the messages of that id. */
  lemma DeleteRule(m: Sms, id: Uuid)
    ensures WithId([m], id, false) == if m.letter.id == id then [] else [m]
    ensures WithId([m], id, true) == if m.letter.id == id then [m] else []
  {
    assert [m][..0] == [];
    assert forall keep :: WithId([], id, keep) == [];
  }

  /** Due is a destination of a message that waits and was not tried lately. */
  lemma DueRule(cfg: Config, q: seq<Sms>, now: u64, d: Issi)
    ensures d in DueDestinations(cfg, q, now) <==>
      cfg.enabled && exists m ::
        && m in q && m.letter.destination == d && m.inFlight.None?
        && (m.lastAttempt.None? || Passed(now, m.lastAttempt.value, cfg.retrySeconds))
  {
  }

  // ----- delivery rounds -----

  /** A round of a delivery pass: cut off without the destination, over when
      nothing may go; what could not be sent is given back and cuts the pass off. */
  lemma PassRule(cfg: Config, q: seq<Sms>, issi: Issi, force: bool, world: nat -> Round, n: nat)
    ensures var (o, r) := (Pass(cfg, q, issi, force, world, n), world(n));
      if !r.present then o == Outcome(q, [], true)
      else if !cfg.enabled || forall m :: m in q ==> !MayGo(cfg, m, issi, force, r.now) then o == Outcome(q, [], false)
      else exists k: nat ::
        && k < |q| && MayGo(cfg, q[k], issi, force, r.now)
        && var m := Sms(q[k].letter, q[k].attempts + 1, Some(r.now), Some(r.tag));
        && o.tried != [] && o.tried[0] == m
        && (!r.sent ==> o.tried == [m] && o.cut && o.queue == AfterRelease(q[k := m], r.tag))
        && (r.sent ==> Outcome(o.queue, o.tried[1..], o.cut) == Pass(cfg, q[k := m], issi, force, world, n + 1))
  {
    hide Pick, Takeable, MayGo, AfterRelease, Waiting;
    var r := world(n);
    forall m ensures MayGo(cfg, m, issi, force, r.now) <==> Takeable(cfg, m, issi, force, r.now) {
      MayGoIff(cfg, m, issi, force, r.now);
    }
    var k := Pick(cfg, q, issi, force, r.now);
    if k.Some? { assert q[k.value] in q; }
  }

  // ----- steps of a run -----

  /** The queue after each step of a run is the one that operation leaves. */
  lemma StepsAreOperations(cfg: Config, b: Book, e: Event)
    ensures var q := Next(cfg, b, e).queue;
      && (e.Store? ==> q == AfterStore(b.queue, StoreResult(cfg, b.queue, e.source, e.destination, e.lengthBits,
                                                            e.data, e.now, e.id)))
      && (e.Take? ==> q == AfterTake(cfg, b.queue, e.issi, e.force, e.now, e.tag))
      && (e.Release? ==> q == AfterRelease(b.queue, e.tag)) && (e.Report? ==> q == AfterReport(b.queue, e.tag))
      && (e.Sweep? ==> q == if cfg.enabled then Swept(cfg, b.queue, e.now, Waits) else b.queue)
      && (e.Delete? ==> q == WithId(b.queue, e.id, false))
  {
  }

  // ----- how long a message is kept, over whole runs -----

  /** Whatever was stored has its deadline from the time it was stored. */
  ghost predicate Dated(cfg: Config, b: Book) {
    forall l :: l in b.stored ==> l.expiresAt == Deadline(cfg, l.storedAt)
  }

  lemma DatedStep(cfg: Config, b: Book, e: Event)
    requires Dated(cfg, b)
    ensures Dated(cfg, Next(cfg, b, e))
  {
    hide Swept, WithId, Original, CountFor, Deadline;
    if e.Store? && StoreResult(cfg, b.queue, e.source, e.destination, e.lengthBits, e.data, e.now, e.id).Stored? {
      StoredAsGiven(cfg, b.queue, e.source, e.destination, e.lengthBits, e.data, e.now, e.id);
    }
  }

  lemma {:induction false} DatedRun(cfg: Config, b: Book, es: seq<Event>)
    requires Dated(cfg, b) && Conserved(b) && Legal(cfg, b, es)
    ensures Dated(cfg, After(cfg, b, es)) && Conserved(After(cfg, b, es))
    decreases |es|
  {
    hide Next, Dated, Conserved;
    if es != [] {
      DatedStep(cfg, b, es[0]);
      NextConserves(cfg, b, es[0]);
      DatedRun(cfg, Next(cfg, b, es[0]), es[1..]);
    }
  }

  lemma QueuedIsDated(cfg: Config, b: Book, m: Sms)
    requires Dated(cfg, b) && Conserved(b) && m in b.queue
    ensures m.letter.expiresAt == Deadline(cfg, m.letter.storedAt)
  {
    hide Deadline;
    InExactlyOnePlace(b);
    assert m in All(b);
  }

  /** In every run: nothing expires before its time was up, or the clock's, and
      nothing is taken once it was. */
  lemma KeptForItsTime(cfg: Config, es: seq<Event>, now: u64, issi: Issi, force: bool, m: Sms)
    requires Legal(cfg, Empty, es)
    ensures var q := After(cfg, Empty, es).queue;
      var at := m.letter.storedAt;
      && (m in Swept(cfg, q, now, Expires) ==> now >= at + 1000 * cfg.ttlSeconds || now == U64_MAX)
      && (Pick(cfg, q, issi, force, now).Some? && m == q[Pick(cfg, q, issi, force, now).value] ==>
            now < at + 1000 * cfg.ttlSeconds)
  {
    hide Swept, Pick, After, Legal, Next, Conserved;
    EmptyDated(cfg);
    DatedRun(cfg, Empty, es);
    var b := After(cfg, Empty, es);
    if m in Swept(cfg, b.queue, now, Expires) {
      var n := SweptFrom(cfg, b.queue, now, Expires, m);
      QueuedIsDated(cfg, b, n);
    }
    var k := Pick(cfg, b.queue, issi, force, now);
    if k.Some? && m == b.queue[k.value] { QueuedIsDated(cfg, b, m); }
  }

  lemma EmptyDated(cfg: Config)
    ensures Dated(cfg, Empty) && Conserved(Empty)
  {
    assert Letters(All(Empty)) == [];
  }

  lemma {:induction false} SweptFrom(cfg: Config, q: seq<Sms>, now: u64, fate: Fate, m: Sms) returns (n: Sms)
    requires m in Swept(cfg, q, now, fate)
    ensures n in q && m == Freed(cfg, n, now) && FateOf(cfg, m, now) == fate
  {
    var init := q[..|q| - 1];
    if m in Swept(cfg, init, now, fate) {
      n := SweptFrom(cfg, init, now, fate, m);
    } else {
      n := q[|q| - 1];
    }
  }
}
