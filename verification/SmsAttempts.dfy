/** Attempts: how often a message is tried, what its reports do, and which
    destinations a sweep finds due. */
module SmsAttempts {
  import opened FedTypes
  import opened SmsQueue
  import opened SmsLaws

  // ----- the attempt cap -----

  /** Where a message may stand: under way after at least one attempt, or
      waiting with an attempt left. */
  ghost predicate CapOk(cfg: Config, m: Sms) {
    && (m.inFlight.Some? ==> m.attempts >= 1 && m.lastAttempt.Some?)
    && (cfg.maxAttempts > 0 ==> m.attempts <= cfg.maxAttempts && (m.inFlight.None? ==> m.attempts < cfg.maxAttempts))
  }

  ghost predicate Capped(cfg: Config, q: seq<Sms>) {
    forall m :: m in q ==> CapOk(cfg, m)
  }

  lemma {:induction false} SweptFrom(cfg: Config, q: seq<Sms>, now: u64, fate: Fate, m: Sms)
    requires m in Swept(cfg, q, now, fate)
    ensures exists n :: n in q && m == Freed(cfg, n, now) && FateOf(cfg, m, now) == fate
  {
    var (init, y) := (q[..|q| - 1], q[|q| - 1]);
    if m in Swept(cfg, init, now, fate) {
      SweptFrom(cfg, init, now, fate, m);
    }
  }

  lemma {:induction false} WithIdFrom(q: seq<Sms>, id: Uuid, keep: bool, m: Sms)
    requires m in WithId(q, id, keep)
    ensures m in q && (m.letter.id == id) == keep
  {
    var init := q[..|q| - 1];
    if m in WithId(init, id, keep) {
      WithIdFrom(init, id, keep, m);
    }
  }

  /** The cap holds although taking a message never looks at it: a waiting
      message below it may be tried, and a sweep leaves none waiting at it. */
  lemma NextCapped(cfg: Config, b: Book, e: Event)
    requires Capped(cfg, b.queue)
    ensures Capped(cfg, Next(cfg, b, e).queue)
  {
    hide Pick, TaggedAt, Swept, WithId, Original, Cut, CountFor;
    forall m | m in Next(cfg, b, e).queue ensures CapOk(cfg, m) {
      match e
      case Store(_, _, _, _, _, _) =>
      case Take(issi, force, now, _) =>
        var k := Pick(cfg, b.queue, issi, force, now);
        assert k.Some? ==> CapOk(cfg, b.queue[k.value]);
      case Release(tag) =>
        var k := TaggedAt(b.queue, tag);
        assert k.Some? ==> CapOk(cfg, b.queue[k.value]);
      case Report(tag) =>
        var k := TaggedAt(b.queue, tag);
        if k.Some? { CutFrom(b.queue, k.value, m); }
      case Sweep(now) =>
        if cfg.enabled { SweptFrom(cfg, b.queue, now, Waits, m); }
      case Delete(id) =>
        WithIdFrom(b.queue, id, false, m);
    }
  }

  // ----- what an attempt count means -----

  /** The attempts made for `id` and not taken back. */
  ghost function Tries(b: Book, id: Uuid): set<Uuid> {
    set t | t in b.tags && b.tags[t] == id && t !in b.released
  }

  /** A message counts its attempts, and its attempt under way is one of them. */
  ghost predicate TriesOk(b: Book, m: Sms) {
    m.attempts == |Tries(b, m.letter.id)| && (m.inFlight.Some? ==> m.inFlight.value in Tries(b, m.letter.id))
  }

  ghost predicate AttemptsOk(b: Book) {
    && Conserved(b)
    && (forall t :: t in b.tags ==> exists l :: l in b.stored && l.id == b.tags[t])
    && b.released <= b.tags.Keys
    && forall m :: m in All(b) ==> TriesOk(b, m)
  }

  ghost predicate Comes(cfg: Config, b: Book, m: Sms) {
    exists n :: n in All(b) && m.letter == n.letter && m.attempts == n.attempts &&
        (m.inFlight == None || m.inFlight == n.inFlight)
  }

  lemma CutFrom(q: seq<Sms>, k: nat, m: Sms)
    requires k < |q| && m in Cut(q, k)
    ensures m in q
  {
  }

  /** Only taking and releasing change an attempt count, and only of one message. */
  lemma OthersCome(cfg: Config, b: Book, e: Event, m: Sms)
    requires m in All(Next(cfg, b, e)) && !e.Store? && !e.Take? && !e.Release?
    ensures Comes(cfg, b, m)
  {
    hide Pick, TaggedAt, Swept, WithId, Cut;
    match e
    case Report(tag) =>
      var k := TaggedAt(b.queue, tag);
      if k.Some? && m in Cut(b.queue, k.value) { CutFrom(b.queue, k.value, m); }
      assert m in All(b);
    case Sweep(now) =>
      if m !in All(b) {
        var fate :| m in Swept(cfg, b.queue, now, fate);
        SweptFrom(cfg, b.queue, now, fate, m);
        var n :| n in b.queue && m == Freed(cfg, n, now);
        assert n in All(b);
      }
    case Delete(id) =>
      if m !in All(b) {
        var keep :| m in WithId(b.queue, id, keep);
        WithIdFrom(b.queue, id, keep, m);
      }
      assert m in All(b);
  }

  lemma AllAt(b: Book, k: nat, m: Sms)
    requires k < |b.queue|
    ensures |All(b)| >= |b.queue| && All(b)[k] == b.queue[k] && All(b.(queue := b.queue[k := m])) == All(b)[k := m]
  {
  }

  /** If one message changed, and only its own attempts, every count is right. */
  lemma OneChanges(b: Book, b': Book, k: nat, x: Sms)
    requires (forall m :: m in All(b) ==> TriesOk(b, m)) && DistinctIds(All(b))
    requires k < |b.queue| && All(b') == All(b)[k := x] && x.letter == b.queue[k].letter
    requires TriesOk(b', x) && forall id :: id != x.letter.id ==> Tries(b', id) == Tries(b, id)
    ensures forall m :: m in All(b') ==> TriesOk(b', m)
  {
    hide All, Tries;
    AllAt(b, k, x);
    forall m | m in All(b') ensures TriesOk(b', m) {
      var j :| 0 <= j < |All(b')| && All(b')[j] == m;
      if j != k {
        assert All(b)[j] in All(b);
      }
    }
  }

  lemma PickWaits(cfg: Config, q: seq<Sms>, issi: Issi, force: bool, now: u64)
    ensures var k := Pick(cfg, q, issi, force, now); k.Some? ==> k.value < |q| && q[k.value].inFlight.None?
  {
  }

  lemma TriesPlus(b: Book, b': Book, id: Uuid, tag: Uuid)
    requires b.released <= b.tags.Keys && tag !in b.tags && b'.tags == b.tags[tag := id] && b'.released == b.released
    ensures Tries(b', id) == Tries(b, id) + {tag} && tag !in Tries(b, id)
    ensures forall other :: other != id ==> Tries(b', other) == Tries(b, other)
  {
  }

  lemma TakeAttempts(cfg: Config, b: Book, e: Event)
    requires AttemptsOk(b) && e.Take? && Enabled(b, e)
    ensures forall m :: m in All(Next(cfg, b, e)) ==> TriesOk(Next(cfg, b, e), m)
  {
    hide Conserved, All, Pick, Tries, IsPick;
    var b' := Next(cfg, b, e);
    var k := Pick(cfg, b.queue, e.issi, e.force, e.now);
    if cfg.enabled && k.Some? {
      PickWaits(cfg, b.queue, e.issi, e.force, e.now);
      var (n, x) := (b.queue[k.value], Attempted(b.queue[k.value], e.now, e.tag));
      AllAt(b, k.value, x);
      AllIgnores(b, b');
      InExactlyOnePlace(b);
      TriesPlus(b, b', n.letter.id, e.tag);
      assert n in All(b);
      OneChanges(b, b', k.value, x);
    } else {
      assert b' == b;
    }
  }

  lemma AllIgnores(b: Book, b': Book)
    requires b'.delivered == b.delivered && b'.expired == b.expired && b'.failed == b.failed && b'.deleted == b.deleted
    ensures All(b') == All(b.(queue := b'.queue))
  {
  }

  lemma ReleaseAttempts(cfg: Config, b: Book, e: Event)
    requires AttemptsOk(b) && e.Release?
    ensures forall m :: m in All(Next(cfg, b, e)) ==> TriesOk(Next(cfg, b, e), m)
  {
    hide Conserved, All, TaggedAt;
    var b' := Next(cfg, b, e);
    var k := TaggedAt(b.queue, e.tag);
    if k.Some? {
      var (n, x) := (b.queue[k.value], Released(b.queue[k.value]));
      AllAt(b, k.value, x);
      AllIgnores(b, b');
      InExactlyOnePlace(b);
      assert n in All(b) && e.tag in Tries(b, n.letter.id);
      assert Tries(b', n.letter.id) == Tries(b, n.letter.id) - {e.tag};
      OneChanges(b, b', k.value, x);
    } else {
      assert b' == b;
    }
  }

  lemma StoreAttempts(cfg: Config, b: Book, e: Event)
    requires AttemptsOk(b) && e.Store? && Enabled(b, e)
    ensures forall m :: m in All(Next(cfg, b, e)) ==> TriesOk(Next(cfg, b, e), m)
  {
    hide Conserved, Original, CountFor;
    var b' := Next(cfg, b, e);
    forall m | m in All(b') ensures TriesOk(b', m) {
      assert Tries(b', m.letter.id) == Tries(b, m.letter.id);
      if m !in All(b) {
        assert m.letter.id == e.id;
        assert Tries(b, e.id) == {};
      }
    }
  }

  lemma NextAttempts(cfg: Config, b: Book, e: Event)
    requires AttemptsOk(b) && Enabled(b, e)
    ensures AttemptsOk(Next(cfg, b, e))
  {
    hide Conserved, All, Pick, TaggedAt, Swept, WithId, Original, Cut, TriesOk, CountFor;
    var b' := Next(cfg, b, e);
    NextConserves(cfg, b, e);
    NextTags(cfg, b, e);
    if e.Store? {
      StoreAttempts(cfg, b, e);
    } else if e.Take? {
      TakeAttempts(cfg, b, e);
    } else if e.Release? {
      ReleaseAttempts(cfg, b, e);
    } else {
      forall m | m in All(b') ensures TriesOk(b', m) {
        OthersCome(cfg, b, e, m);
        TriesStay(cfg, b, b', m);
      }
    }
  }

  lemma TriesStay(cfg: Config, b: Book, b': Book, m: Sms)
    requires Comes(cfg, b, m) && b'.tags == b.tags && b'.released == b.released
    requires forall n :: n in All(b) ==> TriesOk(b, n)
    ensures TriesOk(b', m)
  {
    assert Tries(b', m.letter.id) == Tries(b, m.letter.id);
  }

  lemma NextTags(cfg: Config, b: Book, e: Event)
    requires AttemptsOk(b) && Enabled(b, e)
    ensures var b' := Next(cfg, b, e);
      (forall t :: t in b'.tags ==> exists l :: l in b'.stored && l.id == b'.tags[t]) && b'.released <= b'.tags.Keys
  {
    hide Swept, WithId, Cut, Pick, TaggedAt, Original, CountFor, Conserved, All, IsPick;
    var b' := Next(cfg, b, e);
    if e.Take? {
      var k := Pick(cfg, b.queue, e.issi, e.force, e.now);
      PickWaits(cfg, b.queue, e.issi, e.force, e.now);
      if k.Some? { QueuedStored(b, k.value); }
    } else if e.Release? {
      var k := TaggedAt(b.queue, e.tag);
      if k.Some? { QueuedStored(b, k.value); }
    }
    assert forall l :: l in b.stored ==> l in b'.stored;
  }

  lemma QueuedStored(b: Book, k: nat)
    requires Conserved(b) && k < |b.queue|
    ensures b.queue[k] in All(b) && b.queue[k].letter in b.stored
  {
    InExactlyOnePlace(b);
    assert b.queue[k] in All(b);
  }

  /** Messages given up on had every attempt they were due; expired ones are. */
  lemma SweepGivesUpRightly(cfg: Config, q: seq<Sms>, now: u64, m: Sms)
    requires Capped(cfg, q)
    ensures m in Swept(cfg, q, now, Fails) ==>
      cfg.maxAttempts > 0 && m.attempts == cfg.maxAttempts && now < m.letter.expiresAt
    ensures m in Swept(cfg, q, now, Expires) ==> now >= m.letter.expiresAt
    ensures m in Swept(cfg, q, now, Waits) && now >= m.letter.expiresAt ==>
      m.inFlight.Some? && m.lastAttempt.Some? && SatSub(now, m.lastAttempt.value) < Ms(cfg.ackSeconds)
  {
    forall fate: Fate | m in Swept(cfg, q, now, fate)
      ensures exists n :: n in q && m == Freed(cfg, n, now) && FateOf(cfg, m, now) == fate
    {
      SweptFrom(cfg, q, now, fate, m);
    }
  }

  /** From an empty queue no message is ever tried more often than allowed,
      taken-back attempts aside, and those waiting can still be tried. */
  lemma {:induction false} AlwaysCapped(cfg: Config, b: Book, es: seq<Event>)
    requires Legal(cfg, b, es) && AttemptsOk(b) && Capped(cfg, b.queue)
    ensures AttemptsOk(After(cfg, b, es)) && Capped(cfg, After(cfg, b, es).queue)
    decreases es
  {
    hide Next, AttemptsOk, Capped;
    if es != [] {
      NextAttempts(cfg, b, es[0]);
      NextCapped(cfg, b, es[0]);
      AlwaysCapped(cfg, Next(cfg, b, es[0]), es[1..]);
    }
  }

  lemma RunFromEmpty(cfg: Config, es: seq<Event>, m: Sms)
    requires Legal(cfg, Empty, es) && m in After(cfg, Empty, es).queue && cfg.maxAttempts > 0
    ensures var end := After(cfg, Empty, es);
      && |Tries(end, m.letter.id)| <= cfg.maxAttempts
      && (m.inFlight.None? ==> |Tries(end, m.letter.id)| < cfg.maxAttempts)
      && (forall n :: n in end.queue && n.letter.id == m.letter.id ==> n == m)
  {
    hide After, Legal, Conserved, Tries;
    var end := After(cfg, Empty, es);
    StartsSound(cfg);
    AlwaysCapped(cfg, Empty, es);
    assert m in All(end);
    assert TriesOk(end, m) && CapOk(cfg, m);
    forall n | n in end.queue && n.letter.id == m.letter.id ensures n == m { OneQueued(end, m, n); }
  }

  lemma StartsSound(cfg: Config)
    ensures AttemptsOk(Empty) && Capped(cfg, Empty.queue)
  {
    assert Letters(All(Empty)) == [];
  }

  lemma OneQueued(b: Book, m: Sms, n: Sms)
    requires Conserved(b) && m in b.queue && n in b.queue && m.letter.id == n.letter.id
    ensures n == m
  {
    hide Conserved;
    InExactlyOnePlace(b);
    var i, j :| 0 <= i < |b.queue| && 0 <= j < |b.queue| && b.queue[i] == m && b.queue[j] == n;
    assert All(b)[i] == m && All(b)[j] == n;
  }

  /** A report removes the message its attempt was for, or none at all. */
  lemma ReportMeansItsOwn(cfg: Config, b: Book, tag: Uuid)
    requires AttemptsOk(b)
    ensures var b' := Next(cfg, b, Report(tag));
      || b' == b
      || (tag in b.tags && tag !in b.released && |b'.delivered| == |b.delivered| + 1
          && b'.delivered[|b.delivered|].letter.id == b.tags[tag] && |b'.queue| == |b.queue| - 1)
  {
    var k := TaggedAt(b.queue, tag);
    if k.Some? {
      assert b.queue[k.value] in All(b);
      assert TriesOk(b, b.queue[k.value]);
    }
  }

  /** An attempt that was not sent leaves only the time of the attempt behind. */
  lemma ReleaseUndoesTake(cfg: Config, q: seq<Sms>, issi: Issi, force: bool, now: u64, tag: Uuid)
    requires forall m :: m in q ==> m.inFlight != Some(tag)
    ensures var q' := AfterRelease(AfterTake(cfg, q, issi, force, now, tag), tag);
      var k := Pick(cfg, q, issi, force, now);
      q' == if cfg.enabled && k.Some? then q[k.value := q[k.value].(lastAttempt := Some(now))] else q
  {
    var k := Pick(cfg, q, issi, force, now);
    var q' := AfterTake(cfg, q, issi, force, now, tag);
    if cfg.enabled && k.Some? {
      assert q'[k.value].inFlight == Some(tag) && q'[k.value] in q';
      forall i | 0 <= i < |q| && i != k.value ensures q'[i].inFlight != Some(tag) { assert q[i] in q; }
    }
  }

  // ----- who is due -----

  ghost predicate DueHere(cfg: Config, q: seq<Sms>, now: u64, d: Issi) {
    exists m :: m in q && m.letter.destination == d && m.inFlight.None? && Rested(cfg, m, now)
  }

  ghost predicate FreshDue(cfg: Config, q: seq<Sms>, now: u64, d: Issi) {
    exists m :: m in q && m.letter.destination == d && m.inFlight.None? && Rested(cfg, m, now) &&
        now < m.letter.expiresAt
  }

  /** The due destinations are those something can be taken for, exactly if
      none has expired messages only. */
  lemma DueIff(cfg: Config, q: seq<Sms>, now: u64)
    requires cfg.enabled
    ensures (forall d: Issi :: d in DueDestinations(cfg, q, now) <==> Pick(cfg, q, d, false, now).Some?)
       <==> (forall d: Issi :: DueHere(cfg, q, now, d) ==> FreshDue(cfg, q, now, d))
  {
    forall d: Issi
      ensures d in DueDestinations(cfg, q, now) <==> DueHere(cfg, q, now, d)
      ensures Pick(cfg, q, d, false, now).Some? <==> FreshDue(cfg, q, now, d)
    {
      PickIff(cfg, q, now, d);
    }
  }

  lemma PickIff(cfg: Config, q: seq<Sms>, now: u64, d: Issi)
    ensures Pick(cfg, q, d, false, now).Some? <==> FreshDue(cfg, q, now, d)
  {
    var k := Pick(cfg, q, d, false, now);
    if k.Some? {
      assert q[k.value] in q;
    } else if m :| m in q && m.letter.destination == d
                   && m.inFlight.None? && Rested(cfg, m, now) && now < m.letter.expiresAt {
      assert Takeable(cfg, m, d, false, now);
    }
  }

  /** Right after a sweep that is so. */
  lemma DueAfterSweep(cfg: Config, q: seq<Sms>, now: u64, d: Issi)
    requires cfg.enabled
    ensures var q' := Swept(cfg, q, now, Waits);
      d in DueDestinations(cfg, q', now) <==> Pick(cfg, q', d, false, now).Some?
  {
    var q' := Swept(cfg, q, now, Waits);
    forall e: Issi | DueHere(cfg, q', now, e) ensures FreshDue(cfg, q', now, e) {
      var m :| m in q' && m.letter.destination == e && m.inFlight.None? && Rested(cfg, m, now);
      SweptFrom(cfg, q, now, Waits, m);
    }
    DueIff(cfg, q', now);
  }

  /** Without one it need not be: here the only message has expired. */
  lemma DueWithoutSweep(cfg: Config, d: Issi)
    requires cfg.enabled
    ensures var q := [Sms(Letter(1, 1, d, 8, [130], 0, 5), 0, None, None)];
      d in DueDestinations(cfg, q, 5) && Pick(cfg, q, d, false, 5).None?
  {
    var q := [Sms(Letter(1, 1, d, 8, [130], 0, 5), 0, None, None)];
    assert q[0] in q && Rested(cfg, q[0], 5);
    PickIff(cfg, q, 5, d);
  }
}
