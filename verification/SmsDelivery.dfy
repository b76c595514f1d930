/** A delivery pass as a whole: each message at most once, oldest first,
    nothing else touched, and nothing left out. */
module SmsDelivery {
  import opened FedTypes
  import opened SmsQueue
  import opened SmsLaws

  /** The tags of the coming rounds are new and all different. */
  ghost predicate FreshTags(q: seq<Sms>, world: nat -> Round, n: nat) {
    && (forall m, k: nat :: m in q && n <= k ==> m.inFlight != Some(world(k).tag))
    && forall j: nat, k: nat :: n <= j < k ==> world(j).tag != world(k).tag
  }

  ghost predicate ForwardClock(world: nat -> Round, n: nat) {
    forall j: nat, k: nat :: n <= j <= k ==> world(j).now <= world(k).now
  }

  /** `t` is an attempt for the waiting message `m`. */
  ghost predicate Tried(m: Sms, t: Sms) {
    t.letter == m.letter && m.inFlight.None? && t.inFlight.Some? && t.attempts == m.attempts + 1
  }

  /** `m` is what the attempt `t` left: itself, or taken back at the end. */
  ghost predicate Left(o: Outcome, m: Sms, t: Sms)
    requires t in o.tried
  {
    m == t || (o.cut && t == o.tried[|o.tried| - 1] && m == Released(t))
  }

  /** The message at `k` was tried once and is under way, or was the last one
      tried and could not be sent, or was left alone. */
  ghost predicate Handled(q: seq<Sms>, o: Outcome, k: nat)
    requires k < |q| == |o.queue|
  {
    || (exists t :: t in o.tried && Tried(q[k], t) && Left(o, o.queue[k], t))
    || (o.queue[k] == q[k] && forall t :: t in o.tried ==> t.letter.id != q[k].letter.id)
  }

  ghost predicate OldestFirst(tried: seq<Sms>) {
    forall i :: 0 <= i < |tried| - 1 ==> tried[i].letter.storedAt <= tried[i + 1].letter.storedAt
  }

  ghost predicate PassOk(cfg: Config, q: seq<Sms>, issi: Issi, o: Outcome) {
    && |o.queue| == |q|
    && (forall k :: 0 <= k < |q| ==> Handled(q, o, k))
    && DistinctIds(o.tried)
    && forall t :: t in o.tried ==> t.letter.destination == issi && exists m :: m in q && Tried(m, t)
  }

  /** What is to be tried later can also be tried now, if forced. */
  lemma TakeableEarlier(cfg: Config, m: Sms, issi: Issi, now: u64, later: u64)
    requires Takeable(cfg, m, issi, true, later) && now <= later
    ensures Takeable(cfg, m, issi, true, now)
  {
  }

  /** The message just tried is out of the rest of the pass. */
  lemma PassGoesOn(cfg: Config, q: seq<Sms>, issi: Issi, k: nat, x: Sms, rest: Outcome)
    requires k < |q| && DistinctIds(q) && Tried(q[k], x) && q[k].letter.destination == issi
    requires PassOk(cfg, q[k := x], issi, rest)
    ensures PassOk(cfg, q, issi, Joined([x], rest))
  {
    var (q', o) := (q[k := x], Joined([x], rest));
    assert Handled(q', rest, k);
    assert forall t :: t in rest.tried ==> t.letter.id != x.letter.id;
    forall j | 0 <= j < |q| ensures Handled(q, o, j) {
      assert Handled(q', rest, j);
      if j == k {
        assert x in o.tried && rest.queue[k] == x;
      } else {
        HandledOn(q, q', j, x, rest);
      }
    }
    forall t | t in o.tried ensures t.letter.destination == issi && exists m :: m in q && Tried(m, t) {
      if t == x {
        assert q[k] in q;
      } else {
        var m :| m in q' && Tried(m, t);
        assert m in q;
      }
    }
  }

  lemma HandledOn(q: seq<Sms>, q': seq<Sms>, j: nat, x: Sms, rest: Outcome)
    requires j < |q| == |q'| == |rest.queue| && q'[j] == q[j] && Handled(q', rest, j) && x.letter.id != q[j].letter.id
    ensures Handled(q, Joined([x], rest), j)
  {
    var o := Joined([x], rest);
    if t :| t in rest.tried && Tried(q[j], t) && Left(rest, rest.queue[j], t) {
      assert t in o.tried && o.tried[|o.tried| - 1] == rest.tried[|rest.tried| - 1];
    }
  }

  lemma PassUnsent(cfg: Config, q: seq<Sms>, issi: Issi, k: nat, x: Sms, tag: Uuid)
    requires k < |q| && DistinctIds(q) && Tried(q[k], x) && q[k].letter.destination == issi
    requires x.inFlight == Some(tag) && forall m :: m in q ==> m.inFlight != Some(tag)
    ensures PassOk(cfg, q, issi, Outcome(AfterRelease(q[k := x], tag), [x], true))
  {
    var q' := q[k := x];
    var o := Outcome(AfterRelease(q', tag), [x], true);
    assert q'[k] in q';
    forall i | 0 <= i < |q| && i != k ensures q'[i].inFlight != Some(tag) { assert q[i] in q; }
    assert AfterRelease(q', tag) == q[k := Released(x)];
    assert x in o.tried && q[k] in q;
    forall j | 0 <= j < |q| ensures Handled(q, o, j) {
    }
  }

  lemma PassNothing(cfg: Config, q: seq<Sms>, issi: Issi, cut: bool)
    ensures PassOk(cfg, q, issi, Outcome(q, [], cut))
  {
  }

  lemma PickTried(cfg: Config, q: seq<Sms>, issi: Issi, force: bool, now: u64, tag: Uuid)
    requires cfg.enabled && Pick(cfg, q, issi, force, now).Some?
    ensures var k := Pick(cfg, q, issi, force, now).value;
      && k < |q| && q[k].letter.destination == issi && Tried(q[k], Attempted(q[k], now, tag))
      && AfterTake(cfg, q, issi, force, now, tag) == q[k := Attempted(q[k], now, tag)]
  {
  }

  /** In a pass every message is handled as it should be, whatever the clock
      does and wherever the pass is cut off. */
  lemma {:induction false} PassHandles(cfg: Config, q: seq<Sms>, issi: Issi, force: bool, world: nat -> Round, n: nat)
    requires DistinctIds(q) && FreshTags(q, world, n)
    ensures PassOk(cfg, q, issi, Pass(cfg, q, issi, force, world, n))
    decreases Waiting(q)
  {
    hide PassOk, Pass, Pick, AfterTake, AfterRelease, Attempted, Tried, Waiting, Joined;
    var r := world(n);
    var k := Pick(cfg, q, issi, force, r.now);
    PassStep(cfg, q, issi, force, world, n);
    PassNothing(cfg, q, issi, true);
    PassNothing(cfg, q, issi, false);
    if r.present && cfg.enabled && k.Some? {
      PickTried(cfg, q, issi, force, r.now, r.tag);
      var x := Attempted(q[k.value], r.now, r.tag);
      AttemptTag(q[k.value], r.now, r.tag);
      if r.sent {
        FreshOn(q, k.value, x, world, n);
        PassHandles(cfg, q[k.value := x], issi, force, world, n + 1);
        PassGoesOn(cfg, q, issi, k.value, x, Pass(cfg, q[k.value := x], issi, force, world, n + 1));
      } else {
        PassUnsent(cfg, q, issi, k.value, x, r.tag);
      }
    }
  }

  lemma AttemptTag(m: Sms, now: u64, tag: Uuid)
    ensures var x := Attempted(m, now, tag); x.inFlight == Some(tag) && x.letter == m.letter
  {
  }

  lemma FreshOn(q: seq<Sms>, k: nat, x: Sms, world: nat -> Round, n: nat)
    requires k < |q| && DistinctIds(q) && FreshTags(q, world, n)
    requires x.letter == q[k].letter && x.inFlight == Some(world(n).tag)
    ensures DistinctIds(q[k := x]) && FreshTags(q[k := x], world, n + 1)
  {
  }

  /** A pass that was not cut off leaves nothing it could still deliver. */
  lemma {:induction false} PassLeavesNothing(cfg: Config, q: seq<Sms>, issi: Issi, force: bool, world: nat -> Round,
                                             n: nat)
    requires cfg.enabled
    ensures var o := Pass(cfg, q, issi, force, world, n);
      !o.cut ==> forall m :: m in o.queue ==> !Takeable(cfg, m, issi, force, world(n + |o.tried|).now)
    decreases Waiting(q)
  {
    hide Pass, AfterTake, AfterRelease, Attempted, Waiting, Takeable;
    var r := world(n);
    PassStep(cfg, q, issi, force, world, n);
    if r.present && Pick(cfg, q, issi, force, r.now).Some? && r.sent {
      PassLeavesNothing(cfg, AfterTake(cfg, q, issi, force, r.now, r.tag), issi, force, world, n + 1);
    }
  }

  /** Right after a registration the messages go out oldest first. */
  lemma {:induction false} PassOldestFirst(cfg: Config, q: seq<Sms>, issi: Issi, world: nat -> Round, n: nat)
    requires ForwardClock(world, n)
    ensures var o := Pass(cfg, q, issi, true, world, n);
      OldestFirst(o.tried) &&
      (o.tried != [] ==> exists m ::
          m in q && m.letter == o.tried[0].letter && Takeable(cfg, m, issi, true, world(n).now))
    ensures var o := Pass(cfg, q, issi, true, world, n);
      o.tried != [] ==> forall m ::
          m in q && Takeable(cfg, m, issi, true, world(n).now) ==> o.tried[0].letter.storedAt <= m.letter.storedAt
    decreases Waiting(q)
  {
    hide Pass, AfterTake, AfterRelease, Attempted, Waiting, Takeable;
    var r := world(n);
    var k := Pick(cfg, q, issi, true, r.now);
    PassStep(cfg, q, issi, true, world, n);
    if r.present && cfg.enabled && k.Some? {
      PickTried(cfg, q, issi, true, r.now, r.tag);
      var x := Attempted(q[k.value], r.now, r.tag);
      AttemptTag(q[k.value], r.now, r.tag);
      assert q[k.value] in q;
      if r.sent {
        var q' := q[k.value := x];
        var rest := Pass(cfg, q', issi, true, world, n + 1);
        PassOldestFirst(cfg, q', issi, world, n + 1);
        if rest.tried != [] {
          var m :| m in q' && m.letter == rest.tried[0].letter && Takeable(cfg, m, issi, true, world(n + 1).now);
          NextIsLater(cfg, q, k.value, x, m, issi, r.now, world(n + 1).now);
          OldestFirstOn(x, rest.tried);
        }
      }
    }
  }

  lemma NextIsLater(cfg: Config, q: seq<Sms>, k: nat, x: Sms, m: Sms, issi: Issi, now: u64, later: u64)
    requires IsPick(cfg, q, issi, true, now, k) && x.letter == q[k].letter && x.inFlight.Some?
    requires m in q[k := x] && Takeable(cfg, m, issi, true, later) && now <= later
    ensures x.letter.storedAt <= m.letter.storedAt
  {
    assert m != x;
    assert m in q;
    TakeableEarlier(cfg, m, issi, now, later);
  }

  lemma OldestFirstOn(x: Sms, tried: seq<Sms>)
    requires OldestFirst(tried) && tried != [] && x.letter.storedAt <= tried[0].letter.storedAt
    ensures OldestFirst([x] + tried)
  {
  }

  // ----- passes among other operations -----

  /** The message a step takes up. */
  ghost function TakenId(cfg: Config, b: Book, e: Event): Option<Uuid> {
    if e.Take? && cfg.enabled && Pick(cfg, b.queue, e.issi, e.force, e.now).Some?
    then Some(b.queue[Pick(cfg, b.queue, e.issi, e.force, e.now).value].letter.id) else None
  }

  /** Ends the attempt `tag` made at `at` but leaves its message waiting. */
  predicate Frees(cfg: Config, e: Event, tag: Uuid, at: u64) {
    e == Release(tag) || (e.Sweep? && cfg.enabled && SatSub(e.now, at) >= Ms(cfg.ackSeconds))
  }

  /** If `id` is still queued the attempt `tag` is under way for it. */
  ghost predicate UnderWay(q: seq<Sms>, id: Uuid, tag: Uuid, at: u64) {
    forall m :: m in q && m.letter.id == id ==> m.inFlight == Some(tag) && m.lastAttempt == Some(at)
  }

  ghost predicate WasStored(b: Book, id: Uuid) {
    exists l :: l in b.stored && l.id == id
  }

  lemma {:induction false} SweptKeeps(cfg: Config, q: seq<Sms>, now: u64, m: Sms)
    requires m in Swept(cfg, q, now, Waits)
    ensures exists n :: n in q && m == Freed(cfg, n, now)
  {
    var init := q[..|q| - 1];
    if m in Swept(cfg, init, now, Waits) { SweptKeeps(cfg, init, now, m); }
  }

  lemma {:induction false} WithoutKeeps(q: seq<Sms>, id: Uuid, m: Sms)
    requires m in WithId(q, id, false)
    ensures m in q
  {
    var init := q[..|q| - 1];
    if m in WithId(init, id, false) { WithoutKeeps(init, id, m); }
  }

  lemma CutKeeps(q: seq<Sms>, k: nat, m: Sms)
    requires k < |q| && m in Cut(q, k)
    ensures m in q
  {
  }

  lemma StaysUnderWay(cfg: Config, b: Book, e: Event, id: Uuid, tag: Uuid, at: u64)
    requires UnderWay(b.queue, id, tag, at) && WasStored(b, id) && Enabled(b, e) && !Frees(cfg, e, tag, at)
    ensures UnderWay(Next(cfg, b, e).queue, id, tag, at) && WasStored(Next(cfg, b, e), id)
  {
    hide Swept, WithId, Original, CountFor, Cut, IsPick;
    var b' := Next(cfg, b, e);
    assert forall l :: l in b.stored ==> l in b'.stored;
    forall m | m in b'.queue && m.letter.id == id ensures m.inFlight == Some(tag) && m.lastAttempt == Some(at) {
      match e
      case Store(_, _, _, _, _, _) =>
      case Take(issi, force, now, t) =>
        PickFree(cfg, b.queue, issi, force, now);
        var k := Pick(cfg, b.queue, issi, force, now);
        assert k.Some? ==> b.queue[k.value] in b.queue;
      case Release(t) =>
        var k := TaggedAt(b.queue, t);
        assert k.Some? ==> b.queue[k.value] in b.queue;
      case Report(t) =>
        var k := TaggedAt(b.queue, t);
        if k.Some? { CutKeeps(b.queue, k.value, m); }
      case Sweep(now) =>
        if cfg.enabled { SweptKeeps(cfg, b.queue, now, m); }
      case Delete(x) => WithoutKeeps(b.queue, x, m);
    }
  }

  lemma PickFree(cfg: Config, q: seq<Sms>, issi: Issi, force: bool, now: u64)
    ensures var k := Pick(cfg, q, issi, force, now); k.Some? ==> k.value < |q| && q[k.value].inFlight.None?
  {
  }

  lemma {:induction false} StaysUnderWayAll(cfg: Config, b: Book, es: seq<Event>, id: Uuid, tag: Uuid, at: u64)
    requires UnderWay(b.queue, id, tag, at) && WasStored(b, id) && Legal(cfg, b, es)
    requires forall k :: 0 <= k < |es| ==> !Frees(cfg, es[k], tag, at)
    ensures UnderWay(After(cfg, b, es).queue, id, tag, at)
    decreases |es|
  {
    hide Next, UnderWay, WasStored, Frees;
    if es != [] {
      StaysUnderWay(cfg, b, es[0], id, tag, at);
      StaysUnderWayAll(cfg, Next(cfg, b, es[0]), es[1..], id, tag, at);
    }
  }

  lemma {:induction false} LegalPrefix(cfg: Config, b: Book, es: seq<Event>, j: nat)
    requires Legal(cfg, b, es) && j <= |es|
    ensures Legal(cfg, b, es[..j])
    decreases |es|
  {
    if j > 0 {
      LegalPrefix(cfg, Next(cfg, b, es[0]), es[1..], j - 1);
      assert es[..j][1..] == es[1..][..j - 1];
    }
  }

  /** A message taken up is under way, and stored only once. */
  lemma TakenUnderWay(cfg: Config, b: Book, e: Event)
    requires Conserved(b) && TakenId(cfg, b, e).Some?
    ensures UnderWay(Next(cfg, b, e).queue, TakenId(cfg, b, e).value, e.tag, e.now)
    ensures WasStored(Next(cfg, b, e), TakenId(cfg, b, e).value)
  {
    hide Conserved, IsPick;
    InExactlyOnePlace(b);
    var k := Pick(cfg, b.queue, e.issi, e.force, e.now).value;
    PickFree(cfg, b.queue, e.issi, e.force, e.now);
    var (q, m) := (b.queue, b.queue[k]);
    assert m in All(b) && m.letter in b.stored;
    forall i | 0 <= i < |q| && i != k ensures q[i].letter.id != m.letter.id {
      assert All(b)[i] == q[i] && All(b)[k] == m;
    }
  }

  /** Whatever else happens, in one pass or over many: a message taken up at the
      start of a run is taken up again only after its attempt was given back or
      its report had been missing for the whole acknowledgement time. */
  lemma TriedAgainOnlyIfFreed(cfg: Config, b: Book, es: seq<Event>, j: nat)
    requires Conserved(b) && Legal(cfg, b, es) && 0 < j < |es| && TakenId(cfg, b, es[0]).Some?
    requires TakenId(cfg, After(cfg, b, es[..j]), es[j]) == TakenId(cfg, b, es[0])
    ensures exists k :: 0 < k < j && Frees(cfg, es[k], es[0].tag, es[0].now)
  {
    hide Conserved, Frees, IsPick;
    var (id, q) := (TakenId(cfg, b, es[0]).value, After(cfg, b, es[..j]).queue);
    PickFree(cfg, q, es[j].issi, es[j].force, es[j].now);
    var m := q[Pick(cfg, q, es[j].issi, es[j].force, es[j].now).value];
    assert m in q && m.letter.id == id && m.inFlight.None?;
    assert es[..j][0] == es[0] && es[..j][1..] == es[1..][..j - 1];
    if forall k :: 0 < k < j ==> !Frees(cfg, es[k], es[0].tag, es[0].now) {
      var between := es[1..][..j - 1];
      TakenUnderWay(cfg, b, es[0]);
      LegalPrefix(cfg, Next(cfg, b, es[0]), es[1..], j - 1);
      forall k | 0 <= k < |between| ensures !Frees(cfg, between[k], es[0].tag, es[0].now) {
        assert between[k] == es[k + 1];
      }
      StaysUnderWayAll(cfg, Next(cfg, b, es[0]), between, id, es[0].tag, es[0].now);
    }
  }

  // ----- order among other operations -----

  lemma StoredStays(cfg: Config, b: Book, e: Event, l: Letter)
    requires l in b.stored
    ensures l in Next(cfg, b, e).stored
  {
  }

  /** The run from `b` on: what was stored stays so, and no letter is lost. */
  lemma {:induction false} RunKeeps(cfg: Config, b: Book, es: seq<Event>, l: Letter)
    requires Conserved(b) && Legal(cfg, b, es) && l in b.stored
    ensures Conserved(After(cfg, b, es)) && l in After(cfg, b, es).stored
    decreases |es|
  {
    hide Next, Conserved;
    if es != [] {
      NextConserves(cfg, b, es[0]);
      StoredStays(cfg, b, es[0], l);
      RunKeeps(cfg, Next(cfg, b, es[0]), es[1..], l);
    }
  }

  /** An id names one letter. */
  lemma OneLetter(b: Book, x: Letter, m: Sms)
    requires Conserved(b) && x in b.stored && m in b.queue && m.letter.id == x.id
    ensures m.letter == x
  {
    hide Letters;
    InExactlyOnePlace(b);
    var n :| n in All(b) && n.letter == x;
    assert m in All(b);
  }

  /** Whatever else happens between them: of two messages for one destination, the
      first taken by a pass after a registration while the second was waiting too,
      the second taken later, the first is the older. */
  lemma TakenInOrder(cfg: Config, b: Book, es: seq<Event>, j: nat, m: Sms)
    requires Conserved(b) && Legal(cfg, b, es) && 0 < j < |es|
    requires es[0].Take? && es[0].force && TakenId(cfg, b, es[0]).Some?
    requires es[j].Take? && es[j].issi == es[0].issi && es[0].now <= es[j].now
    requires m in b.queue && m.inFlight.None? && TakenId(cfg, After(cfg, b, es[..j]), es[j]) == Some(m.letter.id)
    ensures forall k :: Pick(cfg, b.queue, es[0].issi, true, es[0].now) == Some(k) ==>
      b.queue[k].letter.storedAt <= m.letter.storedAt
  {
    hide Conserved, Next;
    var (issi, now) := (es[0].issi, es[0].now);
    var end := After(cfg, b, es[..j]);
    LegalPrefix(cfg, b, es, j);
    assert m.letter in b.stored by { StoredIsQueued(b, m); }
    RunKeeps(cfg, b, es[..j], m.letter);
    var n := end.queue[Pick(cfg, end.queue, issi, es[j].force, es[j].now).value];
    OneLetter(end, m.letter, n);
    assert Takeable(cfg, m, issi, true, now);
  }

  lemma StoredIsQueued(b: Book, m: Sms)
    requires Conserved(b) && m in b.queue
    ensures m.letter in b.stored
  {
    InExactlyOnePlace(b);
    assert m in All(b);
  }
}
