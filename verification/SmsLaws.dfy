/** What no single operation of the SMS Center's queue enforces, over whole
    runs: conservation, limits and the spacing of copies. */
module SmsLaws {
  import opened FedTypes
  import opened SmsQueue

  /** The queue with its history: where every message went, everything ever
      stored, which message each attempt was for and which were taken back. */
  datatype Book = Book(queue: seq<Sms>, delivered: seq<Sms>, expired: seq<Sms>, failed: seq<Sms>, deleted: seq<Sms>,
                       stored: seq<Letter>, tags: map<Uuid, Uuid>, released: set<Uuid>)

  const Empty := Book([], [], [], [], [], [], map[], {})

  datatype Event =
    | Store(source: Issi, destination: Issi, lengthBits: u16, data: Bytes, now: u64, id: Uuid)
    | Take(issi: Issi, force: bool, now: u64, tag: Uuid)
    | Release(tag: Uuid)
    | Report(tag: Uuid)
    | Sweep(now: u64)
    | Delete(id: Uuid)

  /** New ids and attempt tags are fresh. */
  ghost predicate Enabled(b: Book, e: Event) {
    (e.Store? ==> forall l :: l in b.stored ==> l.id != e.id) && (e.Take? ==> e.tag !in b.tags)
  }

  ghost function Next(cfg: Config, b: Book, e: Event): Book {
    match e
    case Store(source, destination, bits, data, now, id) =>
      var outcome := StoreResult(cfg, b.queue, source, destination, bits, data, now, id);
      b.(queue := AfterStore(b.queue, outcome),
         stored := if outcome.Stored? then b.stored + [outcome.m.letter] else b.stored)
    case Take(issi, force, now, tag) =>
      var k := Pick(cfg, b.queue, issi, force, now);
      b.(queue := AfterTake(cfg, b.queue, issi, force, now, tag),
         tags := if cfg.enabled && k.Some? then b.tags[tag := b.queue[k.value].letter.id] else b.tags)
    case Release(tag) =>
      b.(queue := AfterRelease(b.queue, tag),
         released := if TaggedAt(b.queue, tag).Some? then b.released + {tag} else b.released)
    case Report(tag) =>
      var k := TaggedAt(b.queue, tag);
      b.(queue := AfterReport(b.queue, tag), delivered := b.delivered + if k.Some? then [b.queue[k.value]] else [])
    case Sweep(now) =>
      if !cfg.enabled then b
      else
        b.(queue := Swept(cfg, b.queue, now, Waits),
           expired := b.expired + Swept(cfg, b.queue, now, Expires),
           failed := b.failed + Swept(cfg, b.queue, now, Fails))
    case Delete(id) =>
      b.(queue := WithId(b.queue, id, false), deleted := b.deleted + WithId(b.queue, id, true))
  }

  // ----- thinning: what every step but a store does to the queue -----

  /** Two queued copies of one text are a retransmission window apart. */
  ghost predicate Spaced(q: seq<Sms>) {
    forall i, j :: 0 <= i < j < |q| && SameText(q[i], q[j].letter.source, q[j].letter.destination, q[j].letter.data)
      ==> q[i].letter.storedAt + DUPLICATE_WINDOW_MS <= q[j].letter.storedAt
  }

  ghost predicate Among(m: Sms, q: seq<Sms>) {
    exists n :: n in q && n.letter == m.letter
  }

  /** `a` holds some of the letters of `b`, in their order. */
  ghost predicate Thins(a: seq<Sms>, b: seq<Sms>) {
    && |a| <= |b|
    && (forall d: Issi :: CountFor(a, d) <= CountFor(b, d))
    && (forall m :: m in a ==> Among(m, b))
    && (Spaced(b) ==> Spaced(a))
  }

  lemma SpacedInit(b: seq<Sms>, y: Sms)
    requires Spaced(b + [y])
    ensures Spaced(b)
  {
    assert forall i :: 0 <= i < |b| ==> (b + [y])[i] == b[i];
  }

  lemma SpacedLast(a: seq<Sms>, x: Sms, b: seq<Sms>, y: Sms)
    requires Spaced(b + [y]) && Spaced(a) && x.letter == y.letter && forall m :: m in a ==> Among(m, b)
    ensures Spaced(a + [x])
  {
    forall i | 0 <= i < |a| && SameText(a[i], x.letter.source, x.letter.destination, x.letter.data)
      ensures a[i].letter.storedAt + DUPLICATE_WINDOW_MS <= x.letter.storedAt
    {
      assert Among(a[i], b);
      var n :| n in b && n.letter == a[i].letter;
      var j :| 0 <= j < |b| && b[j] == n;
      assert (b + [y])[j] == n && (b + [y])[|b|] == y;
    }
  }

  lemma CountOn(q: seq<Sms>, m: Sms, d: Issi)
    ensures CountFor(q + [m], d) == CountFor(q, d) + if m.letter.destination == d then 1 else 0
  {
    assert (q + [m])[..|q|] == q;
  }

  lemma AmongOn(m: Sms, q: seq<Sms>, y: Sms)
    ensures Among(m, q) || m.letter == y.letter ==> Among(m, q + [y])
  {
    if m.letter == y.letter {
      assert y in q + [y];
    } else if n :| n in q && n.letter == m.letter {
      assert n in q + [y];
    }
  }

  lemma ThinsKept(a: seq<Sms>, b: seq<Sms>, x: Sms, y: Sms)
    requires Thins(a, b) && x.letter == y.letter
    ensures Thins(a + [x], b + [y])
  {
    hide Spaced, Among, CountFor;
    forall d: Issi ensures CountFor(a + [x], d) <= CountFor(b + [y], d) { CountOn(a, x, d); CountOn(b, y, d); }
    forall m | m in a + [x] ensures Among(m, b + [y]) { AmongOn(m, b, y); }
    if Spaced(b + [y]) {
      SpacedInit(b, y);
      SpacedLast(a, x, b, y);
    }
  }

  lemma ThinsDropped(a: seq<Sms>, b: seq<Sms>, y: Sms)
    requires Thins(a, b)
    ensures Thins(a, b + [y])
  {
    hide Spaced, Among, CountFor;
    forall d: Issi ensures CountFor(a, d) <= CountFor(b + [y], d) { CountOn(b, y, d); }
    forall m | m in a ensures Among(m, b + [y]) { AmongOn(m, b, y); }
    if Spaced(b + [y]) {
      SpacedInit(b, y);
    }
  }

  lemma ThinsSame(q: seq<Sms>)
    ensures Thins(q, q)
  {
    assert forall m :: m in q ==> Among(m, q);
  }

  lemma InitLast(q: seq<Sms>)
    requires q != []
    ensures q == q[..|q| - 1] + [q[|q| - 1]]
  {
  }

  lemma {:induction false} SweptThins(cfg: Config, q: seq<Sms>, now: u64, fate: Fate)
    ensures Thins(Swept(cfg, q, now, fate), q)
  {
    hide Thins;
    if q == [] {
      ThinsSame(q);
    } else {
      var (init, y) := (q[..|q| - 1], q[|q| - 1]);
      InitLast(q);
      SweptThins(cfg, init, now, fate);
      ThinsKept(Swept(cfg, init, now, fate), init, Freed(cfg, y, now), y);
      ThinsDropped(Swept(cfg, init, now, fate), init, y);
      assert Swept(cfg, init, now, fate) + [] == Swept(cfg, init, now, fate);
    }
  }

  lemma {:induction false} WithIdThins(q: seq<Sms>, id: Uuid, keep: bool)
    ensures Thins(WithId(q, id, keep), q)
  {
    hide Thins;
    if q == [] {
      ThinsSame(q);
    } else {
      var (init, y) := (q[..|q| - 1], q[|q| - 1]);
      InitLast(q);
      WithIdThins(init, id, keep);
      ThinsKept(WithId(init, id, keep), init, y, y);
      ThinsDropped(WithId(init, id, keep), init, y);
      assert WithId(init, id, keep) + [] == WithId(init, id, keep);
    }
  }

  lemma {:induction false} CutThins(q: seq<Sms>, k: nat)
    requires k < |q|
    ensures Thins(Cut(q, k), q)
  {
    hide Thins;
    var (init, y) := (q[..|q| - 1], q[|q| - 1]);
    InitLast(q);
    if k == |q| - 1 {
      assert Cut(q, k) == init;
      ThinsSame(init);
      ThinsDropped(init, init, y);
    } else {
      assert Cut(q, k) == Cut(init, k) + [y];
      CutThins(init, k);
      ThinsKept(Cut(init, k), init, y, y);
    }
  }

  lemma {:induction false} UpdateThins(q: seq<Sms>, k: nat, m: Sms)
    requires k < |q| && m.letter == q[k].letter
    ensures Thins(q[k := m], q)
  {
    hide Thins;
    var (init, y) := (q[..|q| - 1], q[|q| - 1]);
    InitLast(q);
    if k == |q| - 1 {
      assert q[k := m] == init + [m];
      ThinsSame(init);
      ThinsKept(init, init, m, y);
    } else {
      assert q[k := m] == init[k := m] + [y];
      UpdateThins(init, k, m);
      ThinsKept(init[k := m], init, y, y);
    }
  }

  lemma NextThins(cfg: Config, b: Book, e: Event)
    requires !e.Store?
    ensures Thins(Next(cfg, b, e).queue, b.queue)
  {
    hide Thins, Swept, WithId, Takeable;
    ThinsSame(b.queue);
    match e
    case Take(issi, force, now, tag) =>
      var k := Pick(cfg, b.queue, issi, force, now);
      if k.Some? { UpdateThins(b.queue, k.value, Attempted(b.queue[k.value], now, tag)); }
    case Release(tag) =>
      var k := TaggedAt(b.queue, tag);
      if k.Some? { UpdateThins(b.queue, k.value, Released(b.queue[k.value])); }
    case Report(tag) =>
      var k := TaggedAt(b.queue, tag);
      if k.Some? { CutThins(b.queue, k.value); }
    case Sweep(now) => SweptThins(cfg, b.queue, now, Waits);
    case Delete(id) => WithIdThins(b.queue, id, false);
  }

  // ----- limits and spacing -----

  ghost predicate LimitsOk(cfg: Config, q: seq<Sms>) {
    |q| <= cfg.maxTotal && forall d: Issi :: CountFor(q, d) <= cfg.maxPerDestination
  }

  lemma SpacedNew(q: seq<Sms>, m: Sms)
    requires Spaced(q)
    requires forall n :: n in q ==>
      !Retransmits(n, m.letter.source, m.letter.destination, m.letter.data, m.letter.storedAt)
    ensures Spaced(q + [m])
  {
    forall i | 0 <= i < |q| && SameText(q[i], m.letter.source, m.letter.destination, m.letter.data)
      ensures q[i].letter.storedAt + DUPLICATE_WINDOW_MS <= m.letter.storedAt
    {
      assert q[i] in q;
    }
  }

  /** No step breaks a limit or brings two copies closer, whatever the clock says. */
  lemma NextBounded(cfg: Config, b: Book, e: Event)
    requires LimitsOk(cfg, b.queue) && Spaced(b.queue)
    ensures LimitsOk(cfg, Next(cfg, b, e).queue) && Spaced(Next(cfg, b, e).queue)
  {
    hide Spaced, CountFor, Original;
    if e.Store? {
      var outcome := StoreResult(cfg, b.queue, e.source, e.destination, e.lengthBits, e.data, e.now, e.id);
      if outcome.Stored? {
        forall d: Issi ensures CountFor(b.queue + [outcome.m], d) <= cfg.maxPerDestination {
          CountOn(b.queue, outcome.m, d);
        }
        SpacedNew(b.queue, outcome.m);
      }
    } else {
      NextThins(cfg, b, e);
    }
  }

  // ----- conservation -----

  function Letters(q: seq<Sms>): (r: seq<Letter>)
    ensures |r| == |q| && forall k :: 0 <= k < |q| ==> r[k] == q[k].letter
  {
    seq(|q|, k requires 0 <= k < |q| => q[k].letter)
  }

  function All(b: Book): seq<Sms> {
    b.queue + (b.delivered + (b.expired + (b.failed + b.deleted)))
  }

  ghost predicate StoredOnce(b: Book) {
    forall i, j :: 0 <= i < j < |b.stored| ==> b.stored[i].id != b.stored[j].id
  }

  /** Every stored letter is in exactly one place, unchanged. */
  ghost predicate Conserved(b: Book) {
    StoredOnce(b) && multiset(Letters(All(b))) == multiset(b.stored)
  }

  function Bag(q: seq<Sms>): multiset<Letter> {
    multiset(Letters(q))
  }

  lemma BagJoin(a: seq<Sms>, b: seq<Sms>)
    ensures Bag(a + b) == Bag(a) + Bag(b)
  {
    assert Letters(a + b) == Letters(a) + Letters(b);
  }

  lemma BagOne(m: Sms)
    ensures Bag([m]) == multiset{m.letter}
  {
    assert Letters([m]) == [m.letter];
  }

  lemma BagAll(b: Book)
    ensures Bag(All(b)) == Bag(b.queue) + Bag(b.delivered) + Bag(b.expired) + Bag(b.failed) + Bag(b.deleted)
  {
    BagJoin(b.failed, b.deleted);
    BagJoin(b.expired, b.failed + b.deleted);
    BagJoin(b.delivered, b.expired + (b.failed + b.deleted));
    BagJoin(b.queue, b.delivered + (b.expired + (b.failed + b.deleted)));
  }

  lemma BagUpdate(q: seq<Sms>, k: nat, m: Sms)
    requires k < |q| && m.letter == q[k].letter
    ensures Bag(q[k := m]) == Bag(q)
  {
    assert Letters(q[k := m]) == Letters(q);
  }

  lemma BagCut(q: seq<Sms>, k: nat)
    requires k < |q|
    ensures Bag(q) == Bag(Cut(q, k)) + Bag([q[k]])
  {
    assert q == q[..k] + [q[k]] + q[k + 1..];
    BagJoin(q[..k], [q[k]]);
    BagJoin(q[..k] + [q[k]], q[k + 1..]);
    BagJoin(q[..k], q[k + 1..]);
  }

  lemma {:induction false} BagSwept(cfg: Config, q: seq<Sms>, now: u64)
    ensures Bag(Swept(cfg, q, now, Waits)) + Bag(Swept(cfg, q, now, Expires)) + Bag(Swept(cfg, q, now, Fails)) == Bag(q)
  {
    hide Bag, FateOf, Freed;
    if q != [] {
      var (init, y) := (q[..|q| - 1], q[|q| - 1]);
      var m := Freed(cfg, y, now);
      InitLast(q);
      BagSwept(cfg, init, now);
      BagJoin(init, [y]);
      BagSame(m, y) by { FreedKeeps(cfg, y, now); }
      forall fate: Fate ensures Bag(Swept(cfg, q, now, fate)) ==
          (if FateOf(cfg, m, now) == fate then Bag(Swept(cfg, init, now, fate)) + Bag([y])
           else Bag(Swept(cfg, init, now, fate)))
      {
        BagJoin(Swept(cfg, init, now, fate), [m]);
        assert Swept(cfg, init, now, fate) + [] == Swept(cfg, init, now, fate);
      }
    } else {
      BagNone();
    }
  }

  lemma BagNone()
    ensures Bag([]) == multiset{}
  {
  }

  lemma FreedKeeps(cfg: Config, m: Sms, now: u64)
    ensures Freed(cfg, m, now).letter == m.letter && Freed(cfg, m, now).attempts == m.attempts
  {
  }

  lemma BagSame(x: Sms, y: Sms)
    requires x.letter == y.letter
    ensures Bag([x]) == Bag([y])
  {
    BagOne(x);
    BagOne(y);
  }

  lemma {:induction false} BagWithId(q: seq<Sms>, id: Uuid)
    ensures Bag(WithId(q, id, false)) + Bag(WithId(q, id, true)) == Bag(q)
  {
    hide Bag;
    if q != [] {
      var (init, y) := (q[..|q| - 1], q[|q| - 1]);
      InitLast(q);
      BagWithId(init, id);
      BagJoin(init, [y]);
      BagJoin(WithId(init, id, false), [y]);
      BagJoin(WithId(init, id, true), [y]);
      assert WithId(init, id, true) + [] == WithId(init, id, true) &&
        WithId(init, id, false) + [] == WithId(init, id, false);
    } else {
      BagNone();
    }
  }

  ghost function Total(b: Book): multiset<Letter> {
    Bag(b.queue) + Bag(b.delivered) + Bag(b.expired) + Bag(b.failed) + Bag(b.deleted)
  }

  lemma ConservedIff(b: Book)
    ensures Conserved(b) <==> StoredOnce(b) && Total(b) == multiset(b.stored)
  {
    BagAll(b);
    assert Bag(All(b)) == multiset(Letters(All(b)));
  }

  lemma StoreConserves(cfg: Config, b: Book, e: Event)
    requires e.Store? && Enabled(b, e) && StoredOnce(b)
    ensures var b' := Next(cfg, b, e);
      StoredOnce(b') && (Total(b) == multiset(b.stored) ==> Total(b') == multiset(b'.stored))
  {
    hide Bag, Original, CountFor;
    var b' := Next(cfg, b, e);
    if b'.stored != b.stored {
      BagJoin(b.queue, [b'.queue[|b.queue|]]);
      BagOne(b'.queue[|b.queue|]);
    }
  }

  /** Every other step only moves messages about. */
  lemma MovesOnly(cfg: Config, b: Book, e: Event)
    requires !e.Store?
    ensures Total(Next(cfg, b, e)) == Total(b)
  {
    hide Bag, Swept, WithId, Takeable, Cut;
    match e
    case Take(issi, force, now, tag) =>
      var k := Pick(cfg, b.queue, issi, force, now);
      if k.Some? { BagUpdate(b.queue, k.value, Attempted(b.queue[k.value], now, tag)); }
    case Release(tag) =>
      var k := TaggedAt(b.queue, tag);
      if k.Some? { BagUpdate(b.queue, k.value, Released(b.queue[k.value])); }
    case Report(tag) =>
      var k := TaggedAt(b.queue, tag);
      if k.Some? {
        BagCut(b.queue, k.value);
        BagJoin(b.delivered, [b.queue[k.value]]);
      } else {
        assert b.delivered + [] == b.delivered;
      }
    case Sweep(now) =>
      BagSwept(cfg, b.queue, now);
      BagJoin(b.expired, Swept(cfg, b.queue, now, Expires));
      BagJoin(b.failed, Swept(cfg, b.queue, now, Fails));
    case Delete(id) =>
      BagWithId(b.queue, id);
      BagJoin(b.deleted, WithId(b.queue, id, true));
  }

  /** No step loses, doubles or changes a message. */
  lemma NextConserves(cfg: Config, b: Book, e: Event)
    requires Conserved(b) && Enabled(b, e)
    ensures Conserved(Next(cfg, b, e))
  {
    hide Conserved, Total;
    ConservedIff(b);
    ConservedIff(Next(cfg, b, e));
    if e.Store? {
      StoreConserves(cfg, b, e);
    } else {
      MovesOnly(cfg, b, e);
    }
  }

  // ----- whole runs -----

  ghost predicate Legal(cfg: Config, b: Book, es: seq<Event>)
    decreases es
  {
    es != [] ==> Enabled(b, es[0]) && Legal(cfg, Next(cfg, b, es[0]), es[1..])
  }

  ghost function After(cfg: Config, b: Book, es: seq<Event>): Book
    decreases es
  {
    if es == [] then b else After(cfg, Next(cfg, b, es[0]), es[1..])
  }

  /** Whatever happens to an initially empty queue, no message is lost or
      doubled, the limits hold, and copies stay a window apart. */
  lemma {:induction false} AlwaysKept(cfg: Config, b: Book, es: seq<Event>)
    requires Legal(cfg, b, es) && Conserved(b) && LimitsOk(cfg, b.queue) && Spaced(b.queue)
    ensures var end := After(cfg, b, es); Conserved(end) && LimitsOk(cfg, end.queue) && Spaced(end.queue)
    decreases es
  {
    hide Next, Conserved, LimitsOk, Spaced;
    if es != [] {
      NextConserves(cfg, b, es[0]);
      NextBounded(cfg, b, es[0]);
      AlwaysKept(cfg, Next(cfg, b, es[0]), es[1..]);
    }
  }

  /** A letter that occurs at two places occurs twice. */
  lemma Twice(s: seq<Letter>, i: nat, j: nat)
    requires i < j < |s| && s[i] == s[j]
    ensures multiset(s)[s[i]] >= 2
  {
    assert s == s[..j] + s[j..];
    assert s[i] in s[..j] && s[j] in s[j..];
  }

  lemma {:induction false} AtMostOnce(s: seq<Letter>, x: Letter)
    requires forall i, j :: 0 <= i < j < |s| ==> s[i].id != s[j].id
    ensures multiset(s)[x] <= 1
  {
    if s != [] {
      AtMostOnce(s[1..], x);
      assert s == [s[0]] + s[1..];
      if s[0] == x {
        assert forall y :: y in s[1..] ==> y != x;
      }
    }
  }

  /** Queue, delivered, expired, failed and deleted share no id, and together
      hold each stored letter once and nothing else. */
  lemma InExactlyOnePlace(b: Book)
    requires Conserved(b)
    ensures DistinctIds(All(b))
    ensures forall l :: l in b.stored <==> exists m :: m in All(b) && m.letter == l
  {
    var (all, letters) := (All(b), Letters(All(b)));
    forall l ensures l in b.stored <==> exists m :: m in all && m.letter == l {
      assert l in b.stored <==> l in multiset(b.stored);
      assert l in letters <==> l in multiset(letters);
      if l in letters {
        var k :| 0 <= k < |letters| && letters[k] == l;
        assert all[k] in all;
      }
    }
    forall i, j | 0 <= i < j < |all| ensures all[i].letter.id != all[j].letter.id {
      if all[i].letter.id == all[j].letter.id {
        assert letters[i] in multiset(letters) && letters[j] in multiset(letters);
        assert letters[i] in b.stored && letters[j] in b.stored;
        Twice(letters, i, j);
        AtMostOnce(b.stored, letters[i]);
        assert false;
      }
    }
  }
}
