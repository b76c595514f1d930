/** The effective table is a fixpoint of selection in every reachable state. */
module TableInvariant {
  import opened FedTypes
  import opened RouteSelection
  import opened RouteTable

  /** What `fedroute::parse` guarantees of an advert from neighbour `nbr`. */
  ghost predicate Parsed(nbr: ServerId, a: Advert) {
    0 < |a.path| <= MAX_PATH && a.path[0] == nbr && Distinct(a.path)
  }

  ghost predicate OffersOk(t: Table, issi: Issi) {
    forall l :: l in OffersOf(t.rib, issi) ==>
      var a := OffersOf(t.rib, issi)[l];
      l in t.links && Parsed(t.links[l], a) && t.selfId !in a.path && a.reg <= t.clock
  }

  ghost predicate LocalOk(t: Table, issi: Issi) {
    LocalOf(t, issi).Some? ==>
      var s := t.subs[issi];
      s.client in t.clients && s.route.path == [] && s.route.reg <= t.clock
  }

  /** What selection is given for one ISSI is sound. */
  ghost predicate InputOk(t: Table, issi: Issi) {
    && (issi in t.rib ==> t.rib[issi] != map[])
    && OffersOk(t, issi)
    && LocalOk(t, issi)
  }

  /** The entry of one ISSI is what selection says, and is built from live links only. */
  ghost predicate EntryOk(t: Table, issi: Issi) {
    InputOk(t, issi) && Same(Get(t.subs, issi), Desired(t, issi))
  }

  ghost predicate TableOk(t: Table) {
    && (forall l :: l in t.links ==> IsPeer(t, l))
    && (forall c :: c in t.clients ==> c in t.sent)
    && forall i: Issi :: EntryOk(t, i)
  }

  /** The reading of `EntryOk` a caller needs: remote entries equal a current
      offer of a live link; a path is empty exactly for local entries; no path
      repeats a server, holds our own id or exceeds the limit. */
  lemma EntryMeaning(t: Table, issi: Issi)
    requires EntryOk(t, issi) && issi in t.subs
    ensures var e := t.subs[issi];
      && e.route.reg <= t.clock
      && (e.route.path == [] <==> e.client !in t.links)
      && |e.route.path| <= MAX_PATH && Distinct(e.route.path) && t.selfId !in e.route.path
      && (e.client in t.links ==>
            && e.client in OffersOf(t.rib, issi)
            && Same(Some(e), Some(FromAdvert(e.client, OffersOf(t.rib, issi)[e.client])))
            && e.route.path[0] == t.links[e.client])
  {
    var c := Chosen(t, issi);
    if c.Remote? {
      assert c.link in OffersOf(t.rib, issi);
    }
  }

  /** `reroute` changes nothing on a table that satisfies the invariant. */
  lemma RerouteIdempotent(t: Table, issi: Issi)
    requires EntryOk(t, issi)
    ensures Rerouted(t, issi) == t
  {
  }

  /** Nothing `EntryOk(_, issi)` looks at differs, except that the clock may have advanced. */
  ghost predicate Frame(t: Table, t': Table, issi: Issi) {
    && t'.selfId == t.selfId && t'.links == t.links && t.clock <= t'.clock
    && Get(t.subs, issi) == Get(t'.subs, issi)
    && Get(t.rib, issi) == Get(t'.rib, issi)
    && (forall c :: c in t.clients ==> c in t'.clients)
  }

  lemma EntryFrame(t: Table, t': Table, issi: Issi)
    requires EntryOk(t, issi) && Frame(t, t', issi)
    ensures EntryOk(t', issi)
  {
    assert OffersOf(t.rib, issi) == OffersOf(t'.rib, issi);
  }

  lemma InputFrame(t: Table, t': Table, issi: Issi)
    requires InputOk(t, issi) && Frame(t, t', issi)
    ensures InputOk(t', issi)
  {
    assert OffersOf(t.rib, issi) == OffersOf(t'.rib, issi);
  }

  /** After `reroute` the entry is a fixpoint, whatever it was before. */
  lemma RerouteEstablishes(t: Table, issi: Issi)
    requires InputOk(t, issi)
    ensures EntryOk(Rerouted(t, issi), issi)
    ensures forall j: Issi :: j != issi ==> Frame(t, Rerouted(t, issi), j)
  {
    var t' := Rerouted(t, issi);
    var c := Chosen(t, issi);
    if t' != t && c.Remote? {
      assert LocalOf(t', issi).None?;
      assert IsChoice(t'.selfId, None, t'.links, OffersOf(t'.rib, issi), c);
      ChoiceUnique(t'.selfId, None, t'.links, OffersOf(t'.rib, issi), c, Chosen(t', issi));
    } else if t' != t && c.Unreachable? {
      ChoiceUnique(t'.selfId, None, t'.links, OffersOf(t'.rib, issi), c, Chosen(t', issi));
    }
  }

  /** A local entry whose clock beats every offer is what selection picks. */
  lemma LocalStands(t: Table, issi: Issi)
    requires LocalOf(t, issi).Some?
    requires LocalWins(t.selfId, RegOf(LocalOf(t, issi)), OffersOf(t.rib, issi))
    ensures Desired(t, issi) == LocalOf(t, issi)
  {
    ChoiceUnique(t.selfId, RegOf(LocalOf(t, issi)), t.links, OffersOf(t.rib, issi), Local, Chosen(t, issi));
  }

  lemma TakeOfferOk(t: Table, src: ClientId, issi: Issi, a: Advert, now: u64)
    requires InputOk(t, issi) && src in t.links && Parsed(t.links[src], a)
    ensures InputOk(TakeOffer(t, src, issi, a, now), issi)
    ensures forall j: Issi :: j != issi ==> Frame(t, TakeOffer(t, src, issi, a, now), j)
  {
    var t1 := TakeOffer(t, src, issi, a, now);
    if Refused(t, a, now) {
      WithdrawOfferOk(t, src, issi);
    } else {
      var os := OffersOf(t.rib, issi)[src := a];
      assert OffersOf(t1.rib, issi) == os;
      assert os[src] == a;
    }
  }

  lemma WithdrawOfferOk(t: Table, src: ClientId, issi: Issi)
    requires InputOk(t, issi)
    ensures InputOk(t.(rib := WithdrawOffer(t.rib, issi, src)), issi)
    ensures forall j: Issi :: j != issi ==> Frame(t, t.(rib := WithdrawOffer(t.rib, issi, src)), j)
  {
    assert OffersOf(WithdrawOffer(t.rib, issi, src), issi) == OffersOf(t.rib, issi) - {src};
  }

  lemma FrameTrans(t: Table, t1: Table, t2: Table, issi: Issi)
    requires forall j: Issi :: j != issi ==> Frame(t, t1, j)
    requires forall j: Issi :: j != issi ==> Frame(t1, t2, j)
    ensures forall j: Issi :: j != issi ==> Frame(t, t2, j)
  {
    forall j: Issi | j != issi ensures Frame(t, t2, j) {
      assert Frame(t, t1, j) && Frame(t1, t2, j);
    }
  }

  lemma OnRouteOk(t: Table, src: ClientId, issi: Issi, a: Advert, now: u64)
    requires TableOk(t) && (src in t.links ==> Parsed(t.links[src], a))
    ensures TableOk(OnRoute(t, src, issi, a, now))
  {
    if src in t.links {
      assert EntryOk(t, issi);
      TakeOfferOk(t, src, issi, a, now);
      CommitOk(t, TakeOffer(t, src, issi, a, now), issi);
    }
  }

  lemma OnWithdrawOk(t: Table, src: ClientId, issi: Issi)
    requires TableOk(t)
    ensures TableOk(OnWithdraw(t, src, issi))
  {
    assert EntryOk(t, issi);
    WithdrawOfferOk(t, src, issi);
    CommitOk(t, t.(rib := WithdrawOffer(t.rib, issi, src)), issi);
  }

  /** A change to one ISSI's inputs, re-routed and published, keeps the invariant. */
  lemma CommitOk(t: Table, t1: Table, issi: Issi)
    requires TableOk(t) && t1.clients == t.clients && t1.sent == t.sent
    requires InputOk(t1, issi) && forall j: Issi :: j != issi ==> Frame(t, t1, j)
    ensures TableOk(Published(Rerouted(t1, issi), issi, Get(t.subs, issi)))
  {
    RerouteEstablishes(t1, issi);
    FrameTrans(t, t1, Rerouted(t1, issi), issi);
    AllEntries(t, Published(Rerouted(t1, issi), issi, Get(t.subs, issi)), Rerouted(t1, issi), issi);
  }

  /** Gluing: `t'` is `t1` up to `sent`, and `t1` differs from `t` at `issi` only. */
  lemma AllEntries(t: Table, t': Table, t1: Table, issi: Issi)
    requires TableOk(t) && t' == t1.(sent := t'.sent) && t'.sent.Keys == t.sent.Keys
    requires t1.clients == t.clients && EntryOk(t1, issi)
    requires forall j: Issi :: j != issi ==> Frame(t, t1, j)
    ensures TableOk(t')
  {
    forall j: Issi ensures EntryOk(t', j) {
      if j == issi {
        EntryFrame(t1, t', j);
      } else {
        assert EntryOk(t, j) && Frame(t, t1, j);
        EntryFrame(t, t', j);
      }
    }
    assert Frame(t, t1, if issi == 0 then 1 else 0);
  }

  /** `SUB_REGISTER` writes its entry without re-running selection. That keeps
      the fixpoint exactly when its tick beats every offer held for the ISSI. */
  lemma RegisterKeepsFixpoint(t: Table, src: ClientId, issi: Issi, groups: set<Gssi>, now: u64)
    requires TableOk(t) && src in t.clients && src !in t.links
    ensures TableOk(Registered(t, src, issi, groups, now)) <==>
      LocalWins(t.selfId, Some(Tick(t.clock, now)), OffersOf(t.rib, issi))
  {
    var t' := Registered(t, src, issi, groups, now);
    assert EntryOk(t, issi);
    if LocalWins(t.selfId, Some(Tick(t.clock, now)), OffersOf(t.rib, issi)) {
      LocalStands(t', issi);
      AllEntries(t, t', t', issi);
    } else {
      assert !EntryOk(t', issi);
    }
  }

  /** Below saturation a tick exceeds every clock observed so far, so it wins. */
  lemma TickWins(t: Table, issi: Issi, now: u64)
    requires EntryOk(t, issi) && t.clock < U64_MAX
    ensures Tick(t.clock, now) > t.clock
    ensures LocalWins(t.selfId, Some(Tick(t.clock, now)), OffersOf(t.rib, issi))
  {
  }

  lemma WrittenOk(t: Table, issi: Issi, groups: set<Gssi>)
    requires TableOk(t) && LocalOf(t, issi).Some?
    ensures TableOk(Written(t, issi, t.subs[issi].(groups := groups)))
  {
    var t' := Written(t, issi, t.subs[issi].(groups := groups));
    assert EntryOk(t, issi);
    assert Chosen(t, issi) == Local;
    LocalStands(t', issi);
    AllEntries(t, t', t', issi);
  }

  lemma OnSubOk(t: Table, src: ClientId, kind: SubKind, issi: Issi, groups: seq<Gssi>, now: u64)
    requires TableOk(t) && src in t.clients && t.clock < U64_MAX
    ensures TableOk(OnSub(t, src, kind, issi, groups, now))
  {
    assert EntryOk(t, issi);
    var prev := Get(t.subs, issi);
    if src !in t.links {
      TickWins(t, issi, now);
      if kind in {Register, Reregister} {
        RegisterKeepsFixpoint(t, src, issi, if prev.Some? then prev.value.groups else {}, now);
      } else if kind == Affiliate && prev.None? {
        RegisterKeepsFixpoint(t, src, issi, Elems(groups), now);
      } else if prev.Some? && prev.value.client == src {
        if kind == Affiliate {
          WrittenOk(t, issi, prev.value.groups + Elems(groups));
        } else if kind == Deaffiliate {
          WrittenOk(t, issi, prev.value.groups - Elems(groups));
        } else if kind == Deregister {
          CommitOk(t, t.(subs := t.subs - {issi}), issi);
        }
      }
    }
  }

  lemma AttachOk(t: Table, id: ClientId, mode: Mode, neighbour: Option<ServerId>)
    requires TableOk(t) && id !in t.sent && (neighbour.Some? ==> mode == Peer)
    ensures TableOk(Attach(t, id, mode, neighbour))
  {
    hide Attach, EntryOk;
    var t' := Attach(t, id, mode, neighbour);
    AttachShape(t, id, mode, neighbour);
    forall i: Issi ensures EntryOk(t', i) {
      assert EntryOk(t, i);
      AttachEntryOk(t, t', id, i);
    }
    forall l | l in t'.links ensures IsPeer(t', l) {
      assert Get(t'.links, l) == if l == id then neighbour else Get(t.links, l);
    }
  }

  /** A new connection changes nothing but itself. */
  lemma AttachShape(t: Table, id: ClientId, mode: Mode, neighbour: Option<ServerId>)
    ensures var t' := Attach(t, id, mode, neighbour);
      && t'.selfId == t.selfId && t'.clock == t.clock && t'.subs == t.subs && t'.rib == t.rib
      && t'.clients == t.clients[id := mode] && t'.sent.Keys == t.sent.Keys + {id}
      && Get(t'.links, id) == neighbour && forall l :: l != id ==> Get(t'.links, l) == Get(t.links, l)
  {
    hide SyncMessages;
  }

  lemma AttachEntryOk(t: Table, t': Table, id: ClientId, i: Issi)
    requires EntryOk(t, i) && id !in t.clients && id !in t.links
    requires forall l :: l in t.links ==> IsPeer(t, l)
    requires t'.selfId == t.selfId && t'.clock == t.clock && t'.subs == t.subs && t'.rib == t.rib
    requires forall c :: c in t.clients ==> c in t'.clients
    requires forall l :: l != id ==> Get(t'.links, l) == Get(t.links, l)
    ensures EntryOk(t', i)
  {
    if i in t.subs { EntryMeaning(t, i); }
    forall l | l in t.links ensures l in t'.links && t'.links[l] == t.links[l] {
      assert Get(t'.links, l) == Get(t.links, l);
    }
    assert i in t.subs ==> (t.subs[i].client in t'.links <==> t.subs[i].client in t.links) by {
      if i in t.subs { assert Get(t'.links, t.subs[i].client) == Get(t.links, t.subs[i].client); }
    }
    assert LocalOf(t', i) == LocalOf(t, i);
    SelectFrame(t.selfId, RegOf(LocalOf(t, i)), t.links, t'.links, OffersOf(t.rib, i), Chosen(t, i));
  }

  /** Selection looks at the neighbour ids of offering links only. */
  lemma SelectFrame(selfId: ServerId, local: Option<u64>, links: map<ClientId, ServerId>, links': map<ClientId,
                    ServerId>, cands: Offers, c: Choice)
    requires forall l :: l in cands ==> l in links && l in links' && links[l] == links'[l]
    requires c == Select(selfId, local, links, cands)
    ensures c == Select(selfId, local, links', cands)
  {
    if c.Remote? {
      var w :| IsNewest(cands, w) && IsClosest(links, cands, c.link, Origin(cands[w]));
      assert IsClosest(links', cands, c.link, Origin(cands[w]));
    }
    ChoiceUnique(selfId, local, links', cands, c, Select(selfId, local, links', cands));
  }

  lemma DroppedInputOk(t: Table, id: ClientId, i: Issi)
    requires InputOk(t, i)
    ensures InputOk(Dropped(t, id), i)
    ensures i !in Affected(t, id) ==> OffersOf(Dropped(t, id).rib, i) == OffersOf(t.rib, i)
  {
    if id in OffersOf(t.rib, i) { assert i in Affected(t, id); }
    assert OffersOf(Dropped(t, id).rib, i) == OffersOf(t.rib, i) - {id};
  }

  /** After the bulk removal every ISSI that was not affected is still a fixpoint. */
  lemma DroppedEntryOk(t: Table, id: ClientId, i: Issi)
    requires EntryOk(t, i) && i !in Affected(t, id)
    ensures EntryOk(Dropped(t, id), i)
  {
    var d := Dropped(t, id);
    DroppedInputOk(t, id, i);
    if i in t.subs { EntryMeaning(t, i); }
    assert LocalOf(d, i) == LocalOf(t, i);
    SelectFrame(t.selfId, RegOf(LocalOf(t, i)), t.links, d.links, OffersOf(t.rib, i), Chosen(t, i));
  }

  /** The re-routing loop of a cleanup: entries done so far are fixpoints, the rest untouched. */
  lemma {:induction false} SettledOk(d: Table, issis: seq<Issi>, before: Subs)
    requires forall i :: i in issis ==> InputOk(d, i)
    ensures var s := Settled(d, issis, before);
      && s == d.(subs := s.subs, sent := s.sent) && s.sent.Keys == d.sent.Keys
      && (forall j: Issi :: j !in issis ==> Frame(d, s, j))
      && (forall i :: i in issis ==> EntryOk(s, i))
    decreases |issis|
  {
    if issis != [] {
      var last := |issis| - 1;
      var (init, x) := (issis[..last], issis[last]);
      SettledOk(d, init, before);
      var m := Settled(d, init, before);
      assert InputOk(m, x) by {
        if x in init { assert EntryOk(m, x); } else { InputFrame(d, m, x); }
      }
      RerouteEstablishes(m, x);
      var (r, s) := (Rerouted(m, x), Settled(d, issis, before));
      forall i | i in issis ensures EntryOk(s, i) {
        if i == x { EntryFrame(r, s, i); } else { assert i in init && Frame(m, r, i); EntryFrame(m, s, i); }
      }
      forall j: Issi | j !in issis ensures Frame(d, s, j) {
        assert j !in init && Frame(d, m, j) && Frame(m, r, j);
      }
    }
  }

  lemma CleanupOk(t: Table, id: ClientId)
    requires TableOk(t)
    ensures TableOk(Cleanup(t, id))
  {
    var (d, issis, s) := (Dropped(t, id), Sorted(Affected(t, id)), Cleanup(t, id));
    assert Elems(issis) == Affected(t, id);
    forall i | i in issis ensures InputOk(d, i) {
      assert EntryOk(t, i);
      DroppedInputOk(t, id, i);
    }
    SettledOk(d, issis, t.subs);
    forall i: Issi ensures EntryOk(s, i) {
      if i !in issis {
        assert i !in Elems(issis) && EntryOk(t, i);
        DroppedEntryOk(t, id, i);
        EntryFrame(d, s, i);
      }
    }
  }

  // ----- runs -----

  datatype Event =
    | RouteIn(src: ClientId, issi: Issi, advert: Advert, now: u64)
    | WithdrawIn(src: ClientId, issi: Issi)
    | SubIn(src: ClientId, kind: SubKind, issi: Issi, groups: seq<Gssi>, now: u64)
    | LinkUp(id: ClientId, mode: Mode, neighbour: Option<ServerId>)
    | LinkDown(id: ClientId)

  /** Messages come from live connections and have been parsed; connection ids
      are never reused; only peer links negotiate loop-safe mode. */
  ghost predicate Enabled(t: Table, e: Event) {
    match e
    case RouteIn(src, _, a, _) => src in t.clients && (src in t.links ==> Parsed(t.links[src], a))
    case WithdrawIn(src, _) => src in t.clients
    case SubIn(src, _, _, _, _) => src in t.clients
    case LinkUp(id, mode, neighbour) => id !in t.sent && (neighbour.Some? ==> mode == Peer)
    case LinkDown(id) => true
  }

  ghost function Next(t: Table, e: Event): Table {
    match e
    case RouteIn(src, issi, a, now) => OnRoute(t, src, issi, a, now)
    case WithdrawIn(src, issi) => OnWithdraw(t, src, issi)
    case SubIn(src, kind, issi, groups, now) => OnSub(t, src, kind, issi, groups, now)
    case LinkUp(id, mode, neighbour) => Attach(t, id, mode, neighbour)
    case LinkDown(id) => Cleanup(t, id)
  }

  ghost function Run(selfId: ServerId, es: seq<Event>): Table {
    if es == [] then Initial(selfId) else Next(Run(selfId, es[..|es| - 1]), es[|es| - 1])
  }

  ghost predicate ValidRun(selfId: ServerId, es: seq<Event>) {
    es == [] || (ValidRun(selfId, es[..|es| - 1]) && Enabled(Run(selfId, es[..|es| - 1]), es[|es| - 1]))
  }

  function TimeOf(e: Event): u64 {
    if e.RouteIn? || e.SubIn? then e.now else 0
  }

  /** Every wall-clock reading leaves room for the accepted future and one tick per event. */
  ghost predicate TimelyRun(es: seq<Event>, latest: nat) {
    && latest + MAX_FUTURE_MS + |es| < U64_MAX
    && forall k :: 0 <= k < |es| ==> TimeOf(es[k]) <= latest
  }

  lemma NextOk(t: Table, e: Event)
    requires TableOk(t) && Enabled(t, e) && t.clock < U64_MAX
    ensures TableOk(Next(t, e))
  {
    match e
    case RouteIn(src, issi, a, now) => OnRouteOk(t, src, issi, a, now);
    case WithdrawIn(src, issi) => OnWithdrawOk(t, src, issi);
    case SubIn(src, kind, issi, groups, now) => OnSubOk(t, src, kind, issi, groups, now);
    case LinkUp(id, mode, neighbour) => AttachOk(t, id, mode, neighbour);
    case LinkDown(id) => CleanupOk(t, id);
  }

  lemma ClockStep(t: Table, e: Event, latest: nat)
    requires TimeOf(e) <= latest && latest + MAX_FUTURE_MS <= U64_MAX
    ensures Next(t, e).clock <= t.clock + 1 || Next(t, e).clock <= latest + MAX_FUTURE_MS
  {
    if e.LinkDown? {
      SettledClock(Dropped(t, e.id), Sorted(Affected(t, e.id)), t.subs);
    }
  }

  lemma {:induction false} SettledClock(d: Table, issis: seq<Issi>, before: Subs)
    ensures Settled(d, issis, before).clock == d.clock
    decreases |issis|
  {
    if issis != [] { SettledClock(d, issis[..|issis| - 1], before); }
  }

  /** In every state reached within clock range, `reroute` changes nothing for any ISSI. */
  lemma {:induction false} AlwaysFixpoint(selfId: ServerId, es: seq<Event>, latest: nat)
    requires ValidRun(selfId, es) && TimelyRun(es, latest)
    ensures TableOk(Run(selfId, es))
    ensures Run(selfId, es).clock <= latest + MAX_FUTURE_MS + |es|
    ensures forall i: Issi :: Rerouted(Run(selfId, es), i) == Run(selfId, es)
  {
    if es == [] {
      var t := Initial(selfId);
      forall i: Issi ensures EntryOk(t, i) {
        ChoiceUnique(selfId, None, t.links, map[], Unreachable, Chosen(t, i));
      }
    } else {
      var (init, e) := (es[..|es| - 1], es[|es| - 1]);
      AlwaysFixpoint(selfId, init, latest);
      NextOk(Run(selfId, init), e);
      ClockStep(Run(selfId, init), e, latest);
    }
    forall i: Issi ensures Rerouted(Run(selfId, es), i) == Run(selfId, es) {
      assert EntryOk(Run(selfId, es), i);
    }
  }

  // ----- the end of the clock -----

  /** Server 9 announces a registration at the last instant there is. */
  const LAST: Advert := Advert(U64_MAX, [9], [])

  /** A link to server 9, a Basestation, and that announcement, heard within the
      last day of the clock. */
  const LAST_DAY: seq<Event> :=
    [LinkUp(5, Peer, Some(9)), LinkUp(6, Basestation, None), RouteIn(5, 7, LAST, U64_MAX - 1000)]

  const Saturated: Table :=
    Table(1, U64_MAX, map[5 := Peer, 6 := Basestation], map[5 := 9], map[7 := FromAdvert(5, LAST)],
          map[7 := map[5 := LAST]],
          map[5 := [FedWithdraw(7)], 6 := []])

  const Linked: Table := Table(1, 0, map[5 := Peer], map[5 := 9], map[], map[], map[5 := []])
  const Based: Table := Linked.(clients := map[5 := Peer, 6 := Basestation], sent := map[5 := [], 6 := []])

  lemma LastDayLinks()
    ensures Attach(Initial(1), 5, Peer, Some(9)) == Linked && Attach(Linked, 6, Basestation, None) == Based
  {
    var t := Attach(Initial(1), 5, Peer, Some(9));
    assert t.subs.Keys == {} && Sorted({}) == [];
    assert t.sent == map[5 := []];
  }

  lemma LastDayRoute()
    ensures OnRoute(Based, 5, 7, LAST, U64_MAX - 1000) == Saturated
  {
    hide Rerouted, Published, TakeOffer;
    LastDayOffer();
    LastDayChoice();
    LastDayTold();
  }

  /** The table with the offer, before and after it selects. */
  function Offered(): Table {
    Based.(clock := U64_MAX, rib := map[7 := map[5 := LAST]])
  }

  function Selected(): Table {
    Offered().(subs := map[7 := FromAdvert(5, LAST)])
  }

  lemma LastDayOffer()
    ensures TakeOffer(Based, 5, 7, LAST, U64_MAX - 1000) == Offered()
  {
    assert TakeOffer(Based, 5, 7, LAST, U64_MAX - 1000).rib == Offered().rib;
  }

  lemma LastDayChoice()
    ensures Rerouted(Offered(), 7) == Selected()
  {
    var t := Offered();
    var cands := OffersOf(t.rib, 7);
    assert IsNewest(cands, 5) && IsClosest(t.links, cands, 5, 9);
    assert IsChoice(1, None, t.links, cands, Remote(5));
    ChoiceUnique(1, None, t.links, cands, Remote(5), Chosen(t, 7));
    assert Rerouted(t, 7).subs == Selected().subs;
  }

  lemma LastDayTold()
    ensures Published(Selected(), 7, None) == Saturated
  {
    hide FromAdvert;
    var r := Selected();
    assert UpdatesTo(1, r.links, 5, 7, None, Get(r.subs, 7)) == [FedWithdraw(7)] by { LastDayWithdrawn(r); }
    assert Published(r, 7, None).sent[5] == [] + [FedWithdraw(7)] == [FedWithdraw(7)];
    assert Published(r, 7, None).sent == Saturated.sent;
  }

  lemma LastDayWithdrawn(r: Table)
    requires r == Selected()
    ensures UpdatesTo(1, r.links, 5, 7, None, Get(r.subs, 7)) == [FedWithdraw(7)]
  {
  }

  /** The saturated table is reached by a run, and sound. */
  lemma LastDayRun()
    ensures ValidRun(1, LAST_DAY) && Run(1, LAST_DAY) == Saturated && TableOk(Saturated)
  {
    hide TableOk, Attach, OnRoute;
    var (e0, e1, e2) := (LAST_DAY[0], LAST_DAY[1], LAST_DAY[2]);
    LastDayLinks();
    LastDayRoute();
    assert [e0][..0] == [] && LAST_DAY[..2] == [e0, e1] && [e0, e1][..1] == [e0];
    assert Run(1, [e0]) == Next(Run(1, []), e0) == Linked;
    assert Run(1, [e0, e1]) == Next(Run(1, [e0]), e1) == Based;
    assert Run(1, LAST_DAY) == Next(Run(1, [e0, e1]), e2) == Saturated;
    assert ValidRun(1, []) && ValidRun(1, [e0]) && ValidRun(1, [e0, e1]);
    AlwaysFixpoint(1, [], 0);
    NextOk(Initial(1), e0);
    NextOk(Linked, e1);
    NextOk(Based, e2);
  }

  /** There a tick need not win: after that run any registration of the radio at
      this server, at any time, leaves a table that is no fixpoint. */
  lemma SaturatedTickCanLose(now: u64)
    ensures var t := Run(1, LAST_DAY);
      && ValidRun(1, LAST_DAY) && TableOk(t) && Enabled(t, SubIn(6, Register, 7, [], now))
      && !TableOk(Registered(t, 6, 7, {}, now))
  {
    hide TableOk, EntryOk, Run;
    LastDayRun();
    RegisterKeepsFixpoint(Saturated, 6, 7, {}, now);
    assert OffersOf(Saturated.rib, 7)[5] == LAST;
    assert Older(U64_MAX, 1, U64_MAX, Origin(LAST));
  }
}
