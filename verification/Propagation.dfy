/** What travels: the messages queued on a link are exactly the differences of
    the effective table, so replaying them gives the same picture as a full sync. */
module Propagation {
  import opened FedTypes
  import opened RouteSelection
  import opened RouteTable
  import opened TableInvariant

  // ----- per-ISSI history -----

  /** The messages about one ISSI, in order. */
  function About(ms: seq<Msg>, issi: Issi): seq<Msg> {
    if ms == [] then []
    else
      var (init, m) := (ms[..|ms| - 1], ms[|ms| - 1]);
      About(init, issi) + (if m.issi == issi then [m] else [])
  }

  lemma {:induction false} AboutConcat(a: seq<Msg>, b: seq<Msg>, issi: Issi)
    ensures About(a + b, issi) == About(a, issi) + About(b, issi)
    decreases |b|
  {
    if b == [] {
      assert a + b == a;
    } else {
      var (init, m) := (b[..|b| - 1], b[|b| - 1]);
      assert (a + b)[..|a + b| - 1] == a + init;
      AboutConcat(a, init, issi);
    }
  }

  lemma {:induction false} AboutUniform(ms: seq<Msg>, issi: Issi, j: Issi)
    requires forall m :: m in ms ==> m.issi == issi
    ensures About(ms, j) == if j == issi then ms else []
  {
    if ms != [] { AboutUniform(ms[..|ms| - 1], issi, j); }
  }

  /** What link `l` is queued about `issi` when the table goes from `t` to `t'`. */
  function Delta(t: Table, t': Table, l: ClientId, issi: Issi): seq<Msg> {
    UpdatesTo(t.selfId, t.links, l, issi, Get(t.subs, issi), Get(t'.subs, issi))
  }

  /** Link `l` was queued precisely the difference, for this ISSI. */
  ghost predicate ToldDifference(t: Table, t': Table, l: ClientId, issi: Issi) {
    l in t.sent && l in t'.sent
    && About(t'.sent[l], issi) == About(t.sent[l], issi) + Delta(t, t', l, issi)
  }

  /** Publishing touches the history of the published ISSI only. */
  lemma PublishedAbout(t: Table, issi: Issi, prev: Option<Subscriber>, l: ClientId, j: Issi)
    requires l in t.sent && IsPeer(t, l)
    ensures About(Published(t, issi, prev).sent[l], j) ==
      About(t.sent[l], j) + (if j == issi then UpdatesTo(t.selfId, t.links, l, issi, prev, Get(t.subs, issi)) else [])
  {
    hide Desired, UpdatesTo;
    var u := UpdatesTo(t.selfId, t.links, l, issi, prev, Get(t.subs, issi));
    AboutConcat(t.sent[l], u, j);
    AboutUniform(u, issi, j);
  }

  lemma {:induction false} SettledShape(d: Table, issis: seq<Issi>, before: Subs)
    ensures var s := Settled(d, issis, before);
      && s == d.(subs := s.subs, sent := s.sent) && s.sent.Keys == d.sent.Keys
      && forall j :: j !in issis ==> Get(s.subs, j) == Get(d.subs, j)
    decreases |issis|
  {
    hide Rerouted, Published;
    if issis != [] { SettledShape(d, issis[..|issis| - 1], before); }
  }

  lemma {:induction false} SettledAbout(d: Table, issis: seq<Issi>, before: Subs, l: ClientId, j: Issi)
    requires l in d.sent && IsPeer(d, l) && Distinct(issis)
    ensures l in Settled(d, issis, before).sent
    ensures About(Settled(d, issis, before).sent[l], j) == About(d.sent[l], j)
      + if j in issis then UpdatesTo(d.selfId, d.links, l, j, Get(before, j), Get(Settled(d, issis, before).subs, j))
          else []
    decreases |issis|
  {
    hide Rerouted, Published, UpdatesTo, About;
    SettledShape(d, issis, before);
    if issis != [] {
      var last := |issis| - 1;
      var (init, x) := (issis[..last], issis[last]);
      SettledAbout(d, init, before, l, j);
      SettledShape(d, init, before);
      PublishedAbout(Rerouted(Settled(d, init, before), x), x, Get(before, x), l, j);
      assert j in issis <==> j in init || j == x;
      assert x !in init;
    }
  }

  /** Only link events change which connections are live. */
  lemma NextShape(t: Table, e: Event)
    ensures var t' := Next(t, e);
      && t'.selfId == t.selfId
      && (e.LinkUp? ==> t'.clients == t.clients[e.id := e.mode] && t'.links == Put(t.links, e.id, e.neighbour))
      && (e.LinkDown? ==> t'.clients == t.clients - {e.id} && t'.links == t.links - {e.id})
      && (!e.LinkUp? && !e.LinkDown? ==> t'.clients == t.clients && t'.links == t.links)
  {
    hide Rerouted, Published, OnRoute, OnWithdraw, OnSub;
    if e.LinkDown? {
      SettledShape(Dropped(t, e.id), Sorted(Affected(t, e.id)), t.subs);
    }
  }

  /** Every handler tells every live peer link exactly the change it made. */
  lemma NextTellsDifference(t: Table, e: Event, l: ClientId, issi: Issi)
    requires TableOk(t) && Enabled(t, e) && IsPeer(t, l) && IsPeer(Next(t, e), l)
    ensures ToldDifference(t, Next(t, e), l, issi)
    ensures l in t.links <==> l in Next(t, e).links
    ensures Next(t, e).selfId == t.selfId && NeighbourOf(Next(t, e).links, l) == NeighbourOf(t.links, l)
  {
    hide Rerouted, Published, EntryOk, UpdatesTo, About, Attach, OnSub, Settled;
    NextShape(t, e);
    match e
    case RouteIn(src, i, a, now) =>
      if src in t.links {
        PublishedAbout(Rerouted(TakeOffer(t, src, i, a, now), i), i, Get(t.subs, i), l, issi);
      }
    case WithdrawIn(src, i) =>
      PublishedAbout(Rerouted(t.(rib := WithdrawOffer(t.rib, i, src)), i), i, Get(t.subs, i), l, issi);
    case SubIn(src, kind, i, groups, now) =>
      SubTellsDifference(t, src, kind, i, groups, now, l, issi);
    case LinkUp(id, mode, neighbour) =>
      AttachTells(t, id, mode, neighbour, l);
    case LinkDown(id) =>
      CleanupTells(t, id, l, issi);
  }

  lemma AttachTells(t: Table, id: ClientId, mode: Mode, neighbour: Option<ServerId>, l: ClientId)
    requires l in t.sent && id != l
    ensures var t' := Attach(t, id, mode, neighbour);
      l in t'.sent && t'.sent[l] == t.sent[l] && t'.subs == t.subs && Get(t'.links, l) == Get(t.links, l)
  {
  }

  lemma CleanupTells(t: Table, id: ClientId, l: ClientId, issi: Issi)
    requires l in t.sent && l != id && IsPeer(t, l)
    ensures ToldDifference(t, Cleanup(t, id), l, issi)
  {
    hide About, UpdatesTo;
    var (d, issis) := (Dropped(t, id), Sorted(Affected(t, id)));
    assert Distinct(issis) && Elems(issis) == Affected(t, id);
    SettledShape(d, issis, t.subs);
    SettledAbout(d, issis, t.subs, l, issi);
    assert issi in issis <==> issi in Affected(t, id);
    assert issi !in issis ==> Get(Cleanup(t, id).subs, issi) == Get(t.subs, issi);
    LinkOnly(t.selfId, t.links, d.links, l, issi, Get(t.subs, issi), Get(Cleanup(t, id).subs, issi));
  }

  /** What a link is told depends on its own negotiation only. */
  lemma LinkOnly(selfId: ServerId, links: map<ClientId, ServerId>, links': map<ClientId, ServerId>, l: ClientId,
                 issi: Issi, prev: Option<Subscriber>, next: Option<Subscriber>)
    requires Get(links, l) == Get(links', l)
    ensures UpdatesTo(selfId, links, l, issi, prev, next) == UpdatesTo(selfId, links', l, issi, prev, next)
  {
  }

  lemma SubTellsDifference(t: Table, src: ClientId, kind: SubKind, i: Issi, groups: seq<Gssi>, now: u64, l: ClientId,
                           issi: Issi)
    requires IsPeer(t, l) && l in t.sent
    ensures var t' := OnSub(t, src, kind, i, groups, now);
      ToldDifference(t, t', l, issi) && t'.links == t.links && t'.selfId == t.selfId
  {
    hide Desired, UpdatesTo;
    var t' := OnSub(t, src, kind, i, groups, now);
    if t' != t {
      var t1 := t'.(sent := t.sent);
      assert t' == Published(t1, i, Get(t.subs, i));
      PublishedAbout(t1, i, Get(t.subs, i), l, issi);
    }
  }

  // ----- loop-safe links: incremental equals full sync -----

  /** The offer a receiver holds after a history about one ISSI. */
  function LastOffer(ms: seq<Msg>): Option<Advert> {
    if ms == [] then None
    else match ms[|ms| - 1]
      case FedRoute(_, a) => Some(a)
      case _ => None
  }

  function Replay(ms: seq<Msg>, issi: Issi): Option<Advert> {
    LastOffer(About(ms, issi))
  }

  function OfferNow(t: Table, l: ClientId, issi: Issi): Option<Advert>
    requires l in t.links
  {
    OfferFor(t.selfId, l, t.links[l], Get(t.subs, issi))
  }

  ghost predicate InSync(t: Table) {
    forall l, i: Issi :: l in t.links ==> l in t.sent && Replay(t.sent[l], i) == OfferNow(t, l, i)
  }

  lemma {:induction false} SyncOverReplay(t: Table, link: ClientId, issis: seq<Issi>, i: Issi)
    requires link in t.links && Distinct(issis)
    ensures var m := OfferNow(t, link, i);
      About(SyncOver(t, link, issis), i) == if i in issis && m.Some? then [FedRoute(i, m.value)] else []
    decreases |issis|
  {
    hide About, Sorted;
    if issis == [] {
      AboutUniform([], i, i);
    } else {
      var (x, rest) := (issis[0], issis[1..]);
      var m := FedUpdate(t.selfId, link, t.links[link], x, Get(t.subs, x));
      var head := if m.FedRoute? then [m] else [];
      assert SyncOver(t, link, issis) == head + SyncOver(t, link, rest);
      assert issis == [x] + rest;
      SyncOverReplay(t, link, rest, i);
      AboutConcat(head, SyncOver(t, link, rest), i);
      AboutUniform(head, x, i);
      assert x !in rest;
    }
  }

  /** The full sync offers exactly what the current table allows. */
  lemma SyncReplay(t: Table, link: ClientId, i: Issi)
    requires link in t.links
    ensures Replay(SyncMessages(t, link), i) == OfferNow(t, link, i)
  {
    hide About, SyncOver, UpdatesTo;
    var issis := Sorted(t.subs.Keys);
    assert Elems(issis) == t.subs.Keys;
    SyncOverReplay(t, link, issis, i);
    assert i in issis <==> i in t.subs;
  }

  /** One difference brings the replayed offer up to date. */
  lemma OfferFollows(t: Table, t': Table, l: ClientId, i: Issi)
    requires l in t.links && l in t'.links && t'.links[l] == t.links[l] && t'.selfId == t.selfId
    requires ToldDifference(t, t', l, i)
    requires Replay(t.sent[l], i) == OfferNow(t, l, i)
    ensures Replay(t'.sent[l], i) == OfferNow(t', l, i)
  {
  }

  lemma NextInSync(t: Table, e: Event)
    requires TableOk(t) && Enabled(t, e) && InSync(t) && TableOk(Next(t, e))
    ensures InSync(Next(t, e))
  {
    hide Desired, EntryOk, Next;
    var t' := Next(t, e);
    forall l, i: Issi | l in t'.links
      ensures l in t'.sent && Replay(t'.sent[l], i) == OfferNow(t', l, i)
    {
      assert IsPeer(t', l);
      if e.LinkUp? && l == e.id {
        FreshInSync(t, e, i);
      } else {
        LinksComeFrom(t, e, l);
        NextTellsDifference(t, e, l, i);
        OfferFollows(t, t', l, i);
      }
    }
  }

  /** A link that just came up was sent the whole table. */
  lemma FreshInSync(t: Table, e: Event, i: Issi)
    requires TableOk(t) && Enabled(t, e) && TableOk(Next(t, e)) && e.LinkUp? && e.id in Next(t, e).links
    ensures var t' := Next(t, e); e.id in t'.sent && Replay(t'.sent[e.id], i) == OfferNow(t', e.id, i)
  {
    hide Desired, EntryOk;
    var t' := Next(t, e);
    var t1 := t'.(sent := t.sent[e.id := []]);
    SyncReplay(t1, e.id, i);
    SyncOverFrame(t1, t', e.id, Sorted(t.subs.Keys));
  }

  lemma LinksComeFrom(t: Table, e: Event, l: ClientId)
    requires l in Next(t, e).links && !(e.LinkUp? && l == e.id)
    ensures l in t.links
  {
    hide Next;
    NextShape(t, e);
    if e.LinkUp? { assert Get(Next(t, e).links, l) == Get(t.links, l); }
  }

  lemma {:induction false} SyncOverFrame(t: Table, t': Table, l: ClientId, issis: seq<Issi>)
    requires t'.selfId == t.selfId && t'.links == t.links && t'.subs == t.subs
    ensures SyncOver(t', l, issis) == SyncOver(t, l, issis)
    decreases |issis|
  {
    if issis != [] { SyncOverFrame(t, t', l, issis[1..]); }
  }

  lemma {:induction false} AlwaysInSync(selfId: ServerId, es: seq<Event>, latest: nat)
    requires ValidRun(selfId, es) && TimelyRun(es, latest)
    ensures InSync(Run(selfId, es))
  {
    hide Desired, EntryOk;
    AlwaysFixpoint(selfId, es, latest);
    if es != [] {
      var init := es[..|es| - 1];
      AlwaysFixpoint(selfId, init, latest);
      AlwaysInSync(selfId, init, latest);
      NextInSync(Run(selfId, init), es[|es| - 1]);
    }
  }

  /** In every run, replaying everything ever queued on a live negotiated link
      gives, ISSI by ISSI, what a full sync of the current table would give. */
  lemma IncrementalEqualsFullSync(selfId: ServerId, es: seq<Event>, latest: nat, l: ClientId, issi: Issi)
    requires ValidRun(selfId, es) && TimelyRun(es, latest)
    requires l in Run(selfId, es).links
    ensures var t := Run(selfId, es);
      l in t.sent && Replay(t.sent[l], issi) == Replay(SyncMessages(t, l), issi)
  {
    AlwaysInSync(selfId, es, latest);
    SyncReplay(Run(selfId, es), l, issi);
  }

  // ----- every advert sent can be accepted -----

  /** An advert the table emits is well formed for the neighbour and does not hold its id. */
  lemma OfferAccepted(t: Table, l: ClientId, issi: Issi)
    requires EntryOk(t, issi) && l in t.links && OfferNow(t, l, issi).Some?
    requires t.links[l] != t.selfId
    ensures var a := OfferNow(t, l, issi).value;
      Parsed(t.selfId, a) && t.links[l] !in a.path && Elems(a.groups) == t.subs[issi].groups
  {
    EntryMeaning(t, issi);
  }

  // ----- legacy links: the SUB messages are a correct diff -----

  /** One SUB message at a receiver where the ISSI is ours or absent: REGISTER
      keeps the groups, AFFILIATE also registers. */
  function ApplySub(held: Option<set<Gssi>>, m: Msg): Option<set<Gssi>> {
    match m
    case SubMsg(Register, _, _) => Some(if held.Some? then held.value else {})
    case SubMsg(Reregister, _, _) => Some(if held.Some? then held.value else {})
    case SubMsg(Deregister, _, _) => None
    case SubMsg(Affiliate, _, gs) => Some((if held.Some? then held.value else {}) + Elems(gs))
    case SubMsg(Deaffiliate, _, gs) => if held.Some? then Some(held.value - Elems(gs)) else None
    case _ => held
  }

  function HeldAfter(held: Option<set<Gssi>>, ms: seq<Msg>): Option<set<Gssi>> {
    if ms == [] then held else ApplySub(HeldAfter(held, ms[..|ms| - 1]), ms[|ms| - 1])
  }

  lemma {:induction false} HeldConcat(h: Option<set<Gssi>>, a: seq<Msg>, b: seq<Msg>)
    ensures HeldAfter(h, a + b) == HeldAfter(HeldAfter(h, a), b)
    decreases |b|
  {
    if b == [] {
      assert a + b == a;
    } else {
      assert (a + b)[..|a + b| - 1] == a + b[..|b| - 1];
      HeldConcat(h, a, b[..|b| - 1]);
    }
  }

  function GroupsOf(s: Option<Subscriber>): Option<set<Gssi>> {
    match s case None => None case Some(x) => Some(x.groups)
  }

  /** `ApplySub` is what the receiving server's own handler does. */
  lemma ReceiverRules(r: Table, src: ClientId, m: Msg, now: u64)
    requires m.SubMsg? && src !in r.links
    requires m.issi in r.subs ==> r.subs[m.issi].client == src
    ensures var r' := OnSub(r, src, m.kind, m.issi, m.groups, now);
      && (m.kind != Deregister ==> GroupsOf(Get(r'.subs, m.issi)) == ApplySub(GroupsOf(Get(r.subs, m.issi)), m))
      && (m.kind == Deregister && OffersOf(r.rib, m.issi) == map[] ==> m.issi !in r'.subs)
      && (m.issi in r'.subs && m.kind != Deregister ==> r'.subs[m.issi].client == src)
  {
    hide Rerouted, Published, OffersOf;
    assert {} + Elems(m.groups) == Elems(m.groups);
    if m.kind == Deregister && OffersOf(r.rib, m.issi) == map[] { ReceiverForgets(r, src, m, now); }
  }

  lemma ReceiverForgets(r: Table, src: ClientId, m: Msg, now: u64)
    requires m.SubMsg? && m.kind == Deregister && src !in r.links && OffersOf(r.rib, m.issi) == map[]
    requires m.issi in r.subs ==> r.subs[m.issi].client == src
    ensures m.issi !in OnSub(r, src, m.kind, m.issi, m.groups, now).subs
  {
    hide Rerouted;
    if m.issi in r.subs {
      var r1 := r.(subs := r.subs - {m.issi});
      NowhereElse(r1, m.issi);
    }
  }

  lemma NowhereElse(r: Table, issi: Issi)
    requires issi !in r.subs && OffersOf(r.rib, issi) == map[]
    ensures issi !in Rerouted(r, issi).subs
  {
    ChoiceUnique(r.selfId, None, r.links, map[], Unreachable, Chosen(r, issi));
  }

  ghost predicate NotOwner(t: Table, l: ClientId, issi: Issi) {
    issi in t.subs ==> t.subs[issi].client != l
  }

  /** A diff between two entries, applied to the first, gives the second. */
  lemma LegacyDiff(issi: Issi, prev: Option<Subscriber>, next: Option<Subscriber>, peer: ClientId)
    requires prev.Some? ==> prev.value.client != peer
    requires next.Some? ==> next.value.client != peer
    ensures HeldAfter(GroupsOf(prev), LegacyUpdates(issi, prev, next, peer)) == GroupsOf(next)
  {
    var h := GroupsOf(prev);
    if next.Some? {
      var n := next.value.groups;
      var o := if prev.Some? then prev.value.groups else {};
      var reg := [SubMsg(Register, issi, [])];
      var renewed := prev.None? || prev.value.route.reg != next.value.route.reg;
      var first := if renewed then reg + AffiliateMsg(issi, n) else AffiliateMsg(issi, n - o);
      assert HeldAfter(h, reg) == Some(o) by { assert reg[..0] == []; }
      HeldConcat(h, reg, AffiliateMsg(issi, n));
      AffiliateHeld(o, issi, n);
      AffiliateHeld(o, issi, n - o);
      assert o + (n - o) == o + n;
      assert HeldAfter(h, first) == Some(o + n);
      if prev.Some? {
        HeldConcat(h, first, DeaffiliateMsg(issi, o - n));
        DeaffiliateHeld(o + n, issi, o - n);
        assert o + n - (o - n) == n;
      } else {
        assert o + n == n;
      }
    } else if prev.Some? {
      assert [SubMsg(Deregister, issi, [])][..0] == [];
    }
  }

  lemma AffiliateHeld(o: set<Gssi>, issi: Issi, gs: set<Gssi>)
    ensures HeldAfter(Some(o), AffiliateMsg(issi, gs)) == Some(o + gs)
  {
    if gs != {} {
      assert AffiliateMsg(issi, gs)[..0] == [];
    } else {
      assert o + gs == o;
    }
  }

  lemma DeaffiliateHeld(o: set<Gssi>, issi: Issi, gs: set<Gssi>)
    ensures HeldAfter(Some(o), DeaffiliateMsg(issi, gs)) == Some(o - gs)
  {
    if gs != {} {
      assert DeaffiliateMsg(issi, gs)[..0] == [];
    } else {
      assert o - gs == o;
    }
  }

  ghost predicate NeverOwner(selfId: ServerId, es: seq<Event>, l: ClientId, issi: Issi) {
    forall k :: 0 <= k <= |es| ==> NotOwner(Run(selfId, es[..k]), l, issi)
  }

  /** For an ISSI a legacy peer never registers itself, replaying the SUB
      messages queued to it gives the registered flag and groups of the
      current effective entry, in every run. */
  lemma {:induction false} LegacyRelayCorrect(selfId: ServerId, es: seq<Event>, latest: nat, l: ClientId, issi: Issi)
    requires ValidRun(selfId, es) && TimelyRun(es, latest)
    requires NeverOwner(selfId, es, l, issi)
    requires var t := Run(selfId, es); IsPeer(t, l) && l !in t.links
    ensures LegacyUpToDate(Run(selfId, es), l, issi)
  {
    hide Next, EntryOk, LegacyUpToDate;
    AlwaysFixpoint(selfId, es, latest);
    if es != [] {
      var (init, e) := (es[..|es| - 1], es[|es| - 1]);
      var t := Run(selfId, init);
      AlwaysFixpoint(selfId, init, latest);
      assert es[..|es|] == es && NotOwner(Run(selfId, es), l, issi) && NotOwner(t, l, issi);
      if e.LinkUp? && e.id == l {
        LegacySync(t, l, e, issi);
      } else {
        WasPeer(t, e, l);
        assert NeverOwner(selfId, init, l, issi) by {
          forall k | 0 <= k <= |init| ensures NotOwner(Run(selfId, init[..k]), l, issi) {
            assert init[..k] == es[..k] && NotOwner(Run(selfId, es[..k]), l, issi);
          }
        }
        LegacyRelayCorrect(selfId, init, latest, l, issi);
        LegacyFollows(t, e, l, issi);
      }
    }
  }

  /** What the peer holds from us is the current effective entry. */
  ghost predicate LegacyUpToDate(t: Table, l: ClientId, issi: Issi) {
    l in t.sent && HeldAfter(None, About(t.sent[l], issi)) == GroupsOf(Get(t.subs, issi))
  }

  lemma WasPeer(t: Table, e: Event, l: ClientId)
    requires IsPeer(Next(t, e), l) && l !in Next(t, e).links && !(e.LinkUp? && e.id == l)
    requires TableOk(t)
    ensures IsPeer(t, l) && l !in t.links
  {
    hide EntryOk, Next;
    NextShape(t, e);
    if e.LinkUp? { assert Get(Next(t, e).links, l) == Get(t.links, l); }
  }

  lemma LegacyFollows(t: Table, e: Event, l: ClientId, issi: Issi)
    requires TableOk(t) && Enabled(t, e) && IsPeer(t, l) && l !in t.links && IsPeer(Next(t, e), l)
    requires NotOwner(t, l, issi) && NotOwner(Next(t, e), l, issi)
    requires LegacyUpToDate(t, l, issi)
    ensures LegacyUpToDate(Next(t, e), l, issi)
  {
    hide EntryOk, Next, LegacyUpdates;
    var t' := Next(t, e);
    NextTellsDifference(t, e, l, issi);
    HeldConcat(None, About(t.sent[l], issi), Delta(t, t', l, issi));
    LegacyDiff(issi, Get(t.subs, issi), Get(t'.subs, issi), l);
  }

  lemma LegacySync(t: Table, l: ClientId, e: Event, issi: Issi)
    requires e.LinkUp? && e.id == l && IsPeer(Next(t, e), l) && l !in Next(t, e).links
    requires NotOwner(t, l, issi)
    ensures LegacyUpToDate(Next(t, e), l, issi)
  {
    var t' := Next(t, e);
    var issis := Sorted(t.subs.Keys);
    assert Elems(issis) == t.subs.Keys;
    LegacySyncOver(t'.(sent := t.sent[l := []]), l, issis, issi);
    assert issi in issis <==> issi in t.subs;
    LegacyDiff(issi, None, Get(t.subs, issi), l);
  }

  lemma {:induction false} LegacySyncOver(t: Table, l: ClientId, issis: seq<Issi>, i: Issi)
    requires l !in t.links && Distinct(issis)
    ensures About(SyncOver(t, l, issis), i) == if i in issis then LegacyUpdates(i, None, Get(t.subs, i), l) else []
    decreases |issis|
  {
    hide About, Sorted;
    if issis == [] {
      AboutUniform([], i, i);
    } else {
      var (x, rest) := (issis[0], issis[1..]);
      var head := LegacyUpdates(x, None, Get(t.subs, x), l);
      assert SyncOver(t, l, issis) == head + SyncOver(t, l, rest);
      assert issis == [x] + rest;
      LegacySyncOver(t, l, rest, i);
      AboutConcat(head, SyncOver(t, l, rest), i);
      AboutUniform(head, x, i);
      assert x !in rest;
    }
  }
}
