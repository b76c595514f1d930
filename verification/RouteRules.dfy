/** What each routing message does to the table and what the links are told,
    stated outright, and that a legacy server hears of every new registration. */
module RouteRules {
  import opened FedTypes
  import opened RouteSelection
  import opened RouteTable
  import opened TableInvariant
  import opened Propagation

  // ----- selection -----

  /** Registration (`r1`, `o1`) is newer than (`r2`, `o2`): by clock, then by server. */
  predicate Newer(r1: u64, o1: ServerId, r2: u64, o2: ServerId) {
    r1 > r2 || (r1 == r2 && o1 > o2)
  }

  predicate HasPath(cands: Offers, k: ClientId) {
    k in cands && |cands[k].path| > 0
  }

  function LastOf(cands: Offers, k: ClientId): ServerId
    requires HasPath(cands, k)
  {
    cands[k].path[|cands[k].path| - 1]
  }

  /** The local registration stays exactly if no offer is of a newer one. */
  lemma LocalRule(selfId: ServerId, local: Option<u64>, links: map<ClientId, ServerId>, cands: Offers)
    ensures IsChoice(selfId, local, links, cands, Local) <==>
      local.Some? && forall k :: HasPath(cands, k) ==> !Newer(cands[k].reg, LastOf(cands, k), local.value, selfId)
  {
  }

  /** There is no route exactly without a registration and without an offer. */
  lemma UnreachableRule(selfId: ServerId, local: Option<u64>, links: map<ClientId, ServerId>, cands: Offers)
    ensures IsChoice(selfId, local, links, cands, Unreachable) <==>
      local.None? && forall k :: k in cands ==> |cands[k].path| == 0
  {
  }

  /** `l` comes before `k`: over fewer servers, else by the lower neighbour, else by
      the lower link. */
  predicate Before(links: map<ClientId, ServerId>, cands: Offers, l: ClientId, k: ClientId)
    requires l in cands && k in cands
  {
    var (a, b) := (if l in links then links[l] else U64_MAX, if k in links then links[k] else U64_MAX);
    |cands[l].path| < |cands[k].path|
    || (|cands[l].path| == |cands[k].path| && (a < b || (a == b && l < k)))
  }

  /** It comes first of the links that offer its server. */
  ghost predicate IsFirst(links: map<ClientId, ServerId>, cands: Offers, l: ClientId) {
    && HasPath(cands, l)
    && forall k :: HasPath(cands, k) && k != l && LastOf(cands, k) == LastOf(cands, l) ==> Before(links, cands, l, k)
  }

  /** No newer registration is on offer. */
  ghost predicate IsTop(cands: Offers, w: ClientId) {
    && HasPath(cands, w)
    && forall k :: HasPath(cands, k) ==> !Newer(cands[k].reg, LastOf(cands, k), cands[w].reg, LastOf(cands, w))
  }

  lemma FirstIff(links: map<ClientId, ServerId>, cands: Offers, l: ClientId)
    requires HasPath(cands, l)
    ensures IsFirst(links, cands, l) <==> IsClosest(links, cands, l, LastOf(cands, l))
  {
    if IsFirst(links, cands, l) {
      forall k | FromOrigin(cands, k, LastOf(cands, l)) ensures !Closer(links, cands, k, l) {
        if k != l { assert Before(links, cands, l, k); }
      }
    }
    if IsClosest(links, cands, l, LastOf(cands, l)) {
      forall k | HasPath(cands, k) && k != l && LastOf(cands, k) == LastOf(cands, l)
          ensures Before(links, cands, l, k) {
        assert FromOrigin(cands, k, LastOf(cands, l)) && !Closer(links, cands, k, l);
      }
    }
  }

  lemma TopIff(selfId: ServerId, local: Option<u64>, cands: Offers, w: ClientId)
    ensures IsTop(cands, w) <==> IsNewest(cands, w)
    ensures IsTop(cands, w) && local.Some? ==>
      (LocalWins(selfId, local, cands) <==> !Newer(cands[w].reg, LastOf(cands, w), local.value, selfId))
  {
  }

  /** A link is chosen exactly if it comes first of those that offer the newest
      registration's server, and that one is newer than the local one. */
  lemma RemoteRule(selfId: ServerId, local: Option<u64>, links: map<ClientId, ServerId>, cands: Offers, l: ClientId)
    ensures IsChoice(selfId, local, links, cands, Remote(l)) <==>
      IsFirst(links, cands, l) && exists w ::
        && IsTop(cands, w) && LastOf(cands, w) == LastOf(cands, l)
        && (local.Some? ==> Newer(cands[w].reg, LastOf(cands, w), local.value, selfId))
  {
    hide IsClosest, LocalWins, Newer, Before, Closer;
    forall w ensures IsTop(cands, w) <==> IsNewest(cands, w) { TopIff(selfId, local, cands, w); }
    if HasPath(cands, l) { FirstIff(links, cands, l); }
    if IsChoice(selfId, local, links, cands, Remote(l)) {
      var w :| IsNewest(cands, w) && IsClosest(links, cands, l, Origin(cands[w]));
      ClosestHas(links, cands, l, Origin(cands[w]));
      TopIff(selfId, local, cands, w);
    }
    if w :| IsFirst(links, cands, l) && IsTop(cands, w) && LastOf(cands, w) == LastOf(cands, l)
            && (local.Some? ==> Newer(cands[w].reg, LastOf(cands, w), local.value, selfId)) {
      TopIff(selfId, local, cands, w);
      NoneWins(selfId, local, cands);
    }
  }

  lemma ClosestHas(links: map<ClientId, ServerId>, cands: Offers, l: ClientId, origin: ServerId)
    requires IsClosest(links, cands, l, origin)
    ensures HasPath(cands, l) && LastOf(cands, l) == origin
  {
  }

  lemma NoneWins(selfId: ServerId, local: Option<u64>, cands: Offers)
    ensures local.None? ==> !LocalWins(selfId, local, cands)
  {
  }

  /** The local registration counts as long as it is the entry. */
  function OwnReg(t: Table, issi: Issi): Option<u64> {
    if issi in t.subs && t.subs[issi].client !in t.links then Some(t.subs[issi].route.reg) else None
  }

  /** Re-routing makes the choice the entry: the registration as it is, the chosen
      link's offer, or nothing. Nothing else changes. */
  lemma RerouteRule(t: Table, issi: Issi, c: Choice)
    requires IsChoice(t.selfId, OwnReg(t, issi), t.links, if issi in t.rib then t.rib[issi] else map[], c)
    ensures var t' := Rerouted(t, issi);
      && t' == t.(subs := t'.subs) && (forall j :: j != issi ==> Get(t'.subs, j) == Get(t.subs, j))
      && match c
         case Local => Get(t'.subs, issi) == Get(t.subs, issi)
         case Unreachable => issi !in t'.subs
         case Remote(l) =>
           && issi in t.rib && l in t.rib[issi] && issi in t'.subs
           && var (e, a) := (t'.subs[issi], t.rib[issi][l]);
           && e.client == l && e.route.reg == a.reg && e.route.path == a.path
            && (forall g :: g in e.groups <==> g in a.groups)
           && (e == Subscriber(l, e.groups, Peer, Route(a.reg, a.path)) || Get(t.subs, issi) == Some(e))
  {
    assert RegOf(LocalOf(t, issi)) == OwnReg(t, issi);
    ChoiceUnique(t.selfId, OwnReg(t, issi), t.links, OffersOf(t.rib, issi), c, Chosen(t, issi));
  }

  // ----- adverts and withdrawals -----

  /** An advert is kept as its link's offer, unless it is from more than a day ahead
      or went through this server: then the link has no offer. */
  lemma AdvertRule(t: Table, src: ClientId, issi: Issi, a: Advert, now: u64, i: Issi, l: ClientId)
    ensures var t' := OnRoute(t, src, issi, a, now);
      var bad := a.reg > now + 86_400_000 || t.selfId in a.path;
      && (src !in t.links ==> t' == t)
      && (src in t.links ==>
            && t'.clock == (if !bad && a.reg > t.clock then a.reg else t.clock)
            && Get(OffersOf(t'.rib, i), l) ==
                 if i != issi || l != src then Get(OffersOf(t.rib, i), l) else if bad then None else Some(a))
  {
    hide Rerouted, Published;
  }

  /** Its entry is then what selection says of the offers there are. */
  lemma AdvertSelects(t: Table, src: ClientId, issi: Issi, a: Advert, now: u64)
    requires src in t.links
    ensures var t' := OnRoute(t, src, issi, a, now);
      var t1 := t.(clock := t'.clock, rib := t'.rib);
      t' == Published(Rerouted(t1, issi), issi, Get(t.subs, issi))
  {
    hide Desired, UpdatesTo;
  }

  lemma WithdrawRule(t: Table, src: ClientId, issi: Issi, i: Issi, l: ClientId)
    ensures var t' := OnWithdraw(t, src, issi);
      && (src !in t.links || issi !in t.rib || src !in t.rib[issi] ==> t' == t)
      && t'.clock == t.clock
      && (src in t.links ==>
            Get(OffersOf(t'.rib, i), l) == if i == issi && l == src then None else Get(OffersOf(t.rib, i), l))
  {
    hide Rerouted, Published;
  }

  lemma WithdrawSelects(t: Table, src: ClientId, issi: Issi)
    requires src in t.links && issi in t.rib && src in t.rib[issi]
    ensures var t' := OnWithdraw(t, src, issi);
      t' == Published(Rerouted(t.(rib := t'.rib), issi), issi, Get(t.subs, issi))
  {
    hide Desired, UpdatesTo;
  }

  // ----- registrations here -----

  /** The clock a registration gets. */
  function NextClock(clock: u64, now: u64): u64 {
    var up := if clock < U64_MAX then clock + 1 else U64_MAX;
    if now > up then now else up
  }

  /** A registration is taken at once, with a new clock, whoever had the ISSI; it
      keeps the groups it had. */
  lemma RegisterRule(t: Table, src: ClientId, kind: SubKind, issi: Issi, groups: seq<Gssi>, now: u64)
    requires kind == Register || kind == Reregister
    ensures var t' := OnSub(t, src, kind, issi, groups, now);
      if src in t.links then t' == t
      else
        && t'.clock == NextClock(t.clock, now) && t'.rib == t.rib
        && t'.subs == t.subs[issi := Subscriber(src, if issi in t.subs then t.subs[issi].groups else {},
                                                if src in t.clients then t.clients[src] else Basestation,
                                                Route(NextClock(t.clock, now), []))]
  {
    hide UpdatesTo;
  }

  /** An affiliation registers an unknown ISSI, adds to the groups of one of its
      own, and leaves others alone. */
  lemma AffiliateRule(t: Table, src: ClientId, issi: Issi, groups: seq<Gssi>, now: u64)
    ensures var t' := OnSub(t, src, Affiliate, issi, groups, now);
      var given := set g | g in groups;
      if src in t.links || (issi in t.subs && t.subs[issi].client != src) then t' == t
      else if issi in t.subs then
        && t'.clock == t.clock && t'.rib == t.rib
        && t'.subs == t.subs[issi := t.subs[issi].(groups := t.subs[issi].groups + given)]
      else
        && t'.clock == NextClock(t.clock, now) && t'.rib == t.rib
        && t'.subs == t.subs[issi := Subscriber(src, given, if src in t.clients then t.clients[src] else Basestation,
                                                Route(NextClock(t.clock, now), []))]
  {
    hide UpdatesTo;
    assert Elems(groups) == set g | g in groups;
  }

  lemma DeaffiliateRule(t: Table, src: ClientId, issi: Issi, groups: seq<Gssi>, now: u64)
    ensures var t' := OnSub(t, src, Deaffiliate, issi, groups, now);
      if src in t.links || issi !in t.subs || t.subs[issi].client != src then t' == t
      else
        && t'.clock == t.clock && t'.rib == t.rib && issi in t'.subs
        && t'.subs == t.subs[issi := t.subs[issi].(groups := t'.subs[issi].groups)]
        && forall g :: g in t'.subs[issi].groups <==> g in t.subs[issi].groups && g !in groups
  {
    hide UpdatesTo;
  }

  /** Only its owner deregisters an ISSI, which then goes to who else offers it. */
  lemma DeregisterRule(t: Table, src: ClientId, issi: Issi, groups: seq<Gssi>, now: u64)
    ensures var t' := OnSub(t, src, Deregister, issi, groups, now);
      if src in t.links || issi !in t.subs || t.subs[issi].client != src then t' == t
      else t' == Published(Rerouted(t.(subs := t.subs - {issi}), issi), issi, Some(t.subs[issi]))
  {
    hide Desired, UpdatesTo;
  }

  lemma UnknownRule(t: Table, src: ClientId, issi: Issi, groups: seq<Gssi>, now: u64)
    ensures OnSub(t, src, UnknownKind, issi, groups, now) == t
  {
  }

  /** Every other message is told to the links, as a change of this one entry. */
  lemma SubTells(t: Table, src: ClientId, kind: SubKind, issi: Issi, groups: seq<Gssi>, now: u64)
    ensures var t' := OnSub(t, src, kind, issi, groups, now);
      t' == t || t' == Published(t'.(sent := t.sent), issi, Get(t.subs, issi))
  {
    hide Desired, UpdatesTo;
  }

  /** The events of a run are the messages and connections these rules are about. */
  lemma EventsAreHandled(t: Table, e: Event)
    ensures match e
      case RouteIn(src, issi, a, now) => Next(t, e) == OnRoute(t, src, issi, a, now)
      case WithdrawIn(src, issi) => Next(t, e) == OnWithdraw(t, src, issi)
      case SubIn(src, kind, issi, groups, now) => Next(t, e) == OnSub(t, src, kind, issi, groups, now)
      case LinkUp(id, mode, neighbour) => Next(t, e) == Attach(t, id, mode, neighbour)
      case LinkDown(id) => Next(t, e) == Cleanup(t, id)
  {
  }

  // ----- connections -----

  /** A server starts with nothing and at zero. */
  lemma StartsEmpty(selfId: ServerId, i: Issi, c: ClientId)
    ensures var t := Initial(selfId);
      && t.selfId == selfId && t.clock == 0 && i !in t.subs && i !in t.rib
      && c !in t.clients && c !in t.links && c !in t.sent
  {
  }

  lemma AttachRule(t: Table, id: ClientId, mode: Mode, neighbour: Option<ServerId>, c: ClientId)
    ensures var t' := Attach(t, id, mode, neighbour);
      && t'.subs == t.subs && t'.rib == t.rib && t'.clock == t.clock && t'.selfId == t.selfId
      && Get(t'.clients, c) == (if c == id then Some(mode) else Get(t.clients, c))
      && Get(t'.links, c) == (if c == id then neighbour else Get(t.links, c))
      && (c != id ==> Get(t'.sent, c) == Get(t.sent, c))
      && (c == id && mode != Peer ==> Get(t'.sent, c) == Some([]))
  {
    hide SyncMessages;
  }

  /** A connection that goes takes along all that was routed or offered over it. */
  lemma DroppedRule(t: Table, id: ClientId, i: Issi, l: ClientId)
    requires forall j :: j in t.rib && id in t.rib[j] ==> id in t.links
    ensures var d := Dropped(t, id);
      && d.clients == t.clients - {id} && d.links == t.links - {id} && d.clock == t.clock && d.selfId == t.selfId
      && d.sent == t.sent
      && Get(d.subs, i) == (if i in t.subs && t.subs[i].client == id then None else Get(t.subs, i))
      && Get(OffersOf(d.rib, i), l) == (if l == id then None else Get(OffersOf(t.rib, i), l))
  {
    var d := Dropped(t, id);
    if i in t.rib && i in Affected(t, id) { assert OffersOf(d.rib, i) == OffersOf(t.rib, i) - {id}; }
  }

  // ----- what a loop-safe link is told -----

  /** An entry as a neighbour may have it: not one that came from it or crossed it,
      nor one that crossed sixteen servers. */
  predicate Sharable(l: ClientId, nbr: ServerId, e: Option<Subscriber>) {
    e.Some? && e.value.client != l && nbr !in e.value.route.path && |e.value.route.path| < 16
  }

  predicate Unchanged(a: Option<Subscriber>, b: Option<Subscriber>) {
    || (a.None? && b.None?)
    || (a.Some? && b.Some? && a.value.client == b.value.client && a.value.groups == b.value.groups
        && a.value.route == b.value.route)
  }

  /** One message for a change: the advert with this server in front, or a withdrawal. */
  lemma LoopSafeTold(t: Table, issi: Issi, prev: Option<Subscriber>, l: ClientId)
    requires l in t.sent
    ensures var (t', now) := (Published(t, issi, prev), Get(t.subs, issi));
      && t' == t.(sent := t'.sent) && l in t'.sent
      && (!(l in t.clients && t.clients[l] == Peer) || Unchanged(prev, now) ==> t'.sent[l] == t.sent[l])
      && (l in t.clients && t.clients[l] == Peer && l in t.links && !Unchanged(prev, now) ==>
            && |t'.sent[l]| == |t.sent[l]| + 1 && t.sent[l] <= t'.sent[l]
            && var m := t'.sent[l][|t.sent[l]|];
            && m.issi == issi
            && if Sharable(l, t.links[l], now)
               then && m.FedRoute? && m.advert.reg == now.value.route.reg
                    && m.advert.path == [t.selfId] + now.value.route.path
                    && (forall g :: g in m.advert.groups <==> g in now.value.groups)
                    && forall i, j :: 0 <= i < j < |m.advert.groups| ==> m.advert.groups[i] < m.advert.groups[j]
               else m.FedWithdraw?)
  {
    hide LegacyUpdates;
    assert t.sent[l] + [] == t.sent[l];
    if Get(t.subs, issi).Some? {
      var gs := Get(t.subs, issi).value.groups;
      assert forall g :: g in Sorted(gs) <==> g in Elems(Sorted(gs));
    }
  }

  // ----- what a legacy link is told -----

  /** Register, affiliate, leave, deregister: each once at most, in this order. */
  function Parts(issi: Issi, register: bool, enter: set<Gssi>, leave: set<Gssi>, deregister: bool): seq<Msg> {
    (if register then [SubMsg(Register, issi, [])] else [])
    + (if enter == {} then [] else [SubMsg(Affiliate, issi, Sorted(enter))])
    + (if leave == {} then [] else [SubMsg(Deaffiliate, issi, Sorted(leave))])
    + (if deregister then [SubMsg(Deregister, issi, [])] else [])
  }

  /** There is an entry, and it is new or newly registered. */
  predicate Renewed(prev: Option<Subscriber>, now: Option<Subscriber>) {
    now.Some? && (prev.None? || prev.value.route.reg != now.value.route.reg)
  }

  /** A legacy peer that no entry runs over is told to register the ISSI if it is
      newly registered, with all its groups; else of the groups it came into; then
      of those it left; and to deregister it if the entry is gone. */
  lemma LegacyTold(t: Table, issi: Issi, prev: Option<Subscriber>, l: ClientId)
    requires l in t.sent && l in t.clients && t.clients[l] == Peer && l !in t.links
    requires prev.Some? ==> prev.value.client != l
    requires issi in t.subs ==> t.subs[issi].client != l
    ensures var (t', now) := (Published(t, issi, prev), Get(t.subs, issi));
      var (had, has) := (if prev.Some? then prev.value.groups else {}, if now.Some? then now.value.groups else {});
      && l in t'.sent
      && t'.sent[l] == t.sent[l] +
           Parts(issi, Renewed(prev, now), if Renewed(prev, now) then has else has - had,
                 if now.Some? then had - has else {}, now.None? && prev.Some?)
  {
    hide LegacyUpdates, Same, Parts;
    assert t.sent[l] + [] == t.sent[l];
    LegacyShape(issi, prev, Get(t.subs, issi), l);
  }

  /** An entry that runs over the peer is hidden from it, as it came from there: when
      it comes to run over it nothing is told, when it ceases to it is told as new,
      and when it goes nothing is. */
  lemma LegacyOwnTold(t: Table, issi: Issi, prev: Option<Subscriber>, l: ClientId)
    requires l in t.sent && l in t.clients && t.clients[l] == Peer && l !in t.links
    requires (prev.Some? && prev.value.client == l) || (issi in t.subs && t.subs[issi].client == l)
    ensures var (t', now) := (Published(t, issi, prev), Get(t.subs, issi));
      && l in t'.sent
      && t'.sent[l] == t.sent[l] +
           if now.Some? && now.value.client != l then Parts(issi, true, now.value.groups, {}, false) else []
  {
    assert t.sent[l] + [] == t.sent[l];
  }

  lemma LegacyShape(issi: Issi, prev: Option<Subscriber>, now: Option<Subscriber>, l: ClientId)
    requires (prev.Some? ==> prev.value.client != l) && (now.Some? ==> now.value.client != l)
    ensures var had := if prev.Some? then prev.value.groups else {};
      var has := if now.Some? then now.value.groups else {};
      (if Same(prev, now) then [] else LegacyUpdates(issi, prev, now, l)) ==
        Parts(issi, Renewed(prev, now), if Renewed(prev, now) then has else has - had,
              if now.Some? then had - has else {}, now.None? && prev.Some?)
  {
    hide Sorted;
    if prev.None? && now.Some? { assert now.value.groups - {} == now.value.groups; }
  }

  /** So a new registration is told exactly when there is one. */
  lemma RegistersExactly(t: Table, issi: Issi, prev: Option<Subscriber>, l: ClientId)
    requires l in t.sent && l in t.clients && t.clients[l] == Peer && l !in t.links
    requires prev.Some? ==> prev.value.client != l
    requires issi in t.subs ==> t.subs[issi].client != l
    ensures var t' := Published(t, issi, prev);
      && l in t'.sent && t.sent[l] <= t'.sent[l]
      && ((exists m :: m in t'.sent[l][|t.sent[l]|..] && m.SubMsg? && m.kind == Register && m.issi == issi) <==>
            issi in t.subs && (prev.None? || prev.value.route.reg != t.subs[issi].route.reg))
  {
    hide Published, Sorted;
    LegacyTold(t, issi, prev, l);
    var ms := Published(t, issi, prev).sent[l][|t.sent[l]|..];
    if Renewed(prev, Get(t.subs, issi)) {
      assert ms[0] == SubMsg(Register, issi, []) && ms[0] in ms;
    }
  }
}
