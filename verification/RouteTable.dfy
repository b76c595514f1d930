/** One server's effective table as a value, and each handler that changes it
    as a function from table to table. `sent` records everything ever queued
    on each connection, in order. */
module RouteTable {
  import opened FedTypes
  import opened RouteSelection

  type Subs = map<Issi, Subscriber>
  type Rib = map<Issi, Offers>
  type Sent = map<ClientId, seq<Msg>>

  datatype Table = Table(
    selfId: ServerId,
    clock: u64,
    clients: map<ClientId, Mode>,
    links: map<ClientId, ServerId>,
    subs: Subs,
    rib: Rib,
    sent: Sent)

  function Initial(selfId: ServerId): Table {
    Table(selfId, 0, map[], map[], map[], map[], map[])
  }

  function OffersOf(rib: Rib, issi: Issi): Offers {
    if issi in rib then rib[issi] else map[]
  }

  // ----- clock -----

  function Tick(clock: u64, now: u64): u64 {
    Max(SatAdd(clock, 1), now)
  }

  // ----- selection against the table -----

  function FromAdvert(link: ClientId, a: Advert): Subscriber {
    Subscriber(link, Elems(a.groups), Peer, Route(a.reg, a.path))
  }

  /** Same link, groups and route; the mode does not count. */
  predicate Same(a: Option<Subscriber>, b: Option<Subscriber>) {
    match (a, b)
    case (None, None) => true
    case (Some(x), Some(y)) => x.client == y.client && x.groups == y.groups && x.route == y.route
    case _ => false
  }

  /** The local registration: it lives only as the effective entry. */
  function LocalOf(t: Table, issi: Issi): Option<Subscriber> {
    if issi in t.subs && t.subs[issi].client !in t.links then Some(t.subs[issi]) else None
  }

  function RegOf(s: Option<Subscriber>): Option<u64> {
    match s case None => None case Some(x) => Some(x.route.reg)
  }

  ghost function Chosen(t: Table, issi: Issi): Choice {
    Select(t.selfId, RegOf(LocalOf(t, issi)), t.links, OffersOf(t.rib, issi))
  }

  ghost function Desired(t: Table, issi: Issi): Option<Subscriber> {
    match Chosen(t, issi)
    case Local => LocalOf(t, issi)
    case Remote(l) => Some(FromAdvert(l, OffersOf(t.rib, issi)[l]))
    case Unreachable => None
  }

  ghost function Rerouted(t: Table, issi: Issi): (r: Table)
    ensures r == t.(subs := r.subs)
    ensures forall j :: j != issi ==> Get(r.subs, j) == Get(t.subs, j)
  {
    var next := Desired(t, issi);
    if Same(Get(t.subs, issi), next) then t else t.(subs := Put(t.subs, issi, next))
  }

  // ----- what a peer link is told -----

  /** The advert a link to `nbr` may be given for the effective entry `eff`. */
  function OfferFor(selfId: ServerId, link: ClientId, nbr: ServerId, eff: Option<Subscriber>): Option<Advert> {
    match eff
    case Some(e) =>
      if e.client != link && nbr !in e.route.path && |e.route.path| < MAX_PATH then
        Some(Advert(e.route.reg, [selfId] + e.route.path, Sorted(e.groups)))
      else None
    case None => None
  }

  function FedUpdate(selfId: ServerId, link: ClientId, nbr: ServerId, issi: Issi, eff: Option<Subscriber>): Msg {
    match OfferFor(selfId, link, nbr, eff)
    case Some(a) => FedRoute(issi, a)
    case None => FedWithdraw(issi)
  }

  /** Split horizon: what legacy link `peer` may see of an entry. */
  function Seen(s: Option<Subscriber>, peer: ClientId): Option<Subscriber> {
    match s case Some(x) => if x.client == peer then None else s case None => None
  }

  function AffiliateMsg(issi: Issi, groups: set<Gssi>): seq<Msg> {
    if groups == {} then [] else [SubMsg(Affiliate, issi, Sorted(groups))]
  }

  function DeaffiliateMsg(issi: Issi, groups: set<Gssi>): seq<Msg> {
    if groups == {} then [] else [SubMsg(Deaffiliate, issi, Sorted(groups))]
  }

  function LegacyUpdates(issi: Issi, prev: Option<Subscriber>, next: Option<Subscriber>, peer: ClientId): seq<Msg> {
    match (Seen(prev, peer), Seen(next, peer))
    case (None, None) => []
    case (Some(_), None) => if next.None? then [SubMsg(Deregister, issi, [])] else []
    case (None, Some(n)) => [SubMsg(Register, issi, [])] + AffiliateMsg(issi, n.groups)
    case (Some(o), Some(n)) =>
      (if o.route.reg != n.route.reg then [SubMsg(Register, issi, [])] + AffiliateMsg(issi, n.groups)
       else AffiliateMsg(issi, n.groups - o.groups))
      + DeaffiliateMsg(issi, o.groups - n.groups)
  }

  /** What link `l` is queued when the entry of `issi` goes from `prev` to `next`. */
  function UpdatesTo(selfId: ServerId, links: map<ClientId, ServerId>, l: ClientId, issi: Issi,
                     prev: Option<Subscriber>, next: Option<Subscriber>): (ms: seq<Msg>)
    ensures forall m :: m in ms ==> m.issi == issi
    ensures Same(prev, next) ==> ms == []
  {
    if Same(prev, next) then []
    else if l in links then [FedUpdate(selfId, l, links[l], issi, next)]
    else LegacyUpdates(issi, prev, next, l)
  }

  predicate IsPeer(t: Table, l: ClientId) {
    l in t.clients && t.clients[l] == Peer
  }

  function Published(t: Table, issi: Issi, prev: Option<Subscriber>): (r: Table)
    ensures r == t.(sent := r.sent) && r.sent.Keys == t.sent.Keys
  {
    t.(sent := map l | l in t.sent ::
         if IsPeer(t, l) then t.sent[l] + UpdatesTo(t.selfId, t.links, l, issi, prev, Get(t.subs, issi)) else t.sent[l])
  }

  /** The full table a newly attached peer link starts from, over `issis` in order. */
  function SyncOver(t: Table, link: ClientId, issis: seq<Issi>): seq<Msg> {
    if issis == [] then []
    else
      var issi := issis[0];
      var head :=
        if link in t.links then
          var m := FedUpdate(t.selfId, link, t.links[link], issi, Get(t.subs, issi));
          if m.FedRoute? then [m] else []
        else LegacyUpdates(issi, None, Get(t.subs, issi), link);
      head + SyncOver(t, link, issis[1..])
  }

  function SyncMessages(t: Table, link: ClientId): seq<Msg> {
    SyncOver(t, link, Sorted(t.subs.Keys))
  }

  // ----- handlers -----

  function WithdrawOffer(rib: Rib, issi: Issi, link: ClientId): (r: Rib)
    ensures forall i :: OffersOf(r, i) == if i == issi then OffersOf(rib, i) - {link} else OffersOf(rib, i)
  {
    if issi !in rib then rib
    else
      var rest := rib[issi] - {link};
      if rest == map[] then rib - {issi} else rib[issi := rest]
  }

  /** A refused advert counts as a withdrawal of that link's offer. */
  predicate Refused(t: Table, a: Advert, now: u64) {
    a.reg > SatAdd(now, MAX_FUTURE_MS) || t.selfId in a.path
  }

  function TakeOffer(t: Table, src: ClientId, issi: Issi, a: Advert, now: u64): Table {
    if Refused(t, a, now) then t.(rib := WithdrawOffer(t.rib, issi, src))
    else t.(clock := Max(t.clock, a.reg), rib := t.rib[issi := OffersOf(t.rib, issi)[src := a]])
  }

  ghost function OnRoute(t: Table, src: ClientId, issi: Issi, a: Advert, now: u64): (r: Table)
    ensures r.selfId == t.selfId && r.clients == t.clients && r.links == t.links
  {
    if src !in t.links then t
    else Published(Rerouted(TakeOffer(t, src, issi, a, now), issi), issi, Get(t.subs, issi))
  }

  ghost function OnWithdraw(t: Table, src: ClientId, issi: Issi): (r: Table)
    ensures r.selfId == t.selfId && r.clients == t.clients && r.links == t.links
  {
    if src !in t.links || src !in OffersOf(t.rib, issi) then t
    else Published(Rerouted(t.(rib := WithdrawOffer(t.rib, issi, src)), issi), issi, Get(t.subs, issi))
  }

  function ModeOf(t: Table, c: ClientId): Mode {
    if c in t.clients then t.clients[c] else Basestation
  }

  /** The entry of `issi` replaced by a registration at this server. */
  function Written(t: Table, issi: Issi, s: Subscriber): Table {
    Published(t.(subs := t.subs[issi := s]), issi, Get(t.subs, issi))
  }

  function Registered(t: Table, src: ClientId, issi: Issi, groups: set<Gssi>, now: u64): Table {
    var c := Tick(t.clock, now);
    Written(t.(clock := c), issi, Subscriber(src, groups, ModeOf(t, src), Route(c, [])))
  }

  ghost function OnSub(t: Table, src: ClientId, kind: SubKind, issi: Issi, groups: seq<Gssi>, now: u64): (r: Table)
    ensures r.selfId == t.selfId && r.clients == t.clients && r.links == t.links
  {
    if src in t.links then t
    else
      var prev := Get(t.subs, issi);
      var mine := prev.Some? && prev.value.client == src;
      match kind
      case Register => Registered(t, src, issi, if prev.Some? then prev.value.groups else {}, now)
      case Reregister => Registered(t, src, issi, if prev.Some? then prev.value.groups else {}, now)
      case Deregister =>
        if mine then Published(Rerouted(t.(subs := t.subs - {issi}), issi), issi, prev) else t
      case Affiliate =>
        if prev.None? then Registered(t, src, issi, Elems(groups), now)
        else if mine then Written(t, issi, prev.value.(groups := prev.value.groups + Elems(groups)))
        else t
      case Deaffiliate =>
        if mine then Written(t, issi, prev.value.(groups := prev.value.groups - Elems(groups))) else t
      case UnknownKind => t
  }

  /** Link up: registered and, for a peer, sent the full table, in one step. */
  function Attach(t: Table, id: ClientId, mode: Mode, neighbour: Option<ServerId>): Table {
    var t1 := t.(clients := t.clients[id := mode], links := Put(t.links, id, neighbour), sent := t.sent[id := []]);
    if mode == Peer then t1.(sent := t1.sent[id := SyncMessages(t1, id)]) else t1
  }

  function Affected(t: Table, id: ClientId): set<Issi> {
    (set i | i in t.subs && t.subs[i].client == id)
    + (if id in t.links then set i | i in t.rib && id in t.rib[i] else {})
  }

  /** The departed connection's entries and offers, gone in bulk. */
  function Dropped(t: Table, id: ClientId): Table {
    t.(clients := t.clients - {id},
       links := t.links - {id},
       subs := map i | i in t.subs && t.subs[i].client != id :: t.subs[i],
       rib := map i | i in t.rib && !(i in Affected(t, id) && t.rib[i] - {id} == map[]) ::
                if i in Affected(t, id) then t.rib[i] - {id} else t.rib[i])
  }

  /** Each of `issis` re-routed and its change published, in order. */
  ghost function Settled(t: Table, issis: seq<Issi>, before: Subs): Table
    decreases |issis|
  {
    if issis == [] then t
    else
      var last := |issis| - 1;
      Published(Rerouted(Settled(t, issis[..last], before), issis[last]), issis[last], Get(before, issis[last]))
  }

  /** Link down: everything routed or offered over it fails over or is withdrawn. */
  ghost function Cleanup(t: Table, id: ClientId): Table {
    Settled(Dropped(t, id), Sorted(Affected(t, id)), t.subs)
  }
}
