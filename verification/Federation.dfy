/** Whole networks of loop-safe servers: every server runs its own table, a
    link delivers one server's history to another in order, and the claims are
    about every reachable network. */
module Federation {
  import opened FedTypes
  import opened RouteTable
  import opened TableInvariant
  import opened Propagation

  /** The receiving end of one direction of a connection: what end `link` of
      server `from` queued, of which the first `taken` messages were delivered. */
  datatype Wire = Wire(from: ServerId, link: ClientId, taken: nat)
  datatype End = End(server: ServerId, link: ClientId)

  datatype Net = Net(servers: map<ServerId, Table>, wires: map<End, Wire>)

  datatype NetEvent =
    | AtServer(at: ServerId, e: Event)
    | Connect(end: End, peer: End)
    | Deliver(end: End, now: u64)

  /** The wire into `end` joins existing servers and the delivered part is a
      prefix of what was queued. */
  ghost predicate WireShape(net: Net, end: End) {
    && end in net.wires && end.server in net.servers
    && var w := net.wires[end];
    && w.from in net.servers && w.from != end.server
    && var (ta, tb) := (net.servers[w.from], net.servers[end.server]);
    && w.link in ta.sent && w.taken <= |ta.sent[w.link]| && end.link in tb.sent
    && (w.link in ta.clients ==> w.link in ta.links)
    && (w.link in ta.links ==> ta.links[w.link] == end.server)
    && (end.link in tb.links ==> tb.links[end.link] == w.from)
  }

  /** Nothing on the way to `nbr` can be refused there: adverts start at the
      sender, cross no server twice and do not hold the neighbour's id. */
  ghost predicate Acceptable(selfId: ServerId, nbr: ServerId, ms: seq<Msg>) {
    forall m :: m in ms ==>
      !m.SubMsg? && (m.FedRoute? ==> Parsed(selfId, m.advert) && nbr !in m.advert.path)
  }

  ghost predicate WireOk(net: Net, end: End) {
    && WireShape(net, end)
    && var w := net.wires[end];
    && var ms := net.servers[w.from].sent[w.link];
    && Acceptable(w.from, end.server, ms)
    && (end.link in net.servers[end.server].links ==>
          forall i: Issi :: Get(OffersOf(net.servers[end.server].rib, i), end.link) == Replay(ms[..w.taken], i))
  }

  ghost predicate ServerOk(net: Net, s: ServerId) {
    && s in net.servers
    && var t := net.servers[s];
    && t.selfId == s && TableOk(t) && InSync(t)
    && (forall l :: l in t.links ==> t.links[l] != s && l in t.sent && Acceptable(s, t.links[l], t.sent[l]))
    && (forall l, i: Issi :: l in t.links && End(s, l) !in net.wires ==> l !in OffersOf(t.rib, i))
  }

  ghost predicate NetOk(net: Net) {
    && (forall s :: s in net.servers ==> ServerOk(net, s))
    && (forall end :: end in net.wires ==> WireOk(net, end))
  }

  function ArrivalOf(m: Msg, src: ClientId, now: u64): Event {
    match m
    case FedRoute(i, a) => RouteIn(src, i, a, now)
    case FedWithdraw(i) => WithdrawIn(src, i)
    case SubMsg(k, i, gs) => SubIn(src, k, i, gs, now)
  }

  /** Local events are anything but adverts; a link is joined once both ends are
      attached for each other; what is delivered was registered, by the
      receiver's clock, at most a day ahead (honest clocks). */
  ghost predicate NetEnabled(net: Net, e: NetEvent) {
    match e
    case AtServer(s, ev) =>
      && s in net.servers && net.servers[s].clock < U64_MAX
      && (ev.SubIn? || ev.LinkUp? || ev.LinkDown?) && Enabled(net.servers[s], ev)
      && (ev.LinkUp? && ev.neighbour.Some? ==> ev.neighbour.value in net.servers && ev.neighbour.value != s)
    case Connect(end, peer) =>
      && end !in net.wires && end.server in net.servers && peer.server in net.servers
      && Get(net.servers[end.server].links, end.link) == Some(peer.server)
      && Get(net.servers[peer.server].links, peer.link) == Some(end.server)
    case Deliver(end, now) =>
      && end in net.wires && end.server in net.servers && net.wires[end].from in net.servers
      && var (w, t) := (net.wires[end], net.servers[end.server]);
      && t.clock < U64_MAX && end.link in t.links
      && w.link in net.servers[w.from].sent && w.taken < |net.servers[w.from].sent[w.link]|
      && var m := net.servers[w.from].sent[w.link][w.taken];
      && (m.FedRoute? ==> m.advert.reg <= SatAdd(now, MAX_FUTURE_MS))
  }

  ghost function NetNext(net: Net, e: NetEvent): Net
    requires NetEnabled(net, e)
  {
    match e
    case AtServer(s, ev) => net.(servers := net.servers[s := Next(net.servers[s], ev)])
    case Connect(end, peer) => net.(wires := net.wires[end := Wire(peer.server, peer.link, 0)])
    case Deliver(end, now) =>
      var w := net.wires[end];
      var m := net.servers[w.from].sent[w.link][w.taken];
      Net(net.servers[end.server := Next(net.servers[end.server], ArrivalOf(m, end.link, now))],
          net.wires[end := w.(taken := w.taken + 1)])
  }

  // ----- one server's step, seen from its links -----

  lemma {:induction false} AboutMember(ms: seq<Msg>, m: Msg)
    ensures m in About(ms, m.issi) <==> m in ms
  {
    if ms != [] {
      AboutMember(ms[..|ms| - 1], m);
      assert ms == ms[..|ms| - 1] + [ms[|ms| - 1]];
    }
  }

  lemma {:induction false} SettledGrows(d: Table, issis: seq<Issi>, before: Subs, c: ClientId)
    requires c in d.sent
    ensures c in Settled(d, issis, before).sent
    ensures d.sent[c] <= Settled(d, issis, before).sent[c]
    ensures c !in d.clients ==> Settled(d, issis, before).sent[c] == d.sent[c]
    decreases |issis|
  {
    hide Rerouted, UpdatesTo;
    if issis != [] {
      SettledGrows(d, issis[..|issis| - 1], before, c);
      SettledShape(d, issis[..|issis| - 1], before);
    }
  }

  /** Histories only grow, and freeze once the connection is gone. */
  lemma SentGrows(t: Table, e: Event, c: ClientId)
    requires c in t.sent && Enabled(t, e)
    ensures c in Next(t, e).sent && t.sent[c] <= Next(t, e).sent[c]
    ensures c !in Next(t, e).clients && (e.LinkDown? || c !in t.clients) ==> Next(t, e).sent[c] == t.sent[c]
  {
    hide Rerouted, UpdatesTo, OnSub;
    match e
    case LinkDown(id) => NextShape(t, e); SettledGrows(Dropped(t, id), Sorted(Affected(t, id)), t.subs, c);
    case SubIn(src, kind, i, groups, now) => OnSubPublishes(t, src, kind, i, groups, now);
    case _ =>
  }

  /** Whatever `handle_subscriber` does, it ends in one publish. */
  lemma OnSubPublishes(t: Table, src: ClientId, kind: SubKind, i: Issi, groups: seq<Gssi>, now: u64)
    ensures var t' := OnSub(t, src, kind, i, groups, now);
      (t' == t || t' == Published(t'.(sent := t.sent), i, Get(t.subs, i))) && t'.rib == t.rib
  {
    hide Desired, UpdatesTo;
  }

  /** A connection that was attached before keeps its negotiation until it goes. */
  lemma EndStep(t: Table, e: Event, c: ClientId)
    requires c in t.sent && Enabled(t, e)
    ensures var t' := Next(t, e);
      && (c in t'.links ==> c in t.links && t'.links[c] == t.links[c])
      && (c in t'.clients <==> c in t.clients && !(e.LinkDown? && e.id == c))
      && (c in t.links && c !in t'.links ==> c !in t'.clients)
      && (e.LinkDown? && e.id == c ==> c !in t'.links)
  {
    hide Next;
    NextShape(t, e);
    if e.LinkUp? { assert Get(Next(t, e).links, c) == Get(t.links, c); }
  }

  /** The offers a server holds change only by what arrives on, or with, the link. */
  lemma OffersAfter(t: Table, e: Event, l: ClientId, i: Issi)
    requires TableOk(t) && (e.LinkDown? ==> l != e.id)
    requires e.RouteIn? ==> !Refused(t, e.advert, e.now)
    requires (e.RouteIn? || e.WithdrawIn?) ==> e.src in t.links
    ensures Get(OffersOf(Next(t, e).rib, i), l) ==
      if e.RouteIn? && e.src == l && e.issi == i then Some(e.advert)
      else if e.WithdrawIn? && e.src == l && e.issi == i then None
      else Get(OffersOf(t.rib, i), l)
  {
    hide Rerouted, Published, OnSub, EntryOk, WithdrawOffer;
    match e
    case LinkDown(id) =>
      assert EntryOk(t, i);
      SettledShape(Dropped(t, id), Sorted(Affected(t, id)), t.subs);
      DroppedOffers(t, id, l, i);
    case SubIn(src, kind, j, groups, now) => OnSubPublishes(t, src, kind, j, groups, now);
    case _ =>
  }

  lemma DroppedOffers(t: Table, id: ClientId, l: ClientId, i: Issi)
    requires EntryOk(t, i) && l != id
    ensures Get(OffersOf(Dropped(t, id).rib, i), l) == Get(OffersOf(t.rib, i), l)
  {
    hide Desired;
    DroppedInputOk(t, id, i);
    if i in Affected(t, id) {
      assert OffersOf(Dropped(t, id).rib, i) == OffersOf(t.rib, i) - {id};
    }
  }

  /** A server keeps sending only what its neighbours can accept. */
  lemma NextAcceptable(t: Table, e: Event, l: ClientId)
    requires TableOk(t) && Enabled(t, e) && TableOk(Next(t, e)) && l in Next(t, e).links
    requires l in t.links ==> l in t.sent && Acceptable(t.selfId, t.links[l], t.sent[l])
    requires Next(t, e).links[l] != t.selfId
    ensures l in Next(t, e).sent && Acceptable(t.selfId, Next(t, e).links[l], Next(t, e).sent[l])
  {
    hide EntryOk, Next, Desired;
    var t' := Next(t, e);
    NextShape(t, e);
    assert IsPeer(t', l);
    forall m | m in t'.sent[l]
      ensures !m.SubMsg? && (m.FedRoute? ==> Parsed(t.selfId, m.advert) && t'.links[l] !in m.advert.path)
    {
      AboutMember(t'.sent[l], m);
      if OfferNow(t', l, m.issi).Some? {
        assert EntryOk(t', m.issi);
        OfferAccepted(t', l, m.issi);
      }
      if e.LinkUp? && l == e.id {
        SyncSent(t, e, m.issi);
      } else {
        LinksComeFrom(t, e, l);
        NextTellsDifference(t, e, l, m.issi);
        AboutMember(t.sent[l], m);
      }
    }
  }

  /** A fresh loop-safe link is sent at most one advert per ISSI: the one allowed. */
  lemma SyncSent(t: Table, e: Event, i: Issi)
    requires e.LinkUp? && Enabled(t, e) && e.id in Next(t, e).links
    ensures e.id in Next(t, e).sent
    ensures var m := OfferNow(Next(t, e), e.id, i);
      About(Next(t, e).sent[e.id], i) == if m.Some? then [FedRoute(i, m.value)] else []
  {
    hide About;
    var t' := Next(t, e);
    assert Get(t'.links, e.id) == e.neighbour;
    var t1 := t'.(sent := t.sent[e.id := []]);
    var issis := Sorted(t.subs.Keys);
    assert Elems(issis) == t.subs.Keys;
    SyncOverReplay(t1, e.id, issis, i);
    assert i in issis <==> i in t.subs;
  }

  // ----- every step keeps the network invariant -----

  lemma ReplayPrefix(ms: seq<Msg>, k: nat, i: Issi)
    requires k < |ms|
    ensures Replay(ms[..k + 1], i) ==
      if ms[k].issi != i then Replay(ms[..k], i)
      else if ms[k].FedRoute? then Some(ms[k].advert) else None
  {
    assert ms[..k + 1][..k] == ms[..k];
  }

  /** One server takes a step: its own guarantees. */
  lemma ServerStep(net: Net, s: ServerId, e: Event)
    requires ServerOk(net, s) && Enabled(net.servers[s], e) && net.servers[s].clock < U64_MAX
    requires e.LinkUp? && e.neighbour.Some? ==> e.neighbour.value != s
    ensures var t' := Next(net.servers[s], e);
      && t'.selfId == s && TableOk(t') && InSync(t')
      && forall l :: l in t'.links ==> t'.links[l] != s && l in t'.sent && Acceptable(s, t'.links[l], t'.sent[l])
  {
    hide EntryOk, Next, InSync, Acceptable;
    var t := net.servers[s];
    NextOk(t, e);
    NextInSync(t, e);
    NextShape(t, e);
    forall l | l in Next(t, e).links
      ensures Next(t, e).links[l] != s && l in Next(t, e).sent && Acceptable(s, Next(t, e).links[l], Next(t, e).sent[l])
    {
      if !(e.LinkUp? && l == e.id) {
        LinksComeFrom(t, e, l);
        assert Get(Next(t, e).links, l) == Get(t.links, l);
      } else {
        assert Get(Next(t, e).links, l) == e.neighbour;
      }
      NextAcceptable(t, e, l);
    }
  }

  /** A server's step as seen by a wire it sends on. */
  lemma SenderStep(net: Net, s: ServerId, e: Event, end: End)
    requires ServerOk(net, s) && WireOk(net, end) && net.wires[end].from == s
    requires Enabled(net.servers[s], e) && net.servers[s].clock < U64_MAX
    requires e.LinkUp? && e.neighbour.Some? ==> e.neighbour.value != s
    ensures WireOk(net.(servers := net.servers[s := Next(net.servers[s], e)]), end)
  {
    hide EntryOk, Next, TableOk, InSync, Replay;
    var w := net.wires[end];
    var t := net.servers[s];
    var t' := Next(t, e);
    SentGrows(t, e, w.link);
    EndStep(t, e, w.link);
    ServerStep(net, s, e);
    assert t'.sent[w.link][..w.taken] == t.sent[w.link][..w.taken];
  }

  /** A server's step as seen by a wire it receives on; `arrived` is what the
      step took from the wire, if anything. */
  lemma ReceiverStep(net: Net, s: ServerId, e: Event, end: End, taken: nat)
    requires ServerOk(net, s) && WireOk(net, end) && end.server == s
    requires Enabled(net.servers[s], e)
    requires (e.RouteIn? || e.WithdrawIn?) ==> e.src in net.servers[s].links
    requires e.RouteIn? ==> !Refused(net.servers[s], e.advert, e.now)
    requires var (w, ms) := (net.wires[end], net.servers[net.wires[end].from].sent[net.wires[end].link]);
      if (e.RouteIn? || e.WithdrawIn?) && e.src == end.link
      then w.taken < |ms| && taken == w.taken + 1 &&
          e == ArrivalOf(ms[w.taken], end.link, if e.RouteIn? then e.now else 0)
      else taken == w.taken
    ensures WireOk(Net(net.servers[s := Next(net.servers[s], e)], net.wires[end := net.wires[end].(taken := taken)]),
                   end)
  {
    hide EntryOk, Next, InSync, Replay;
    var w := net.wires[end];
    var ms := net.servers[w.from].sent[w.link];
    var t := net.servers[s];
    SentGrows(t, e, end.link);
    EndStep(t, e, end.link);
    if end.link in Next(t, e).links {
      forall i: Issi ensures Get(OffersOf(Next(t, e).rib, i), end.link) == Replay(ms[..taken], i) {
        OffersAfter(t, e, end.link, i);
        if taken == w.taken + 1 { ReplayPrefix(ms, w.taken, i); }
      }
    }
  }

  /** Servers other than the acting one keep what they guarantee. */
  lemma Bystander(net: Net, net': Net, s: ServerId)
    requires ServerOk(net, s) && s in net'.servers && net'.servers[s] == net.servers[s]
    requires forall end :: end in net.wires ==> end in net'.wires
    ensures ServerOk(net', s)
  {
    hide EntryOk, TableOk, InSync, Acceptable;
  }

  lemma BystanderWire(net: Net, net': Net, end: End)
    requires WireOk(net, end) && end in net'.wires && net'.wires[end] == net.wires[end]
    requires end.server in net'.servers && net'.servers[end.server] == net.servers[end.server]
    requires net.wires[end].from in net'.servers
      && net'.servers[net.wires[end].from] == net.servers[net.wires[end].from]
    ensures WireOk(net', end)
  {
    hide Replay, Acceptable;
  }

  /** A negotiated end nothing was delivered on holds no offers. */
  lemma UnwiredStep(net: Net, s: ServerId, e: Event, l: ClientId, i: Issi)
    requires ServerOk(net, s) && Enabled(net.servers[s], e) && TableOk(Next(net.servers[s], e))
    requires (e.RouteIn? || e.WithdrawIn?) ==> e.src in net.servers[s].links && End(s, e.src) in net.wires
    requires e.RouteIn? ==> !Refused(net.servers[s], e.advert, e.now)
    requires l in Next(net.servers[s], e).links && End(s, l) !in net.wires
    ensures l !in OffersOf(Next(net.servers[s], e).rib, i)
  {
    hide EntryOk, Next, InSync, Acceptable;
    var t := net.servers[s];
    NextShape(t, e);
    OffersAfter(t, e, l, i);
    if e.LinkUp? && e.id == l {
      assert EntryOk(t, i);
      NeverOffered(t, l, i);
    } else {
      LinksComeFrom(t, e, l);
    }
  }

  lemma NeverOffered(t: Table, l: ClientId, i: Issi)
    requires EntryOk(t, i) && l !in t.links
    ensures l !in OffersOf(t.rib, i)
  {
  }

  /** The acting server after its step, once the wires are updated too. */
  lemma ActorOk(net: Net, net': Net, s: ServerId, e: Event)
    requires ServerOk(net, s) && Enabled(net.servers[s], e) && net.servers[s].clock < U64_MAX
    requires e.LinkUp? && e.neighbour.Some? ==> e.neighbour.value != s
    requires (e.RouteIn? || e.WithdrawIn?) ==> e.src in net.servers[s].links && End(s, e.src) in net.wires
    requires e.RouteIn? ==> !Refused(net.servers[s], e.advert, e.now)
    requires net'.servers == net.servers[s := Next(net.servers[s], e)] && net'.wires.Keys == net.wires.Keys
    ensures ServerOk(net', s)
  {
    hide EntryOk, Next, InSync, Acceptable, TableOk;
    ServerStep(net, s, e);
    forall l, i: Issi | l in Next(net.servers[s], e).links && End(s, l) !in net.wires
      ensures l !in OffersOf(Next(net.servers[s], e).rib, i)
    {
      UnwiredStep(net, s, e, l, i);
    }
  }

  lemma LocalStep(net: Net, s: ServerId, e: Event)
    requires NetOk(net) && NetEnabled(net, AtServer(s, e))
    ensures NetOk(NetNext(net, AtServer(s, e)))
  {
    hide EntryOk, Next, ServerOk, Replay, Acceptable;
    var net' := NetNext(net, AtServer(s, e));
    ActorOk(net, net', s, e);
    forall v | v in net'.servers ensures ServerOk(net', v) {
      if v != s { Bystander(net, net', v); }
    }
    forall end | end in net'.wires ensures WireOk(net', end) {
      assert WireOk(net, end);
      if net.wires[end].from == s {
        SenderStep(net, s, e, end);
      } else if end.server == s {
        assert net.wires[end := net.wires[end].(taken := net.wires[end].taken)] == net.wires;
        ReceiverStep(net, s, e, end, net.wires[end].taken);
      } else {
        BystanderWire(net, net', end);
      }
    }
  }

  lemma ConnectStep(net: Net, end: End, peer: End)
    requires NetOk(net) && NetEnabled(net, Connect(end, peer))
    ensures NetOk(NetNext(net, Connect(end, peer)))
  {
    hide EntryOk, ServerOk, Replay, Acceptable;
    var net' := NetNext(net, Connect(end, peer));
    forall v | v in net'.servers ensures ServerOk(net', v) {
      Bystander(net, net', v);
    }
    forall x | x in net'.wires ensures WireOk(net', x) {
      if x == end {
        assert ServerOk(net, end.server) && ServerOk(net, peer.server);
        ConnectedWire(net, end, peer);
      } else {
        assert WireOk(net, x);
        BystanderWire(net, net', x);
      }
    }
  }

  lemma ConnectedWire(net: Net, end: End, peer: End)
    requires ServerOk(net, end.server) && ServerOk(net, peer.server)
    requires NetEnabled(net, Connect(end, peer))
    ensures WireOk(NetNext(net, Connect(end, peer)), end)
  {
    hide EntryOk, InSync, Acceptable;
  }

  lemma DeliverStep(net: Net, end: End, now: u64)
    requires NetOk(net) && NetEnabled(net, Deliver(end, now))
    ensures NetOk(NetNext(net, Deliver(end, now)))
  {
    hide EntryOk, Next, ServerOk, Replay, Acceptable;
    var net' := NetNext(net, Deliver(end, now));
    var w := net.wires[end];
    var e := ArrivalOf(net.servers[w.from].sent[w.link][w.taken], end.link, now);
    assert WireOk(net, end) && ServerOk(net, end.server);
    DeliveredEnabled(net, end, now);
    ActorOk(net, net', end.server, e);
    forall v | v in net'.servers ensures ServerOk(net', v) {
      if v != end.server { Bystander(net, net', v); }
    }
    forall x | x in net'.wires ensures WireOk(net', x) {
      assert WireOk(net, x);
      DeliveredWire(net, end, now, x);
    }
  }

  lemma DeliveredWire(net: Net, end: End, now: u64, x: End)
    requires ServerOk(net, end.server) && WireOk(net, end) && WireOk(net, x) && NetEnabled(net, Deliver(end, now))
    ensures WireOk(NetNext(net, Deliver(end, now)), x)
  {
    hide EntryOk, Next, ServerOk, Replay, Acceptable;
    var net' := NetNext(net, Deliver(end, now));
    var (s, w) := (end.server, net.wires[end]);
    var e := ArrivalOf(net.servers[w.from].sent[w.link][w.taken], end.link, now);
    DeliveredEnabled(net, end, now);
    var n1 := net.(servers := net'.servers);
    if x == end {
      ReceiverStep(net, s, e, end, w.taken + 1);
    } else if net.wires[x].from == s {
      SenderStep(net, s, e, x);
      BystanderWire(n1, net', x);
    } else if x.server == s {
      assert net.wires[x := net.wires[x].(taken := net.wires[x].taken)] == net.wires;
      ReceiverStep(net, s, e, x, net.wires[x].taken);
      BystanderWire(n1, net', x);
    } else {
      BystanderWire(net, net', x);
    }
  }

  /** What an honest, live link delivers is parsed and never refused. */
  lemma DeliveredEnabled(net: Net, end: End, now: u64)
    requires WireOk(net, end) && ServerOk(net, end.server) && NetEnabled(net, Deliver(end, now))
    ensures var (w, t) := (net.wires[end], net.servers[end.server]);
      var e := ArrivalOf(net.servers[w.from].sent[w.link][w.taken], end.link, now);
      && (e.RouteIn? || e.WithdrawIn?) && e.src == end.link && Enabled(t, e)
      && (e.RouteIn? ==> !Refused(t, e.advert, now))
  {
    hide EntryOk, InSync, Replay;
    var w := net.wires[end];
    assert net.servers[w.from].sent[w.link][w.taken] in net.servers[w.from].sent[w.link];
  }

  // ----- runs -----

  function Isolated(ids: set<ServerId>): Net {
    Net(map s | s in ids :: Initial(s), map[])
  }

  ghost predicate NetStep(net: Net, e: NetEvent, net': Net) {
    NetEnabled(net, e) && net' == NetNext(net, e)
  }

  /** A run: the networks passed through, one more than the events. */
  ghost predicate NetRun(ids: set<ServerId>, nets: seq<Net>, es: seq<NetEvent>) {
    && |nets| == |es| + 1 && nets[0] == Isolated(ids)
    && forall k :: 0 <= k < |es| ==> NetStep(nets[k], es[k], nets[k + 1])
  }

  /** Every reachable network satisfies the invariant. */
  lemma {:induction false} NetAlwaysOk(ids: set<ServerId>, nets: seq<Net>, es: seq<NetEvent>, k: nat)
    requires NetRun(ids, nets, es) && k <= |es|
    ensures NetOk(nets[k])
  {
    hide ServerOk, WireOk, NetEnabled, NetNext;
    if k == 0 {
      forall s | s in nets[0].servers ensures ServerOk(nets[0], s) { IsolatedOk(ids, s); }
    } else {
      NetAlwaysOk(ids, nets, es, k - 1);
      var (net, e) := (nets[k - 1], es[k - 1]);
      assert NetStep(net, e, nets[k - 1 + 1]);
      match e
      case AtServer(s, ev) => LocalStep(net, s, ev);
      case Connect(end, peer) => ConnectStep(net, end, peer);
      case Deliver(end, now) => DeliverStep(net, end, now);
    }
  }

  lemma IsolatedOk(ids: set<ServerId>, s: ServerId)
    requires s in ids
    ensures ServerOk(Isolated(ids), s)
  {
    assert Run(s, []) == Initial(s);
    AlwaysFixpoint(s, [], 0);
  }
}
