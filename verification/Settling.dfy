/** Deliveries alone, links and registrations left as they are: what they keep,
    and how far behind its neighbours a server can be. */
module Settling {
  import opened FedTypes
  import opened RouteTable
  import opened TableInvariant
  import opened Propagation
  import opened Federation

  /** Both ends of the link are joined to each other. */
  ghost predicate JoinedEnd(net: Net, s: ServerId, l: ClientId) {
    && End(s, l) in net.wires
    && var w := net.wires[End(s, l)];
    && w.from in net.servers && w.link in net.servers[w.from].links
    && End(w.from, w.link) in net.wires
    && net.wires[End(w.from, w.link)].from == s && net.wires[End(w.from, w.link)].link == l
  }

  ghost predicate Joined(net: Net) {
    forall s, l :: s in net.servers && l in net.servers[s].links ==> JoinedEnd(net, s, l)
  }

  /** A run of nothing but deliveries. */
  ghost predicate Deliveries(nets: seq<Net>, es: seq<NetEvent>) {
    && |nets| == |es| + 1 && NetOk(nets[0]) && Joined(nets[0])
    && forall k :: 0 <= k < |es| ==> es[k].Deliver? && NetStep(nets[k], es[k], nets[k + 1])
  }

  /** The links are the same, the histories longer, and no registration is new. */
  ghost predicate Later(a: Net, b: Net) {
    && b.servers.Keys == a.servers.Keys && b.wires.Keys == a.wires.Keys
    && (forall s :: s in a.servers ==> ServerLater(a.servers[s], b.servers[s]))
    && forall x :: x in a.wires ==>
         b.wires[x].from == a.wires[x].from && b.wires[x].link == a.wires[x].link &&
             a.wires[x].taken <= b.wires[x].taken
  }

  ghost predicate ServerLater(t: Table, t': Table) {
    && t'.selfId == t.selfId && t'.links == t.links
    && (forall l :: l in t.links && l in t.sent ==> l in t'.sent && t.sent[l] <= t'.sent[l])
    && forall i: Issi :: LocalOf(t', i).Some? ==> LocalOf(t', i) == LocalOf(t, i)
  }

  lemma LaterSame(a: Net)
    ensures Later(a, a)
  {
  }

  lemma LaterOn(a: Net, b: Net, c: Net)
    requires Later(a, b) && Later(b, c)
    ensures Later(a, c)
  {
    forall s | s in a.servers ensures ServerLater(a.servers[s], c.servers[s]) {
      assert ServerLater(a.servers[s], b.servers[s]) && ServerLater(b.servers[s], c.servers[s]);
    }
  }

  // ----- one delivery -----

  /** The table step a delivery causes. */
  ghost function Arrival(net: Net, end: End, now: u64): Event
    requires NetEnabled(net, Deliver(end, now))
  {
    var w := net.wires[end];
    ArrivalOf(net.servers[w.from].sent[w.link][w.taken], end.link, now)
  }

  /** Link `l` was queued just what the change of `issi` is told by. */
  ghost predicate ToldChange(t: Table, t': Table, issi: Issi, l: ClientId) {
    && l in t.sent && l in t'.sent
    && t'.sent[l] == t.sent[l] + UpdatesTo(t.selfId, t.links, l, issi, Get(t.subs, issi), Get(t'.subs, issi))
  }

  /** What it changes of the receiving server: the entry of one ISSI, told to
      each link by one message at most, and no registration but a superseded one. */
  lemma ArrivalStep(t: Table, e: Event)
    requires TableOk(t) && Enabled(t, e) && TableOk(Next(t, e))
    requires (e.RouteIn? || e.WithdrawIn?) && e.src in t.links
    ensures var t' := Next(t, e);
      && t'.selfId == t.selfId && t'.links == t.links
      && (forall i :: i != e.issi ==> Get(t'.subs, i) == Get(t.subs, i))
      && (forall l :: l in t.links ==> ToldChange(t, t', e.issi, l))
  {
    hide Desired, EntryOk, UpdatesTo, TakeOffer;
    if e.RouteIn? {
      CommitTells(t, TakeOffer(t, e.src, e.issi, e.advert, e.now), e.issi) by { TakeOfferKeeps(t, e); }
    } else {
      CommitTells(t, t.(rib := WithdrawOffer(t.rib, e.issi, e.src)), e.issi);
      SameTells(t, e.issi);
    }
  }

  lemma TakeOfferKeeps(t: Table, e: Event)
    requires e.RouteIn?
    ensures var t1 := TakeOffer(t, e.src, e.issi, e.advert, e.now);
      t1.selfId == t.selfId && t1.links == t.links && t1.clients == t.clients && t1.subs == t.subs && t1.sent == t.sent
  {
  }

  lemma CommitTells(t: Table, t1: Table, issi: Issi)
    requires TableOk(t)
    requires t1.selfId == t.selfId && t1.links == t.links
    requires t1.clients == t.clients && t1.subs == t.subs && t1.sent == t.sent
    ensures var t' := Published(Rerouted(t1, issi), issi, Get(t.subs, issi));
      && t'.selfId == t.selfId && t'.links == t.links
      && (forall i :: i != issi ==> Get(t'.subs, i) == Get(t.subs, i))
      && (forall l :: l in t.links ==> ToldChange(t, t', issi, l))
  {
    hide EntryOk, UpdatesTo, Rerouted;
    forall l | l in t.links ensures IsPeer(t, l) && l in t.sent { }
  }

  lemma SameTells(t: Table, issi: Issi)
    ensures forall l :: l in t.sent ==>
      t.sent[l] == t.sent[l] + UpdatesTo(t.selfId, t.links, l, issi, Get(t.subs, issi), Get(t.subs, issi))
  {
  }

  /** A registration survives a step unchanged or not at all. */
  lemma LocalStays(t: Table, e: Event, i: Issi)
    requires EntryOk(t, i) && (e.RouteIn? || e.WithdrawIn?) && e.src in t.links && EntryOk(Next(t, e), i)
    requires Next(t, e).links == t.links && forall j :: j != e.issi ==> Get(Next(t, e).subs, j) == Get(t.subs, j)
    ensures LocalOf(Next(t, e), i).Some? ==> LocalOf(Next(t, e), i) == LocalOf(t, i)
  {
    hide Rerouted, Published;
    var t' := Next(t, e);
    if i != e.issi {
      assert Get(t'.subs, i) == Get(t.subs, i);
    } else if e.RouteIn? {
      ReroutedLocal(t, TakeOffer(t, e.src, e.issi, e.advert, e.now), i);
    } else {
      ReroutedLocal(t, t.(rib := WithdrawOffer(t.rib, e.issi, e.src)), i);
    }
  }

  lemma ReroutedLocal(t: Table, t1: Table, i: Issi)
    requires t1.links == t.links && t1.subs == t.subs
    requires forall l :: l in OffersOf(t1.rib, i) ==> l in t1.links
    ensures LocalOf(Rerouted(t1, i), i).Some? ==> LocalOf(Rerouted(t1, i), i) == LocalOf(t, i)
  {
    var c := Chosen(t1, i);
    if c.Remote? { assert c.link in OffersOf(t1.rib, i); }
  }

  /** A delivery makes the network later, and adds at most one message to a history. */
  lemma DeliverLater(net: Net, end: End, now: u64)
    requires NetOk(net) && NetEnabled(net, Deliver(end, now))
    ensures var net' := NetNext(net, Deliver(end, now));
      && NetOk(net') && Later(net, net')
      && (forall s, l :: s in net.servers && l in net.servers[s].links ==>
            l in net.servers[s].sent && l in net'.servers[s].sent &&
                |net'.servers[s].sent[l]| <= |net.servers[s].sent[l]| + 1)
  {
    hide NetOk, EntryOk, Next, ServerOk, WireOk, TableOk, ServerLater;
    var net' := NetNext(net, Deliver(end, now));
    var s := end.server;
    DeliverStep(net, end, now);
    var e := Arrival(net, end, now);
    ReceiverChange(net, end, now);
    forall v | v in net.servers ensures ServerLater(net.servers[v], net'.servers[v]) {
      if v != s { SameServer(net.servers[v]); }
    }
    forall v, l | v in net.servers && l in net.servers[v].links
      ensures l in net.servers[v].sent && l in net'.servers[v].sent
      ensures |net'.servers[v].sent[l]| <= |net.servers[v].sent[l]| + 1
    {
      SentKnown(net, v, l);
    }
  }

  lemma SameServer(t: Table)
    ensures ServerLater(t, t)
  {
  }

  lemma SentKnown(net: Net, v: ServerId, l: ClientId)
    requires NetOk(net) && v in net.servers && l in net.servers[v].links
    ensures l in net.servers[v].sent
  {
    hide WireOk, TableOk, InSync, Acceptable;
    assert ServerOk(net, v);
  }

  /** The receiver's part of a delivery. */
  lemma ReceiverChange(net: Net, end: End, now: u64)
    requires NetOk(net) && NetEnabled(net, Deliver(end, now)) && NetOk(NetNext(net, Deliver(end, now)))
    ensures var (t, t', e) :=
      (net.servers[end.server], NetNext(net, Deliver(end, now)).servers[end.server], Arrival(net, end, now));
      && (e.RouteIn? || e.WithdrawIn?) && t' == Next(t, e) && ServerLater(t, t')
      && (forall i :: i != e.issi ==> Get(t'.subs, i) == Get(t.subs, i))
      && (forall l :: l in t.links ==> ToldChange(t, t', e.issi, l) && |t'.sent[l]| <= |t.sent[l]| + 1)
  {
    hide EntryOk, Next, InSync, Acceptable, TableOk, ToldChange, Enabled, ServerLater;
    var net' := NetNext(net, Deliver(end, now));
    var (t, e) := (net.servers[end.server], Arrival(net, end, now));
    assert WireOk(net, end) && ServerOk(net, end.server) && ServerOk(net', end.server);
    DeliveredEnabled(net, end, now);
    ArrivalStep(t, e);
    ArrivalLater(t, e);
    forall l | l in t.links ensures |Next(t, e).sent[l]| <= |t.sent[l]| + 1 { OneMessage(t, Next(t, e), e.issi, l); }
  }

  lemma ArrivalLater(t: Table, e: Event)
    requires TableOk(t) && Enabled(t, e) && TableOk(Next(t, e)) && (e.RouteIn? || e.WithdrawIn?) && e.src in t.links
    ensures ServerLater(t, Next(t, e))
  {
    hide EntryOk, Next, UpdatesTo;
    var t' := Next(t, e);
    ArrivalStep(t, e);
    forall i: Issi ensures LocalOf(t', i).Some? ==> LocalOf(t', i) == LocalOf(t, i) {
      assert EntryOk(t, i) && EntryOk(t', i);
      LocalStays(t, e, i);
    }
    forall l | l in t.links ensures l in t'.sent && t.sent[l] <= t'.sent[l] { assert ToldChange(t, t', e.issi, l); }
  }

  lemma OneMessage(t: Table, t': Table, i: Issi, l: ClientId)
    requires l in t.links && ToldChange(t, t', i, l)
    ensures l in t.sent && l in t'.sent && |t'.sent[l]| <= |t.sent[l]| + 1
  {
    OneUpdate(t.selfId, t.links, l, i, Get(t.subs, i), Get(t'.subs, i));
  }

  lemma OneUpdate(selfId: ServerId, links: map<ClientId, ServerId>, l: ClientId, i: Issi, prev: Option<Subscriber>,
                  next: Option<Subscriber>)
    ensures l in links ==> |UpdatesTo(selfId, links, l, i, prev, next)| <= 1
  {
  }

  // ----- runs of deliveries -----

  lemma {:induction false} RunOk(nets: seq<Net>, es: seq<NetEvent>, k: nat)
    requires Deliveries(nets, es) && k <= |es|
    ensures NetOk(nets[k]) && Later(nets[0], nets[k])
  {
    hide NetOk, Joined, Later, NetNext, NetEnabled;
    if k == 0 {
      LaterSame(nets[0]);
    } else {
      RunOk(nets, es, k - 1);
      RunStep(nets, es, k - 1);
      LaterOn(nets[0], nets[k - 1], nets[k - 1 + 1]);
    }
  }

  lemma RunStep(nets: seq<Net>, es: seq<NetEvent>, k: nat)
    requires Deliveries(nets, es) && k < |es| && NetOk(nets[k])
    ensures NetOk(nets[k + 1]) && Later(nets[k], nets[k + 1])
    ensures forall s, l :: s in nets[k].servers && l in nets[k].servers[s].links ==>
      l in nets[k].servers[s].sent && l in nets[k + 1].servers[s].sent
      && |nets[k + 1].servers[s].sent[l]| <= |nets[k].servers[s].sent[l]| + 1
  {
    hide NetOk, Joined, Later;
    assert NetStep(nets[k], es[k], nets[k + 1]) && es[k].Deliver?;
    DeliverLater(nets[k], es[k].end, es[k].now);
  }

  lemma {:induction false} RunLater(nets: seq<Net>, es: seq<NetEvent>, j: nat, k: nat)
    requires Deliveries(nets, es) && j <= k <= |es|
    ensures Later(nets[j], nets[k])
    decreases k - j
  {
    hide NetOk, Later, NetStep, Joined;
    if j == k {
      LaterSame(nets[j]);
    } else {
      RunLater(nets, es, j, k - 1);
      RunOk(nets, es, k - 1);
      RunStep(nets, es, k - 1);
      LaterOn(nets[j], nets[k - 1], nets[k - 1 + 1]);
    }
  }

  /** A history that passes a length had just that length at some time. */
  lemma {:induction false} HistoryAt(nets: seq<Net>, es: seq<NetEvent>, a: nat, j: nat, s: ServerId, l: ClientId,
                                     x: nat) returns (k: nat)
    requires Deliveries(nets, es) && a <= j <= |es| && s in nets[a].servers && l in nets[a].servers[s].links
    requires s in nets[j].servers && l in nets[a].servers[s].sent && l in nets[j].servers[s].sent
    requires |nets[a].servers[s].sent[l]| <= x <= |nets[j].servers[s].sent[l]|
    ensures a <= k <= j && s in nets[k].servers && l in nets[k].servers[s].sent && |nets[k].servers[s].sent[l]| == x
    decreases j
  {
    hide NetOk, ServerLater, NetStep, Joined;
    if |nets[j].servers[s].sent[l]| == x {
      k := j;
    } else {
      RunLater(nets, es, a, j - 1);
      RunOk(nets, es, j - 1);
      RunStep(nets, es, j - 1);
      assert ServerLater(nets[a].servers[s], nets[j - 1].servers[s]);
      SameLinks(nets[a].servers[s], nets[j - 1].servers[s]);
      k := HistoryAt(nets, es, a, j - 1, s, l, x);
    }
  }

  lemma SameLinks(t: Table, t': Table)
    requires ServerLater(t, t')
    ensures t'.links == t.links && t'.selfId == t.selfId
  {
  }

  /** Everything queued at the time of `a` is delivered by the time of `b`. */
  ghost predicate Phase(a: Net, b: Net) {
    forall s, l :: s in a.servers && l in a.servers[s].links && End(s, l) in a.wires ==>
      var w := a.wires[End(s, l)];
      w.from in a.servers && w.link in a.servers[w.from].sent && End(s, l) in b.wires
      && |a.servers[w.from].sent[w.link]| <= b.wires[End(s, l)].taken
  }

  lemma JoinedStays(a: Net, b: Net)
    requires Joined(a) && Later(a, b)
    ensures Joined(b)
  {
    forall s, l | s in b.servers && l in b.servers[s].links ensures JoinedEnd(b, s, l) {
      SameLinks(a.servers[s], b.servers[s]);
      assert JoinedEnd(a, s, l);
      SameLinks(a.servers[a.wires[End(s, l)].from], b.servers[a.wires[End(s, l)].from]);
    }
  }

  /** What one end of a link has to do with the other: the links lead to each
      other, the receiver holds the replay of what was delivered, and all that
      was queued replays to what the sender offers now. */
  lemma EndFacts(net: Net, v: ServerId, l: ClientId, i: Issi)
    requires NetOk(net) && JoinedEnd(net, v, l) && v in net.servers && l in net.servers[v].links
    ensures var w := net.wires[End(v, l)];
      && w.from in net.servers && w.link in net.servers[w.from].links
      && net.servers[w.from].links[w.link] == v && net.servers[v].links[l] == w.from
      && w.link in net.servers[w.from].sent
      && var ms := net.servers[w.from].sent[w.link];
      && w.taken <= |ms|
      && Get(OffersOf(net.servers[v].rib, i), l) == Replay(ms[..w.taken], i)
      && Replay(ms, i) == OfferNow(net.servers[w.from], w.link, i)
  {
    hide Acceptable, TableOk, Replay, OfferNow;
    var w := net.wires[End(v, l)];
    assert WireOk(net, End(v, l)) && WireOk(net, End(w.from, w.link));
    assert ServerOk(net, w.from);
  }

  /** After a phase an end holds what its neighbour offered at some time since
      the phase began. */
  lemma HeardSince(nets: seq<Net>, es: seq<NetEvent>, a: nat, b: nat, j: nat, v: ServerId, l: ClientId,
                   i: Issi) returns (k: nat)
    requires Deliveries(nets, es) && a <= b <= j <= |es| && Phase(nets[a], nets[b])
    requires v in nets[0].servers && l in nets[0].servers[v].links
    ensures JoinedEnd(nets[0], v, l) && a <= k <= j
    ensures var w := nets[0].wires[End(v, l)];
      && v in nets[j].servers && w.from in nets[k].servers && w.link in nets[k].servers[w.from].links
      && Get(OffersOf(nets[j].servers[v].rib, i), l) == OfferNow(nets[k].servers[w.from], w.link, i)
  {
    hide NetOk, ServerLater, OfferNow, Replay, Joined, NetStep, JoinedEnd;
    AllJoined(nets[0], v, l);
    EndAt(nets, es, a, v, l, i);
    var x := nets[0].wires[End(v, l)];
    EndAt(nets, es, b, v, l, i);
    EndAt(nets, es, j, v, l, i);
    RunLater(nets, es, b, j);
    k := HistoryAt(nets, es, a, j, x.from, x.link, nets[j].wires[End(v, l)].taken);
    EndAt(nets, es, k, v, l, i);
    RunLater(nets, es, k, j);
    PrefixAt(nets[k].servers[x.from], nets[j].servers[x.from], x.link);
  }

  lemma AllJoined(net: Net, v: ServerId, l: ClientId)
    requires Joined(net) && v in net.servers && l in net.servers[v].links
    ensures JoinedEnd(net, v, l)
  {
  }

  lemma PrefixAt(t: Table, t': Table, l: ClientId)
    requires ServerLater(t, t') && l in t.links && l in t.sent
    ensures l in t'.sent && t.sent[l] == t'.sent[l][..|t.sent[l]|]
  {
  }

  /** `EndFacts` at any time of a run, for the ends as they were at its start. */
  lemma EndAt(nets: seq<Net>, es: seq<NetEvent>, k: nat, v: ServerId, l: ClientId, i: Issi)
    requires Deliveries(nets, es) && k <= |es| && v in nets[0].servers && l in nets[0].servers[v].links
    ensures End(v, l) in nets[0].wires && End(v, l) in nets[k].wires
    ensures v in nets[k].servers && l in nets[k].servers[v].links
    ensures var (net, w, x) := (nets[k], nets[k].wires[End(v, l)], nets[0].wires[End(v, l)]);
      && w.from == x.from && w.link == x.link
      && w.from in net.servers && w.link in net.servers[w.from].links
      && net.servers[w.from].links[w.link] == v && net.servers[v].links[l] == w.from
      && w.link in net.servers[w.from].sent
      && var ms := net.servers[w.from].sent[w.link];
      && w.taken <= |ms|
      && Get(OffersOf(net.servers[v].rib, i), l) == Replay(ms[..w.taken], i)
      && Replay(ms, i) == OfferNow(net.servers[w.from], w.link, i)
  {
    hide NetOk, ServerLater, OfferNow, Replay, NetStep, JoinedEnd;
    RunOk(nets, es, k);
    SameLinks(nets[0].servers[v], nets[k].servers[v]);
    JoinedStays(nets[0], nets[k]);
    AllJoined(nets[k], v, l);
    assert End(v, l) in nets[k].wires by { JoinedHas(nets[k], v, l); }
    EndFacts(nets[k], v, l, i);
  }

  lemma JoinedHas(net: Net, v: ServerId, l: ClientId)
    requires JoinedEnd(net, v, l)
    ensures End(v, l) in net.wires
  {
  }
}
