/** How a federation of four servers comes to oscillate: a radio moves from
    server 1 to server 3 and back, and the links to server 2 fall behind. */
module OscillationStart {
  import opened FedTypes
  import opened RouteSelection
  import opened RouteTable
  import opened TableInvariant
  import opened Federation
  import opened Agreement
  import opened Settling
  import opened Oscillation
  import opened Layers

  const Ids: set<ServerId> := {1, 2, 3, 4}

  ghost predicate Reachable(net: Net) {
    exists nets: seq<Net>, es: seq<NetEvent> :: NetRun(Ids, nets, es) && nets[|es|] == net
  }

  lemma Extended(net: Net, e: NetEvent, net': Net)
    requires Reachable(net) && NetStep(net, e, net')
    ensures Reachable(net')
  {
    hide NetStep, Isolated;
    var nets, es :| NetRun(Ids, nets, es) && nets[|es|] == net;
    var (nets', es') := (nets + [net'], es + [e]);
    forall k | 0 <= k < |es'| ensures NetStep(nets'[k], es'[k], nets'[k + 1]) {
      if k < |es| { assert NetStep(nets[k], es[k], nets[k + 1]); }
    }
    assert NetRun(Ids, nets', es') && nets'[|es'|] == net';
  }

  function Four(t1: Table, t2: Table, t3: Table, t4: Table, w: map<End, Wire>): Net {
    Net(map[1 := t1, 2 := t2, 3 := t3, 4 := t4], w)
  }

  // ----- steps -----

  /** One server takes a local step. */
  lemma Acts(net: Net, s: ServerId, e: Event)
    requires Reachable(net) && NetEnabled(net, AtServer(s, e))
    ensures Reachable(net.(servers := net.servers[s := Next(net.servers[s], e)]))
  {
    hide Reachable, Next;
    Extended(net, AtServer(s, e), NetNext(net, AtServer(s, e)));
  }

  lemma Connects(net: Net, end: End, peer: End)
    requires Reachable(net) && NetEnabled(net, Connect(end, peer))
    ensures Reachable(net.(wires := net.wires[end := Wire(peer.server, peer.link, 0)]))
  {
    hide Reachable, Next;
    Extended(net, Connect(end, peer), NetNext(net, Connect(end, peer)));
  }

  lemma Delivers(net: Net, end: End)
    requires Reachable(net) && NetEnabled(net, Deliver(end, 0))
    ensures var w := net.wires[end];
      var t := Next(net.servers[end.server], ArrivalOf(net.servers[w.from].sent[w.link][w.taken], end.link, 0));
      Reachable(Net(net.servers[end.server := t], net.wires[end := w.(taken := w.taken + 1)]))
  {
    hide Reachable, Next;
    Extended(net, Deliver(end, 0), NetNext(net, Deliver(end, 0)));
  }

  // ----- what a table does -----

  function Linked(t: Table, id: ClientId, nbr: ServerId, ms: seq<Msg>): Table {
    t.(clients := t.clients[id := Peer], links := t.links[id := nbr], sent := t.sent[id := ms])
  }

  lemma LinksEmpty(t: Table, id: ClientId, nbr: ServerId)
    requires t.subs == map[]
    ensures Attach(t, id, Peer, Some(nbr)) == Linked(t, id, nbr, [])
  {
    assert t.subs.Keys == {};
    assert Sorted({}) == [];
    assert t.sent[id := []][id := []] == t.sent[id := []];
  }

  lemma JustSeven()
    ensures Sorted({7}) == [7]
  {
    var s := Sorted({7});
    assert Elems(s) == {7};
    assert forall k :: 0 <= k < |s| ==> s[k] in Elems(s);
    assert 7 in Elems(s);
  }

  lemma LinksOne(t: Table, id: ClientId, nbr: ServerId, e: Subscriber)
    requires t.subs == map[7 := e] && FedUpdate(t.selfId, id, nbr, 7, Some(e)).FedRoute?
    ensures Attach(t, id, Peer, Some(nbr)) == Linked(t, id, nbr, [FedUpdate(t.selfId, id, nbr, 7, Some(e))])
  {
    hide FedUpdate;
    JustSeven();
    assert t.subs.Keys == {7};
    var t1 := Linked(t, id, nbr, []);
    var m := FedUpdate(t.selfId, id, nbr, 7, Some(e));
    assert SyncOver(t1, id, []) == [];
    assert [7][1..] == [];
    assert SyncOver(t1, id, [7]) == [m];
    assert t.sent[id := []][id := [m]] == t.sent[id := [m]];
  }

  /** A local entry without groups, as told on link `id`. */
  lemma TellsLocal(s: ServerId, id: ClientId, nbr: ServerId, c: ClientId, m: Mode, reg: u64)
    requires c != id
    ensures FedUpdate(s, id, nbr, 7, Some(Subscriber(c, {}, m, Route(reg, [])))) == FedRoute(7, Advert(reg, [s], []))
  {
    NoGroups();
    assert [s] + [] == [s];
  }

  // ----- server 1: registered at 10, linked to server 2, registered again at 30 -----

  function LocalAt(c: ClientId, reg: u64): Subscriber {
    Subscriber(c, {}, Basestation, Route(reg, []))
  }

  function Serving(s: ServerId, c: ClientId, reg: u64): Table {
    Table(s, reg, map[c := Basestation], map[], map[7 := LocalAt(c, reg)], map[], map[c := []])
  }

  function Idle(s: ServerId, c: ClientId): Table {
    Table(s, 0, map[c := Basestation], map[], map[], map[], map[c := []])
  }

  lemma Opens(s: ServerId, c: ClientId)
    ensures Attach(Initial(s), c, Basestation, None) == Idle(s, c)
  {
  }

  lemma Registers(s: ServerId, c: ClientId, reg: u64)
    requires 0 < reg
    ensures OnSub(Idle(s, c), c, Register, 7, [], reg) == Serving(s, c, reg)
  {
    var t := OnSub(Idle(s, c), c, Register, 7, [], reg);
    assert t.sent == map[c := []];
  }

  function Told1(): Table {
    Linked(Serving(1, 11, 10), 12, 2, [FedRoute(7, First)])
  }

  function Again1(): Table {
    Told1().(clock := 30, subs := map[7 := LocalAt(11, 30)],
      sent := map[11 := [], 12 := [FedRoute(7, First), FedRoute(7, Home)]])
  }

  lemma Tells1()
    ensures Attach(Serving(1, 11, 10), 12, Peer, Some(2)) == Told1()
  {
    hide Attach, FedUpdate;
    TellsLocal(1, 12, 2, 11, Basestation, 10);
    LinksOne(Serving(1, 11, 10), 12, 2, LocalAt(11, 10));
  }

  lemma RegistersAgain()
    ensures OnSub(Told1(), 11, Register, 7, [], 30) == Again1()
  {
    hide FedUpdate, Published;
    TellsLocal(1, 12, 2, 11, Basestation, 30);
    var t := Told1().(clock := 30, subs := map[7 := LocalAt(11, 30)]);
    assert Told1().subs[7 := LocalAt(11, 30)] == t.subs;
    assert OnSub(Told1(), 11, Register, 7, [], 30) == Published(t, 7, Some(LocalAt(11, 10)));
    PublishesHome(t);
  }

  lemma PublishesHome(t: Table)
    requires t == Told1().(clock := 30, subs := map[7 := LocalAt(11, 30)])
    ensures Published(t, 7, Some(LocalAt(11, 10))) == Again1()
  {
    hide FedUpdate;
    TellsLocal(1, 12, 2, 11, Basestation, 30);
    assert UpdatesTo(1, t.links, 12, 7, Some(LocalAt(11, 10)), Some(LocalAt(11, 30))) == [FedRoute(7, Home)];
    var r := Published(t, 7, Some(LocalAt(11, 10)));
    assert r.sent[12] == [FedRoute(7, First)] + [FedRoute(7, Home)] == [FedRoute(7, First), FedRoute(7, Home)] &&
      r.sent[11] == [];
    assert r.sent == Again1().sent;
  }

  lemma Rests1()
    ensures Attach(Again1(), 13, Peer, Some(3)) == Rest1()
  {
    hide Attach, FedUpdate;
    TellsLocal(1, 13, 3, 11, Basestation, 30);
    LinksOne(Again1(), 13, 3, LocalAt(11, 30));
    assert Linked(Again1(), 13, 3, [FedRoute(7, Home)]) == Rest1();
  }

  // ----- server 2: the first registration, then the second, then no more -----

  function Hearing2(): Table {
    Table(2, 0, map[21 := Peer], map[21 := 1], map[], map[], map[21 := []])
  }

  function Knows2(): Table {
    Hearing2().(clock := 10, subs := map[7 := FromAdvert(21, First)], rib := map[7 := map[21 := First]],
      sent := map[21 := [FedWithdraw(7)]])
  }

  function Wider2(): Table {
    Linked(Knows2(), 23, 3, [FedRoute(7, Onward(2, First))])
  }

  function Turned2(): Table {
    Wider2().(clock := 20, subs := map[7 := FromAdvert(23, Second)],
      rib := map[7 := map[21 := First, 23 := Second]],
      sent := map[21 := [FedWithdraw(7), FedRoute(7, Onward(2, Second))],
      23 := [FedRoute(7, Onward(2, First)), FedWithdraw(7)]])
  }

  lemma Learns2()
    ensures OnRoute(Hearing2(), 21, 7, First, 0) == Knows2()
  {
    hide Published, Rerouted, FedUpdate, Switched;
    var t := Hearing2().(clock := 10, rib := map[7 := map[21 := First]]);
    assert TakeOffer(Hearing2(), 21, 7, First, 0) == t;
    assert IsNewest(OffersOf(t.rib, 7), 21) && IsClosest(t.links, OffersOf(t.rib, 7), 21, 1);
    Switches(t, 21, 21, 7);
    Tells(2, 21, 1, 7, 21, First);
    assert Switched(t, 7, 21) == Knows2() by { SwitchedOne(t, 21, First, 1); }
  }

  /** With one link there is one neighbour to tell. */
  lemma SwitchedOne(t: Table, l: ClientId, e: Advert, nbr: ServerId)
    requires t.links == map[l := nbr] && t.sent == map[l := []]
    requires l in OffersOf(t.rib, 7) && OffersOf(t.rib, 7)[l] == e && t.subs == map[]
    ensures Switched(t, 7, l) ==
      t.(subs := map[7 := FromAdvert(l, e)], sent := map[l := [FedUpdate(t.selfId, l, nbr, 7, Some(FromAdvert(l, e)))]])
  {
    hide FedUpdate, FromAdvert;
    var m := FedUpdate(t.selfId, l, nbr, 7, Some(FromAdvert(l, e)));
    assert Switched(t, 7, l).sent[l] == [] + [m] == [m];
    assert Switched(t, 7, l).sent == map[l := [m]];
  }

  lemma Widens2()
    ensures Attach(Knows2(), 23, Peer, Some(3)) == Wider2()
  {
    hide Attach, FedUpdate;
    Tells(2, 23, 3, 7, 21, First);
    LinksOne(Knows2(), 23, 3, FromAdvert(21, First));
  }

  lemma Turns2()
    ensures OnRoute(Wider2(), 23, 7, Second, 0) == Turned2()
  {
    hide Published, Rerouted, FedUpdate, Switched;
    var t := Wider2().(clock := 20, rib := map[7 := map[21 := First, 23 := Second]]);
    assert TakeOffer(Wider2(), 23, 7, Second, 0).rib == t.rib;
    assert IsNewest(OffersOf(t.rib, 7), 23) && IsClosest(t.links, OffersOf(t.rib, 7), 23, 3);
    Switches(t, 23, 23, 7);
    Tells(2, 21, 1, 7, 23, Second);
    Tells(2, 23, 3, 7, 23, Second);
    assert Switched(t, 7, 23) == Turned2() by { SwitchedTurned(t); }
  }

  lemma SwitchedTurned(t: Table)
    requires t == Wider2().(clock := 20, rib := map[7 := map[21 := First, 23 := Second]])
    requires FedUpdate(2, 21, 1, 7, Some(FromAdvert(23, Second))) == FedRoute(7, Onward(2, Second))
    requires FedUpdate(2, 23, 3, 7, Some(FromAdvert(23, Second))) == FedWithdraw(7)
    ensures Switched(t, 7, 23) == Turned2()
  {
    hide FedUpdate, FromAdvert, Onward;
    var r := Switched(t, 7, 23);
    assert r.subs == Turned2().subs;
    assert r.sent[21] == [FedWithdraw(7)] + [FedRoute(7, Onward(2, Second))] ==
      [FedWithdraw(7), FedRoute(7, Onward(2, Second))];
    assert r.sent[23] == [FedRoute(7, Onward(2, First))] + [FedWithdraw(7)] ==
      [FedRoute(7, Onward(2, First)), FedWithdraw(7)];
    assert r.sent == Turned2().sent;
  }

  function Start2(): Table {
    Low2(20, [FedWithdraw(7), FedRoute(7, Onward(2, Second))], [FedRoute(7, Onward(2, First)), FedWithdraw(7)],
      [FedRoute(7, Onward(2, Second))])
  }

  lemma Starts2()
    ensures Attach(Turned2(), 24, Peer, Some(4)) == Start2()
  {
    hide Attach, FedUpdate;
    Tells(2, 24, 4, 7, 23, Second);
    LinksOne(Turned2(), 24, 4, FromAdvert(23, Second));
    LinkedStart2();
  }

  lemma LinkedStart2()
    ensures Linked(Turned2(), 24, 4, [FedRoute(7, Onward(2, Second))]) == Start2()
  {
    hide FromAdvert, Onward;
    var r := Linked(Turned2(), 24, 4, [FedRoute(7, Onward(2, Second))]);
    assert r.sent == Start2().sent && r.clients == Start2().clients && r.links == Start2().links;
  }

  // ----- server 3: registered at 20, until it hears of the return to server 1 -----

  function Told3(): Table {
    Linked(Linked(Serving(3, 33, 20), 32, 2, [FedRoute(7, Second)]), 31, 1, [FedRoute(7, Second)])
  }

  function Half3(): Table {
    Linked(Serving(3, 33, 20), 32, 2, [FedRoute(7, Second)])
  }

  function Moved3(): Table {
    Told3().(clock := 30, subs := map[7 := FromAdvert(31, Home)], rib := map[7 := map[31 := Home]],
      sent := map[33 := [], 32 := [FedRoute(7, Second), FedRoute(7, Third)],
                  31 := [FedRoute(7, Second), FedWithdraw(7)]])
  }

  lemma Tells3()
    ensures Attach(Serving(3, 33, 20), 32, Peer, Some(2)) == Half3()
    ensures Attach(Half3(), 31, Peer, Some(1)) == Told3()
  {
    hide Attach, FedUpdate;
    TellsLocal(3, 32, 2, 33, Basestation, 20);
    TellsLocal(3, 31, 1, 33, Basestation, 20);
    LinksOne(Serving(3, 33, 20), 32, 2, LocalAt(33, 20));
    LinksOne(Half3(), 31, 1, LocalAt(33, 20));
  }

  lemma Moves3()
    ensures OnRoute(Told3(), 31, 7, Home, 0) == Moved3()
  {
    hide Published, Rerouted, FedUpdate, Switched;
    var t := Told3().(clock := 30, rib := map[7 := map[31 := Home]]);
    assert TakeOffer(Told3(), 31, 7, Home, 0) == t;
    assert IsNewest(OffersOf(t.rib, 7), 31) && IsClosest(t.links, OffersOf(t.rib, 7), 31, 1);
    assert !LocalWins(3, RegOf(LocalOf(t, 7)), OffersOf(t.rib, 7)) by { assert OffersOf(t.rib, 7)[31] == Home; }
    Switches(t, 31, 31, 7);
    assert Onward(3, Home) == Third by { assert [3] + [1] == [3, 1]; }
    Tells(3, 31, 1, 7, 31, Home);
    Tells(3, 32, 2, 7, 31, Home);
    assert Switched(t, 7, 31) == Moved3() by { SwitchedMoved(t); }
  }

  lemma SwitchedMoved(t: Table)
    requires t == Told3().(clock := 30, rib := map[7 := map[31 := Home]])
    requires FedUpdate(3, 31, 1, 7, Some(FromAdvert(31, Home))) == FedWithdraw(7)
    requires FedUpdate(3, 32, 2, 7, Some(FromAdvert(31, Home))) == FedRoute(7, Third)
    ensures Switched(t, 7, 31) == Moved3()
  {
    hide FedUpdate, FromAdvert;
    var r := Switched(t, 7, 31);
    assert r.subs == Moved3().subs;
    assert r.sent[31] == [FedRoute(7, Second)] + [FedWithdraw(7)] == [FedRoute(7, Second), FedWithdraw(7)];
    assert r.sent[32] == [FedRoute(7, Second)] + [FedRoute(7, Third)] == [FedRoute(7, Second), FedRoute(7, Third)];
    assert r.sent[33] == [];
    assert r.sent == Moved3().sent;
  }

  lemma Rests3()
    ensures Attach(Moved3(), 34, Peer, Some(4)) == Rest3()
  {
    hide Attach, FedUpdate;
    assert Onward(3, Home) == Third by { assert [3] + [1] == [3, 1]; }
    Tells(3, 34, 4, 7, 31, Home);
    LinksOne(Moved3(), 34, 4, FromAdvert(31, Home));
    LinkedRest3();
  }

  lemma LinkedRest3()
    ensures Linked(Moved3(), 34, 4, [FedRoute(7, Third)]) == Rest3()
  {
    hide FromAdvert;
    var r := Linked(Moved3(), 34, 4, [FedRoute(7, Third)]);
    assert r.sent == Rest3().sent && r.clients == Rest3().clients && r.links == Rest3().links;
  }

  // ----- server 4: hears the newest through server 3 -----

  function Hearing4(): Table {
    Table(4, 0, map[43 := Peer], map[43 := 3], map[], map[], map[43 := []])
  }

  function Knows4(): Table {
    Hearing4().(clock := 30, subs := map[7 := FromAdvert(43, Third)], rib := map[7 := map[43 := Third]],
      sent := map[43 := [FedWithdraw(7)]])
  }

  function Offering4(): Table {
    Linked(Knows4(), 42, 2, [FedRoute(7, Onward(4, Third))])
  }

  lemma Learns4()
    ensures OnRoute(Hearing4(), 43, 7, Third, 0) == Knows4()
  {
    hide Published, Rerouted, FedUpdate, Switched;
    var t := Hearing4().(clock := 30, rib := map[7 := map[43 := Third]]);
    assert TakeOffer(Hearing4(), 43, 7, Third, 0) == t;
    assert IsNewest(OffersOf(t.rib, 7), 43) && IsClosest(t.links, OffersOf(t.rib, 7), 43, 1);
    Switches(t, 43, 43, 7);
    Tells(4, 43, 3, 7, 43, Third);
    assert Switched(t, 7, 43) == Knows4() by { SwitchedOne(t, 43, Third, 3); }
  }

  lemma Offers4()
    ensures Attach(Knows4(), 42, Peer, Some(2)) == Offering4()
  {
    hide Attach, FedUpdate;
    Tells(4, 42, 2, 7, 43, Third);
    LinksOne(Knows4(), 42, 2, FromAdvert(43, Third));
  }

  function Start4(): Table {
    Far4([FedWithdraw(7)], [FedRoute(7, Onward(4, Third))])
  }

  /** The newest wins still, so nobody is told. */
  lemma Starts4()
    ensures OnRoute(Offering4(), 42, 7, Onward(2, Second), 0) == Start4()
  {
    hide Rerouted;
    var t := Offering4().(rib := map[7 := map[43 := Third, 42 := Onward(2, Second)]]);
    assert TakeOffer(Offering4(), 42, 7, Onward(2, Second), 0).rib == t.rib;
    PicksThird(t);
    StaysPut(t);
  }

  lemma StaysPut(t: Table)
    requires t == Offering4().(rib := map[7 := map[43 := Third, 42 := Onward(2, Second)]])
    requires var cands := OffersOf(t.rib, 7); IsNewest(cands, 43) && IsClosest(t.links, cands, 43, Origin(cands[43]))
    ensures Published(Rerouted(t, 7), 7, Get(t.subs, 7)) == Start4()
  {
    hide UpdatesTo;
    var cands := OffersOf(t.rib, 7);
    assert IsChoice(4, None, t.links, cands, Remote(43));
    ChoiceUnique(4, None, t.links, cands, Remote(43), Chosen(t, 7));
    assert Rerouted(t, 7) == t;
    NothingNew(t, 7);
    assert t.sent == Start4().sent && t.clients == Start4().clients && t.links == Start4().links;
  }

  lemma NothingNew(t: Table, i: Issi)
    ensures Published(t, i, Get(t.subs, i)) == t
  {
    hide UpdatesTo;
    var r := Published(t, i, Get(t.subs, i));
    forall k | k in t.sent ensures r.sent[k] == t.sent[k] { assert t.sent[k] + [] == t.sent[k]; }
    assert r.sent == t.sent;
  }

  // ----- one server at a time -----

  ghost predicate MayAct(s: ServerId, t: Table, e: Event) {
    && t.clock < U64_MAX && Enabled(t, e)
    && (e.SubIn? || (e.LinkUp? && (e.neighbour.Some? ==> e.neighbour.value in Ids && e.neighbour.value != s)))
  }

  /** The step of server `s` that makes `t` into `t'`. */
  ghost predicate Does(s: ServerId, t: Table, e: Event, t': Table) {
    MayAct(s, t, e) && t' == Next(t, e)
  }

  lemma FourAt(a: Table, b: Table, c: Table, d: Table, w: map<End, Wire>)
    ensures var ts := Four(a, b, c, d, w).servers;
      ts.Keys == Ids && ts[1] == a && ts[2] == b && ts[3] == c && ts[4] == d && Four(a, b, c, d, w).wires == w
  {
  }

  lemma ActsAt(net: Net, s: ServerId, e: Event, t': Table)
    requires Reachable(net) && net.servers.Keys == Ids && s in Ids && Does(s, net.servers[s], e, t')
    ensures Reachable(net.(servers := net.servers[s := t']))
  {
    hide Reachable, Next, Enabled;
    Acts(net, s, e);
  }

  lemma Acts1(a: Table, b: Table, c: Table, d: Table, w: map<End, Wire>, e: Event, a': Table)
    requires Reachable(Four(a, b, c, d, w)) && Does(1, a, e, a')
    ensures Reachable(Four(a', b, c, d, w))
  {
    hide Reachable, Does, Four;
    FourAt(a, b, c, d, w);
    FourAt(a', b, c, d, w);
    ActsAt(Four(a, b, c, d, w), 1, e, a');
    assert Four(a, b, c, d, w).servers[1 := a'] == Four(a', b, c, d, w).servers;
  }

  lemma Acts2(a: Table, b: Table, c: Table, d: Table, w: map<End, Wire>, e: Event, b': Table)
    requires Reachable(Four(a, b, c, d, w)) && Does(2, b, e, b')
    ensures Reachable(Four(a, b', c, d, w))
  {
    hide Reachable, Does, Four;
    FourAt(a, b, c, d, w);
    FourAt(a, b', c, d, w);
    ActsAt(Four(a, b, c, d, w), 2, e, b');
    assert Four(a, b, c, d, w).servers[2 := b'] == Four(a, b', c, d, w).servers;
  }

  lemma Acts3(a: Table, b: Table, c: Table, d: Table, w: map<End, Wire>, e: Event, c': Table)
    requires Reachable(Four(a, b, c, d, w)) && Does(3, c, e, c')
    ensures Reachable(Four(a, b, c', d, w))
  {
    hide Reachable, Does, Four;
    FourAt(a, b, c, d, w);
    FourAt(a, b, c', d, w);
    ActsAt(Four(a, b, c, d, w), 3, e, c');
    assert Four(a, b, c, d, w).servers[3 := c'] == Four(a, b, c', d, w).servers;
  }

  lemma Acts4(a: Table, b: Table, c: Table, d: Table, w: map<End, Wire>, e: Event, d': Table)
    requires Reachable(Four(a, b, c, d, w)) && Does(4, d, e, d')
    ensures Reachable(Four(a, b, c, d', w))
  {
    hide Reachable, Does, Four;
    FourAt(a, b, c, d, w);
    FourAt(a, b, c, d', w);
    ActsAt(Four(a, b, c, d, w), 4, e, d');
    assert Four(a, b, c, d, w).servers[4 := d'] == Four(a, b, c, d', w).servers;
  }

  // ----- what each server does -----

  lemma DoesOpen(s: ServerId, c: ClientId)
    ensures Does(s, Initial(s), LinkUp(c, Basestation, None), Idle(s, c))
  {
    hide Attach;
    Opens(s, c);
  }

  lemma DoesRegister(s: ServerId, c: ClientId, reg: u64)
    requires 0 < reg < U64_MAX
    ensures Does(s, Idle(s, c), SubIn(c, Register, 7, [], reg), Serving(s, c, reg))
  {
    hide OnSub;
    Registers(s, c, reg);
  }

  lemma DoesTell1()
    ensures Does(1, Serving(1, 11, 10), LinkUp(12, Peer, Some(2)), Told1())
    ensures Does(1, Told1(), SubIn(11, Register, 7, [], 30), Again1())
  {
    hide Attach, OnSub;
    Tells1();
    RegistersAgain();
  }

  lemma DoesRest1()
    ensures Does(1, Again1(), LinkUp(13, Peer, Some(3)), Rest1())
  {
    hide Attach;
    Rests1();
  }

  lemma DoesHear2()
    ensures Does(2, Initial(2), LinkUp(21, Peer, Some(1)), Hearing2())
  {
    hide Attach;
    LinksEmpty(Initial(2), 21, 1);
    assert Linked(Initial(2), 21, 1, []) == Hearing2();
  }

  lemma DoesWiden2()
    ensures Does(2, Knows2(), LinkUp(23, Peer, Some(3)), Wider2())
  {
    hide Attach;
    Widens2();
  }

  lemma DoesStart2()
    ensures Does(2, Turned2(), LinkUp(24, Peer, Some(4)), Start2())
  {
    hide Attach;
    Starts2();
  }

  lemma DoesTell3()
    ensures Does(3, Serving(3, 33, 20), LinkUp(32, Peer, Some(2)), Half3())
    ensures Does(3, Half3(), LinkUp(31, Peer, Some(1)), Told3())
  {
    hide Attach;
    Tells3();
  }

  lemma DoesRest3()
    ensures Does(3, Moved3(), LinkUp(34, Peer, Some(4)), Rest3())
  {
    hide Attach;
    Rests3();
  }

  lemma DoesHear4()
    ensures Does(4, Initial(4), LinkUp(43, Peer, Some(3)), Hearing4())
  {
    hide Attach;
    LinksEmpty(Initial(4), 43, 3);
    assert Linked(Initial(4), 43, 3, []) == Hearing4();
  }

  lemma DoesOffer4()
    ensures Does(4, Knows4(), LinkUp(42, Peer, Some(2)), Offering4())
  {
    hide Attach;
    Offers4();
  }

  // ----- the way there -----

  lemma Begins()
    ensures Reachable(Four(Initial(1), Initial(2), Initial(3), Initial(4), map[]))
  {
    var net := Four(Initial(1), Initial(2), Initial(3), Initial(4), map[]);
    assert net.servers == Isolated(Ids).servers;
    assert NetRun(Ids, [net], []) && [net][0] == net;
  }

  /** Registered at server 1, which server 2 hears. */
  lemma FirstRegistered()
    ensures Reachable(Four(Told1(), Hearing2(), Initial(3), Initial(4), map[]))
  {
    hide Reachable, Does, Four, Initial, Idle, Serving, Told1, Again1, Rest1, Hearing2, Knows2, Wider2, Turned2, Start2,
         Half3, Told3, Moved3, Rest3, Hearing4, Knows4, Offering4, W1, W2, W3, W4;
    var (b, c, d) := (Initial(2), Initial(3), Initial(4));
    Begins();
    DoesOpen(1, 11);
    Acts1(Initial(1), b, c, d, map[], LinkUp(11, Basestation, None), Idle(1, 11));
    DoesRegister(1, 11, 10);
    Acts1(Idle(1, 11), b, c, d, map[], SubIn(11, Register, 7, [], 10), Serving(1, 11, 10));
    DoesTell1();
    Acts1(Serving(1, 11, 10), b, c, d, map[], LinkUp(12, Peer, Some(2)), Told1());
    DoesHear2();
    Acts2(Told1(), b, c, d, map[], LinkUp(21, Peer, Some(1)), Hearing2());
  }

  lemma Joins(ts: map<ServerId, Table>, w: map<End, Wire>, end: End, peer: End)
    requires Reachable(Net(ts, w)) && end !in w && end.server in ts && peer.server in ts
    requires Get(ts[end.server].links, end.link) == Some(peer.server)
    requires Get(ts[peer.server].links, peer.link) == Some(end.server)
    ensures Reachable(Net(ts, w[end := Wire(peer.server, peer.link, 0)]))
  {
    hide Reachable;
    Connects(Net(ts, w), end, peer);
  }

  /** Server `end.server` takes the first message of a wire. */
  lemma Takes(ts: map<ServerId, Table>, w: map<End, Wire>, end: End, from: Wire, m: Msg, t': Table)
    requires Reachable(Net(ts, w[end := from])) && from.taken == 0
    requires end.server in ts && from.from in ts && from.link in ts[from.from].sent && end.link in ts[end.server].links
    requires |ts[from.from].sent[from.link]| > 0 && ts[from.from].sent[from.link][0] == m
    requires ts[end.server].clock < U64_MAX && (m.FedRoute? ==> m.advert.reg <= 30)
    requires t' == Next(ts[end.server], ArrivalOf(m, end.link, 0))
    ensures Reachable(Net(ts[end.server := t'], w[end := from.(taken := 1)]))
  {
    hide Reachable, Next;
    var net := Net(ts, w[end := from]);
    assert net.wires[end] == from;
    Delivers(net, end);
    assert net.wires[end := from.(taken := 1)] == w[end := from.(taken := 1)];
  }

  function W1(): map<End, Wire> {
    map[End(2, 21) := Wire(1, 12, 1)]
  }

  function W2(): map<End, Wire> {
    W1()[End(2, 23) := Wire(3, 32, 1)]
  }

  function W3(): map<End, Wire> {
    W2()[End(3, 31) := Wire(1, 13, 1)]
  }

  function W4(): map<End, Wire> {
    W3()[End(4, 43) := Wire(3, 34, 1)]
  }

  lemma FirstHeard()
    ensures Reachable(Four(Told1(), Knows2(), Initial(3), Initial(4), W1()))
  {
    hide Reachable, Next;
    var net := Four(Told1(), Hearing2(), Initial(3), Initial(4), map[]);
    FirstRegistered();
    Joins(net.servers, map[], End(2, 21), End(1, 12));
    assert Next(Hearing2(), RouteIn(21, 7, First, 0)) == Knows2() by { Arrives2(); }
    Takes(net.servers, map[], End(2, 21), Wire(1, 12, 0), FedRoute(7, First), Knows2());
    assert net.servers[2 := Knows2()] == Four(Told1(), Knows2(), Initial(3), Initial(4), W1()).servers;
  }

  lemma Arrives2()
    ensures Next(Hearing2(), RouteIn(21, 7, First, 0)) == Knows2()
    ensures Next(Wider2(), RouteIn(23, 7, Second, 0)) == Turned2()
  {
    hide OnRoute;
    Learns2();
    Turns2();
  }

  /** Moved to server 3, which server 2 hears too. */
  lemma SecondRegistered()
    ensures Reachable(Four(Told1(), Wider2(), Half3(), Initial(4), W1()))
  {
    hide Reachable, Does, Four, Initial, Idle, Serving, Told1, Again1, Rest1, Hearing2, Knows2, Wider2, Turned2, Start2,
         Half3, Told3, Moved3, Rest3, Hearing4, Knows4, Offering4, W1, W2, W3, W4;
    var (a, b, d) := (Told1(), Knows2(), Initial(4));
    FirstHeard();
    DoesOpen(3, 33);
    Acts3(a, b, Initial(3), d, W1(), LinkUp(33, Basestation, None), Idle(3, 33));
    DoesRegister(3, 33, 20);
    Acts3(a, b, Idle(3, 33), d, W1(), SubIn(33, Register, 7, [], 20), Serving(3, 33, 20));
    DoesTell3();
    Acts3(a, b, Serving(3, 33, 20), d, W1(), LinkUp(32, Peer, Some(2)), Half3());
    DoesWiden2();
    Acts2(a, b, Half3(), d, W1(), LinkUp(23, Peer, Some(3)), Wider2());
  }

  lemma SecondHeard()
    ensures Reachable(Four(Told1(), Turned2(), Half3(), Initial(4), W2()))
  {
    hide Reachable, Next, Told1;
    var net := Four(Told1(), Wider2(), Half3(), Initial(4), W1());
    SecondRegistered();
    Joins(net.servers, W1(), End(2, 23), End(3, 32));
    assert Next(Wider2(), RouteIn(23, 7, Second, 0)) == Turned2() by { Arrives2(); }
    Takes(net.servers, W1(), End(2, 23), Wire(3, 32, 0), FedRoute(7, Second), Turned2());
    assert net.servers[2 := Turned2()] == Four(Told1(), Turned2(), Half3(), Initial(4), W2()).servers;
  }

  /** Back at server 1, which server 3 hears, but server 2 does not. */
  lemma ThirdRegistered()
    ensures Reachable(Four(Rest1(), Turned2(), Told3(), Initial(4), W2()))
  {
    hide Reachable, Does, Four, Initial, Idle, Serving, Told1, Again1, Rest1, Hearing2, Knows2, Wider2, Turned2, Start2,
         Half3, Told3, Moved3, Rest3, Hearing4, Knows4, Offering4, W1, W2, W3, W4;
    var (b, d) := (Turned2(), Initial(4));
    SecondHeard();
    DoesTell1();
    Acts1(Told1(), b, Half3(), d, W2(), SubIn(11, Register, 7, [], 30), Again1());
    DoesRest1();
    Acts1(Again1(), b, Half3(), d, W2(), LinkUp(13, Peer, Some(3)), Rest1());
    DoesTell3();
    Acts3(Rest1(), b, Half3(), d, W2(), LinkUp(31, Peer, Some(1)), Told3());
  }

  lemma ThirdHeard()
    ensures Reachable(Four(Rest1(), Turned2(), Moved3(), Initial(4), W3()))
  {
    hide Reachable, Next, Turned2;
    var net := Four(Rest1(), Turned2(), Told3(), Initial(4), W2());
    ThirdRegistered();
    Joins(net.servers, W2(), End(3, 31), End(1, 13));
    assert Next(Told3(), RouteIn(31, 7, Home, 0)) == Moved3() by { Arrives3(); }
    Takes(net.servers, W2(), End(3, 31), Wire(1, 13, 0), FedRoute(7, Home), Moved3());
    assert net.servers[3 := Moved3()] == Four(Rest1(), Turned2(), Moved3(), Initial(4), W3()).servers;
  }

  lemma Arrives3()
    ensures Next(Told3(), RouteIn(31, 7, Home, 0)) == Moved3()
  {
    hide OnRoute;
    Moves3();
  }

  /** Server 4 hears it through server 3. */
  lemma FourUp()
    ensures Reachable(Four(Rest1(), Turned2(), Rest3(), Hearing4(), W3()))
  {
    hide Reachable, Does, Four, Initial, Idle, Serving, Told1, Again1, Rest1, Hearing2, Knows2, Wider2, Turned2, Start2,
         Half3, Told3, Moved3, Rest3, Hearing4, Knows4, Offering4, W1, W2, W3, W4;
    ThirdHeard();
    DoesRest3();
    Acts3(Rest1(), Turned2(), Moved3(), Initial(4), W3(), LinkUp(34, Peer, Some(4)), Rest3());
    DoesHear4();
    Acts4(Rest1(), Turned2(), Rest3(), Initial(4), W3(), LinkUp(43, Peer, Some(3)), Hearing4());
  }

  lemma FourHears()
    ensures Reachable(Four(Rest1(), Turned2(), Rest3(), Knows4(), W4()))
  {
    hide Reachable, Next, Rest1, Turned2;
    FourUp();
    var net := Four(Rest1(), Turned2(), Rest3(), Hearing4(), W3());
    Joins(net.servers, W3(), End(4, 43), End(3, 34));
    assert Next(Hearing4(), RouteIn(43, 7, Third, 0)) == Knows4() by { Arrives4(); }
    Takes(net.servers, W3(), End(4, 43), Wire(3, 34, 0), FedRoute(7, Third), Knows4());
    assert net.servers[4 := Knows4()] == Four(Rest1(), Turned2(), Rest3(), Knows4(), W4()).servers;
  }

  lemma Arrives4()
    ensures Next(Hearing4(), RouteIn(43, 7, Third, 0)) == Knows4()
    ensures Next(Offering4(), RouteIn(42, 7, Onward(2, Second), 0)) == Start4()
  {
    hide OnRoute;
    Learns4();
    Starts4();
  }

  /** Servers 2 and 4 are linked, and every link is joined both ways. */
  lemma FourLinked()
    ensures Reachable(Four(Rest1(), Start2(), Rest3(), Offering4(), W4()))
  {
    hide Reachable, Does, Four, Initial, Idle, Serving, Told1, Again1, Rest1, Hearing2, Knows2, Wider2, Turned2, Start2,
         Half3, Told3, Moved3, Rest3, Hearing4, Knows4, Offering4, W1, W2, W3, W4;
    FourHears();
    DoesOffer4();
    Acts4(Rest1(), Turned2(), Rest3(), Knows4(), W4(), LinkUp(42, Peer, Some(2)), Offering4());
    DoesStart2();
    Acts2(Rest1(), Turned2(), Rest3(), Offering4(), W4(), LinkUp(24, Peer, Some(4)), Start2());
  }

  /** ... the links to servers 1 and 3 back. */
  function W5(): map<End, Wire> {
    W4()[End(1, 12) := Wire(2, 21, 0)][End(3, 32) := Wire(2, 23, 0)]
  }

  function W6(): map<End, Wire> {
    W5()[End(1, 13) := Wire(3, 31, 0)][End(3, 34) := Wire(4, 43, 0)]
  }

  function Far(): map<ServerId, Table> {
    Four(Rest1(), Start2(), Rest3(), Offering4(), map[]).servers
  }

  lemma FarLinks()
    ensures Far().Keys == {1, 2, 3, 4}
    ensures Far()[1].links == map[12 := 2, 13 := 3] && Far()[2].links == Links2
    ensures Far()[3].links == map[32 := 2, 31 := 1, 34 := 4] && Far()[4].links == Links4
    ensures W4().Keys == {End(2, 21), End(2, 23), End(3, 31), End(4, 43)}
  {
  }

  lemma BackJoined()
    ensures Reachable(Net(Far(), W6()))
  {
    hide Reachable, Far, W4;
    assert Reachable(Net(Far(), W4())) by { AtFar(); }
    FarLinks();
    var w := W4();
    Joins(Far(), w, End(1, 12), End(2, 21));
    var w1 := w[End(1, 12) := Wire(2, 21, 0)];
    Joins(Far(), w1, End(3, 32), End(2, 23));
    Joins(Far(), W5(), End(1, 13), End(3, 31));
    var w2 := W5()[End(1, 13) := Wire(3, 31, 0)];
    Joins(Far(), w2, End(3, 34), End(4, 43));
  }

  lemma AtFar()
    ensures Reachable(Net(Far(), W4()))
  {
    hide Reachable, Rest1, Start2, Rest3, Offering4, W4;
    FourLinked();
  }

  lemma WholeNet()
    ensures Reachable(Net(Far(), W6()[To24 := Wire(4, 42, 0)][To42 := Wire(2, 24, 0)]))
  {
    hide Reachable, Far, W4;
    BackJoined();
    FarLinks();
    Joins(Far(), W6(), To24, To42);
    Joins(Far(), W6()[To24 := Wire(4, 42, 0)], To42, To24);
  }

  /** The oscillation is within reach. */
  lemma SwingReached()
    ensures Reachable(Between(Start2(), Start4(), 0, 1))
  {
    hide Reachable, Next, Rest1, Rest3, W6;
    WholeNet();
    var w := W6()[To24 := Wire(4, 42, 0)];
    assert Next(Offering4(), RouteIn(42, 7, Onward(2, Second), 0)) == Start4() by { Arrives4(); }
    Takes(Far(), w, To42, Wire(2, 24, 0), FedRoute(7, Onward(2, Second)), Start4());
    assert Far()[4 := Start4()] == Between(Start2(), Start4(), 0, 1).servers;
    assert w[To42 := Wire(2, 24, 1)] == Wires(0, 1) by { AllWires(); }
  }

  lemma AllWires()
    ensures W6()[To24 := Wire(4, 42, 0)][To42 := Wire(2, 24, 1)] == Wires(0, 1)
  {
  }

  // ----- for ever -----

  /** Steps in a row, each a delivery between servers 2 and 4. */
  ghost predicate Chained(nets: seq<Net>, es: seq<NetEvent>) {
    && |nets| == |es| + 1
    && forall k :: 0 <= k < |es| ==>
         (es[k] == Deliver(To24, 0) || es[k] == Deliver(To42, 0)) && NetStep(nets[k], es[k], nets[k + 1])
  }

  lemma {:induction false} Swings(n: nat, clock: u64, a: seq<Msg>, b: seq<Msg>, c: seq<Msg>, p: seq<Msg>, q: seq<Msg>)
    returns (nets: seq<Net>, es: seq<NetEvent>)
    requires clock <= 30
    ensures |es| == 4 * n && Chained(nets, es) && nets[0] == Swinging(clock, a, b, c, p, q)
  {
    hide NetStep, Swinging;
    if n == 0 {
      nets, es := [Swinging(clock, a, b, c, p, q)], [];
    } else {
      var n1, n2, n3, n4, a', b', c', p', q' := OneSwing(clock, a, b, c, p, q);
      var rest, more := Swings(n - 1, 30, a', b', c', p', q');
      nets := [Swinging(clock, a, b, c, p, q), n1, n2, n3] + rest;
      es := [Deliver(To24, 0), Deliver(To42, 0), Deliver(To24, 0), Deliver(To42, 0)] + more;
      forall k | 0 <= k < |es|
        ensures (es[k] == Deliver(To24, 0) || es[k] == Deliver(To42, 0)) && NetStep(nets[k], es[k], nets[k + 1])
      {
        if k >= 4 { assert NetStep(rest[k - 4], more[k - 4], rest[k - 4 + 1]); }
      }
    }
  }

  lemma SwingJoined(net: Net)
    requires net == Between(Start2(), Start4(), 0, 1)
    ensures Joined(net)
  {
    hide JoinedEnd, Between;
    SwingLinks(net);
    forall s, l | s in net.servers && l in net.servers[s].links ensures JoinedEnd(net, s, l) {
      JoinedAt(net, s, l);
    }
  }

  lemma JoinedAt(net: Net, s: ServerId, l: ClientId)
    requires net.servers.Keys == {1, 2, 3, 4} && net.wires == Wires(0, 1)
    requires net.servers[1].links == map[12 := 2, 13 := 3] && net.servers[2].links == Links2
    requires net.servers[3].links == map[32 := 2, 31 := 1, 34 := 4] && net.servers[4].links == Links4
    requires s in net.servers && l in net.servers[s].links
    ensures JoinedEnd(net, s, l)
  {
    hide JoinedEnd, Wires, Leading;
    Leads();
    if s == 1 {
      if l == 12 { JoinedPair(net, 1, 12, 2, 21); } else { JoinedPair(net, 1, 13, 3, 31); }
    } else if s == 4 {
      if l == 42 { JoinedPair(net, 2, 24, 4, 42); } else { JoinedPair(net, 3, 34, 4, 43); }
    } else if s == 2 {
      if l == 21 { JoinedPair(net, 1, 12, 2, 21); }
      else if l == 23 { JoinedPair(net, 2, 23, 3, 32); }
      else { JoinedPair(net, 2, 24, 4, 42); }
    } else {
      if l == 31 { JoinedPair(net, 1, 13, 3, 31); }
      else if l == 32 { JoinedPair(net, 2, 23, 3, 32); }
      else { JoinedPair(net, 3, 34, 4, 43); }
    }
  }

  predicate Leading(w: map<End, Wire>, x: End, y: End) {
    x in w && w[x].from == y.server && w[x].link == y.link
  }

  lemma Leads()
    ensures Leading(Wires(0, 1), End(1, 12), End(2, 21)) && Leading(Wires(0, 1), End(2, 21), End(1, 12))
    ensures Leading(Wires(0, 1), End(1, 13), End(3, 31)) && Leading(Wires(0, 1), End(3, 31), End(1, 13))
    ensures Leading(Wires(0, 1), End(2, 23), End(3, 32)) && Leading(Wires(0, 1), End(3, 32), End(2, 23))
    ensures Leading(Wires(0, 1), End(2, 24), End(4, 42)) && Leading(Wires(0, 1), End(4, 42), End(2, 24))
    ensures Leading(Wires(0, 1), End(3, 34), End(4, 43)) && Leading(Wires(0, 1), End(4, 43), End(3, 34))
  {
  }

  lemma JoinedPair(net: Net, s: ServerId, l: ClientId, s': ServerId, l': ClientId)
    requires s in net.servers && s' in net.servers && l in net.servers[s].links && l' in net.servers[s'].links
    requires Leading(net.wires, End(s, l), End(s', l')) && Leading(net.wires, End(s', l'), End(s, l))
    ensures JoinedEnd(net, s, l) && JoinedEnd(net, s', l')
  {
  }

  lemma SwingLinks(net: Net)
    requires net == Between(Start2(), Start4(), 0, 1)
    ensures net.servers.Keys == {1, 2, 3, 4} && net.wires == Wires(0, 1)
    ensures net.servers[1].links == map[12 := 2, 13 := 3] && net.servers[2].links == Links2
    ensures net.servers[3].links == map[32 := 2, 31 := 1, 34 := 4] && net.servers[4].links == Links4
  {
  }

  /** Servers 2 and 3 are linked to every other. */
  lemma SwingCompact(net: Net)
    requires net == Between(Start2(), Start4(), 0, 1)
    ensures Compact(net)
  {
    hide Between;
    SwingLinks(net);
    forall v | v in net.servers && v != 2 ensures Adjacent(net, v, 2) && Adjacent(net, 2, v) {
      assert net.servers[1].links[12] == 2 && net.servers[3].links[32] == 2 && net.servers[4].links[42] == 2;
      assert Links2[21] == 1 && Links2[23] == 3 && Links2[24] == 4;
    }
    forall o, v | o in net.servers && v in net.servers ensures Near(net, o, v) { AroundTwo(net, o, v); }
  }

  lemma AroundTwo(net: Net, o: ServerId, v: ServerId)
    requires o in net.servers && v in net.servers && 2 in net.servers
    requires forall s :: s in net.servers && s != 2 ==> Adjacent(net, s, 2) && Adjacent(net, 2, s)
    ensures Near(net, o, v)
  {
    hide Adjacent;
    assert Walk(net, o, o, 0);
    if o != 2 {
      OneMore(net, o, 2, o, 0);
    }
    if o != v && v != 2 {
      OneMore(net, o, v, 2, if o == 2 then 0 else 1);
    }
    assert Walk(net, o, v, if o == v then 0 else if o == 2 || v == 2 then 1 else 2);
  }

  /** Deliveries need not end, not even in a reachable network with all its links
      up and joined: while the links from servers 1 and 3 are starved, servers 2
      and 4 can keep changing each other's minds. */
  lemma DeliveriesNeedNotEnd(n: nat) returns (nets: seq<Net>, es: seq<NetEvent>)
    ensures |es| == 4 * n && Deliveries(nets, es)
    ensures Reachable(nets[0]) && Compact(nets[0])
    ensures forall k :: 0 <= k < |es| ==> es[k].end == To24 || es[k].end == To42
  {
    hide Between, NetStep, NetOk, Joined, Compact, Isolated;
    nets, es := Swings(n, 20, [FedWithdraw(7), FedRoute(7, Onward(2, Second))],
                       [FedRoute(7, Onward(2, First)), FedWithdraw(7)],
                       [FedRoute(7, Onward(2, Second))], [FedWithdraw(7)], []);
    assert nets[0] == Between(Start2(), Start4(), 0, 1) by {
      assert [] + [FedRoute(7, Onward(4, Third))] == [FedRoute(7, Onward(4, Third))];
    }
    SwingReached();
    SwingJoined(nets[0]);
    SwingCompact(nets[0]);
    ReachableOk(nets[0]);
  }

  lemma ReachableOk(net: Net)
    requires Reachable(net)
    ensures NetOk(net)
  {
    hide NetStep, Isolated, NetOk;
    var nets, es :| NetRun(Ids, nets, es) && nets[|es|] == net;
    NetAlwaysOk(Ids, nets, es, |es|);
  }
}
