/** Two servers that never stop correcting each other: with two links starved,
    deliveries need not end. Server 2 holds two stale offers, of the same radio
    at server 1 and at server 3; server 4 hears the newest registration. */
module Oscillation {
  import opened FedTypes
  import opened RouteSelection
  import opened RouteTable
  import opened TableInvariant
  import opened Federation

  /** What server 2 heard of ISSI 7: registered at server 1 at time 10, then at
      server 3 at time 20. */
  const First := Advert(10, [1], [])
  const Second := Advert(20, [3], [])
  /** What server 4 heard through server 3: back at server 1 at time 30. */
  const Third := Advert(30, [3, 1], [])

  const Links2: map<ClientId, ServerId> := map[21 := 1, 23 := 3, 24 := 4]
  const Links4: map<ClientId, ServerId> := map[43 := 3, 42 := 2]
  const Clients2: map<ClientId, Mode> := map[21 := Peer, 23 := Peer, 24 := Peer]
  const Clients4: map<ClientId, Mode> := map[43 := Peer, 42 := Peer]

  /** Server 2 without and with server 4's offer. */
  function Low2(clock: u64, a: seq<Msg>, b: seq<Msg>, c: seq<Msg>): Table {
    Table(2, clock, Clients2, Links2, map[7 := FromAdvert(23, Second)],
          map[7 := map[21 := First, 23 := Second]], map[21 := a, 23 := b, 24 := c])
  }

  function High2(a: seq<Msg>, b: seq<Msg>, c: seq<Msg>): Table {
    Table(2, 30, Clients2, Links2, map[7 := FromAdvert(21, First)],
          map[7 := map[21 := First, 23 := Second, 24 := Onward(4, Third)]], map[21 := a, 23 := b, 24 := c])
  }

  /** Server 4 while server 2 offers it the second registration, and the first. */
  function Far4(a: seq<Msg>, b: seq<Msg>): Table {
    Table(4, 30, Clients4, Links4, map[7 := FromAdvert(43, Third)],
          map[7 := map[43 := Third, 42 := Onward(2, Second)]], map[43 := a, 42 := b])
  }

  function Near4(a: seq<Msg>, b: seq<Msg>): Table {
    Table(4, 30, Clients4, Links4, map[7 := FromAdvert(42, Onward(2, First))],
          map[7 := map[43 := Third, 42 := Onward(2, First)]], map[43 := a, 42 := b])
  }

  /** The offer, passed on by one more server. */
  function Onward(s: ServerId, a: Advert): Advert {
    Advert(a.reg, [s] + a.path, a.groups)
  }

  lemma NoGroups()
    ensures Sorted({}) == [] && Elems<Gssi>([]) == {}
  {
  }

  /** `t` with link `l`'s offer as its entry, and every neighbour told. */
  function Switched(t: Table, i: Issi, l: ClientId): Table
    requires l in OffersOf(t.rib, i)
  {
    var e := FromAdvert(l, OffersOf(t.rib, i)[l]);
    t.(subs := t.subs[i := e],
       sent := map k | k in t.sent ::
           t.sent[k] + (if k in t.links then [FedUpdate(t.selfId, k, t.links[k], i, Some(e))] else []))
  }

  /** Selection has one outcome, and a changed entry is told to every neighbour. */
  lemma Switches(t: Table, w: ClientId, l: ClientId, i: Issi)
    requires var cands := OffersOf(t.rib, i); IsNewest(cands, w) && IsClosest(t.links, cands, l, Origin(cands[w]))
    requires !LocalWins(t.selfId, RegOf(LocalOf(t, i)), OffersOf(t.rib, i))
    requires !Same(Get(t.subs, i), Some(FromAdvert(l, OffersOf(t.rib, i)[l])))
    requires forall k :: k in t.sent ==> (k in t.links <==> IsPeer(t, k))
    ensures Published(Rerouted(t, i), i, Get(t.subs, i)) == Switched(t, i, l)
  {
    hide LocalWins, FedUpdate;
    var (cands, mine) := (OffersOf(t.rib, i), RegOf(LocalOf(t, i)));
    assert IsChoice(t.selfId, mine, t.links, cands, Remote(l));
    ChoiceUnique(t.selfId, mine, t.links, cands, Remote(l), Chosen(t, i));
    var (r, n) := (Published(Rerouted(t, i), i, Get(t.subs, i)), Switched(t, i, l));
    forall k | k in t.sent ensures r.sent[k] == n.sent[k] {
      if k !in t.links { assert t.sent[k] + [] == t.sent[k]; }
    }
    assert r.sent == n.sent;
  }

  /** What the far end of `k` is told of an entry heard on `l`, without groups. */
  lemma Tells(s: ServerId, k: ClientId, nbr: ServerId, i: Issi, l: ClientId, a: Advert)
    requires a.groups == []
    ensures FedUpdate(s, k, nbr, i, Some(FromAdvert(l, a))) ==
      if k != l && nbr !in a.path && |a.path| < MAX_PATH then FedRoute(i, Onward(s, a)) else FedWithdraw(i)
  {
    NoGroups();
    assert FromAdvert(l, a).groups == {};
  }

  lemma Switched2(t: Table, l: ClientId, e: Advert, a: seq<Msg>, b: seq<Msg>, c: seq<Msg>)
    requires t.selfId == 2 && t.links == Links2 && t.sent == map[21 := a, 23 := b, 24 := c]
    requires l in OffersOf(t.rib, 7) && OffersOf(t.rib, 7)[l] == e && e.groups == []
    ensures Switched(t, 7, l) == t.(subs := t.subs[7 := FromAdvert(l, e)],
      sent := map[21 := a + [FedUpdate(2, 21, 1, 7, Some(FromAdvert(l, e)))], 23 := b +
          [FedUpdate(2, 23, 3, 7, Some(FromAdvert(l, e)))],
                  24 := c + [FedUpdate(2, 24, 4, 7, Some(FromAdvert(l, e)))]])
  {
    hide FedUpdate, FromAdvert;
    assert t.links[21] == 1 && t.links[23] == 3 && t.links[24] == 4;
    assert Switched(t, 7, l).sent == map[21 := a + [FedUpdate(2, 21, 1, 7, Some(FromAdvert(l, e)))],
      23 := b + [FedUpdate(2, 23, 3, 7, Some(FromAdvert(l, e)))],
      24 := c + [FedUpdate(2, 24, 4, 7, Some(FromAdvert(l, e)))]];
  }

  function With24(t: Table): Table {
    t.(clock := 30, rib := map[7 := map[21 := First, 23 := Second, 24 := Onward(4, Third)]])
  }

  lemma Hears2(clock: u64, a: seq<Msg>, b: seq<Msg>, c: seq<Msg>)
    requires clock <= 30
    ensures TakeOffer(Low2(clock, a, b, c), 24, 7, Onward(4, Third), 0) == With24(Low2(clock, a, b, c))
  {
    hide FromAdvert;
    assert [4] + Third.path == [4, 3, 1];
    assert TakeOffer(Low2(clock, a, b, c), 24, 7, Onward(4, Third), 0).rib == With24(Low2(clock, a, b, c)).rib;
  }

  lemma Rises2(clock: u64, a: seq<Msg>, b: seq<Msg>, c: seq<Msg>)
    requires clock <= 30
    ensures OnRoute(Low2(clock, a, b, c), 24, 7, Onward(4, Third), 0) ==
      High2(a + [FedWithdraw(7)], b + [FedRoute(7, Onward(2, First))], c + [FedRoute(7, Onward(2, First))])
  {
    hide Published, Rerouted, TakeOffer, FedUpdate, Switched;
    Hears2(clock, a, b, c);
    var t := With24(Low2(clock, a, b, c));
    PicksFirst(t);
    Switches(t, 24, 21, 7);
    Switched2(t, 21, First, a, b, c);
    Tells(2, 21, 1, 7, 21, First);
    Tells(2, 23, 3, 7, 21, First);
    Tells(2, 24, 4, 7, 21, First);
  }

  lemma PicksFirst(t: Table)
    requires t.links == Links2 && OffersOf(t.rib, 7) == map[21 := First, 23 := Second, 24 := Onward(4, Third)]
    ensures var cands := OffersOf(t.rib, 7); IsNewest(cands, 24) && IsClosest(t.links, cands, 21, Origin(cands[24]))
  {
  }

  lemma Forgets2(a: seq<Msg>, b: seq<Msg>, c: seq<Msg>)
    ensures var t := High2(a, b, c);
      t.(rib := WithdrawOffer(t.rib, 7, 24)) == t.(rib := map[7 := map[21 := First, 23 := Second]])
  {
    var t := High2(a, b, c);
    assert t.rib[7] - {24} == map[21 := First, 23 := Second];
    assert WithdrawOffer(t.rib, 7, 24) == map[7 := map[21 := First, 23 := Second]] by { assert 21 in t.rib[7] - {24}; }
  }

  lemma Falls2(a: seq<Msg>, b: seq<Msg>, c: seq<Msg>)
    ensures OnWithdraw(High2(a, b, c), 24, 7) ==
      Low2(30, a + [FedRoute(7, Onward(2, Second))], b + [FedWithdraw(7)], c + [FedRoute(7, Onward(2, Second))])
  {
    hide Published, Rerouted, WithdrawOffer, FedUpdate, Switched;
    Forgets2(a, b, c);
    var t := High2(a, b, c).(rib := map[7 := map[21 := First, 23 := Second]]);
    PicksSecond(t);
    Switches(t, 23, 23, 7);
    Switched2(t, 23, Second, a, b, c);
    Tells(2, 21, 1, 7, 23, Second);
    Tells(2, 23, 3, 7, 23, Second);
    Tells(2, 24, 4, 7, 23, Second);
  }

  lemma PicksSecond(t: Table)
    requires t.links == Links2 && OffersOf(t.rib, 7) == map[21 := First, 23 := Second]
    ensures var cands := OffersOf(t.rib, 7); IsNewest(cands, 23) && IsClosest(t.links, cands, 23, Origin(cands[23]))
  {
  }

  // ----- server 4 -----

  lemma Switched4(t: Table, l: ClientId, e: Advert, a: seq<Msg>, b: seq<Msg>)
    requires t.selfId == 4 && t.links == Links4 && t.sent == map[43 := a, 42 := b]
    requires l in OffersOf(t.rib, 7) && OffersOf(t.rib, 7)[l] == e && e.groups == []
    ensures Switched(t, 7, l) == t.(subs := t.subs[7 := FromAdvert(l, e)],
      sent := map[43 := a + [FedUpdate(4, 43, 3, 7, Some(FromAdvert(l, e)))], 42 := b +
          [FedUpdate(4, 42, 2, 7, Some(FromAdvert(l, e)))]])
  {
    hide FedUpdate, FromAdvert;
    assert t.links[43] == 3 && t.links[42] == 2;
    assert Switched(t, 7, l).sent ==
      map[43 := a + [FedUpdate(4, 43, 3, 7, Some(FromAdvert(l, e)))], 42 := b +
          [FedUpdate(4, 42, 2, 7, Some(FromAdvert(l, e)))]];
  }

  lemma Hears4(t: Table, e: Advert)
    requires t.selfId == 4 && t.clock == 30 && t.links == Links4 && 7 in t.rib && t.rib.Keys == {7}
    requires t.rib[7].Keys == {43, 42} && t.rib[7][43] == Third && e.reg <= 30 && 4 !in e.path
    ensures TakeOffer(t, 42, 7, e, 0) == t.(rib := map[7 := map[43 := Third, 42 := e]])
  {
    assert t.rib[7][42 := e] == map[43 := Third, 42 := e];
    assert TakeOffer(t, 42, 7, e, 0).rib == map[7 := map[43 := Third, 42 := e]];
  }

  /** No registration of server 4's own. */
  lemma NoLocal4(t: Table)
    requires t.links == Links4 && 7 in t.subs && t.subs[7].client in Links4
    ensures forall rib: Rib :: !LocalWins(4, RegOf(LocalOf(t.(rib := rib), 7)), OffersOf(rib, 7))
  {
  }

  lemma Follows4(a: seq<Msg>, b: seq<Msg>)
    ensures OnRoute(Far4(a, b), 42, 7, Onward(2, First), 0) ==
      Near4(a + [FedRoute(7, Onward(4, Onward(2, First)))], b + [FedWithdraw(7)])
  {
    hide Published, Rerouted, TakeOffer, FedUpdate, Switched, IsNewest, IsClosest, LocalWins;
    NoLocal4(Far4(a, b));
    Hears4(Far4(a, b), Onward(2, First));
    var t := Far4(a, b).(rib := map[7 := map[43 := Third, 42 := Onward(2, First)]]);
    PicksNearby(t);
    Switches(t, 43, 42, 7);
    Switched4(t, 42, Onward(2, First), a, b);
    Tells(4, 43, 3, 7, 42, Onward(2, First));
    Tells(4, 42, 2, 7, 42, Onward(2, First));
  }

  /** As near by either link, so the lower neighbour id decides. */
  lemma PicksNearby(t: Table)
    requires t.links == Links4 && OffersOf(t.rib, 7) == map[43 := Third, 42 := Onward(2, First)]
    ensures var cands := OffersOf(t.rib, 7); IsNewest(cands, 43) && IsClosest(t.links, cands, 42, Origin(cands[43]))
  {
  }

  lemma Returns4(a: seq<Msg>, b: seq<Msg>)
    ensures OnRoute(Near4(a, b), 42, 7, Onward(2, Second), 0) ==
      Far4(a + [FedWithdraw(7)], b + [FedRoute(7, Onward(4, Third))])
  {
    hide Published, Rerouted, TakeOffer, FedUpdate, Switched, IsNewest, IsClosest, LocalWins;
    NoLocal4(Near4(a, b));
    Hears4(Near4(a, b), Onward(2, Second));
    var t := Near4(a, b).(rib := map[7 := map[43 := Third, 42 := Onward(2, Second)]]);
    PicksThird(t);
    Switches(t, 43, 43, 7);
    Switched4(t, 43, Third, a, b);
    Tells(4, 43, 3, 7, 43, Third);
    Tells(4, 42, 2, 7, 43, Third);
  }

  lemma PicksThird(t: Table)
    requires t.links == Links4 && OffersOf(t.rib, 7) == map[43 := Third, 42 := Onward(2, Second)]
    ensures var cands := OffersOf(t.rib, 7); IsNewest(cands, 43) && IsClosest(t.links, cands, 43, Origin(cands[43]))
  {
  }

  // ----- the network -----

  /** Servers 1 and 3 as they stay: the links to server 2 deliver no more. */
  const Home := Advert(30, [1], [])

  function Rest1(): Table {
    Table(1, 30, map[11 := Basestation, 12 := Peer, 13 := Peer], map[12 := 2, 13 := 3],
      map[7 := Subscriber(11, {}, Basestation, Route(30, []))], map[],
      map[11 := [], 12 := [FedRoute(7, First), FedRoute(7, Home)], 13 := [FedRoute(7, Home)]])
  }

  function Rest3(): Table {
    Table(3, 30, map[33 := Basestation, 32 := Peer, 31 := Peer, 34 := Peer], map[32 := 2, 31 := 1, 34 := 4],
      map[7 := FromAdvert(31, Home)], map[7 := map[31 := Home]],
      map[33 := [], 32 := [FedRoute(7, Second), FedRoute(7, Third)],
      31 := [FedRoute(7, Second), FedWithdraw(7)], 34 := [FedRoute(7, Third)]])
  }

  const To24 := End(2, 24)
  const To42 := End(4, 42)

  function Wires(k24: nat, k42: nat): map<End, Wire> {
    map[End(2, 21) := Wire(1, 12, 1), End(2, 23) := Wire(3, 32, 1), End(3, 31) := Wire(1, 13, 1),
        End(4, 43) := Wire(3, 34, 1),
        End(1, 12) := Wire(2, 21, 0), End(3, 32) := Wire(2, 23, 0), End(1, 13) := Wire(3, 31, 0),
        End(3, 34) := Wire(4, 43, 0),
        To24 := Wire(4, 42, k24), To42 := Wire(2, 24, k42)]
  }

  function Between(t2: Table, t4: Table, k24: nat, k42: nat): Net {
    Net(map[1 := Rest1(), 2 := t2, 3 := Rest3(), 4 := t4], Wires(k24, k42))
  }

  /** One message from server 4 to server 2, or back. */
  lemma Delivered2(t2: Table, t4: Table, k24: nat, k42: nat)
    requires t2.clock < U64_MAX && 24 in t2.links && 42 in t4.sent && k24 < |t4.sent[42]|
    requires t4.sent[42][k24].FedRoute? ==> t4.sent[42][k24].advert.reg <= 30
    ensures NetStep(Between(t2, t4, k24, k42), Deliver(To24, 0),
                    Between(Next(t2, ArrivalOf(t4.sent[42][k24], 24, 0)), t4, k24 + 1, k42))
  {
    hide Next;
    var (net, t2') := (Between(t2, t4, k24, k42), Next(t2, ArrivalOf(t4.sent[42][k24], 24, 0)));
    assert net.wires[To24] == Wire(4, 42, k24) && net.servers[2] == t2 && net.servers[4] == t4;
    assert net.servers[2 := t2'] == Between(t2', t4, k24 + 1, k42).servers;
    assert net.wires[To24 := Wire(4, 42, k24 + 1)] == Wires(k24 + 1, k42);
  }

  lemma Delivered4(t2: Table, t4: Table, k24: nat, k42: nat)
    requires t4.clock < U64_MAX && 42 in t4.links && 24 in t2.sent && k42 < |t2.sent[24]|
    requires t2.sent[24][k42].FedRoute? ==> t2.sent[24][k42].advert.reg <= 30
    ensures NetStep(Between(t2, t4, k24, k42), Deliver(To42, 0),
                    Between(t2, Next(t4, ArrivalOf(t2.sent[24][k42], 42, 0)), k24, k42 + 1))
  {
    hide Next;
    var (net, t4') := (Between(t2, t4, k24, k42), Next(t4, ArrivalOf(t2.sent[24][k42], 42, 0)));
    assert net.wires[To42] == Wire(2, 24, k42) && net.servers[2] == t2 && net.servers[4] == t4;
    assert net.servers[4 := t4'] == Between(t2, t4', k24, k42 + 1).servers;
    assert net.wires[To42 := Wire(2, 24, k42 + 1)] == Wires(k24, k42 + 1);
  }

  /** Server 4's offer of the newest registration on its way to server 2, and
      nothing on its way back. */
  function Swinging(clock: u64, a: seq<Msg>, b: seq<Msg>, c: seq<Msg>, p: seq<Msg>, q: seq<Msg>): Net {
    Between(Low2(clock, a, b, c), Far4(p, q + [FedRoute(7, Onward(4, Third))]), |q|, |c|)
  }

  /** Four deliveries lead back to where they began. */
  lemma OneSwing(clock: u64, a: seq<Msg>, b: seq<Msg>, c: seq<Msg>, p: seq<Msg>, q: seq<Msg>)
    returns (n1: Net, n2: Net, n3: Net, n4: Net, a': seq<Msg>, b': seq<Msg>, c': seq<Msg>, p': seq<Msg>, q': seq<Msg>)
    requires clock <= 30
    ensures NetStep(Swinging(clock, a, b, c, p, q), Deliver(To24, 0), n1) && NetStep(n1, Deliver(To42, 0), n2)
    ensures NetStep(n2, Deliver(To24, 0), n3) && NetStep(n3, Deliver(To42, 0), n4)
    ensures n4 == Swinging(30, a', b', c', p', q')
  {
    hide NetStep, Between, Switched, Low2, High2, Far4, Near4, First, Second, Third, Onward;
    var (up, down, w) := (FedRoute(7, Onward(2, First)), FedRoute(7, Onward(2, Second)), FedWithdraw(7));
    var (q1, c1) := (q + [FedRoute(7, Onward(4, Third))], c + [up]);
    var (a1, b1) := (a + [w], b + [up]);
    SwingUp(clock, a, b, c, p, q1, |q|, |c|);
    n1 := Between(High2(a1, b1, c1), Far4(p, q1), |q1|, |c|);
    var (p2, q2) := (p + [FedRoute(7, Onward(4, Onward(2, First)))], q1 + [w]);
    SwingOver(a1, b1, c1, p, q1, |q1|, |c|);
    n2 := Between(High2(a1, b1, c1), Near4(p2, q2), |q1|, |c1|);
    a', b', c' := a1 + [down], b1 + [w], c1 + [down];
    SwingDown(a1, b1, c1, p2, q2, |q1|, |c1|);
    n3 := Between(Low2(30, a', b', c'), Near4(p2, q2), |q2|, |c1|);
    p', q' := p2 + [w], q2;
    SwingBack(a', b', c', p2, q2, |q2|, |c1|);
    n4 := Swinging(30, a', b', c', p', q');
  }

  lemma SwingUp(clock: u64, a: seq<Msg>, b: seq<Msg>, c: seq<Msg>, p: seq<Msg>, q: seq<Msg>, k24: nat, k42: nat)
    requires clock <= 30 && k24 < |q| && q[k24] == FedRoute(7, Onward(4, Third))
    ensures var up := FedRoute(7, Onward(2, First));
      NetStep(Between(Low2(clock, a, b, c), Far4(p, q), k24, k42), Deliver(To24, 0),
              Between(High2(a + [FedWithdraw(7)], b + [up], c + [up]), Far4(p, q), k24 + 1, k42))
  {
    hide NetStep, Between, OnRoute;
    Rises2(clock, a, b, c);
    Delivered2(Low2(clock, a, b, c), Far4(p, q), k24, k42);
  }

  lemma SwingOver(a: seq<Msg>, b: seq<Msg>, c: seq<Msg>, p: seq<Msg>, q: seq<Msg>, k24: nat, k42: nat)
    requires k42 < |c| && c[k42] == FedRoute(7, Onward(2, First))
    ensures NetStep(Between(High2(a, b, c), Far4(p, q), k24, k42), Deliver(To42, 0),
                    Between(High2(a, b, c),
                            Near4(p + [FedRoute(7, Onward(4, Onward(2, First)))], q + [FedWithdraw(7)]), k24, k42 + 1))
  {
    hide NetStep, Between, OnRoute;
    Follows4(p, q);
    Delivered4(High2(a, b, c), Far4(p, q), k24, k42);
  }

  lemma SwingDown(a: seq<Msg>, b: seq<Msg>, c: seq<Msg>, p: seq<Msg>, q: seq<Msg>, k24: nat, k42: nat)
    requires k24 < |q| && q[k24] == FedWithdraw(7)
    ensures var down := FedRoute(7, Onward(2, Second));
      NetStep(Between(High2(a, b, c), Near4(p, q), k24, k42), Deliver(To24, 0),
              Between(Low2(30, a + [down], b + [FedWithdraw(7)], c + [down]), Near4(p, q), k24 + 1, k42))
  {
    hide NetStep, Between, OnWithdraw;
    Falls2(a, b, c);
    Delivered2(High2(a, b, c), Near4(p, q), k24, k42);
  }

  lemma SwingBack(a: seq<Msg>, b: seq<Msg>, c: seq<Msg>, p: seq<Msg>, q: seq<Msg>, k24: nat, k42: nat)
    requires k42 < |c| && c[k42] == FedRoute(7, Onward(2, Second))
    ensures NetStep(Between(Low2(30, a, b, c), Near4(p, q), k24, k42), Deliver(To42, 0),
                    Between(Low2(30, a, b, c), Far4(p + [FedWithdraw(7)], q + [FedRoute(7, Onward(4, Third))]),
                            k24, k42 + 1))
  {
    hide NetStep, Between, OnRoute;
    Returns4(p, q);
    Delivered4(Low2(30, a, b, c), Near4(p, q), k24, k42);
  }
}
