/** A quiet federation agrees: every route leads home, and everyone within
    reach of the newest registration takes a shortest path to it. */
module Agreement {
  import opened FedTypes
  import opened RouteSelection
  import opened RouteTable
  import opened TableInvariant
  import opened Propagation
  import opened Federation

  /** The end is joined both ways to a live end that has nothing left to deliver. */
  ghost predicate QuietEnd(net: Net, s: ServerId, l: ClientId) {
    && End(s, l) in net.wires
    && var w := net.wires[End(s, l)];
    && w.from in net.servers && w.link in net.servers[w.from].links && w.link in net.servers[w.from].sent
    && w.taken == |net.servers[w.from].sent[w.link]|
    && End(w.from, w.link) in net.wires
    && net.wires[End(w.from, w.link)].from == s && net.wires[End(w.from, w.link)].link == l
  }

  /** All queues are empty and every live negotiated link has both ends up. */
  ghost predicate Quiet(net: Net) {
    forall s, l :: s in net.servers && l in net.servers[s].links ==> QuietEnd(net, s, l)
  }

  /** In a quiet network an end holds exactly what the far table offers it now. */
  lemma QuietOffers(net: Net, s: ServerId, l: ClientId, i: Issi) returns (a: ServerId, la: ClientId)
    requires NetOk(net) && Quiet(net) && s in net.servers && l in net.servers[s].links
    ensures a == net.servers[s].links[l] && a in net.servers && la in net.servers[a].links
    ensures net.servers[a].links[la] == s
    ensures Get(OffersOf(net.servers[s].rib, i), l) == OfferNow(net.servers[a], la, i)
  {
    hide Acceptable, Replay, ServerOk, TableOk, OfferNow, EntryOk;
    assert QuietEnd(net, s, l);
    var w := net.wires[End(s, l)];
    a, la := w.from, w.link;
    assert WireOk(net, End(s, l)) && WireOk(net, End(a, la));
    InSyncOf(net, a);
    var ms := net.servers[a].sent[la];
    assert ms[..|ms|] == ms;
  }

  lemma InSyncOf(net: Net, a: ServerId)
    requires NetOk(net) && a in net.servers
    ensures InSync(net.servers[a])
  {
    hide InSync, TableOk, Acceptable, WireOk;
    assert ServerOk(net, a);
  }

  ghost function EntryAt(net: Net, v: ServerId, i: Issi): Option<Subscriber> {
    if v in net.servers then Get(net.servers[v].subs, i) else None
  }

  /** `v` has a remote entry: the next hop's own entry is the same route, one hop shorter. */
  lemma OneHop(net: Net, v: ServerId, i: Issi)
    requires NetOk(net) && Quiet(net) && EntryAt(net, v, i).Some?
    requires EntryAt(net, v, i).value.route.path != []
    ensures var e := EntryAt(net, v, i).value;
      && |e.route.path| <= MAX_PATH
      && var u := e.route.path[0];
      && Adjacent(net, v, u) && EntryAt(net, u, i).Some?
      && EntryAt(net, u, i).value.route == Route(e.route.reg, e.route.path[1..])
      && EntryAt(net, u, i).value.groups == e.groups
  {
    hide Desired, NetOk, Quiet;
    var t := net.servers[v];
    EntryOfNet(net, v, i);
    EntryMeaning(t, i);
    var l := t.subs[i].client;
    var a, la := QuietOffers(net, v, l, i);
    EntryOfNet(net, a, i);
    OfferAccepted(net.servers[a], la, i);
  }

  ghost predicate Adjacent(net: Net, v: ServerId, u: ServerId) {
    v in net.servers && exists l :: l in net.servers[v].links && net.servers[v].links[l] == u
  }

  /** A walk of exactly `d` links leads from `v` to `o`. */
  ghost predicate Walk(net: Net, o: ServerId, v: ServerId, d: nat)
    decreases d
  {
    if d == 0 then v == o else exists u :: Adjacent(net, v, u) && Walk(net, o, u, d - 1)
  }

  ghost predicate Distance(net: Net, o: ServerId, v: ServerId, d: nat) {
    Walk(net, o, v, d) && forall k: nat :: k < d ==> !Walk(net, o, v, k)
  }

  function OriginOf(v: ServerId, path: seq<ServerId>): ServerId {
    if path == [] then v else path[|path| - 1]
  }

  /** Every effective route leads hop by hop to a server that holds the ISSI
      locally, with the same clock and groups all the way. */
  lemma {:induction false} RouteLeadsHome(net: Net, v: ServerId, i: Issi)
    requires NetOk(net) && Quiet(net) && EntryAt(net, v, i).Some?
    ensures var e := EntryAt(net, v, i).value;
      && var o := OriginOf(v, e.route.path);
      && Walk(net, o, v, |e.route.path|)
      && o in net.servers && LocalOf(net.servers[o], i).Some?
      && net.servers[o].subs[i].route == Route(e.route.reg, []) && net.servers[o].subs[i].groups == e.groups
      && forall k :: 0 <= k < |e.route.path| ==>
           && EntryAt(net, e.route.path[k], i).Some?
           && EntryAt(net, e.route.path[k], i).value.route == Route(e.route.reg, e.route.path[k + 1..])
           && EntryAt(net, e.route.path[k], i).value.groups == e.groups
    decreases |EntryAt(net, v, i).value.route.path|
  {
    hide InSync, Acceptable, Desired, NetOk, Quiet, Adjacent, Walk, LocalOf;
    var e := EntryAt(net, v, i).value;
    var p := e.route.path;
    if p == [] {
      HeldHere(net, v, i);
    } else {
      OneHop(net, v, i);
      RouteLeadsHome(net, p[0], i);
      assert Walk(net, OriginOf(v, p), v, |p|) by { OneMore(net, OriginOf(v, p), v, p[0], |p| - 1); }
      forall k | 0 <= k < |p|
        ensures EntryAt(net, p[k], i).Some? && EntryAt(net, p[k], i).value.groups == e.groups
        ensures EntryAt(net, p[k], i).value.route == Route(e.route.reg, p[k + 1..])
      {
        if k > 0 { assert p[k] == p[1..][k - 1] && p[k + 1..] == p[1..][k..]; }
      }
    }
  }

  lemma HeldHere(net: Net, v: ServerId, i: Issi)
    requires NetOk(net) && EntryAt(net, v, i).Some? && EntryAt(net, v, i).value.route.path == []
    ensures v in net.servers && LocalOf(net.servers[v], i).Some? && Walk(net, v, v, 0)
  {
    hide NetOk, EntryOk;
    EntryOfNet(net, v, i);
    EntryMeaning(net.servers[v], i);
  }

  /** No local registration in the network is newer than (`reg`, `o`). */
  ghost predicate Newest(net: Net, i: Issi, reg: u64, o: ServerId) {
    forall w :: w in net.servers && LocalOf(net.servers[w], i).Some? ==>
      !Older(reg, o, net.servers[w].subs[i].route.reg, w)
  }

  /** The offers `v` holds come from registrations somewhere in the network, over walks. */
  lemma OfferComesFrom(net: Net, v: ServerId, l: ClientId, i: Issi)
    requires NetOk(net) && Quiet(net) && v in net.servers && l in OffersOf(net.servers[v].rib, i)
    ensures var a := OffersOf(net.servers[v].rib, i)[l];
      && a.path != [] && Walk(net, Origin(a), v, |a.path|)
      && Origin(a) in net.servers && LocalOf(net.servers[Origin(a)], i).Some?
      && net.servers[Origin(a)].subs[i].route.reg == a.reg
      && net.servers[Origin(a)].subs[i].groups == Elems(a.groups)
  {
    hide InSync, Acceptable, Desired, NetOk, Quiet;
    var a := OffersOf(net.servers[v].rib, i)[l];
    EntryOfNet(net, v, i);
    var u, lu := QuietOffers(net, v, l, i);
    EntryOfNet(net, u, i);
    RouteLeadsHome(net, u, i);
    OfferAccepted(net.servers[u], lu, i);
    assert Adjacent(net, v, u);
    assert a.path[1..] == net.servers[u].subs[i].route.path;
  }

  lemma EntryOfNet(net: Net, v: ServerId, i: Issi)
    requires NetOk(net) && v in net.servers
    ensures EntryOk(net.servers[v], i) && net.servers[v].selfId == v
    ensures forall l :: l in net.servers[v].links ==> net.servers[v].links[l] != v
  {
    hide EntryOk, WireOk, InSync, Acceptable;
    assert ServerOk(net, v);
  }

  /** `v` is on its neighbour's route only if it is closer to the origin itself. */
  lemma NoDetour(net: Net, o: ServerId, u: ServerId, lu: ClientId, v: ServerId, i: Issi, d: nat)
    requires NetOk(net) && Quiet(net) && EntryAt(net, u, i).Some? && lu in net.servers[u].links
    requires net.servers[u].links[lu] == v && Distance(net, o, v, d + 1) && d < MAX_PATH
    requires var p := net.servers[u].subs[i].route.path; |p| == d && OriginOf(u, p) == o
    ensures OfferNow(net.servers[u], lu, i).Some?
    ensures |OfferNow(net.servers[u], lu, i).value.path| == d + 1
    ensures OfferNow(net.servers[u], lu, i).value.reg == net.servers[u].subs[i].route.reg
    ensures Origin(OfferNow(net.servers[u], lu, i).value) == o
  {
    hide NetOk, Quiet, Desired;
    var e := net.servers[u].subs[i];
    var p := e.route.path;
    EntryOfNet(net, u, i);
    EntryMeaning(net.servers[u], i);
    forall k | 0 <= k < |p| ensures p[k] != v {
      RouteOnward(net, u, i, k);
    }
  }

  /** From every server on a route the rest of it is a walk to the origin. */
  lemma RouteOnward(net: Net, u: ServerId, i: Issi, k: nat)
    requires NetOk(net) && Quiet(net) && EntryAt(net, u, i).Some?
    requires k < |net.servers[u].subs[i].route.path|
    ensures var p := net.servers[u].subs[i].route.path; Walk(net, OriginOf(u, p), p[k], |p| - k - 1)
  {
    hide NetOk, Quiet;
    RouteLeadsHome(net, u, i);
    RouteLeadsHome(net, net.servers[u].subs[i].route.path[k], i);
  }

  /** With one offer of the newest registration over a shortest walk at hand,
      selection takes a shortest walk. */
  lemma TakesShortest(net: Net, v: ServerId, i: Issi, reg: u64, o: ServerId, l: ClientId, d: nat)
    requires NetOk(net) && Quiet(net) && v in net.servers && v != o
    requires Newest(net, i, reg, o) && Distance(net, o, v, d)
    requires FromOrigin(OffersOf(net.servers[v].rib, i), l, o)
    requires OffersOf(net.servers[v].rib, i)[l].reg == reg && |OffersOf(net.servers[v].rib, i)[l].path| == d
    ensures EntryAt(net, v, i).Some?
    ensures var r := net.servers[v].subs[i].route; |r.path| == d && r.path != [] && OriginOf(v, r.path) == o
    ensures LocalOf(net.servers[v], i).None?
  {
    hide NetOk, Quiet;
    var t := net.servers[v];
    var cands := OffersOf(t.rib, i);
    EntryOfNet(net, v, i);
    forall k | k in cands && cands[k].path != []
      ensures !Older(reg, o, cands[k].reg, Origin(cands[k]))
      ensures FromOrigin(cands, k, o) ==> d <= |cands[k].path|
    {
      OfferComesFrom(net, v, k, i);
    }
    assert IsNewest(cands, l);
    assert !LocalWins(t.selfId, RegOf(LocalOf(t, i)), cands);
    var c := Chosen(t, i);
    assert c.Remote?;
    var w :| IsNewest(cands, w) && IsClosest(t.links, cands, c.link, Origin(cands[w]));
    assert Origin(cands[w]) == o;
    assert !Closer(t.links, cands, l, c.link);
  }

  lemma OneMore(net: Net, o: ServerId, v: ServerId, u: ServerId, k: nat)
    requires Adjacent(net, v, u)
    ensures Walk(net, o, u, k) ==> Walk(net, o, v, k + 1)
  {
  }

  lemma NearerNeighbour(h: Net, o: ServerId, v: ServerId, d: nat) returns (u: ServerId, l: ClientId)
    requires Distance(h, o, v, d + 1) && v in h.servers
    ensures l in h.servers[v].links && h.servers[v].links[l] == u && Distance(h, o, u, d)
  {
    u :| Adjacent(h, v, u) && Walk(h, o, u, d);
    l :| l in h.servers[v].links && h.servers[v].links[l] == u;
    forall k: nat | k < d ensures !Walk(h, o, u, k) { OneMore(h, o, v, u, k); }
  }

  /** Distance 0 is home, and nothing else is. */
  lemma NotHome(h: Net, o: ServerId, v: ServerId, d: nat)
    requires Distance(h, o, v, d)
    ensures d == 0 <==> v == o
  {
    assert Walk(h, o, o, 0);
  }

  /** In a quiet network every server within `MAX_PATH` hops of the newest
      registration routes to it by a shortest path, with its clock and groups;
      no second local registration survives there. */
  lemma {:induction false} QuietAgreement(net: Net, i: Issi, o: ServerId, v: ServerId, d: nat)
    requires NetOk(net) && Quiet(net) && v in net.servers
    requires o in net.servers && LocalOf(net.servers[o], i).Some?
    requires Newest(net, i, net.servers[o].subs[i].route.reg, o)
    requires Distance(net, o, v, d) && d <= MAX_PATH
    ensures EntryAt(net, v, i).Some?
    ensures var (e, home) := (net.servers[v].subs[i], net.servers[o].subs[i]);
      && |e.route.path| == d && OriginOf(v, e.route.path) == o
      && e.route.reg == home.route.reg && e.groups == home.groups
    ensures d > 0 ==> LocalOf(net.servers[v], i).None?
    decreases d
  {
    hide NetOk, Quiet, Desired, Newest, Distance, Walk, EntryOk;
    var reg := net.servers[o].subs[i].route.reg;
    EntryOfNet(net, o, i);
    EntryMeaning(net.servers[o], i);
    NotHome(net, o, v, d);
    if d > 0 {
      var u, l := NearerNeighbour(net, o, v, d - 1);
      var a, lu := QuietOffers(net, v, l, i);
      QuietAgreement(net, i, o, u, d - 1);
      NoDetour(net, o, u, lu, v, i, d - 1);
      TakesShortest(net, v, i, reg, o, l, d);
      RouteLeadsHome(net, v, i);
    }
  }

  /** Without any local registration nobody has a route. */
  lemma NoRegistrationNoRoute(net: Net, i: Issi)
    requires NetOk(net) && Quiet(net)
    ensures (exists v :: EntryAt(net, v, i).Some?) <==>
      (exists o :: o in net.servers && LocalOf(net.servers[o], i).Some?)
  {
    hide NetOk, Quiet;
    if v :| EntryAt(net, v, i).Some? {
      RouteLeadsHome(net, v, i);
    }
    if o :| o in net.servers && LocalOf(net.servers[o], i).Some? {
      assert EntryAt(net, o, i).Some?;
    }
  }

  /** The claim for runs: any network reached from isolated servers by local
      events, joined links and honest deliveries agrees once it is quiet. */
  lemma QuietRunsAgree(ids: set<ServerId>, nets: seq<Net>, es: seq<NetEvent>, i: Issi, o: ServerId, v: ServerId, d: nat)
    requires NetRun(ids, nets, es) && Quiet(nets[|es|])
    requires var net := nets[|es|];
      && v in net.servers && o in net.servers && LocalOf(net.servers[o], i).Some?
      && Newest(net, i, net.servers[o].subs[i].route.reg, o) && Distance(net, o, v, d) && d <= MAX_PATH
    ensures var net := nets[|es|];
      && EntryAt(net, v, i).Some?
      && |net.servers[v].subs[i].route.path| == d
      && OriginOf(v, net.servers[v].subs[i].route.path) == o
      && net.servers[v].subs[i].route.reg == net.servers[o].subs[i].route.reg
      && net.servers[v].subs[i].groups == net.servers[o].subs[i].groups
      && (v != o ==> LocalOf(net.servers[v], i).None?)
  {
    NetAlwaysOk(ids, nets, es, |es|);
    QuietAgreement(nets[|es|], i, o, v, d);
    if d == 0 { assert v == o; }
  }
}
