/** A federation whose links all keep delivering settles: after a known number
    of phases, in each of which every link delivers what was queued when it
    began, nothing is left to deliver. */
module Convergence {
  import opened FedTypes
  import opened RouteSelection
  import opened RouteTable
  import opened TableInvariant
  import opened Propagation
  import opened Federation
  import opened Agreement
  import opened Settling

  /** Times of a run between which a phase each has passed. */
  ghost predicate Marks(nets: seq<Net>, es: seq<NetEvent>, m: seq<nat>) {
    && |nets| == |es| + 1 && (forall p :: 0 <= p < |m| ==> m[p] <= |es|)
    && forall p, q :: 0 <= p && q == p + 1 && q < |m| ==> m[p] <= m[q] && Phase(nets[m[p]], nets[m[q]])
  }

  lemma {:induction false} MarksOrdered(nets: seq<Net>, es: seq<NetEvent>, m: seq<nat>, p: nat, q: nat)
    requires Marks(nets, es, m) && p <= q < |m|
    ensures m[p] <= m[q]
    decreases q - p
  {
    hide Phase;
    if p < q { MarksOrdered(nets, es, m, p, q - 1); assert m[q - 1] <= m[q]; }
  }

  /** No registration of the first network is gone in the last. */
  ghost predicate SteadyLocals(a: Net, b: Net) {
    forall v, i: Issi :: v in a.servers && v in b.servers ==> LocalOf(b.servers[v], i) == LocalOf(a.servers[v], i)
  }

  lemma LocalsAt(nets: seq<Net>, es: seq<NetEvent>, j: nat, v: ServerId, i: Issi)
    requires Deliveries(nets, es) && SteadyLocals(nets[0], nets[|es|]) && j <= |es| && v in nets[0].servers
    ensures v in nets[j].servers && LocalOf(nets[j].servers[v], i) == LocalOf(nets[0].servers[v], i)
    ensures nets[j].servers[v].links == nets[0].servers[v].links && nets[j].servers[v].selfId == v
    ensures EntryOk(nets[j].servers[v], i)
  {
    hide NetStep, NetOk, EntryOk, LocalOf;
    RunOk(nets, es, j);
    RunLater(nets, es, j, |es|);
    RunOk(nets, es, |es|);
    LocalLater(nets[0].servers[v], nets[j].servers[v], i);
    LocalLater(nets[j].servers[v], nets[|es|].servers[v], i);
    EntryOfNet(nets[j], v, i);
  }

  lemma LocalLater(t: Table, t': Table, i: Issi)
    requires ServerLater(t, t')
    ensures LocalOf(t', i).Some? ==> LocalOf(t', i) == LocalOf(t, i)
    ensures t'.links == t.links
  {
  }

  // ----- the part of the network that matters -----

  /** From the far end of link `l`, `v` is never offered a route to `i`. */
  ghost predicate Silent(nets: seq<Net>, es: seq<NetEvent>, i: Issi, v: ServerId, l: ClientId)
    requires |nets| == |es| + 1
  {
    && End(v, l) in nets[0].wires
    && var (u, lu) := (nets[0].wires[End(v, l)].from, nets[0].wires[End(v, l)].link);
    && forall j: nat :: j <= |es| ==>
         u in nets[j].servers && lu in nets[j].servers[u].links && OfferNow(nets[j].servers[u], lu, i).None?
  }

  /** `v` in `h` is as in the run, without links that are silent to it. */
  ghost predicate PartAt(nets: seq<Net>, es: seq<NetEvent>, h: Net, i: Issi, v: ServerId)
    requires |nets| == |es| + 1 && v in h.servers && v in nets[0].servers
  {
    var (t, part) := (nets[0].servers[v], h.servers[v]);
    && LocalOf(part, i) == LocalOf(t, i)
    && (forall l :: l in part.links ==> l in t.links && part.links[l] == t.links[l] && t.links[l] in h.servers)
    && (forall l :: l in t.links && l !in part.links ==> Silent(nets, es, i, v, l))
  }

  /** Routes to `i` at the servers of `h` come from servers of `h` over its links. */
  ghost predicate Part(nets: seq<Net>, es: seq<NetEvent>, h: Net, i: Issi)
    requires |nets| == |es| + 1
  {
    && h.servers.Keys <= nets[0].servers.Keys
    && forall v :: v in h.servers ==> PartAt(nets, es, h, i, v)
  }

  /** The run settles nothing but routes, at least `n` phases pass, and `h` is a
      part of the network that hears of `i` from itself only. */
  ghost predicate Fair(nets: seq<Net>, es: seq<NetEvent>, m: seq<nat>, h: Net, i: Issi, n: nat) {
    Deliveries(nets, es) && Marks(nets, es, m) && SteadyLocals(nets[0], nets[|es|]) && Part(nets, es, h, i) && n < |m|
  }

  lemma PartLocal(nets: seq<Net>, es: seq<NetEvent>, h: Net, i: Issi, v: ServerId)
    requires |nets| == |es| + 1 && Part(nets, es, h, i) && v in h.servers
    ensures v in nets[0].servers && LocalOf(h.servers[v], i) == LocalOf(nets[0].servers[v], i)
  {
    hide LocalOf, Silent;
    assert PartAt(nets, es, h, i, v);
  }

  lemma PartLinks(nets: seq<Net>, es: seq<NetEvent>, h: Net, i: Issi, v: ServerId, l: ClientId)
    requires |nets| == |es| + 1 && Part(nets, es, h, i) && v in h.servers && l in h.servers[v].links
    ensures v in nets[0].servers && l in nets[0].servers[v].links
    ensures h.servers[v].links[l] == nets[0].servers[v].links[l] && h.servers[v].links[l] in h.servers
  {
    hide LocalOf, Silent;
    assert PartAt(nets, es, h, i, v);
  }

  lemma NotSilent(nets: seq<Net>, es: seq<NetEvent>, i: Issi, v: ServerId, l: ClientId, k: nat)
    requires |nets| == |es| + 1 && End(v, l) in nets[0].wires && k <= |es|
    requires var (u, lu) := (nets[0].wires[End(v, l)].from, nets[0].wires[End(v, l)].link);
      u in nets[k].servers && lu in nets[k].servers[u].links && OfferNow(nets[k].servers[u], lu, i).Some?
    ensures !Silent(nets, es, i, v, l)
  {
    hide OfferNow;
  }

  /** An offer came over a link of the part. */
  lemma PartLink(nets: seq<Net>, es: seq<NetEvent>, h: Net, i: Issi, v: ServerId, l: ClientId, k: nat)
    requires Deliveries(nets, es) && Part(nets, es, h, i) && v in h.servers
    requires l in nets[0].servers[v].links && k <= |es|
    requires End(v, l) in nets[0].wires
    requires var (u, lu) := (nets[0].wires[End(v, l)].from, nets[0].wires[End(v, l)].link);
      u in nets[k].servers && lu in nets[k].servers[u].links && OfferNow(nets[k].servers[u], lu, i).Some?
    ensures var u := nets[0].servers[v].links[l]; u in h.servers && Adjacent(h, v, u) && l in h.servers[v].links
    ensures h.servers[v].links[l] == nets[0].servers[v].links[l]
  {
    hide LocalOf, OfferNow, NetOk, Joined, NetStep, Silent;
    assert PartAt(nets, es, h, i, v);
    NotSilent(nets, es, i, v, l, k);
  }

  // ----- stale routes die out -----

  /** A route at `v` that leads, link by link, to a registration there is. */
  ghost predicate FreshRoute(h: Net, i: Issi, v: ServerId, reg: u64, path: seq<ServerId>, groups: set<Gssi>) {
    && path != [] && Adjacent(h, v, path[0])
    && var o := path[|path| - 1];
    && o in h.servers && LocalOf(h.servers[o], i).Some?
    && LocalOf(h.servers[o], i).value.route.reg == reg && LocalOf(h.servers[o], i).value.groups == groups
    && forall k :: 0 <= k < |path| ==> Walk(h, o, path[k], |path| - 1 - k)
  }

  lemma FreshWalk(h: Net, i: Issi, v: ServerId, reg: u64, path: seq<ServerId>, groups: set<Gssi>)
    requires FreshRoute(h, i, v, reg, path, groups)
    ensures Walk(h, path[|path| - 1], v, |path|)
  {
    hide Adjacent;
    assert Walk(h, path[|path| - 1], path[0], |path| - 1 - 0);
    OneMore(h, path[|path| - 1], v, path[0], |path| - 1);
  }

  /** A fresh route stays fresh one hop further. */
  lemma FreshOnward(h: Net, i: Issi, v: ServerId, u: ServerId, e: Subscriber)
    requires Adjacent(h, v, u)
    requires if e.route.path == [] then u in h.servers && LocalOf(h.servers[u], i) == Some(e)
             else FreshRoute(h, i, u, e.route.reg, e.route.path, e.groups)
    ensures FreshRoute(h, i, v, e.route.reg, [u] + e.route.path, e.groups)
  {
    hide Adjacent, LocalOf;
    var p := e.route.path;
    if p == [] {
      assert Walk(h, u, u, 0);
    } else {
      FreshWalk(h, i, u, e.route.reg, p, e.groups);
      forall k | 0 <= k < |[u] + p| ensures Walk(h, p[|p| - 1], ([u] + p)[k], |p| - k) {
        if k > 0 { assert ([u] + p)[k] == p[k - 1]; }
      }
    }
  }

  /** After `n` phases every entry over at most `n` hops is local or fresh ... */
  lemma {:induction false} FreshEntry(nets: seq<Net>, es: seq<NetEvent>, m: seq<nat>, h: Net, i: Issi, n: nat, j: nat,
                                      v: ServerId)
    requires Fair(nets, es, m, h, i, n) && m[n] <= j <= |es| && v in h.servers
    requires v in nets[j].servers && i in nets[j].servers[v].subs
    requires |nets[j].servers[v].subs[i].route.path| <= n
    ensures var e := nets[j].servers[v].subs[i];
      if e.route.path == [] then LocalOf(h.servers[v], i) == Some(e)
      else FreshRoute(h, i, v, e.route.reg, e.route.path, e.groups)
    decreases n, 1
  {
    hide NetStep, NetOk, Joined, Phase, EntryOk, FreshRoute, PartAt;
    var e := nets[j].servers[v].subs[i];
    PartLocal(nets, es, h, i, v);
    LocalsAt(nets, es, j, v, i);
    EntryMeaning(nets[j].servers[v], i);
    if e.route.path != [] {
      FreshOffer(nets, es, m, h, i, n, j, v, e.client);
    }
  }

  /** ... and so is every offer. */
  lemma {:induction false} FreshOffer(nets: seq<Net>, es: seq<NetEvent>, m: seq<nat>, h: Net, i: Issi, n: nat, j: nat,
                                      v: ServerId, l: ClientId)
    requires Fair(nets, es, m, h, i, n) && m[n] <= j <= |es| && v in h.servers && v in nets[j].servers
    requires l in OffersOf(nets[j].servers[v].rib, i) && |OffersOf(nets[j].servers[v].rib, i)[l].path| <= n
    ensures var a := OffersOf(nets[j].servers[v].rib, i)[l]; FreshRoute(h, i, v, a.reg, a.path, Elems(a.groups))
    decreases n, 0
  {
    hide NetStep, NetOk, Joined, Phase, FreshRoute, Desired, JoinedEnd, Adjacent, PartAt;
    var a := OffersOf(nets[j].servers[v].rib, i)[l];
    LocalsAt(nets, es, j, v, i);
    assert Parsed(nets[0].servers[v].links[l], a);
    MarksOrdered(nets, es, m, n - 1, n);
    var k := HeardSince(nets, es, m[n - 1], m[n], j, v, l, i);
    assert Phase(nets[m[n - 1]], nets[m[n]]);
    FarEnd(nets, es, k, v, l);
    var (u, lu) := (nets[0].wires[End(v, l)].from, nets[0].wires[End(v, l)].link);
    PartLink(nets, es, h, i, v, l, k);
    LocalsAt(nets, es, k, u, i);
    var e := nets[k].servers[u].subs[i];
    assert a == Advert(e.route.reg, [u] + e.route.path, Sorted(e.groups));
    FreshEntry(nets, es, m, h, i, n - 1, k, u);
    FreshOnward(h, i, v, u, e);
  }

  /** The far end of a link. */
  lemma FarEnd(nets: seq<Net>, es: seq<NetEvent>, k: nat, v: ServerId, l: ClientId)
    requires Deliveries(nets, es) && k <= |es| && v in nets[0].servers && l in nets[0].servers[v].links
    ensures End(v, l) in nets[0].wires
    ensures var (u, lu) := (nets[0].wires[End(v, l)].from, nets[0].wires[End(v, l)].link);
      && u in nets[0].servers && u in nets[k].servers && lu in nets[k].servers[u].links &&
          nets[k].servers[u].links[lu] == v
      && nets[0].servers[v].links[l] == u && Adjacent(nets[0], v, u)
  {
    hide NetStep, NetOk, Joined, JoinedEnd;
    EndAt(nets, es, 0, v, l, 0);
    EndAt(nets, es, k, v, l, 0);
  }

  // ----- everyone takes a shortest way to the newest registration -----

  /** `o` holds the newest registration of `i`. */
  ghost predicate Home(h: Net, i: Issi, o: ServerId) {
    o in h.servers && LocalOf(h.servers[o], i).Some? && Newest(h, i, LocalOf(h.servers[o], i).value.route.reg, o)
  }

  /** `v` routes `i` to `o` over `d` hops, with its clock and groups. */
  ghost predicate RoutesTo(h: Net, net: Net, i: Issi, o: ServerId, v: ServerId, d: nat)
    requires o in h.servers && LocalOf(h.servers[o], i).Some?
  {
    && v in net.servers && i in net.servers[v].subs
    && var (e, home) := (net.servers[v].subs[i], LocalOf(h.servers[o], i).value);
    && |e.route.path| == d && OriginOf(v, e.route.path) == o && e.route.reg == home.route.reg && e.groups == home.groups
  }

  /** With every offer fresh and one of them a shortest way to the newest
      registration, selection takes a shortest way. */
  lemma PicksNear(h: Net, t: Table, i: Issi, o: ServerId, v: ServerId, l: ClientId, d: nat)
    requires Home(h, i, o) && v in h.servers && v != o && Distance(h, o, v, d)
    requires EntryOk(t, i) && t.selfId == v && LocalOf(t, i) == LocalOf(h.servers[v], i)
    requires forall k :: k in OffersOf(t.rib, i) ==>
      var a := OffersOf(t.rib, i)[k]; FreshRoute(h, i, v, a.reg, a.path, Elems(a.groups))
    requires FromOrigin(OffersOf(t.rib, i), l, o) && |OffersOf(t.rib, i)[l].path| == d
    ensures i in t.subs && t.subs[i].client in OffersOf(t.rib, i)
    ensures var c := t.subs[i].client;
      && Same(Get(t.subs, i), Some(FromAdvert(c, OffersOf(t.rib, i)[c])))
      && FromOrigin(OffersOf(t.rib, i), c, o) && |OffersOf(t.rib, i)[c].path| == d
      && IsClosest(t.links, OffersOf(t.rib, i), c, o)
  {
    hide Distance, Adjacent, FreshRoute, Home;
    var cands := OffersOf(t.rib, i);
    var reg := cands[l].reg;
    forall k | k in cands && cands[k].path != []
      ensures !Older(reg, o, cands[k].reg, Origin(cands[k]))
      ensures FromOrigin(cands, k, o) ==> d <= |cands[k].path|
    {
      FreshIsNot(h, i, o, v, cands[l]);
      FreshIsNot(h, i, o, v, cands[k]);
      if FromOrigin(cands, k, o) { NotNearer(h, i, o, v, cands[k], d); }
    }
    assert IsNewest(cands, l);
    FreshIsNot(h, i, o, v, cands[l]);
    LocalLoses(h, t, i, o, v, l);
    var c := Chosen(t, i);
    assert c.Remote?;
    var w :| IsNewest(cands, w) && IsClosest(t.links, cands, c.link, Origin(cands[w]));
    FreshIsNot(h, i, o, v, cands[w]);
    assert Origin(cands[w]) == o;
    assert !Closer(t.links, cands, l, c.link);
  }

  /** A fresh offer is no newer than the newest registration, and has its clock
      exactly if it leads there. */
  lemma FreshIsNot(h: Net, i: Issi, o: ServerId, v: ServerId, a: Advert)
    requires Home(h, i, o) && FreshRoute(h, i, v, a.reg, a.path, Elems(a.groups))
    ensures a.path != []
    ensures var home := LocalOf(h.servers[o], i).value;
      && !Older(home.route.reg, o, a.reg, Origin(a))
      && (Origin(a) == o ==> a.reg == home.route.reg && Elems(a.groups) == home.groups)
  {
  }

  lemma NotNearer(h: Net, i: Issi, o: ServerId, v: ServerId, a: Advert, d: nat)
    requires FreshRoute(h, i, v, a.reg, a.path, Elems(a.groups)) && Origin(a) == o && Distance(h, o, v, d)
    ensures d <= |a.path|
  {
    FreshWalk(h, i, v, a.reg, a.path, Elems(a.groups));
  }

  lemma LocalLoses(h: Net, t: Table, i: Issi, o: ServerId, v: ServerId, l: ClientId)
    requires Home(h, i, o) && v in h.servers && v != o && t.selfId == v && LocalOf(t, i) == LocalOf(h.servers[v], i)
    requires FromOrigin(OffersOf(t.rib, i), l, o)
    requires OffersOf(t.rib, i)[l].reg == LocalOf(h.servers[o], i).value.route.reg
    ensures !LocalWins(t.selfId, RegOf(LocalOf(t, i)), OffersOf(t.rib, i))
  {
  }

  /** `v`'s neighbour one hop nearer offers it a shortest way. */
  lemma OffersNear(h: Net, t: Table, i: Issi, o: ServerId, u: ServerId, lu: ClientId, v: ServerId, d: nat)
    requires EntryOk(t, i) && t.selfId == u && lu in t.links && t.links[lu] == v && i in t.subs
    requires Distance(h, o, v, d + 1) && d < MAX_PATH && |t.subs[i].route.path| == d
    requires OriginOf(u, t.subs[i].route.path) == o
    requires t.subs[i].route.path != [] ==>
      FreshRoute(h, i, u, t.subs[i].route.reg, t.subs[i].route.path, t.subs[i].groups)
    ensures var e := t.subs[i]; OfferNow(t, lu, i) == Some(Advert(e.route.reg, [u] + e.route.path, Sorted(e.groups)))
  {
    hide Desired, Sorted, Adjacent;
    EntryMeaning(t, i);
    var p := t.subs[i].route.path;
    forall k | 0 <= k < |p| ensures p[k] != v {
      assert Walk(h, o, p[k], |p| - 1 - k);
    }
  }

  lemma AtHome(h: Net, net: Net, o: ServerId, i: Issi)
    requires o in h.servers && o in net.servers && LocalOf(h.servers[o], i).Some?
    requires EntryOk(net.servers[o], i) && LocalOf(net.servers[o], i) == LocalOf(h.servers[o], i)
    ensures RoutesTo(h, net, i, o, o, 0)
  {
    EntryMeaning(net.servers[o], i);
  }

  lemma OffersAllFresh(nets: seq<Net>, es: seq<NetEvent>, m: seq<nat>, h: Net, i: Issi, j: nat, v: ServerId)
    requires Fair(nets, es, m, h, i, MAX_PATH) && m[MAX_PATH] <= j <= |es| && v in h.servers && v in nets[j].servers
    ensures forall l :: l in OffersOf(nets[j].servers[v].rib, i) ==>
      var a := OffersOf(nets[j].servers[v].rib, i)[l]; FreshRoute(h, i, v, a.reg, a.path, Elems(a.groups))
  {
    hide NetStep, NetOk, Joined, Phase, SteadyLocals, FreshRoute, Desired, Part;
    PartLocal(nets, es, h, i, v);
    LocalsAt(nets, es, j, v, i);
    forall l | l in OffersOf(nets[j].servers[v].rib, i)
      ensures var a := OffersOf(nets[j].servers[v].rib, i)[l]; FreshRoute(h, i, v, a.reg, a.path, Elems(a.groups))
    {
      FreshOffer(nets, es, m, h, i, MAX_PATH, j, v, l);
    }
  }

  /** A shortest way to the newest registration is on offer one phase after the
      nearer neighbour took one. */
  lemma {:induction false} NearOffer(nets: seq<Net>, es: seq<NetEvent>, m: seq<nat>, h: Net, i: Issi, o: ServerId,
                                     d: nat, j: nat, v: ServerId)
    returns (l: ClientId)
    requires Fair(nets, es, m, h, i, MAX_PATH + d + 1) && Home(h, i, o)
    requires v in h.servers && Distance(h, o, v, d + 1) && d < MAX_PATH && m[MAX_PATH + d + 1] <= j <= |es|
    ensures v in nets[j].servers
    ensures FromOrigin(OffersOf(nets[j].servers[v].rib, i), l, o)
    ensures |OffersOf(nets[j].servers[v].rib, i)[l].path| == d + 1
    decreases d + 1, 0
  {
    hide NetStep, NetOk, Joined, Phase, SteadyLocals, EntryOk, FreshRoute, Newest, JoinedEnd, Distance, OfferNow,
         Adjacent,
         Part, LocalOf;
    var u: ServerId;
    u, l := NearerNeighbour(h, o, v, d);
    PartLinks(nets, es, h, i, v, l);
    var (p, q) := (MAX_PATH + d, MAX_PATH + d + 1);
    assert m[p] <= m[q] && Phase(nets[m[p]], nets[m[q]]);
    var k := HeardSince(nets, es, m[p], m[q], j, v, l, i);
    FarEnd(nets, es, k, v, l);
    var lu := nets[0].wires[End(v, l)].link;
    RoutesNear(nets, es, m, h, i, o, d, k, u);
    LocalsAt(nets, es, k, u, i);
    MarksOrdered(nets, es, m, MAX_PATH, p);
    FreshEntry(nets, es, m, h, i, MAX_PATH, k, u);
    OffersNear(h, nets[k].servers[u], i, o, u, lu, v, d);
  }

  /** Once all is fresh, and `d` phases later, every server `d` hops away routes
      to the newest registration over `d` hops. */
  lemma {:induction false} RoutesNear(nets: seq<Net>, es: seq<NetEvent>, m: seq<nat>, h: Net, i: Issi, o: ServerId,
                                      d: nat, j: nat, v: ServerId)
    requires Fair(nets, es, m, h, i, MAX_PATH + d) && Home(h, i, o)
    requires v in h.servers && Distance(h, o, v, d) && d <= MAX_PATH && m[MAX_PATH + d] <= j <= |es|
    ensures RoutesTo(h, nets[j], i, o, v, d)
    decreases d, 1
  {
    hide NetStep, NetOk, Joined, Phase, SteadyLocals, EntryOk, FreshRoute, Newest, JoinedEnd, Distance, Part;
    PartLocal(nets, es, h, i, v);
    LocalsAt(nets, es, j, v, i);
    NotHome(h, o, v, d);
    if d == 0 {
      AtHome(h, nets[j], o, i);
    } else {
      var l := NearOffer(nets, es, m, h, i, o, d - 1, j, v);
      MarksOrdered(nets, es, m, MAX_PATH, MAX_PATH + d);
      OffersAllFresh(nets, es, m, h, i, j, v);
      PicksNear(h, nets[j].servers[v], i, o, v, l, d);
      var c := nets[j].servers[v].subs[i].client;
      FreshIsNot(h, i, o, v, OffersOf(nets[j].servers[v].rib, i)[c]);
    }
  }

  // ----- and keeps to it -----

  /** Phases after which every route is a shortest one, and after which none changes. */
  const SHORTEST: nat := 2 * MAX_PATH
  const STEADY: nat := 3 * MAX_PATH

  /** A shortest offer is the same from one phase after its sender's entry is. */
  lemma {:induction false} SteadyOffer(nets: seq<Net>, es: seq<NetEvent>, m: seq<nat>, h: Net, i: Issi, o: ServerId,
                                       d: nat, j: nat, j': nat,
                                       v: ServerId, l: ClientId)
    requires Fair(nets, es, m, h, i, SHORTEST + d + 1) && Home(h, i, o) && v in h.servers && d < MAX_PATH
    requires Distance(h, o, v, d + 1) && m[SHORTEST + d + 1] <= j <= |es| && m[SHORTEST + d + 1] <= j' <= |es|
    requires v in nets[j].servers && v in nets[j'].servers
    requires FromOrigin(OffersOf(nets[j].servers[v].rib, i), l, o)
    requires |OffersOf(nets[j].servers[v].rib, i)[l].path| == d + 1
    ensures l in OffersOf(nets[j'].servers[v].rib, i)
    ensures OffersOf(nets[j'].servers[v].rib, i)[l] == OffersOf(nets[j].servers[v].rib, i)[l]
    decreases d + 1, 0
  {
    hide NetStep, NetOk, Joined, Phase, SteadyLocals, EntryOk, FreshRoute, Newest, JoinedEnd, Distance, Adjacent, Part;
    PartLocal(nets, es, h, i, v);
    var (p, q) := (SHORTEST + d, SHORTEST + d + 1);
    assert m[p] <= m[q] && Phase(nets[m[p]], nets[m[q]]);
    OfferLinks(nets, es, j, v, l, i);
    var k := HeardSince(nets, es, m[p], m[q], j, v, l, i);
    var k' := HeardSince(nets, es, m[p], m[q], j', v, l, i);
    FarEnd(nets, es, k, v, l);
    FarEnd(nets, es, k', v, l);
    var (u, lu) := (nets[0].wires[End(v, l)].from, nets[0].wires[End(v, l)].link);
    MarksOrdered(nets, es, m, MAX_PATH, q);
    OffersAllFresh(nets, es, m, h, i, j, v);
    OneNearer(h, i, o, v, OffersOf(nets[j].servers[v].rib, i)[l], d);
    assert OffersOf(nets[j].servers[v].rib, i)[l].path[0] == u by { LocalsAt(nets, es, k, u, i); }
    PartLink(nets, es, h, i, v, l, k);
    SteadyEntry(nets, es, m, h, i, o, d, k, k', u);
    LocalsAt(nets, es, k, u, i);
    LocalsAt(nets, es, k', u, i);
    SameOffer(nets[k].servers[u], nets[k'].servers[u], lu, i);
  }

  lemma OfferLinks(nets: seq<Net>, es: seq<NetEvent>, j: nat, v: ServerId, l: ClientId, i: Issi)
    requires Deliveries(nets, es) && j <= |es| && v in nets[0].servers && v in nets[j].servers
    requires l in OffersOf(nets[j].servers[v].rib, i)
    ensures l in nets[0].servers[v].links
  {
    hide NetStep, NetOk, Desired;
    RunOk(nets, es, j);
    EntryOfNet(nets[j], v, i);
    SameLinks(nets[0].servers[v], nets[j].servers[v]);
  }

  /** The sender of a shortest fresh offer is one hop nearer. */
  lemma OneNearer(h: Net, i: Issi, o: ServerId, v: ServerId, a: Advert, d: nat)
    requires FreshRoute(h, i, v, a.reg, a.path, Elems(a.groups))
    requires Origin(a) == o && |a.path| == d + 1 && Distance(h, o, v, d + 1)
    ensures Distance(h, o, a.path[0], d)
  {
    assert Walk(h, o, a.path[0], |a.path| - 1 - 0);
    forall k: nat | k < d ensures !Walk(h, o, a.path[0], k) { OneMore(h, o, v, a.path[0], k); }
  }

  lemma SameOffer(t: Table, t': Table, l: ClientId, i: Issi)
    requires l in t.links && t'.links == t.links && t'.selfId == t.selfId && Same(Get(t.subs, i), Get(t'.subs, i))
    ensures OfferNow(t, l, i) == OfferNow(t', l, i)
  {
  }

  /** From then on every route is the same. */
  lemma {:induction false} SteadyEntry(nets: seq<Net>, es: seq<NetEvent>, m: seq<nat>, h: Net, i: Issi, o: ServerId,
                                       d: nat, j: nat, j': nat,
                                       v: ServerId)
    requires Fair(nets, es, m, h, i, SHORTEST + d) && Home(h, i, o) && v in h.servers && d <= MAX_PATH
    requires Distance(h, o, v, d) && m[SHORTEST + d] <= j <= |es| && m[SHORTEST + d] <= j' <= |es|
    ensures v in nets[j].servers && v in nets[j'].servers
    ensures Same(Get(nets[j].servers[v].subs, i), Get(nets[j'].servers[v].subs, i))
    decreases d, 1
  {
    hide NetStep, NetOk, Joined, Phase, SteadyLocals, EntryOk, FreshRoute, Newest, JoinedEnd, Distance, Adjacent,
         LocalOf, Part;
    PartLocal(nets, es, h, i, v);
    LocalsAt(nets, es, j, v, i);
    LocalsAt(nets, es, j', v, i);
    NotHome(h, o, v, d);
    if d == 0 {
      SameLocal(nets[j].servers[v], nets[j'].servers[v], i);
    } else {
      var (t, t') := (nets[j].servers[v], nets[j'].servers[v]);
      NearestAt(nets, es, m, h, i, o, d - 1, j, v);
      NearestAt(nets, es, m, h, i, o, d - 1, j', v);
      var (c, c') := (t.subs[i].client, t'.subs[i].client);
      SteadyOffer(nets, es, m, h, i, o, d - 1, j, j', v, c);
      SteadyOffer(nets, es, m, h, i, o, d - 1, j', j, v, c');
      SameNearest(t, t', i, o, c, c');
    }
  }

  lemma SameLocal(t: Table, t': Table, i: Issi)
    requires LocalOf(t, i) == LocalOf(t', i) && LocalOf(t, i).Some?
    ensures Get(t.subs, i) == Get(t'.subs, i)
  {
  }

  /** Two tables that both choose among the same shortest offers choose alike. */
  lemma SameNearest(t: Table, t': Table, i: Issi, o: ServerId, c: ClientId, c': ClientId)
    requires t'.links == t.links
    requires IsClosest(t.links, OffersOf(t.rib, i), c, o) && IsClosest(t'.links, OffersOf(t'.rib, i), c', o)
    requires c in OffersOf(t'.rib, i) && OffersOf(t'.rib, i)[c] == OffersOf(t.rib, i)[c]
    requires c' in OffersOf(t.rib, i) && OffersOf(t'.rib, i)[c'] == OffersOf(t.rib, i)[c']
    requires Same(Get(t.subs, i), Some(FromAdvert(c, OffersOf(t.rib, i)[c])))
    requires Same(Get(t'.subs, i), Some(FromAdvert(c', OffersOf(t'.rib, i)[c'])))
    ensures Same(Get(t.subs, i), Get(t'.subs, i))
  {
    assert !Closer(t.links, OffersOf(t.rib, i), c', c) && !Closer(t.links, OffersOf(t'.rib, i), c, c');
  }

  /** What `RoutesNear` found out about the choice of a server that is not home. */
  lemma NearestAt(nets: seq<Net>, es: seq<NetEvent>, m: seq<nat>, h: Net, i: Issi, o: ServerId, d: nat, j: nat,
                  v: ServerId)
    requires Fair(nets, es, m, h, i, SHORTEST + d + 1) && Home(h, i, o) && v in h.servers && d < MAX_PATH
    requires Distance(h, o, v, d + 1) && m[SHORTEST + d + 1] <= j <= |es|
    ensures v in nets[j].servers && i in nets[j].servers[v].subs
    ensures var (t, cands) := (nets[j].servers[v], OffersOf(nets[j].servers[v].rib, i));
      var c := t.subs[i].client;
      && FromOrigin(cands, c, o) && |cands[c].path| == d + 1 && IsClosest(t.links, cands, c, o)
      && Same(Get(t.subs, i), Some(FromAdvert(c, cands[c])))
  {
    hide NetStep, NetOk, Joined, Phase, SteadyLocals, EntryOk, FreshRoute, Newest, JoinedEnd, Distance, Adjacent, Part;
    PartLocal(nets, es, h, i, v);
    MarksOrdered(nets, es, m, MAX_PATH + d + 1, SHORTEST + d + 1);
    MarksOrdered(nets, es, m, MAX_PATH, SHORTEST + d + 1);
    LocalsAt(nets, es, j, v, i);
    NotHome(h, o, v, d + 1);
    var l := NearOffer(nets, es, m, h, i, o, d, j, v);
    OffersAllFresh(nets, es, m, h, i, j, v);
    PicksNear(h, nets[j].servers[v], i, o, v, l, d + 1);
  }
}
