/** Whole runs of the position flood: they end after a known number of
    deliveries, in any order, with everybody holding the newest fix. */
module FloodRuns {
  import opened FedTypes
  import opened MsFlood

  /** Nothing held or on its way; links may already have announced support. */
  ghost predicate Fresh(net: Net) {
    Wired(net) && net.flight == multiset{} && net.made == {} && forall v ::
        v in net.servers ==> net.servers[v].pos == map[]
  }

  ghost predicate Legal(net: Net, es: seq<Event>)
    decreases es
  {
    es != [] ==> Enabled(net, es[0]) && Legal(Next(net, es[0]), es[1..])
  }

  ghost function After(net: Net, es: seq<Event>): Net
    requires Legal(net, es)
    decreases es
  {
    if es == [] then net else After(Next(net, es[0]), es[1..])
  }

  lemma FreshOk(net: Net)
    requires Fresh(net)
    ensures FloodOk(net)
  {
  }

  lemma {:induction false} AlwaysFloodOk(net: Net, es: seq<Event>)
    requires FloodOk(net) && Legal(net, es)
    ensures FloodOk(After(net, es)) && Grows(net, After(net, es))
    decreases es
  {
    hide Next, FloodOk;
    if es != [] {
      NextFloodOk(net, es[0]);
      NextGrowsOnly(net, es[0]);
      AlwaysFloodOk(Next(net, es[0]), es[1..]);
      GrowsOn(net, Next(net, es[0]), After(net, es));
    }
  }

  lemma GrowsOn(a: Net, b: Net, c: Net)
    requires Grows(a, b) && Grows(b, c)
    ensures Grows(a, c)
  {
  }

  // ----- each server relays a fix at most once -----

  /** The fix a step makes server `v` store and pass on, if any. */
  ghost predicate Relays(net: Net, e: Event, v: ServerId, i: Issi, at: u64)
    requires Enabled(net, e)
  {
    || (e.Local? && e.at == v && e.issi == i && e.time == at && Advertises(net.servers[v], i, e.fix, at))
    || (e.Deliver? && e.f.to.server == v && e.f.msg.issi == i && e.f.msg.at == at && Accepts(net.servers[v], e.f.msg))
  }

  /** A step that sends anything besides a sync relays a fix newer than the one held. */
  lemma OnlyNewer(net: Net, e: Event, v: ServerId, i: Issi, at: u64)
    requires Wired(net) && Enabled(net, e) && Relays(net, e, v, i, at)
    ensures AtServer(net, v, i) < at == AtServer(Next(net, e), v, i)
  {
    hide Copies, SyncCopies, RelayLinks;
    Ids(net, v);
  }

  /** Number of steps of a run in which `v` relays the fix of `i` made at `at`. */
  ghost function RelayCount(net: Net, es: seq<Event>, v: ServerId, i: Issi, at: u64): nat
    requires Legal(net, es)
    decreases es
  {
    if es == [] then 0
    else (if Relays(net, es[0], v, i, at) then 1 else 0) + RelayCount(Next(net, es[0]), es[1..], v, i, at)
  }

  /** Over any run a server relays a given fix at most once, and never one as
      old as what it held at the start. */
  lemma {:induction false} RelaysOnce(net: Net, es: seq<Event>, v: ServerId, i: Issi, at: u64)
    requires Wired(net) && Legal(net, es)
    ensures RelayCount(net, es, v, i, at) <= 1
    ensures AtServer(net, v, i) >= at ==> RelayCount(net, es, v, i, at) == 0
    decreases es
  {
    hide Next, Wired, AtServer, Relays;
    if es != [] {
      var net' := Next(net, es[0]);
      NextGrows(net, es[0]);
      RelaysOnce(net', es[1..], v, i, at);
      if Relays(net, es[0], v, i, at) {
        OnlyNewer(net, es[0], v, i, at);
      } else {
        Steady(net, net', v, i);
      }
    }
  }

  lemma Steady(net: Net, net': Net, v: ServerId, i: Issi)
    requires Grows(net, net')
    ensures AtServer(net, v, i) <= AtServer(net', v, i)
  {
  }

  // ----- every delivery order ends -----

  /** A fix a server has still to hear of, or of a newer one. */
  ghost predicate Lacks(net: Net, v: ServerId, m: Made) {
    v in net.servers && m in net.made && AtServer(net, v, m.issi) < m.at
  }

  ghost function Lacking(net: Net): set<(ServerId, Made)> {
    set v, m | v in net.servers.Keys && m in net.made && Lacks(net, v, m) :: (v, m)
  }

  /** Messages in flight, and all those that may still be caused by them. */
  ghost function Potential(net: Net): nat {
    |net.flight| + |net.far| * |Lacking(net)|
  }

  lemma {:induction false} SetSize<T>(s: set<T>)
    ensures |multiset(s)| == |s|
  {
    if s != {} {
      var x :| x in s;
      SetSize(s - {x});
      assert multiset(s) == multiset(s - {x}) + multiset{x};
    }
  }

  /** A server sends at most one copy over each of its links. */
  lemma {:induction false} FewCopies(far: map<End, End>, v: ServerId, links: set<ClientId>, a: MsAdvert)
    ensures |Copies(far, v, links, a)| <= |far|
  {
    if l :| l in links && End(v, l) in far {
      var far' := far - {End(v, l)};
      FewCopies(far', v, links - {l}, a);
      var f := Flight(far[End(v, l)], a);
      assert Copies(far, v, links, a) <= Copies(far', v, links - {l}, a) + {f};
      SubsetSize(Copies(far, v, links, a), Copies(far', v, links - {l}, a) + {f});
      assert |far'.Keys| == |far.Keys - {End(v, l)}|;
      assert |far| == |far.Keys| && |far'| == |far'.Keys|;
    }
  }

  lemma {:induction false} SubsetSize<T>(a: set<T>, b: set<T>)
    requires a <= b
    ensures |a| <= |b|
  {
    if a != {} {
      var x :| x in a;
      SubsetSize(a - {x}, b - {x});
    }
  }

  /** An accepted fix is one its receiver lacked; nobody starts to lack another. */
  lemma AcceptedLacksLess(net: Net, f: Flight)
    requires FloodOk(net) && Enabled(net, Deliver(f)) && Accepts(net.servers[f.to.server], f.msg)
    ensures |Lacking(Next(net, Deliver(f)))| < |Lacking(net)|
  {
    hide EntryOk, Passed, PathKnown, RelayLinks, Copies, Wired, EndOk, AtServer, Next;
    var net' := Next(net, Deliver(f));
    assert FlightOk(net, f);
    var m := Made(f.msg.issi, f.msg.at, f.msg.fix);
    Ids(net, f.to.server);
    NextGrowsOnly(net, Deliver(f));
    DeliverMakesNothing(net, f);
    OnlyNewer(net, Deliver(f), f.to.server, m.issi, m.at);
    assert (f.to.server, m) in Lacking(net) && (f.to.server, m) !in Lacking(net');
    LacksOnly(net, net');
    SubsetSize(Lacking(net'), Lacking(net) - {(f.to.server, m)});
  }

  lemma DeliverMakesNothing(net: Net, f: Flight)
    requires Enabled(net, Deliver(f))
    ensures Next(net, Deliver(f)).made == net.made
  {
  }

  lemma LacksOnly(net: Net, net': Net)
    requires Grows(net, net') && net'.made == net.made
    ensures Lacking(net') <= Lacking(net)
  {
    hide AtServer;
  }

  /** However the network delivers, each delivery uses up the potential. */
  lemma DeliveryCosts(net: Net, f: Flight)
    requires FloodOk(net) && Enabled(net, Deliver(f))
    ensures Potential(Next(net, Deliver(f))) < Potential(net)
  {
    hide FloodOk, Lacking, RelayLinks, Copies, Accepts;
    var net' := Next(net, Deliver(f));
    var s := net.servers[f.to.server];
    if Accepts(s, f.msg) {
      AcceptedLacksLess(net, f);
      var copies := Copies(net.far, f.to.server, RelayLinks(s, Some(f.to.link), f.msg.path), WithSelf(s, f.msg));
      FewCopies(net.far, f.to.server, RelayLinks(s, Some(f.to.link), f.msg.path), WithSelf(s, f.msg));
      SetSize(copies);
      assert |net'.flight| == |net.flight| - 1 + |copies|;
      Shrinks(|net.far|, |Lacking(net')|, |Lacking(net)|);
    } else {
      NoStep(net, net');
    }
  }

  lemma NoStep(net: Net, net': Net)
    requires net'.servers == net.servers && net'.made == net.made
    ensures Lacking(net') == Lacking(net)
  {
  }

  lemma Shrinks(d: nat, few: nat, many: nat)
    requires few < many
    ensures d * few + d <= d * many
  {
    assert d * (few + 1) <= d * many;
  }

  ghost predicate AllDeliveries(es: seq<Event>) {
    forall e :: e in es ==> e.Deliver?
  }

  /** Once nothing new is decoded or announced, the flood ends: no order of
      deliveries is longer than the potential, whatever is delivered first. */
  lemma {:induction false} FloodEnds(net: Net, es: seq<Event>)
    requires FloodOk(net) && Legal(net, es) && AllDeliveries(es)
    ensures |es| + Potential(After(net, es)) <= Potential(net)
    decreases es
  {
    hide FloodOk, Potential, Next;
    if es != [] {
      assert es[0] in es && forall e :: e in es[1..] ==> e in es;
      NextFloodOk(net, es[0]);
      DeliveryCosts(net, es[0].f);
      FloodEnds(Next(net, es[0]), es[1..]);
    }
  }

  /** As long as anything is in flight it can be delivered. */
  lemma CanDeliver(net: Net, f: Flight)
    requires FloodOk(net) && f in net.flight
    ensures Enabled(net, Deliver(f))
  {
    assert FlightOk(net, f);
  }

  // ----- who is left with what -----

  /** Next to each other over a link whose server announced support. */
  ghost predicate Feeds(net: Net, v: ServerId, w: ServerId) {
    v in net.servers && exists l ::
        l in net.servers[v].msLinks && l in net.servers[v].links && net.servers[v].links[l] == w
  }

  ghost predicate Chain(net: Net, walk: seq<ServerId>, v: ServerId, w: ServerId) {
    && walk != [] && walk[0] == v && walk[|walk| - 1] == w
    && forall k :: 0 <= k < |walk| - 1 ==> Feeds(net, walk[k], walk[k + 1])
  }

  ghost predicate Connected(net: Net) {
    forall v, w :: v in net.servers && w in net.servers ==> exists walk :: Chain(net, walk, v, w)
  }

  lemma DrainedNeighbour(net: Net, v: ServerId, w: ServerId, i: Issi)
    requires FloodOk(net) && net.flight == multiset{} && Feeds(net, v, w)
    ensures AtServer(net, w, i) >= AtServer(net, v, i)
  {
    hide EntryOk, FlightOk, Wired, AtServer;
    var l :| l in net.servers[v].msLinks && l in net.servers[v].links && net.servers[v].links[l] == w;
    assert Passed(net, v, l, i);
  }

  lemma {:induction false} DrainedChain(net: Net, walk: seq<ServerId>, v: ServerId, w: ServerId, i: Issi)
    requires FloodOk(net) && net.flight == multiset{} && Chain(net, walk, v, w)
    ensures AtServer(net, w, i) >= AtServer(net, v, i)
    decreases |walk|
  {
    hide FloodOk, Feeds, AtServer;
    if |walk| > 1 {
      assert Feeds(net, walk[0], walk[0 + 1]);
      DrainedNeighbour(net, v, walk[1], i);
      DrainedChain(net, walk[1..], walk[1], w, i);
    }
  }

  /** `e` is the newest fix of `i` any server ever decoded. */
  ghost predicate Newest(net: Net, i: Issi, e: Entry) {
    Made(i, e.at, e.fix) in net.made && forall m :: m in net.made && m.issi == i ==> m.at <= e.at
  }

  /** A drained connected network is left with the newest fix everywhere. */
  lemma DrainedAgree(net: Net, w: ServerId, i: Issi)
    requires FloodOk(net) && net.flight == multiset{} && Connected(net) && w in net.servers
    ensures i in net.servers[w].pos <==> exists m :: m in net.made && m.issi == i
    ensures i in net.servers[w].pos ==> Newest(net, i, net.servers[w].pos[i])
  {
    hide Passed, Wired, FlightOk, PathKnown;
    assert EntryOk(net, w, i);
    forall m | m in net.made && m.issi == i ensures AtServer(net, w, i) >= m.at {
      var v :| v in net.servers && AtServer(net, v, m.issi) >= m.at;
      var walk :| Chain(net, walk, v, w);
      DrainedChain(net, walk, v, w, i);
    }
    if i in net.servers[w].pos {
      var m := Made(i, net.servers[w].pos[i].at, net.servers[w].pos[i].fix);
      assert m in net.made && m.issi == i;
    }
  }

  /** One moment of decoding yields one fix. */
  ghost predicate OneFixPerMoment(net: Net) {
    forall m, n :: m in net.made && n in net.made && m.issi == n.issi && m.at == n.at ==> m.fix == n.fix
  }

  /** Every run of a connected network that is drained leaves all servers with
      the same, newest position of every mobile station; and any run can only
      be prolonged by a bounded number of deliveries. */
  lemma FloodConverges(net: Net, es: seq<Event>, v: ServerId, w: ServerId, i: Issi)
    requires Fresh(net) && Legal(net, es)
    requires var end := After(net, es);
      end.flight == multiset{} && Connected(end) && OneFixPerMoment(end) && v in end.servers && w in end.servers
    ensures var end := After(net, es);
      && (i in end.servers[v].pos <==> i in end.servers[w].pos)
      && (i in end.servers[v].pos ==>
            && Newest(end, i, end.servers[v].pos[i])
            && end.servers[v].pos[i].(path := []) == end.servers[w].pos[i].(path := []))
  {
    hide FloodOk, Next;
    var end := After(net, es);
    FreshOk(net);
    AlwaysFloodOk(net, es);
    DrainedAgree(end, v, i);
    DrainedAgree(end, w, i);
  }
}
