/** The end of every fair run of deliveries: nothing left to deliver, and one
    home for every radio. */
module FairRuns {
  import opened FedTypes
  import opened RouteTable
  import opened Propagation
  import opened Federation
  import opened Agreement
  import opened Settling
  import opened Convergence
  import opened Layers

  // ----- nothing more is said -----

  /** Phases that suffice for all routes to settle: a constant if everybody is in
      reach of everybody, one such constant a server otherwise. */
  ghost predicate Enough(h: Net, p: nat) {
    (Compact(h) && STEADY <= p) || STEADY * |h.servers| <= p
  }

  /** The run settles nothing but routes, and enough phases pass. */
  ghost predicate Routine(nets: seq<Net>, es: seq<NetEvent>, m: seq<nat>, p: nat) {
    && Deliveries(nets, es) && Marks(nets, es, m) && SteadyLocals(nets[0], nets[|es|])
    && p < |m| && Enough(nets[0], p)
  }

  lemma WholePart(nets: seq<Net>, es: seq<NetEvent>, i: Issi)
    requires Deliveries(nets, es)
    ensures Part(nets, es, nets[0], i)
  {
    hide NetOk, Joined, NetStep, LocalOf, JoinedEnd;
    forall v | v in nets[0].servers ensures PartAt(nets, es, nets[0], i, v) {
      forall l | l in nets[0].servers[v].links ensures nets[0].servers[v].links[l] in nets[0].servers {
        FarEnd(nets, es, 0, v, l);
      }
    }
  }

  /** After that no route of any radio changes. */
  lemma AllSteady(nets: seq<Net>, es: seq<NetEvent>, m: seq<nat>, p: nat, i: Issi, j: nat, j': nat, v: ServerId)
    requires Routine(nets, es, m, p) && v in nets[0].servers && m[p] <= j <= |es| && m[p] <= j' <= |es|
    ensures v in nets[j].servers && v in nets[j'].servers
    ensures Same(Get(nets[j].servers[v].subs, i), Get(nets[j'].servers[v].subs, i))
  {
    hide NetStep, NetOk, Joined, Phase, SteadyLocals, Home, LocalOf, Part, Near, Holds;
    var h := nets[0];
    WholePart(nets, es, i);
    if STEADY * |h.servers| <= p {
      MarksOrdered(nets, es, m, STEADY * |h.servers|, p);
      PartSteady(nets, es, m, h, i, j, j', v);
    } else {
      MarksOrdered(nets, es, m, STEADY, p);
      MarksOrdered(nets, es, m, MAX_PATH, p);
      if w :| Holds(h, i, w) {
        var o := HomeExists(h, i);
        AtHomeIs(h, i, o);
        assert Near(h, o, v);
        NearSteady(nets, es, m, h, i, o, j, j', v);
      } else {
        NoRoute(nets, es, m, h, i, j, v);
        NoRoute(nets, es, m, h, i, j', v);
      }
    }
  }

  /** So no delivery causes another message. */
  lemma NoNews(nets: seq<Net>, es: seq<NetEvent>, m: seq<nat>, p: nat, j: nat, v: ServerId, l: ClientId)
    requires Routine(nets, es, m, p) && m[p] <= j < |es|
    requires v in nets[0].servers && l in nets[0].servers[v].links
    ensures v in nets[j].servers && v in nets[j + 1].servers
    ensures l in nets[j].servers[v].sent && l in nets[j + 1].servers[v].sent
    ensures nets[j + 1].servers[v].sent[l] == nets[j].servers[v].sent[l]
  {
    hide NetOk, Joined, Phase, SteadyLocals, Same, UpdatesTo, Enough, ServerLater;
    assert NetStep(nets[j], es[j], nets[j + 1]) && es[j].Deliver?;
    RunOk(nets, es, j);
    RunOk(nets, es, j + 1);
    SameLinks(nets[0].servers[v], nets[j].servers[v]);
    SentKnown(nets[j], v, l);
    if v == es[j].end.server {
      var e := Arrival(nets[j], es[j].end, es[j].now);
      ReceiverChange(nets[j], es[j].end, es[j].now);
      AllSteady(nets, es, m, p, e.issi, j, j + 1, v);
      NothingTold(nets[j].servers[v], nets[j + 1].servers[v], e.issi, l);
    }
  }

  lemma NothingTold(t: Table, t': Table, i: Issi, l: ClientId)
    requires ToldChange(t, t', i, l) && Same(Get(t.subs, i), Get(t'.subs, i))
    ensures l in t.sent && l in t'.sent && t'.sent[l] == t.sent[l]
  {
  }

  lemma {:induction false} Silence(nets: seq<Net>, es: seq<NetEvent>, m: seq<nat>, p: nat, j: nat, v: ServerId,
                                   l: ClientId)
    requires Routine(nets, es, m, p) && m[p] <= j <= |es|
    requires v in nets[0].servers && l in nets[0].servers[v].links
    ensures v in nets[m[p]].servers && l in nets[m[p]].servers[v].sent
    ensures v in nets[j].servers && l in nets[j].servers[v].sent
    ensures nets[j].servers[v].sent[l] == nets[m[p]].servers[v].sent[l]
    decreases j
  {
    hide NetOk, Joined, Phase, SteadyLocals, Enough, NetStep, Later;
    if j == m[p] {
      KnownAt(nets, es, j, v, l);
    } else {
      Silence(nets, es, m, p, j - 1, v, l);
      NoNews(nets, es, m, p, j - 1, v, l);
    }
  }

  lemma KnownAt(nets: seq<Net>, es: seq<NetEvent>, j: nat, v: ServerId, l: ClientId)
    requires Deliveries(nets, es) && j <= |es| && v in nets[0].servers && l in nets[0].servers[v].links
    ensures v in nets[j].servers && l in nets[j].servers[v].sent
  {
    hide NetOk, Joined, NetStep, ServerLater;
    RunOk(nets, es, j);
    SameLinks(nets[0].servers[v], nets[j].servers[v]);
    SentKnown(nets[j], v, l);
  }

  /** One phase later all of it is delivered. */
  lemma QuietAfter(nets: seq<Net>, es: seq<NetEvent>, m: seq<nat>, p: nat)
    requires Routine(nets, es, m, p) && p + 1 < |m|
    ensures Quiet(nets[m[p + 1]])
  {
    hide NetOk, Joined, Phase, SteadyLocals, Enough, NetStep, Replay, OfferNow;
    var q := p + 1;
    assert m[p] <= m[q] && Phase(nets[m[p]], nets[m[q]]);
    var net := nets[m[q]];
    RunOk(nets, es, m[q]);
    JoinedStays(nets[0], net);
    forall s, l | s in net.servers && l in net.servers[s].links ensures QuietEnd(net, s, l) {
      SameLinks(nets[0].servers[s], net.servers[s]);
      AllJoined(net, s, l);
      EndAt(nets, es, m[p], s, l, 0);
      EndAt(nets, es, m[q], s, l, 0);
      var w := net.wires[End(s, l)];
      FarEnd(nets, es, 0, s, l);
      Silence(nets, es, m, p, m[q], w.from, w.link);
      PhaseDelivers(nets[m[p]], net, s, l);
    }
  }

  lemma PhaseDelivers(a: Net, b: Net, s: ServerId, l: ClientId)
    requires Phase(a, b) && s in a.servers && l in a.servers[s].links && End(s, l) in a.wires
    ensures var w := a.wires[End(s, l)];
      w.from in a.servers && w.link in a.servers[w.from].sent && End(s, l) in b.wires
      && |a.servers[w.from].sent[w.link]| <= b.wires[End(s, l)].taken
  {
  }

  /** In a quiet network there is nothing to deliver. */
  lemma QuietEnds(net: Net, end: End, now: u64)
    requires Quiet(net)
    ensures !NetEnabled(net, Deliver(end, now))
  {
    if end.server in net.servers && end.link in net.servers[end.server].links {
      assert QuietEnd(net, end.server, end.link);
    }
  }

  // ----- registrations only get fewer -----

  ghost function Registrations(net: Net): set<(ServerId, Issi)> {
    set v, i | v in net.servers && i in net.servers[v].subs && LocalOf(net.servers[v], i).Some? :: (v, i)
  }

  lemma RegistrationsFewer(a: Net, b: Net)
    requires Later(a, b)
    ensures Registrations(b) <= Registrations(a)
    ensures Registrations(b) == Registrations(a) ==> SteadyLocals(a, b)
  {
    forall v, i | (v, i) in Registrations(b) ensures (v, i) in Registrations(a) {
      LocalLater(a.servers[v], b.servers[v], i);
    }
    if Registrations(b) == Registrations(a) {
      forall v, i: Issi | v in a.servers && v in b.servers
        ensures LocalOf(b.servers[v], i) == LocalOf(a.servers[v], i)
      {
        LocalLater(a.servers[v], b.servers[v], i);
        assert (v, i) in Registrations(a) <==> LocalOf(a.servers[v], i).Some?;
        assert (v, i) in Registrations(b) <==> LocalOf(b.servers[v], i).Some?;
      }
    }
  }

  lemma CompactStays(a: Net, b: Net)
    requires Compact(a) && Later(a, b)
    ensures Compact(b)
  {
    hide Later, Walk;
    SameServers(a, b);
    forall o, v | o in b.servers && v in b.servers ensures Near(b, o, v) {
      assert Near(a, o, v);
      var d: nat :| d <= MAX_PATH && Walk(a, o, v, d);
      WalkStays(a, b, o, v, d);
    }
  }

  lemma {:induction false} WalkStays(a: Net, b: Net, o: ServerId, v: ServerId, d: nat)
    requires Later(a, b) && Walk(a, o, v, d)
    ensures Walk(b, o, v, d)
    decreases d
  {
    hide Later, Adjacent;
    if d > 0 {
      var u :| Adjacent(a, v, u) && Walk(a, o, u, d - 1);
      AdjacentStays(a, b, v, u);
      WalkStays(a, b, o, u, d - 1);
    }
  }

  lemma AdjacentStays(a: Net, b: Net, v: ServerId, u: ServerId)
    requires Later(a, b) && Adjacent(a, v, u)
    ensures Adjacent(b, v, u)
  {
    hide ServerLater;
    SameLinks(a.servers[v], b.servers[v]);
  }

  lemma EnoughStays(a: Net, b: Net, p: nat)
    requires Enough(a, p) && Later(a, b)
    ensures Enough(b, p)
  {
    hide Later, Compact;
    if Compact(a) { CompactStays(a, b); }
    SameServers(a, b);
    assert |a.servers| == |a.servers.Keys| && |b.servers| == |b.servers.Keys|;
  }

  /** If no registration was superseded in a window, it ends quiet. */
  lemma QuietWindow(nets: seq<Net>, es: seq<NetEvent>, m: seq<nat>, p: nat)
    requires Deliveries(nets, es) && Marks(nets, es, m) && Enough(nets[0], p) && p + 1 < |m| && m[0] == 0
    requires Registrations(nets[m[p + 1]]) == Registrations(nets[0])
    ensures Quiet(nets[m[p + 1]])
  {
    hide NetOk, Joined, Phase, NetStep, Later, Registrations, SteadyLocals, Enough, Quiet;
    MarksOrdered(nets, es, m, 0, p + 1);
    var nets', es', m' := SubRun(nets, es, m, 0, p + 1, m[p + 1]);
    assert nets'[0] == nets[0] && nets'[|es'|] == nets[m[p + 1]];
    RunLater(nets, es, 0, m[p + 1]);
    RegistrationsFewer(nets[0], nets[m[p + 1]]);
    QuietAfter(nets', es', m', p);
  }

  /** A run of deliveries goes no further than a quiet network. */
  lemma StopsWhenQuiet(nets: seq<Net>, es: seq<NetEvent>, k: nat)
    requires Deliveries(nets, es) && k <= |es| && Quiet(nets[k])
    ensures k == |es|
  {
    hide NetOk, Joined, NetNext, Quiet;
    if k < |es| {
      assert NetStep(nets[k], es[k], nets[k + 1]) && es[k].Deliver?;
      QuietEnds(nets[k], es[k].end, es[k].now);
    }
  }

  /** A window for each registration that may be superseded, and one more. */
  lemma {:induction false} WindowsEnd(nets: seq<Net>, es: seq<NetEvent>, m: seq<nat>, p: nat)
    requires Deliveries(nets, es) && Marks(nets, es, m) && Enough(nets[0], p)
    requires |m| > (p + 1) * (|Registrations(nets[0])| + 1) && m[0] == 0
    ensures Quiet(nets[|es|]) && m[(p + 1) * (|Registrations(nets[0])| + 1)] == |es|
    decreases |Registrations(nets[0])|
  {
    hide NetOk, Joined, Phase, NetStep, Later, Registrations, SteadyLocals, Enough, Quiet;
    var (r, w) := (|Registrations(nets[0])|, p + 1);
    var last := w * (r + 1);
    Windows(w, 0, r + 1);
    MarksOrdered(nets, es, m, w, last);
    if Registrations(nets[m[w]]) == Registrations(nets[0]) {
      QuietWindow(nets, es, m, p);
      StopsWhenQuiet(nets, es, m[w]);
    } else {
      var nets', es', m' := SubRun(nets, es, m, w, |m| - 1, |es|);
      assert nets'[0] == nets[m[w]] && nets'[|es'|] == nets[|es|];
      RunLater(nets, es, 0, m[w]);
      RegistrationsFewer(nets[0], nets'[0]);
      SmallerSet(Registrations(nets'[0]), Registrations(nets[0]));
      EnoughStays(nets[0], nets'[0], p);
      var r' := |Registrations(nets'[0])|;
      Windows(w, r' + 1, r + 1);
      WindowsEnd(nets', es', m', p);
      MarksOrdered(nets, es, m, w + w * (r' + 1), last);
    }
  }

  lemma {:induction false} Windows(w: nat, x: nat, y: nat)
    requires x < y
    ensures w * x + w <= w * y
  {
    if w > 0 { Windows(w - 1, x, y); }
  }

  /** Phases to quiet as long as no registration is superseded. */
  ghost function Window(h: Net): nat {
    (if Compact(h) then STEADY else STEADY * |h.servers|) + 1
  }

  /** However the links deliver, as long as each delivers in every phase what was
      queued when it began: after a number of phases fixed by the servers and
      registrations there are, the run is over and the network is quiet. */
  lemma FairDeliveriesEnd(nets: seq<Net>, es: seq<NetEvent>, m: seq<nat>)
    requires Deliveries(nets, es) && Marks(nets, es, m)
    requires |m| > Window(nets[0]) * (|Registrations(nets[0])| + 1) && m[0] == 0
    ensures Quiet(nets[|es|]) && m[Window(nets[0]) * (|Registrations(nets[0])| + 1)] == |es|
  {
    hide NetOk, Joined, Phase, NetStep, Registrations, Compact, Quiet;
    WindowsEnd(nets, es, m, Window(nets[0]) - 1);
  }

  // ----- what it ends in -----

  /** `o` alone holds `i`, and every server routes to it by a shortest way. */
  ghost predicate OneHome(net: Net, i: Issi, o: ServerId) {
    && Holds(net, i, o) && (forall v :: Holds(net, i, v) ==> v == o)
    && forall v :: v in net.servers ==>
         && EntryAt(net, v, i).Some?
         && var (e, home) := (net.servers[v].subs[i], net.servers[o].subs[i]);
         && OriginOf(v, e.route.path) == o && Distance(net, o, v, |e.route.path|)
         && e.route.reg == home.route.reg && e.groups == home.groups
  }

  /** A quiet network all of whose servers are within reach of each other has
      one home for every radio, or none and no route to it anywhere. */
  lemma OneRegistration(net: Net, i: Issi)
    requires NetOk(net) && Quiet(net) && Compact(net)
    ensures (exists o :: OneHome(net, i, o)) || forall v :: EntryAt(net, v, i).None?
    ensures (exists o :: OneHome(net, i, o)) <==> exists v :: Holds(net, i, v)
  {
    hide NetOk, Quiet, LocalOf, Walk, Distance;
    if v :| Holds(net, i, v) {
      var o := HomeExists(net, i);
      assert Newest(net, i, net.servers[o].subs[i].route.reg, o) by { HomeNewest(net, i, o); }
      forall u | u in net.servers
        ensures EntryAt(net, u, i).Some?
        ensures var (e, home) := (net.servers[u].subs[i], net.servers[o].subs[i]);
          && OriginOf(u, e.route.path) == o && Distance(net, o, u, |e.route.path|)
          && e.route.reg == home.route.reg && e.groups == home.groups
        ensures u != o ==> LocalOf(net.servers[u], i).None?
      {
        assert Near(net, o, u);
        var k: nat :| k <= MAX_PATH && Walk(net, o, u, k);
        var d := Nearest(net, o, u, k);
        NotHome(net, o, u, d);
        QuietAgreement(net, i, o, u, d);
      }
      assert OneHome(net, i, o);
    } else {
      NobodyRoutes(net, i);
    }
  }

  lemma HomeNewest(net: Net, i: Issi, o: ServerId)
    requires Home(net, i, o)
    ensures Holds(net, i, o) && i in net.servers[o].subs && Newest(net, i, net.servers[o].subs[i].route.reg, o)
  {
  }

  lemma NobodyRoutes(net: Net, i: Issi)
    requires NetOk(net) && Quiet(net) && !exists v :: Holds(net, i, v)
    ensures forall v :: EntryAt(net, v, i).None?
  {
    hide NetOk, Quiet, LocalOf;
    NoRegistrationNoRoute(net, i);
    assert forall o :: o in net.servers && LocalOf(net.servers[o], i).Some? ==> Holds(net, i, o);
  }

  /** The claim for whole runs: after any history, once links and registrations
      rest and the links keep delivering, the federation comes to agree. */
  lemma FairRunsAgree(ids: set<ServerId>, before: seq<Net>, events: seq<NetEvent>, nets: seq<Net>, es: seq<NetEvent>,
                      m: seq<nat>, i: Issi)
    requires NetRun(ids, before, events) && |nets| == |es| + 1 && nets[0] == before[|events|]
    requires Joined(nets[0]) && Compact(nets[0])
    requires forall k :: 0 <= k < |es| ==> es[k].Deliver? && NetStep(nets[k], es[k], nets[k + 1])
    requires Marks(nets, es, m) && |m| > Window(nets[0]) * (|Registrations(nets[0])| + 1) && m[0] == 0
    ensures m[Window(nets[0]) * (|Registrations(nets[0])| + 1)] == |es|
    ensures (exists o :: OneHome(nets[|es|], i, o)) || forall v :: EntryAt(nets[|es|], v, i).None?
  {
    hide NetOk, Joined, Phase, NetStep, Registrations, Compact, Quiet, OneHome;
    NetAlwaysOk(ids, before, events, |events|);
    FairDeliveriesEnd(nets, es, m);
    RunOk(nets, es, |es|);
    CompactStays(nets[0], nets[|es|]);
    OneRegistration(nets[|es|], i);
  }

  /** Reach or no reach: such a history ends in agreement around every newest
      registration, as far as routes can go. */
  lemma FairRunsAgreeInReach(ids: set<ServerId>, before: seq<Net>, events: seq<NetEvent>, nets: seq<Net>,
                             es: seq<NetEvent>,
                             m: seq<nat>, i: Issi, o: ServerId, v: ServerId, d: nat)
    requires NetRun(ids, before, events) && |nets| == |es| + 1 && nets[0] == before[|events|] && Joined(nets[0])
    requires forall k :: 0 <= k < |es| ==> es[k].Deliver? && NetStep(nets[k], es[k], nets[k + 1])
    requires Marks(nets, es, m) && |m| > Window(nets[0]) * (|Registrations(nets[0])| + 1) && m[0] == 0
    requires Home(nets[|es|], i, o) && v in nets[|es|].servers && Distance(nets[|es|], o, v, d) && d <= MAX_PATH
    ensures RoutesTo(nets[|es|], nets[|es|], i, o, v, d) && (v != o ==> !Holds(nets[|es|], i, v))
  {
    hide NetOk, Joined, Phase, NetStep, Registrations, Window, Quiet, Distance, LocalOf;
    NetAlwaysOk(ids, before, events, |events|);
    FairDeliveriesEnd(nets, es, m);
    RunOk(nets, es, |es|);
    HomeNewest(nets[|es|], i, o);
    NotHome(nets[|es|], o, v, d);
    QuietAgreement(nets[|es|], i, o, v, d);
    LocalIs(nets[|es|], i, o);
  }

  lemma LocalIs(net: Net, i: Issi, o: ServerId)
    requires Holds(net, i, o)
    ensures i in net.servers[o].subs && LocalOf(net.servers[o], i) == Some(net.servers[o].subs[i])
  {
  }
}
