/** Layer by layer: whoever is within reach of the newest registration settles
    for it, and tells nobody beyond; then those beyond settle among themselves. */
module Layers {
  import opened FedTypes
  import opened RouteSelection
  import opened RouteTable
  import opened TableInvariant
  import opened Propagation
  import opened Federation
  import opened Agreement
  import opened Settling
  import opened Convergence

  /** Every server is within reach of every other. */
  ghost predicate Compact(h: Net) {
    forall o, v :: o in h.servers && v in h.servers ==> Near(h, o, v)
  }

  ghost predicate Near(h: Net, o: ServerId, v: ServerId) {
    exists d: nat :: d <= MAX_PATH && Walk(h, o, v, d)
  }

  ghost predicate Holds(h: Net, i: Issi, v: ServerId) {
    v in h.servers && LocalOf(h.servers[v], i).Some?
  }

  /** Somebody holds the newest registration. */
  lemma {:induction false} HomeAmong(h: Net, i: Issi, some: set<ServerId>) returns (o: ServerId)
    requires exists v :: v in some && Holds(h, i, v)
    ensures o in some && Holds(h, i, o)
    ensures forall w :: w in some && Holds(h, i, w) ==>
      !Older(LocalOf(h.servers[o], i).value.route.reg, o, LocalOf(h.servers[w], i).value.route.reg, w)
  {
    hide LocalOf;
    var v :| v in some && Holds(h, i, v);
    var rest := some - {v};
    if w :| w in rest && Holds(h, i, w) {
      o := HomeAmong(h, i, rest);
      if Older(LocalOf(h.servers[o], i).value.route.reg, o, LocalOf(h.servers[v], i).value.route.reg, v) {
        o := v;
      }
    } else {
      o := v;
    }
  }

  lemma HomeExists(h: Net, i: Issi) returns (o: ServerId)
    requires exists v :: Holds(h, i, v)
    ensures Home(h, i, o)
  {
    o := HomeAmong(h, i, h.servers.Keys);
    forall w | w in h.servers && LocalOf(h.servers[w], i).Some?
      ensures !Older(LocalOf(h.servers[o], i).value.route.reg, o, h.servers[w].subs[i].route.reg, w)
    {
      assert Holds(h, i, w);
    }
  }

  lemma {:induction false} Nearest(h: Net, o: ServerId, v: ServerId, k: nat) returns (d: nat)
    requires Walk(h, o, v, k)
    ensures d <= k && Distance(h, o, v, d)
    decreases k
  {
    if j: nat :| j < k && Walk(h, o, v, j) {
      d := Nearest(h, o, v, j);
    } else {
      d := k;
    }
  }

  /** Without a registration there is no route once all is fresh. */
  lemma NoRoute(nets: seq<Net>, es: seq<NetEvent>, m: seq<nat>, h: Net, i: Issi, j: nat, v: ServerId)
    requires Fair(nets, es, m, h, i, MAX_PATH) && m[MAX_PATH] <= j <= |es| && v in h.servers
    requires !exists w :: Holds(h, i, w)
    ensures v in nets[0].servers && v in nets[j].servers && i !in nets[j].servers[v].subs
  {
    hide NetStep, NetOk, Joined, Phase, SteadyLocals, EntryOk, Part;
    PartLocal(nets, es, h, i, v);
    LocalsAt(nets, es, j, v, i);
    if i in nets[j].servers[v].subs {
      EntryMeaning(nets[j].servers[v], i);
      FreshEntry(nets, es, m, h, i, MAX_PATH, j, v);
      SomebodyHolds(h, i, v, nets[j].servers[v].subs[i]);
    }
  }

  lemma SomebodyHolds(h: Net, i: Issi, v: ServerId, e: Subscriber)
    requires v in h.servers
    requires if e.route.path == [] then LocalOf(h.servers[v], i) == Some(e)
             else FreshRoute(h, i, v, e.route.reg, e.route.path, e.groups)
    ensures exists w :: Holds(h, i, w)
  {
    assert Holds(h, i, if e.route.path == [] then v else e.route.path[|e.route.path| - 1]);
  }

  lemma AtHomeIs(h: Net, i: Issi, o: ServerId)
    requires Home(h, i, o)
    ensures o in h.servers
  {
  }

  // ----- beyond reach -----

  /** A table with its own registrations and its links to `some` only. */
  function Narrowed(t: Table, some: set<ServerId>): Table {
    t.(links := map l | l in t.links && t.links[l] in some :: t.links[l],
       subs := map i | i in t.subs && t.subs[i].client !in t.links :: t.subs[i])
  }

  ghost function BeyondIds(h: Net, o: ServerId): set<ServerId> {
    set v | v in h.servers && !Near(h, o, v)
  }

  /** The servers of `h` that are out of reach of `o`. */
  ghost function Beyond(h: Net, o: ServerId): (r: Net)
    ensures r.servers.Keys == BeyondIds(h, o)
  {
    Net(map v | v in BeyondIds(h, o) :: Narrowed(h.servers[v], BeyondIds(h, o)), map[])
  }

  /** Whoever is in reach of the newest registration, but next to somebody out of
      reach, has the longest route there is, and tells nobody. */
  lemma EdgeSilent(nets: seq<Net>, es: seq<NetEvent>, m: seq<nat>, h: Net, i: Issi, o: ServerId, v: ServerId,
                   l: ClientId, j: nat)
    requires Fair(nets, es, m, h, i, SHORTEST) && Home(h, i, o) && v in h.servers && l in h.servers[v].links
    requires Near(h, o, h.servers[v].links[l]) && !Near(h, o, v) && m[SHORTEST] <= j <= |es|
    ensures v in nets[0].servers && l in nets[0].servers[v].links && End(v, l) in nets[0].wires
    ensures var (u, lu) := (nets[0].wires[End(v, l)].from, nets[0].wires[End(v, l)].link);
      u in nets[j].servers && lu in nets[j].servers[u].links && OfferNow(nets[j].servers[u], lu, i).None?
  {
    hide NetStep, NetOk, Joined, Phase, SteadyLocals, Part, Home, Distance, LocalOf, Adjacent;
    PartLinks(nets, es, h, i, v, l);
    FarEnd(nets, es, j, v, l);
    var u := h.servers[v].links[l];
    var k: nat :| k <= MAX_PATH && Walk(h, o, u, k);
    var d := Nearest(h, o, u, k);
    assert d == MAX_PATH by { AtTheEdge(h, o, v, u, l, d); }
    RoutesNear(nets, es, m, h, i, o, d, j, u);
  }

  lemma AtTheEdge(h: Net, o: ServerId, v: ServerId, u: ServerId, l: ClientId, d: nat)
    requires v in h.servers && l in h.servers[v].links && h.servers[v].links[l] == u && !Near(h, o, v)
    requires Distance(h, o, u, d) && d <= MAX_PATH
    ensures d == MAX_PATH
  {
    assert Adjacent(h, v, u);
    OneMore(h, o, v, u, d);
  }

  ghost function Shift(s: seq<nat>, a: nat): (r: seq<nat>)
    requires forall k :: 0 <= k < |s| ==> a <= s[k]
    ensures |r| == |s| && forall k :: 0 <= k < |s| ==> s[k] == a + r[k]
  {
    if s == [] then [] else [s[0] - a] + Shift(s[1..], a)
  }

  /** Part of a run of deliveries, from one mark on, with the marks in it. */
  lemma SubRun(nets: seq<Net>, es: seq<NetEvent>, m: seq<nat>, p: nat, q: nat, end: nat)
    returns (nets': seq<Net>, es': seq<NetEvent>, m': seq<nat>)
    requires Deliveries(nets, es) && Marks(nets, es, m) && p <= q < |m| && m[q] <= end <= |es|
    ensures m[p] <= end && nets' == nets[m[p]..end + 1] && es' == es[m[p]..end]
    ensures |m'| == q - p + 1 && forall x :: 0 <= x < |m'| ==> m[p..q + 1][x] == m[p] + m'[x]
    ensures Deliveries(nets', es') && Marks(nets', es', m')
  {
    hide NetOk, Joined, Phase, NetStep;
    var ms := m[p..q + 1];
    forall x | 0 <= x < |ms| ensures m[p] <= ms[x] <= end {
      MarksOrdered(nets, es, m, p, p + x);
      MarksOrdered(nets, es, m, p + x, q);
    }
    assert m[p] == ms[0];
    m' := Shift(ms, m[p]);
    nets', es' := nets[m[p]..end + 1], es[m[p]..end];
    CutRun(nets, es, m[p], end);
    assert Marks(nets', es', m') by { CutMarks(nets, es, m, p, q, end, m'); }
  }

  lemma CutMarks(nets: seq<Net>, es: seq<NetEvent>, m: seq<nat>, p: nat, q: nat, end: nat, m': seq<nat>)
    requires Marks(nets, es, m) && p <= q < |m| && m[p] <= end <= |es|
    requires |m'| == q - p + 1 && forall x :: 0 <= x < |m'| ==> m[p..q + 1][x] == m[p] + m'[x] <= end
    ensures Marks(nets[m[p]..end + 1], es[m[p]..end], m')
  {
    hide Phase;
    var (nets', ms) := (nets[m[p]..end + 1], m[p..q + 1]);
    forall x: nat, y: nat | y == x + 1 && y < |m'| ensures m'[x] <= m'[y] && Phase(nets'[m'[x]], nets'[m'[y]]) {
      assert m[p + x] <= m[p + y] && Phase(nets[m[p + x]], nets[m[p + y]]) by { assert p + y == (p + x) + 1; }
      assert nets'[m'[x]] == nets[ms[x]] && nets'[m'[y]] == nets[ms[y]];
    }
  }

  lemma CutRun(nets: seq<Net>, es: seq<NetEvent>, a: nat, end: nat)
    requires Deliveries(nets, es) && a <= end <= |es|
    ensures Deliveries(nets[a..end + 1], es[a..end])
  {
    hide NetOk, Joined, NetStep;
    RunOk(nets, es, a);
    JoinedStays(nets[0], nets[a]);
    forall k | 0 <= k < end - a
      ensures es[a..end][k].Deliver? && NetStep(nets[a..end + 1][k], es[a..end][k], nets[a..end + 1][k + 1])
    {
      assert NetStep(nets[a + k], es[a + k], nets[a + k + 1]);
    }
  }

  // ----- the layer behind -----

  /** The rest of the run after `a`, seen from the run itself. */
  ghost predicate Rest(nets: seq<Net>, es: seq<NetEvent>, a: nat, nets': seq<Net>, es': seq<NetEvent>) {
    && |nets| == |es| + 1 && a <= |es| && Deliveries(nets, es) && Deliveries(nets', es')
    && nets' == nets[a..] && es' == es[a..]
  }

  lemma RestLocals(nets: seq<Net>, es: seq<NetEvent>, a: nat, nets': seq<Net>, es': seq<NetEvent>)
    requires Rest(nets, es, a, nets', es') && SteadyLocals(nets[0], nets[|es|])
    ensures SteadyLocals(nets'[0], nets'[|es'|])
  {
    hide LocalOf, NetOk, Joined, NetStep, EntryOk;
    RunOk(nets, es, a);
    forall v, i: Issi | v in nets'[0].servers && v in nets'[|es'|].servers
      ensures LocalOf(nets'[|es'|].servers[v], i) == LocalOf(nets'[0].servers[v], i)
    {
      SameServers(nets[0], nets[a]);
      LocalsAt(nets, es, a, v, i);
    }
  }

  lemma SameServers(a: Net, b: Net)
    requires Later(a, b)
    ensures a.servers.Keys == b.servers.Keys
  {
  }

  /** A link that was silent stays so. */
  lemma StillSilent(nets: seq<Net>, es: seq<NetEvent>, a: nat, nets': seq<Net>, es': seq<NetEvent>, i: Issi,
                    v: ServerId, l: ClientId)
    requires Rest(nets, es, a, nets', es') && v in nets[0].servers && l in nets[0].servers[v].links
    requires Silent(nets, es, i, v, l)
    ensures Silent(nets', es', i, v, l)
  {
    hide OfferNow, NetOk, Joined, NetStep;
    EndAt(nets, es, a, v, l, i);
    forall j: nat | j <= |es'|
      ensures var (u, lu) := (nets'[0].wires[End(v, l)].from, nets'[0].wires[End(v, l)].link);
        u in nets'[j].servers && lu in nets'[j].servers[u].links && OfferNow(nets'[j].servers[u], lu, i).None?
    {
      assert nets'[j] == nets[a + j];
    }
  }

  /** So is, from then on, a link from the edge. */
  lemma EdgeStaysSilent(nets: seq<Net>, es: seq<NetEvent>, m: seq<nat>, nets': seq<Net>, es': seq<NetEvent>,
                        h: Net, i: Issi, o: ServerId, v: ServerId, l: ClientId)
    requires Fair(nets, es, m, h, i, STEADY) && Rest(nets, es, m[STEADY], nets', es')
    requires Home(h, i, o) && v in h.servers && l in h.servers[v].links
    requires Near(h, o, h.servers[v].links[l]) && !Near(h, o, v)
    ensures Silent(nets', es', i, v, l)
  {
    hide OfferNow, NetOk, Joined, NetStep, Near, Home, Part;
    var a := m[STEADY];
    MarksOrdered(nets, es, m, SHORTEST, STEADY);
    EdgeSilent(nets, es, m, h, i, o, v, l, a);
    EndAt(nets, es, a, v, l, i);
    forall j: nat | j <= |es'|
      ensures var (u, lu) := (nets'[0].wires[End(v, l)].from, nets'[0].wires[End(v, l)].link);
        u in nets'[j].servers && lu in nets'[j].servers[u].links && OfferNow(nets'[j].servers[u], lu, i).None?
    {
      assert nets'[j] == nets[a + j];
      EdgeSilent(nets, es, m, h, i, o, v, l, a + j);
    }
  }

  lemma NarrowedLocal(t: Table, some: set<ServerId>, i: Issi)
    ensures LocalOf(Narrowed(t, some), i) == LocalOf(t, i)
  {
  }

  lemma BeyondPartAt(nets: seq<Net>, es: seq<NetEvent>, m: seq<nat>, nets': seq<Net>, es': seq<NetEvent>,
                     h: Net, i: Issi, o: ServerId, v: ServerId)
    requires Fair(nets, es, m, h, i, STEADY) && Rest(nets, es, m[STEADY], nets', es')
    requires Home(h, i, o) && v in BeyondIds(h, o)
    ensures v in nets'[0].servers && PartAt(nets', es', Beyond(h, o), i, v)
  {
    hide NetOk, Joined, NetStep, Near, Home, Silent, LocalOf, EntryOk, SteadyLocals;
    var (a, rest) := (m[STEADY], Beyond(h, o));
    PartLocal(nets, es, h, i, v);
    LocalsAt(nets, es, a, v, i);
    NarrowedLocal(h.servers[v], BeyondIds(h, o), i);
    assert PartAt(nets, es, h, i, v);
    var (t, part) := (nets'[0].servers[v], rest.servers[v]);
    forall l | l in t.links && l !in part.links ensures Silent(nets', es', i, v, l) {
      if l in h.servers[v].links {
        PartLinks(nets, es, h, i, v, l);
        EdgeStaysSilent(nets, es, m, nets', es', h, i, o, v, l);
      } else {
        StillSilent(nets, es, a, nets', es', i, v, l);
      }
    }
  }

  /** Those out of reach hear of `i` from each other only. */
  lemma BeyondIsPart(nets: seq<Net>, es: seq<NetEvent>, m: seq<nat>, nets': seq<Net>, es': seq<NetEvent>, h: Net,
                     i: Issi, o: ServerId)
    requires Fair(nets, es, m, h, i, STEADY) && Rest(nets, es, m[STEADY], nets', es') && Home(h, i, o)
    ensures Part(nets', es', Beyond(h, o), i)
  {
    hide NetOk, Joined, NetStep, Near, Home, PartAt, SteadyLocals;
    forall v | v in BeyondIds(h, o) ensures v in nets'[0].servers && PartAt(nets', es', Beyond(h, o), i, v) {
      BeyondPartAt(nets, es, m, nets', es', h, i, o, v);
    }
  }

  lemma FewerBeyond(h: Net, i: Issi, o: ServerId)
    requires Home(h, i, o)
    ensures |Beyond(h, o).servers| < |h.servers|
  {
    hide Newest;
    assert Walk(h, o, o, 0) && Near(h, o, o);
    assert Beyond(h, o).servers.Keys < h.servers.Keys;
    SmallerSet(Beyond(h, o).servers.Keys, h.servers.Keys);
  }

  lemma {:induction false} SmallerSet<T>(a: set<T>, b: set<T>)
    requires a <= b
    ensures |a| <= |b| && (a != b ==> |a| < |b|)
  {
    if a != {} {
      var x :| x in a;
      SmallerSet(a - {x}, b - {x});
    }
  }

  /** The run from where the layer in reach of `o` is settled. */
  lemma NextLayer(nets: seq<Net>, es: seq<NetEvent>, m: seq<nat>, h: Net, i: Issi, o: ServerId, all: nat, less: nat)
    returns (nets': seq<Net>, es': seq<NetEvent>, m': seq<nat>)
    requires Fair(nets, es, m, h, i, all) && Home(h, i, o) && less + STEADY <= all
    ensures m[STEADY] <= m[all] && nets' == nets[m[STEADY]..] && es' == es[m[STEADY]..]
    ensures Fair(nets', es', m', Beyond(h, o), i, less) && m[STEADY] + m'[less] <= m[all]
  {
    hide NetStep, NetOk, Joined, Phase, SteadyLocals, Home, LocalOf, Part, Beyond, BeyondIds;
    MarksOrdered(nets, es, m, STEADY, all);
    MarksOrdered(nets, es, m, less + STEADY, all);
    nets', es', m' := SubRun(nets, es, m, STEADY, |m| - 1, |es|);
    assert nets' == nets[m[STEADY]..] && es' == es[m[STEADY]..];
    RestLocals(nets, es, m[STEADY], nets', es');
    BeyondIsPart(nets, es, m, nets', es', h, i, o);
    assert m[STEADY..][less] == m[less + STEADY];
  }

  lemma LessByOne(x: nat, y: nat)
    requires x < y
    ensures STEADY * x + STEADY <= STEADY * y && STEADY <= STEADY * y
  {
  }

  /** `STEADY` phases a layer, and no route to `i` changes any more. */
  lemma {:induction false} PartSteady(nets: seq<Net>, es: seq<NetEvent>, m: seq<nat>, h: Net, i: Issi, j: nat,
                                      j': nat, v: ServerId)
    requires Fair(nets, es, m, h, i, STEADY * |h.servers|) && v in h.servers
    requires m[STEADY * |h.servers|] <= j <= |es| && m[STEADY * |h.servers|] <= j' <= |es|
    ensures v in nets[j].servers && v in nets[j'].servers
    ensures Same(Get(nets[j].servers[v].subs, i), Get(nets[j'].servers[v].subs, i))
    decreases |h.servers|
  {
    hide NetStep, NetOk, Joined, Phase, SteadyLocals, Home, LocalOf, Part, Near, Deliveries, Holds;
    OneAtLeast(h, v);
    LessByOne(0, |h.servers|);
    MarksOrdered(nets, es, m, STEADY, STEADY * |h.servers|);
    MarksOrdered(nets, es, m, MAX_PATH, STEADY);
    if w :| Holds(h, i, w) {
      var o := HomeExists(h, i);
      if Near(h, o, v) {
        NearSteady(nets, es, m, h, i, o, j, j', v);
      } else {
        FewerBeyond(h, i, o);
        LessByOne(|Beyond(h, o).servers|, |h.servers|);
        var nets', es', m' :=
          NextLayer(nets, es, m, h, i, o, STEADY * |h.servers|, STEADY * |Beyond(h, o).servers|);
        PartSteady(nets', es', m', Beyond(h, o), i, j - m[STEADY], j' - m[STEADY], v);
      }
    } else {
      NoRoute(nets, es, m, h, i, j, v);
      NoRoute(nets, es, m, h, i, j', v);
    }
  }

  lemma OneAtLeast(h: Net, v: ServerId)
    requires v in h.servers
    ensures |h.servers| >= 1
  {
    assert h.servers.Keys != {};
  }

  lemma NearSteady(nets: seq<Net>, es: seq<NetEvent>, m: seq<nat>, h: Net, i: Issi, o: ServerId, j: nat, j': nat,
                   v: ServerId)
    requires Fair(nets, es, m, h, i, STEADY) && Home(h, i, o) && v in h.servers && Near(h, o, v)
    requires m[STEADY] <= j <= |es| && m[STEADY] <= j' <= |es|
    ensures v in nets[j].servers && v in nets[j'].servers
    ensures Same(Get(nets[j].servers[v].subs, i), Get(nets[j'].servers[v].subs, i))
  {
    hide NetStep, NetOk, Joined, Phase, SteadyLocals, Home, Distance, LocalOf, Part;
    var k: nat :| k <= MAX_PATH && Walk(h, o, v, k);
    var d := Nearest(h, o, v, k);
    MarksOrdered(nets, es, m, SHORTEST + d, STEADY);
    SteadyEntry(nets, es, m, h, i, o, d, j, j', v);
  }
}
