/** Flooding of mobile station positions over a fixed network of loop-safe
    servers: it ends, each server relays a fix at most once, and everybody is
    left with the newest one. */
module MsFlood {
  import opened FedTypes

  /** A position as opaque bits, and whether it is a real fix. */
  datatype Fix = Fix(bits: nat, valid: bool)

  /** What is held for one mobile station; an empty path means decoded here. */
  datatype Entry = Entry(fix: Fix, at: u64, path: seq<ServerId>)

  /** An advert on the wire; `path[0]` is its sender, the last entry its origin. */
  datatype MsAdvert = MsAdvert(issi: Issi, fix: Fix, at: u64, path: seq<ServerId>)

  datatype Server = Server(id: ServerId, links: map<ClientId, ServerId>, msLinks: set<ClientId>, pos: map<Issi, Entry>)

  // ----- one server -----

  /** When the fix held for `i` was made; before everything if there is none. */
  function AtOf(pos: map<Issi, Entry>, i: Issi): int {
    if i in pos then pos[i].at else -1
  }

  /** The links an advert is passed on to: those that announced support, but
      not the one it came from, nor one whose server is on its path, nor any
      when the path would outgrow the limit. */
  function RelayLinks(s: Server, except: Option<ClientId>, path: seq<ServerId>): set<ClientId> {
    if |path| >= MAX_PATH then {}
    else set l | l in s.msLinks && Some(l) != except && l in s.links && s.links[l] !in path
  }

  function WithSelf(s: Server, a: MsAdvert): MsAdvert {
    a.(path := [s.id] + a.path)
  }

  predicate Accepts(s: Server, a: MsAdvert) {
    a.path != [] && s.id !in a.path && a.fix.valid && AtOf(s.pos, a.issi) < a.at
  }

  function Stored(s: Server, a: MsAdvert): Server {
    s.(pos := s.pos[a.issi := Entry(a.fix, a.at, a.path)])
  }

  predicate Advertises(s: Server, issi: Issi, fix: Fix, at: u64) {
    fix.valid && AtOf(s.pos, issi) < at
  }

  /** Whether the fix held for `i` is part of the sync of a link to `nbr`. */
  predicate Syncs(s: Server, nbr: ServerId, i: Issi) {
    i in s.pos && nbr !in s.pos[i].path && |s.pos[i].path| < MAX_PATH
  }

  function SyncAdvert(s: Server, i: Issi): MsAdvert
    requires i in s.pos
  {
    MsAdvert(i, s.pos[i].fix, s.pos[i].at, [s.id] + s.pos[i].path)
  }

  function AdvertsFor(s: Server, nbr: ServerId, issis: set<Issi>): set<MsAdvert> {
    set i | i in issis && Syncs(s, nbr, i) :: SyncAdvert(s, i)
  }

  function SyncAdverts(s: Server, nbr: ServerId): set<MsAdvert> {
    AdvertsFor(s, nbr, s.pos.Keys)
  }

  lemma OnceEach(sent: seq<MsAdvert>, all: set<MsAdvert>, a: MsAdvert)
    requires multiset(sent) == multiset(all) && a !in all
    ensures multiset(sent + [a]) == multiset(all + {a})
  {
  }

  lemma NoAdverts(s: Server, nbr: ServerId)
    ensures AdvertsFor(s, nbr, {}) == {}
  {
  }

  lemma AdvertsForOneMore(s: Server, nbr: ServerId, issis: set<Issi>, i: Issi)
    requires i in s.pos && i !in issis
    ensures AdvertsFor(s, nbr, issis + {i}) ==
      AdvertsFor(s, nbr, issis) + if Syncs(s, nbr, i) then {SyncAdvert(s, i)} else {}
    ensures SyncAdvert(s, i) !in AdvertsFor(s, nbr, issis)
  {
  }

  /** The same, as the object a server keeps: positions and link queues. */
  class PositionTable {
    const id: ServerId
    var links: map<ClientId, ServerId>
    var msLinks: set<ClientId>
    var pos: map<Issi, Entry>
    var queue: map<ClientId, seq<MsAdvert>>

    constructor (id: ServerId)
      ensures State() == Server(id, map[], {}, map[]) && queue == map[]
    {
      this.id := id;
      links, msLinks, pos, queue := map[], {}, map[], map[];
    }

    function State(): Server
      reads this
    {
      Server(id, links, msLinks, pos)
    }

    method Relay(except: Option<ClientId>, a: MsAdvert)
      requires links.Keys <= queue.Keys
      modifies `queue
      ensures queue.Keys == old(queue).Keys
      ensures forall l :: l in queue ==>
        queue[l] == old(queue)[l] + if l in RelayLinks(State(), except, a.path) then [WithSelf(State(), a)] else []
    {
      if |a.path| >= MAX_PATH {
        return;
      }
      var todo := msLinks;
      while todo != {}
        invariant todo <= msLinks && queue.Keys == old(queue).Keys
        invariant forall l :: l in queue ==>
          queue[l] == old(queue)[l]
                      + if l in RelayLinks(State(), except, a.path) && l !in todo then [WithSelf(State(), a)] else []
      {
        var l :| l in todo;
        todo := todo - {l};
        if Some(l) != except && l in links && links[l] !in a.path {
          queue := queue[l := queue[l] + [WithSelf(State(), a)]];
        }
      }
    }

    method Accept(source: ClientId, a: MsAdvert) returns (accepted: bool)
      requires links.Keys <= queue.Keys
      modifies `pos, `queue
      ensures accepted == Accepts(old(State()), a) && queue.Keys == old(queue).Keys
      ensures State() == if accepted then Stored(old(State()), a) else old(State())
      ensures forall l :: l in queue ==>
        queue[l] == old(queue)[l]
                    + if accepted && l in RelayLinks(State(), Some(source), a.path) then [WithSelf(State(), a)] else []
    {
      if a.path == [] || a.path[|a.path| - 1] == id || id in a.path {
        return false;
      }
      if !a.fix.valid || (a.issi in pos && pos[a.issi].at >= a.at) {
        return false;
      }
      pos := pos[a.issi := Entry(a.fix, a.at, a.path)];
      Relay(Some(source), a);
      return true;
    }

    method Advertise(issi: Issi, fix: Fix, at: u64) returns (done: bool)
      requires links.Keys <= queue.Keys
      modifies `pos, `queue
      ensures done == Advertises(old(State()), issi, fix, at) && queue.Keys == old(queue).Keys
      ensures State() == if done then Stored(old(State()), MsAdvert(issi, fix, at, [])) else old(State())
      ensures forall l :: l in queue ==>
        queue[l] == old(queue)[l]
                    + if done && l in RelayLinks(State(), None, []) then [MsAdvert(issi, fix, at, [id])] else []
    {
      if !fix.valid || (issi in pos && pos[issi].at >= at) {
        return false;
      }
      pos := pos[issi := Entry(fix, at, [])];
      Relay(None, MsAdvert(issi, fix, at, []));
      assert [id] + [] == [id];
      return true;
    }

    /** Every position held that `nbr` is not on the path of, each once. */
    method SyncFor(nbr: ServerId) returns (sent: seq<MsAdvert>)
      ensures multiset(sent) == multiset(SyncAdverts(State(), nbr))
    {
      hide AdvertsFor, Syncs, SyncAdvert;
      sent := [];
      var (s, todo) := (State(), pos.Keys);
      ghost var done: set<Issi> := {};
      NoAdverts(s, nbr);
      while todo != {}
        invariant todo !! done && todo + done == s.pos.Keys
        invariant multiset(sent) == multiset(AdvertsFor(s, nbr, done))
      {
        var i :| i in todo;
        AdvertsForOneMore(s, nbr, done, i);
        if Syncs(s, nbr, i) {
          OnceEach(sent, AdvertsFor(s, nbr, done), SyncAdvert(s, i));
          sent := sent + [SyncAdvert(s, i)];
        }
        todo, done := todo - {i}, done + {i};
      }
      assert done == s.pos.Keys;
    }

    /** A link announced support and is synced. */
    method Announced(link: ClientId) returns (sent: seq<MsAdvert>)
      requires link in links && link in queue
      modifies `msLinks, `queue
      ensures State() == old(State()).(msLinks := old(msLinks) + {link})
      ensures queue == old(queue)[link := old(queue)[link] + sent]
      ensures multiset(sent) == multiset(SyncAdverts(State(), links[link]))
    {
      msLinks := msLinks + {link};
      sent := SyncFor(links[link]);
      queue := queue[link := queue[link] + sent];
    }
  }

  // ----- the network -----

  datatype End = End(server: ServerId, link: ClientId)

  /** A message on its way to one end of a link. */
  datatype Flight = Flight(to: End, msg: MsAdvert)

  /** A fix some server decoded itself and stored. */
  datatype Made = Made(issi: Issi, at: u64, fix: Fix)

  /** A fixed network: `far` maps each link end to the other; messages in
      flight may arrive in any order. `made` records every accepted local fix. */
  datatype Net = Net(servers: map<ServerId, Server>, far: map<End, End>, flight: multiset<Flight>, made: set<Made>)

  datatype Event =
    | Local(at: ServerId, issi: Issi, fix: Fix, time: u64)
    | Hello(end: End)
    | Deliver(f: Flight)

  /** A link end has a far end, at the neighbour it names, that leads back. */
  ghost predicate EndOk(net: Net, v: ServerId, l: ClientId)
    requires v in net.servers && l in net.servers[v].links
  {
    && End(v, l) in net.far
    && var o := net.far[End(v, l)];
    && o.server in net.servers && o.server == net.servers[v].links[l] && o.server != v
    && o.link in net.servers[o.server].links && net.servers[o.server].links[o.link] == v
    && o in net.far && net.far[o] == End(v, l)
  }

  ghost predicate Wired(net: Net) {
    && |net.servers| <= MAX_PATH
    && (forall v :: v in net.servers ==> net.servers[v].id == v)
    && forall v, l {:trigger EndOk(net, v, l)} :: v in net.servers && l in net.servers[v].links ==> EndOk(net, v, l)
  }

  /** One copy of `a` on the way over each of `links` of `v`. */
  function Copies(far: map<End, End>, v: ServerId, links: set<ClientId>, a: MsAdvert): set<Flight> {
    set l | l in links && End(v, l) in far :: Flight(far[End(v, l)], a)
  }

  predicate Enabled(net: Net, e: Event) {
    match e
    case Local(v, _, _, _) => v in net.servers
    case Hello(end) => end.server in net.servers && end.link in net.servers[end.server].links && end in net.far
    case Deliver(f) => f in net.flight && f.to.server in net.servers
  }

  function SyncCopies(to: End, s: Server, nbr: ServerId): set<Flight> {
    set a | a in SyncAdverts(s, nbr) :: Flight(to, a)
  }

  function Next(net: Net, e: Event): Net
    requires Enabled(net, e)
  {
    match e
    case Local(v, issi, fix, time) =>
      var s := net.servers[v];
      if !Advertises(s, issi, fix, time) then net
      else
        var a := MsAdvert(issi, fix, time, []);
        net.(servers := net.servers[v := Stored(s, a)], made := net.made + {Made(issi, time, fix)},
             flight := net.flight + multiset(Copies(net.far, v, RelayLinks(s, None, []), WithSelf(s, a))))
    case Hello(end) =>
      var s := net.servers[end.server];
      net.(servers := net.servers[end.server := s.(msLinks := s.msLinks + {end.link})],
           flight := net.flight + multiset(SyncCopies(net.far[end], s, s.links[end.link])))
    case Deliver(f) =>
      var s := net.servers[f.to.server];
      var rest := net.flight - multiset{f};
      if !Accepts(s, f.msg) then net.(flight := rest)
      else
        net.(servers := net.servers[f.to.server := Stored(s, f.msg)],
             flight := rest +
                 multiset(Copies(net.far, f.to.server, RelayLinks(s, Some(f.to.link), f.msg.path), WithSelf(s, f.msg))))
  }

  function AtServer(net: Net, v: ServerId, i: Issi): int {
    if v in net.servers then AtOf(net.servers[v].pos, i) else -1
  }

  /** Every server on a path had the fix first, and holds one at least as new. */
  ghost predicate PathKnown(net: Net, path: seq<ServerId>, i: Issi, at: u64) {
    Distinct(path) && forall q :: q in path ==> q in net.servers && AtServer(net, q, i) >= at
  }

  ghost predicate EntryOk(net: Net, v: ServerId, i: Issi) {
    v in net.servers && i in net.servers[v].pos ==>
      var e := net.servers[v].pos[i];
      e.fix.valid && v !in e.path && PathKnown(net, e.path, i, e.at) && Made(i, e.at, e.fix) in net.made
  }

  ghost predicate FlightOk(net: Net, f: Flight) {
    && f.to.server in net.servers && f.to.link in net.servers[f.to.server].links
    && f.msg.path != [] && f.msg.path[0] == net.servers[f.to.server].links[f.to.link]
    && f.msg.fix.valid && f.to.server !in f.msg.path && Made(f.msg.issi, f.msg.at, f.msg.fix) in net.made
    && PathKnown(net, f.msg.path, f.msg.issi, f.msg.at)
  }

  /** What `v` holds for `i` is known at the far end of `l`, or on its way there. */
  ghost predicate Passed(net: Net, v: ServerId, l: ClientId, i: Issi)
    requires v in net.servers && l in net.servers[v].links
  {
    AtServer(net, net.servers[v].links[l], i) >= AtServer(net, v, i)
    || (End(v, l) in net.far && OnItsWay(net.flight, net.far[End(v, l)], i, AtServer(net, v, i)))
  }

  ghost predicate OnItsWay(flight: multiset<Flight>, to: End, i: Issi, at: int) {
    exists f :: f in flight && f.to == to && f.msg.issi == i && f.msg.at >= at
  }

  ghost predicate FloodOk(net: Net) {
    && Wired(net)
    && (forall v, i: Issi :: EntryOk(net, v, i))
    && (forall f :: f in net.flight ==> FlightOk(net, f))
    && (forall v, l, i: Issi {:trigger Passed(net, v, l, i)} ::
          v in net.servers && l in net.servers[v].msLinks && l in net.servers[v].links ==> Passed(net, v, l, i))
    && (forall m :: m in net.made ==> exists v :: v in net.servers && AtServer(net, v, m.issi) >= m.at)
  }

  // ----- the invariant is kept -----

  /** A distinct path inside a set that misses one member is shorter than the set. */
  lemma {:induction false} PathShorter(path: seq<ServerId>, all: set<ServerId>, v: ServerId)
    requires Distinct(path) && (forall q :: q in path ==> q in all) && v in all && v !in path
    ensures |path| < |all|
    decreases |path|
  {
    if path != [] {
      var (init, x) := (path[..|path| - 1], path[|path| - 1]);
      assert forall q :: q in init ==> q in all - {x};
      PathShorter(init, all - {x}, v);
    }
  }

  /** Servers only get newer fixes; the rest of the network stays. */
  ghost predicate Grows(net: Net, net': Net) {
    && net'.servers.Keys == net.servers.Keys && net'.far == net.far && net.made <= net'.made
    && forall v :: v in net.servers ==>
         && net'.servers[v].id == net.servers[v].id && net'.servers[v].links == net.servers[v].links
         && net.servers[v].msLinks <= net'.servers[v].msLinks
         && forall i: Issi :: AtServer(net, v, i) <= AtServer(net', v, i)
  }

  lemma NextGrowsOnly(net: Net, e: Event)
    requires Enabled(net, e)
    ensures Grows(net, Next(net, e))
  {
    hide Copies, SyncCopies, RelayLinks;
  }

  lemma NextGrows(net: Net, e: Event)
    requires Wired(net) && Enabled(net, e)
    ensures Grows(net, Next(net, e)) && Wired(Next(net, e))
  {
    hide EndOk, Next, AtServer;
    var net' := Next(net, e);
    NextGrowsOnly(net, e);
    forall v, l | v in net'.servers && l in net'.servers[v].links ensures EndOk(net', v, l) {
      assert EndOk(net, v, l);
      EndStays(net, net', v, l);
    }
    assert |net'.servers.Keys| == |net.servers.Keys|;
  }

  lemma EndStays(net: Net, net': Net, v: ServerId, l: ClientId)
    requires v in net.servers && l in net.servers[v].links && EndOk(net, v, l) && Grows(net, net')
    ensures EndOk(net', v, l)
  {
  }

  lemma PathStays(net: Net, net': Net, path: seq<ServerId>, i: Issi, at: u64)
    requires PathKnown(net, path, i, at) && Grows(net, net')
    ensures PathKnown(net', path, i, at)
  {
  }

  /** A message `v` sends over a link is fit to be accepted at the far end. */
  lemma SentOk(net: Net, v: ServerId, l: ClientId, a: MsAdvert)
    requires v in net.servers && l in net.servers[v].links && EndOk(net, v, l)
    requires net.servers[v].links[l] !in a.path && v !in a.path && a.fix.valid && Made(a.issi, a.at, a.fix) in net.made
    requires PathKnown(net, a.path, a.issi, a.at) && AtServer(net, v, a.issi) >= a.at
    ensures FlightOk(net, Flight(net.far[End(v, l)], a.(path := [v] + a.path)))
  {
    hide AtServer;
    assert PathKnown(net, [v] + a.path, a.issi, a.at);
  }

  /** What a server passes on after it stored `a` is fit for its neighbours. */
  lemma CopiesOk(net: Net, v: ServerId, except: Option<ClientId>, a: MsAdvert, s: Server, f: Flight)
    requires Wired(net) && v in net.servers && s.links == net.servers[v].links && s.id == v
    requires v !in a.path && a.fix.valid && Made(a.issi, a.at, a.fix) in net.made
    requires PathKnown(net, a.path, a.issi, a.at) && AtServer(net, v, a.issi) >= a.at
    requires f in Copies(net.far, v, RelayLinks(s, except, a.path), WithSelf(s, a))
    ensures FlightOk(net, f)
  {
    hide FlightOk, PathKnown, EndOk;
    var l :| l in RelayLinks(s, except, a.path) && End(v, l) in net.far &&
        f == Flight(net.far[End(v, l)], WithSelf(s, a));
    assert EndOk(net, v, l);
    SentOk(net, v, l, a);
  }

  lemma SyncOk(net: Net, net': Net, end: End, f: Flight)
    requires FloodOk(net) && Enabled(net, Hello(end)) && net' == Next(net, Hello(end))
    requires Grows(net, net') && Wired(net')
    requires var s := net.servers[end.server]; f in SyncCopies(net.far[end], s, s.links[end.link])
    ensures FlightOk(net', f)
  {
    hide FlightOk, EndOk, PathKnown, Passed;
    var s := net.servers[end.server];
    var i :| i in s.pos && Syncs(s, s.links[end.link], i) && f == Flight(net.far[end], SyncAdvert(s, i));
    var p := s.pos[i];
    assert EntryOk(net, s.id, i);
    PathStays(net, net', p.path, i, p.at);
    assert EndOk(net', s.id, end.link);
    SentOk(net', s.id, end.link, MsAdvert(i, p.fix, p.at, p.path));
  }

  /** Where the flights after a step come from. */
  lemma NextFlights(net: Net, e: Event, f: Flight)
    requires FloodOk(net) && Enabled(net, e) && f in Next(net, e).flight
    ensures FlightOk(Next(net, e), f)
  {
    hide EntryOk, Passed, PathKnown, RelayLinks, Copies, SyncCopies, EndOk, Wired, Grows;
    var net' := Next(net, e);
    NextGrows(net, e);
    if f in net.flight {
      FlightStays(net, net', f);
    } else {
      match e
      case Local(v, issi, fix, time) =>
        assert net.servers[v].id == v by { Ids(net, v); }
        NoPath(net', issi, time);
        CopiesOk(net', v, None, MsAdvert(issi, fix, time, []), net.servers[v], f);
      case Hello(end) =>
        SyncOk(net, net', end, f);
      case Deliver(g) =>
        assert net.servers[g.to.server].id == g.to.server by { Ids(net, g.to.server); }
        FlightStays(net, net', g);
        CopiesOk(net', g.to.server, Some(g.to.link), g.msg, net.servers[g.to.server], f);
    }
  }

  lemma Ids(net: Net, v: ServerId)
    requires Wired(net) && v in net.servers
    ensures net.servers[v].id == v
  {
  }

  lemma FlightStays(net: Net, net': Net, f: Flight)
    requires FlightOk(net, f) && Grows(net, net')
    ensures FlightOk(net', f)
  {
    PathStays(net, net', f.msg.path, f.msg.issi, f.msg.at);
  }

  lemma NextEntry(net: Net, e: Event, v: ServerId, i: Issi)
    requires FloodOk(net) && Enabled(net, e)
    ensures EntryOk(Next(net, e), v, i)
  {
    hide Passed, PathKnown, RelayLinks, Copies, SyncCopies, Wired, EndOk, AtServer, Grows;
    var net' := Next(net, e);
    NextGrows(net, e);
    NextGrowsOnly(net, e);
    if v in net.servers && v in net'.servers && i in net'.servers[v].pos {
      if i in net.servers[v].pos && net'.servers[v].pos[i] == net.servers[v].pos[i] {
        assert EntryOk(net, v, i);
        PathStays(net, net', net.servers[v].pos[i].path, i, net.servers[v].pos[i].at);
      } else if e.Deliver? {
        FlightStays(net, net', e.f);
      } else {
        NoPath(net', i, net'.servers[v].pos[i].at);
      }
    }
  }

  lemma NoPath(net: Net, i: Issi, at: u64)
    ensures PathKnown(net, [], i, at)
  {
  }

  /** After the step the far end of every announced link knows, or will hear. */
  lemma NextPassed(net: Net, e: Event, v: ServerId, l: ClientId, i: Issi)
    requires FloodOk(net) && Enabled(net, e)
    requires v in net.servers && l in Next(net, e).servers[v].msLinks && l in net.servers[v].links
    ensures l in Next(net, e).servers[v].links && Passed(Next(net, e), v, l, i)
  {
    hide EntryOk, PathKnown, Accepts, Advertises, EndOk, FlightOk, Copies, SyncCopies, RelayLinks;
    var net' := Next(net, e);
    NextGrows(net, e);
    if AtServer(net', v, i) > AtServer(net, v, i) {
      JustStored(net, e, v, l, i);
    } else if l in net.servers[v].msLinks {
      assert Passed(net, v, l, i) && EndOk(net, v, l);
      StillPassed(net, e, v, l, i);
    } else {
      JustAnnounced(net, e, v, l, i);
    }
  }

  /** A server that stored `a` sent it to every announced link whose server
      is not on its path, and those on it hold it already. */
  lemma RelayedPassed(net: Net, v: ServerId, l: ClientId, except: Option<ClientId>, a: MsAdvert, s: Server)
    requires Wired(net) && v in net.servers && l in s.msLinks && l in s.links && s.id == v
    requires s.links == net.servers[v].links && AtServer(net, v, a.issi) == a.at
    requires PathKnown(net, a.path, a.issi, a.at) && v !in a.path
    requires Some(l) == except ==> s.links[l] in a.path
    requires forall f :: f in Copies(net.far, v, RelayLinks(s, except, a.path), WithSelf(s, a)) ==> f in net.flight
    ensures Passed(net, v, l, a.issi)
  {
    PathShorter(a.path, net.servers.Keys, v);
    assert EndOk(net, v, l);
    if s.links[l] in a.path {
      assert AtServer(net, s.links[l], a.issi) >= a.at;
    } else {
      var f := Flight(net.far[End(v, l)], WithSelf(s, a));
      assert l in RelayLinks(s, except, a.path);
      assert f in Copies(net.far, v, RelayLinks(s, except, a.path), WithSelf(s, a));
      assert f in net.flight && f.msg.issi == a.issi && f.msg.at >= AtServer(net, v, a.issi);
    }
  }

  lemma JustStored(net: Net, e: Event, v: ServerId, l: ClientId, i: Issi)
    requires FloodOk(net) && Enabled(net, e) && Wired(Next(net, e)) && Grows(net, Next(net, e))
    requires v in net.servers && l in Next(net, e).servers[v].msLinks && l in net.servers[v].links
    requires AtServer(Next(net, e), v, i) > AtServer(net, v, i)
    ensures l in Next(net, e).servers[v].links && Passed(Next(net, e), v, l, i)
  {
    hide Passed, FloodOk, Copies, SyncCopies, RelayLinks, Wired;
    if e.Local? {
      JustMade(net, e, l);
    } else if e.Deliver? {
      JustAccepted(net, e.f, l);
    }
  }

  lemma JustMade(net: Net, e: Event, l: ClientId)
    requires FloodOk(net) && e.Local? && Enabled(net, e) && Wired(Next(net, e))
    requires Advertises(net.servers[e.at], e.issi, e.fix, e.time)
    requires l in net.servers[e.at].msLinks && l in net.servers[e.at].links
    ensures Passed(Next(net, e), e.at, l, e.issi)
  {
    hide EntryOk, Passed, PathKnown, Copies, RelayLinks, EndOk, FlightOk;
    var net' := Next(net, e);
    NoPath(net', e.issi, e.time);
    RelayedPassed(net', e.at, l, None, MsAdvert(e.issi, e.fix, e.time, []), net.servers[e.at]);
  }

  lemma JustAccepted(net: Net, f: Flight, l: ClientId)
    requires FloodOk(net) && Enabled(net, Deliver(f))
    requires var net' := Next(net, Deliver(f)); Wired(net') && Grows(net, net')
    requires Accepts(net.servers[f.to.server], f.msg)
    requires l in net.servers[f.to.server].msLinks && l in net.servers[f.to.server].links
    ensures Passed(Next(net, Deliver(f)), f.to.server, l, f.msg.issi)
  {
    hide EntryOk, Passed, PathKnown, Copies, RelayLinks, EndOk, Grows;
    var net' := Next(net, Deliver(f));
    assert FlightOk(net, f);
    FlightStays(net, net', f);
    RelayedPassed(net', f.to.server, l, Some(f.to.link), f.msg, net.servers[f.to.server]);
  }

  /** Only the message being delivered leaves the network. */
  lemma FlightStaysQueued(net: Net, e: Event, f: Flight)
    requires Enabled(net, e) && f in net.flight && e != Deliver(f)
    ensures f in Next(net, e).flight
  {
    hide Copies, SyncCopies, RelayLinks, Advertises, Accepts;
  }

  /** What was on its way still is, or has just arrived. */
  lemma StillPassed(net: Net, e: Event, v: ServerId, l: ClientId, i: Issi)
    requires FloodOk(net) && Enabled(net, e) && Grows(net, Next(net, e))
    requires v in net.servers && l in net.servers[v].links && EndOk(net, v, l) && Passed(net, v, l, i)
    requires AtServer(Next(net, e), v, i) == AtServer(net, v, i)
    ensures Passed(Next(net, e), v, l, i)
  {
    hide EntryOk, PathKnown, Next, Wired, AtServer;
    var net' := Next(net, e);
    var at := AtServer(net, v, i);
    var w := net.servers[v].links[l];
    if AtServer(net, w, i) >= at {
      KnownPassed(net', v, l, i);
    } else {
      var f :| f in net.flight && f.to == net.far[End(v, l)] && f.msg.issi == i && f.msg.at >= at;
      if e == Deliver(f) {
        Ids(net, f.to.server);
        Arrived(net, f);
        KnownPassed(net', v, l, i);
      } else {
        FlightStaysQueued(net, e, f);
        SyncedPassed(net', v, l, i, f);
      }
    }
  }

  /** A delivered fix leaves its receiver with one at least as new. */
  lemma Arrived(net: Net, f: Flight)
    requires FlightOk(net, f) && Enabled(net, Deliver(f)) && net.servers[f.to.server].id == f.to.server
    ensures AtServer(Next(net, Deliver(f)), f.to.server, f.msg.issi) >= f.msg.at
  {
  }

  /** A link that just announced support is synced. */
  lemma JustAnnounced(net: Net, e: Event, v: ServerId, l: ClientId, i: Issi)
    requires FloodOk(net) && Enabled(net, e) && Grows(net, Next(net, e))
    requires v in net.servers && l in net.servers[v].links
    requires l !in net.servers[v].msLinks && l in Next(net, e).servers[v].msLinks
    requires AtServer(Next(net, e), v, i) == AtServer(net, v, i)
    ensures l in Next(net, e).servers[v].links && Passed(Next(net, e), v, l, i)
  {
    hide EndOk, Passed, FlightOk;
    var net' := Next(net, e);
    var s := net.servers[v];
    assert e == Hello(End(v, l));
    if i in s.pos {
      assert EntryOk(net, v, i);
      PathShorter(s.pos[i].path, net.servers.Keys, v);
      if Syncs(s, s.links[l], i) {
        var f := Flight(net.far[End(v, l)], SyncAdvert(s, i));
        assert f in SyncCopies(net.far[End(v, l)], s, s.links[l]);
        assert f in net'.flight;
        SyncedPassed(net', v, l, i, f);
      } else {
        assert AtServer(net, s.links[l], i) >= s.pos[i].at;
        KnownPassed(net', v, l, i);
      }
    } else {
      KnownPassed(net', v, l, i);
    }
  }

  lemma SyncedPassed(net: Net, v: ServerId, l: ClientId, i: Issi, f: Flight)
    requires v in net.servers && l in net.servers[v].links && End(v, l) in net.far
    requires f in net.flight && f.to == net.far[End(v, l)] && f.msg.issi == i && f.msg.at >= AtServer(net, v, i)
    ensures Passed(net, v, l, i)
  {
  }

  lemma KnownPassed(net: Net, v: ServerId, l: ClientId, i: Issi)
    requires v in net.servers && l in net.servers[v].links
    requires AtServer(net, net.servers[v].links[l], i) >= AtServer(net, v, i)
    ensures Passed(net, v, l, i)
  {
  }

  lemma NextFloodOk(net: Net, e: Event)
    requires FloodOk(net) && Enabled(net, e)
    ensures FloodOk(Next(net, e))
  {
    hide EntryOk, FlightOk, Passed, Wired, Next;
    var net' := Next(net, e);
    NextGrows(net, e);
    forall v, i: Issi ensures EntryOk(net', v, i) { NextEntry(net, e, v, i); }
    forall f | f in net'.flight ensures FlightOk(net', f) { NextFlights(net, e, f); }
    forall v, l, i: Issi | v in net'.servers && l in net'.servers[v].msLinks && l in net'.servers[v].links
      ensures Passed(net', v, l, i)
    {
      assert net'.servers[v].links == net.servers[v].links;
      NextPassed(net, e, v, l, i);
    }
    forall m | m in net'.made ensures exists v :: v in net'.servers && AtServer(net', v, m.issi) >= m.at {
      NextMade(net, e, m);
    }
  }

  lemma NextMade(net: Net, e: Event, m: Made)
    requires FloodOk(net) && Enabled(net, e) && m in Next(net, e).made
    ensures exists v :: v in Next(net, e).servers && AtServer(Next(net, e), v, m.issi) >= m.at
  {
    hide EntryOk, FlightOk, Passed, Copies, SyncCopies, RelayLinks;
    var net' := Next(net, e);
    if m in net.made {
      var v :| v in net.servers && AtServer(net, v, m.issi) >= m.at;
      assert AtServer(net', v, m.issi) >= m.at;
    } else {
      assert AtServer(net', e.at, m.issi) >= m.at;
    }
  }
}
