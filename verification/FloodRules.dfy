/** What each position message does, stated outright. */
module FloodRules {
  import opened FedTypes
  import opened MsFlood

  /** A relayed fix is taken if it is real, did not pass here, and is newer than the
      one held. */
  lemma AcceptRule(s: Server, a: MsAdvert)
    ensures Accepts(s, a) <==>
      |a.path| > 0 && s.id !in a.path && a.fix.valid && (a.issi in s.pos ==> s.pos[a.issi].at < a.at)
  {
  }

  lemma AdvertiseRule(s: Server, issi: Issi, fix: Fix, at: u64)
    ensures Advertises(s, issi, fix, at) <==> fix.valid && (issi in s.pos ==> s.pos[issi].at < at)
  {
  }

  /** It is then what is held for its station, the path as it came. */
  lemma StoreRule(s: Server, a: MsAdvert, i: Issi)
    ensures var s' := Stored(s, a);
      && s' == s.(pos := s'.pos)
      && Get(s'.pos, i) == if i == a.issi then Some(Entry(a.fix, a.at, a.path)) else Get(s.pos, i)
  {
  }

  /** It goes on over every link that announced support, but not back, nor to a
      server it passed, nor after sixteen. */
  lemma RelayRule(s: Server, except: Option<ClientId>, a: MsAdvert, l: ClientId)
    ensures l in RelayLinks(s, except, a.path) <==>
      |a.path| < 16 && l in s.msLinks && l in s.links && s.links[l] !in a.path && except != Some(l)
    ensures WithSelf(s, a) == MsAdvert(a.issi, a.fix, a.at, [s.id] + a.path)
  {
  }

  /** A link that announces support is sent every position held, this server in
      front, but none that passed the neighbour or sixteen servers. */
  lemma SyncRule(s: Server, nbr: ServerId, a: MsAdvert)
    ensures a in SyncAdverts(s, nbr) <==>
      && a.issi in s.pos && nbr !in s.pos[a.issi].path && |s.pos[a.issi].path| < 16
      && a == MsAdvert(a.issi, s.pos[a.issi].fix, s.pos[a.issi].at, [s.id] + s.pos[a.issi].path)
  {
  }

  // ----- in the network -----

  /** Each relayed copy flies to the far end of its link. */
  lemma CopyRule(far: map<End, End>, v: ServerId, links: set<ClientId>, a: MsAdvert, f: Flight)
    ensures f in Copies(far, v, links, a) <==>
      f.msg == a && exists l :: l in links && End(v, l) in far && far[End(v, l)] == f.to
  {
    if l :| l in links && End(v, l) in far && far[End(v, l)] == f.to && f.msg == a {
      assert f == Flight(far[End(v, l)], a);
    }
  }

  /** A delivery takes one message off its way; only one that is accepted changes
      the receiver and flies on, without its old recipient. */
  lemma DeliverRule(net: Net, f: Flight)
    requires Enabled(net, Deliver(f))
    ensures var net' := Next(net, Deliver(f));
      var (v, s) := (f.to.server, net.servers[f.to.server]);
      var taken := |f.msg.path| > 0 && s.id !in f.msg.path && f.msg.fix.valid
        && (f.msg.issi in s.pos ==> s.pos[f.msg.issi].at < f.msg.at);
      && net'.far == net.far && net'.made == net.made
      && net'.servers == (if taken then net.servers[v := Stored(s, f.msg)] else net.servers)
      && net'.flight == net.flight - multiset{f} +
           if taken then multiset(Copies(net.far, v, RelayLinks(s, Some(f.to.link), f.msg.path), WithSelf(s, f.msg)))
           else multiset{}
  {
    hide Copies, RelayLinks;
    AcceptRule(net.servers[f.to.server], f.msg);
    var rest := net.flight - multiset{f};
    assert rest + multiset{} == rest;
  }

  lemma LocalRule(net: Net, v: ServerId, issi: Issi, fix: Fix, at: u64)
    requires Enabled(net, Local(v, issi, fix, at))
    ensures var net' := Next(net, Local(v, issi, fix, at));
      var (s, a) := (net.servers[v], MsAdvert(issi, fix, at, []));
      var taken := fix.valid && (issi in s.pos ==> s.pos[issi].at < at);
      && net'.far == net.far && (!taken ==> net' == net)
      && (taken ==>
            && net'.servers == net.servers[v := Stored(s, a)] && net'.made == net.made + {Made(issi, at, fix)}
            && net'.flight == net.flight + multiset(Copies(net.far, v, RelayLinks(s, None, []), WithSelf(s, a))))
  {
    hide Copies, RelayLinks;
    AdvertiseRule(net.servers[v], issi, fix, at);
  }

  lemma HelloRule(net: Net, end: End)
    requires Enabled(net, Hello(end))
    ensures var net' := Next(net, Hello(end));
      var s := net.servers[end.server];
      && net'.far == net.far && net'.made == net.made
      && net'.servers == net.servers[end.server := s.(msLinks := s.msLinks + {end.link})]
      && net'.flight == net.flight + multiset(set a | a in SyncAdverts(s, s.links[end.link]) :: Flight(net.far[end], a))
  {
    hide SyncAdverts;
    var s := net.servers[end.server];
    assert SyncCopies(net.far[end], s, s.links[end.link]) ==
      set a | a in SyncAdverts(s, s.links[end.link]) :: Flight(net.far[end], a);
  }
}
