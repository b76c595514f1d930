/** The server's shared state (`state::Inner`) as an object: each handler runs
    under the write lock and is proved against the step function of the same
    name, while it keeps the derived group index exact. */
module InnerState {
  import opened FedTypes
  import opened RouteSelection
  import opened RouteTable
  import opened GroupCalls
  import opened CallInvariants
  import CallRules
  import RouteRules

  type Index = map<Gssi, set<ClientId>>

  function At(index: Index, g: Gssi): set<ClientId> {
    if g in index then index[g] else {}
  }

  /** A connection is in a group's set exactly while an ISSI routed over it is in
      the group, and no empty set is kept. */
  ghost predicate IndexExact(index: Index, subs: Subs) {
    && (forall g :: g in index ==> index[g] != {})
    && forall g: Gssi :: At(index, g) == Members(subs, g)
  }

  /** A connection taken out of every group; sets left empty are dropped. */
  function WithoutMember(index: Index, id: ClientId): Index {
    map g | g in index && index[g] - {id} != {} :: index[g] - {id}
  }

  function Added(next: Option<Subscriber>, g: Gssi): set<ClientId> {
    if next.Some? && g in next.value.groups then {next.value.client} else {}
  }

  /** One entry's share of a group. */
  lemma MembersSplit(subs: Subs, issi: Issi, g: Gssi)
    ensures Members(subs, g) == Members(subs - {issi}, g) + Added(Get(subs, issi), g)
  {
    var rest := subs - {issi};
    forall c ensures c in Members(subs, g) <==> c in Members(rest, g) + Added(Get(subs, issi), g) {
      if i :| i in subs && g in subs[i].groups && subs[i].client == c {
        assert i == issi || i in rest;
      }
      if i :| i in rest && g in rest[i].groups && rest[i].client == c {
        assert i in subs && subs[i] == rest[i];
      }
    }
  }

  lemma MembersPut(subs: Subs, issi: Issi, next: Option<Subscriber>, g: Gssi)
    ensures Members(Put(subs, issi, next), g) == Members(subs - {issi}, g) + Added(next, g)
    ensures Members(subs, g) == Members(subs - {issi}, g) + Added(Get(subs, issi), g)
  {
    hide Members;
    MembersSplit(subs, issi, g);
    MembersSplit(Put(subs, issi, next), issi, g);
    assert Put(subs, issi, next) - {issi} == subs - {issi};
  }

  /** Taking a connection that left a group out of its set, dropping an empty set. */
  function Without(index: Index, g: Gssi, c: ClientId): (r: Index)
    ensures forall h :: At(r, h) == if h == g then At(index, g) - {c} else At(index, h)
    ensures (forall h :: h in index ==> index[h] != {}) ==> forall h :: h in r ==> r[h] != {}
  {
    if g !in index then index
    else if index[g] - {c} == {} then index - {g}
    else index[g := index[g] - {c}]
  }

  class Inner {
    const selfId: ServerId
    var clock: u64
    var clients: map<ClientId, Mode>
    var links: map<ClientId, ServerId>
    var subs: Subs
    var groupClients: Index
    var rib: Rib
    var sent: Sent
    var consoles: set<ClientId>
    var calls: map<CallId, Call>
    var floor: map<Gssi, CallId>
    var headers: map<CallId, CallMsg>
    var queue: map<ClientId, seq<CallMsg>>
    var sending: map<ClientId, seq<Packet>>
    var background: seq<seq<Packet>>

    constructor (id: ServerId)
      ensures Valid() && State() == Start(id)
    {
      selfId := id;
      clock := 0;
      clients, links, subs, groupClients, rib, sent := map[], map[], map[], map[], map[], map[];
      consoles, calls, floor, headers, queue, sending, background := {}, map[], map[], map[], map[], map[], [];
    }

    function Routes(): Table
      reads this
    {
      Table(selfId, clock, clients, links, subs, rib, sent)
    }

    function State(): Node
      reads this
    {
      Node(Routes(), consoles, calls, floor, headers, queue, sending, background)
    }

    ghost predicate Valid()
      reads this
    {
      && IndexExact(groupClients, subs)
      && clients.Keys <= sent.Keys && clients.Keys <= queue.Keys
      && forall i :: i in rib ==> rib[i] != map[]
    }

    // ----- the effective table -----

    /** Replaces the entry of `issi` and brings the group index along: a
        connection leaves a group only when no other ISSI of its is in it. */
    method SetEffective(issi: Issi, next: Option<Subscriber>)
      requires Valid()
      modifies `subs, `groupClients
      ensures Valid() && subs == Put(old(subs), issi, next)
    {
      hide Members, Put;
      var prev := Get(subs, issi);
      var before := subs;
      subs := Put(subs, issi, next);
      forall g: Gssi { MembersPut(before, issi, next, g); }
      if prev.Some? {
        LeaveGroups(prev.value.client, prev.value.groups, next);
      }
      if next.Some? {
        EnterGroups(next.value.client, next.value.groups);
      }
    }

    /** `c` lost its entry in `groups`; what the new entry adds is still missing. */
    method LeaveGroups(c: ClientId, groups: set<Gssi>, ghost next: Option<Subscriber>)
      requires forall g :: g in groupClients ==> groupClients[g] != {}
      requires forall g: Gssi :: (if g in groups then At(groupClients, g) + Added(next, g) == Members(subs, g) + {c}
                                  else At(groupClients, g) + Added(next, g) == Members(subs, g))
      requires forall g: Gssi :: Added(next, g) <= Members(subs, g)
      modifies `groupClients
      ensures forall g :: g in groupClients ==> groupClients[g] != {}
      ensures forall g: Gssi :: At(groupClients, g) + Added(next, g) == Members(subs, g)
    {
      hide Members;
      var todo := groups;
      while todo != {}
        invariant todo <= groups
        invariant forall g :: g in groupClients ==> groupClients[g] != {}
        invariant forall g: Gssi :: (if g in todo then At(groupClients, g) + Added(next, g) == Members(subs, g) + {c}
                                     else At(groupClients, g) + Added(next, g) == Members(subs, g))
      {
        var g :| g in todo;
        todo := todo - {g};
        if c !in Members(subs, g) {
          groupClients := Without(groupClients, g, c);
        }
      }
    }

    method EnterGroups(c: ClientId, groups: set<Gssi>)
      requires forall g :: g in groupClients ==> groupClients[g] != {}
      requires forall g: Gssi :: At(groupClients, g) + (if g in groups then {c} else {}) == Members(subs, g)
      modifies `groupClients
      ensures IndexExact(groupClients, subs)
    {
      hide Members;
      var todo := groups;
      while todo != {}
        invariant todo <= groups
        invariant forall g :: g in groupClients ==> groupClients[g] != {}
        invariant forall g: Gssi :: At(groupClients, g) + (if g in todo then {c} else {}) == Members(subs, g)
      {
        var g :| g in todo;
        todo := todo - {g};
        groupClients := groupClients[g := At(groupClients, g) + {c}];
      }
    }

    /** Re-runs selection for one ISSI; true when its effective route changed. */
    method Reroute(issi: Issi) returns (changed: bool)
      requires Valid()
      modifies `subs, `groupClients
      ensures Valid() && Routes() == Rerouted(old(Routes()), issi)
      ensures changed <==> !Same(old(Get(subs, issi)), Get(subs, issi))
    {
      ghost var t := Routes();
      var local := LocalOf(Routes(), issi);
      var cands := OffersOf(rib, issi);
      var choice := PickRoute(selfId, RegOf(local), links, cands);
      ChoiceUnique(selfId, RegOf(local), links, cands, choice, Chosen(t, issi));
      var next := match choice
        case Local => local
        case Remote(l) => Some(FromAdvert(l, cands[l]))
        case Unreachable => None;
      changed := !Same(Get(subs, issi), next);
      if changed {
        SetEffective(issi, next);
      }
    }

    /** Queues the change of `issi`'s entry since `prev` on every peer link. */
    method Publish(issi: Issi, prev: Option<Subscriber>)
      requires clients.Keys <= sent.Keys
      modifies `sent
      ensures Routes() == Published(old(Routes()), issi, prev)
      ensures forall l ::
        (&& l in clients && clients[l] == Peer && l !in links
         && (prev.Some? ==> prev.value.client != l) && (issi in subs ==> subs[issi].client != l)) ==>
          (&& old(sent)[l] <= sent[l]
           && ((exists m :: m in sent[l][|old(sent)[l]|..] && m.SubMsg? && m.kind == Register && m.issi == issi) <==>
                 issi in subs && (prev.None? || prev.value.route.reg != subs[issi].route.reg)))
    {
      hide UpdatesTo;
      var todo := clients.Keys;
      while todo != {}
        invariant todo <= clients.Keys && sent.Keys == old(sent).Keys
        invariant forall l :: l in sent ==>
          sent[l] == (if IsPeer(old(Routes()), l) && l !in todo
                      then old(sent)[l] + UpdatesTo(selfId, links, l, issi, prev, Get(subs, issi)) else old(sent)[l])
      {
        var l :| l in todo;
        todo := todo - {l};
        if clients[l] == Peer {
          sent := sent[l := sent[l] + UpdatesTo(selfId, links, l, issi, prev, Get(subs, issi))];
        }
      }
      assert sent == Published(old(Routes()), issi, prev).sent;
      PublishRegisters(old(Routes()), issi, prev);
    }

    /** Drops `link`'s offer; true if it had one. */
    method DropOffer(issi: Issi, link: ClientId) returns (had: bool)
      modifies `rib
      ensures rib == WithdrawOffer(old(rib), issi, link)
      ensures had <==> link in OffersOf(old(rib), issi)
      ensures (forall i :: i in old(rib) ==> old(rib)[i] != map[]) ==> forall i :: i in rib ==> rib[i] != map[]
    {
      if issi !in rib {
        return false;
      }
      had := link in rib[issi];
      rib := rib[issi := rib[issi] - {link}];
      if rib[issi] == map[] {
        rib := rib - {issi};
      }
    }

    method HandleRoute(source: ClientId, issi: Issi, advert: Advert, now: u64)
      requires Valid()
      modifies `clock, `rib, `subs, `groupClients, `sent
      ensures Valid() && Routes() == OnRoute(old(Routes()), source, issi, advert, now)
    {
      hide Desired, UpdatesTo;
      if source !in links {
        return;
      }
      var prev := Get(subs, issi);
      var tooNew := advert.reg > SatAdd(now, MAX_FUTURE_MS);
      if tooNew || selfId in advert.path {
        var _ := DropOffer(issi, source);
      } else {
        clock := Max(clock, advert.reg);
        rib := rib[issi := OffersOf(rib, issi)[source := advert]];
        assert source in rib[issi];
      }
      assert Routes() == TakeOffer(old(Routes()), source, issi, advert, now);
      var changed := Reroute(issi);
      if changed {
        Publish(issi, prev);
      } else {
        NothingToTell(Routes(), issi, prev);
      }
    }

    method HandleWithdraw(source: ClientId, issi: Issi)
      requires Valid()
      modifies `rib, `subs, `groupClients, `sent
      ensures Valid() && Routes() == OnWithdraw(old(Routes()), source, issi)
    {
      hide Desired, UpdatesTo;
      if source !in links {
        return;
      }
      var prev := Get(subs, issi);
      var had := DropOffer(issi, source);
      if had {
        var changed := Reroute(issi);
        if changed {
          Publish(issi, prev);
        } else {
          NothingToTell(Routes(), issi, prev);
        }
      } else {
        NothingDropped(old(rib), issi, source);
      }
    }

    /** The table part of `handle_subscriber`; the groups the source is now in. */
    method RegisterChange(source: ClientId, kind: SubKind, issi: Issi, groups: seq<Gssi>,
                          now: u64) returns (joined: set<Gssi>)
      requires Valid()
      modifies `clock, `subs, `groupClients, `sent
      ensures Valid() && Routes() == OnSub(old(Routes()), source, kind, issi, groups, now)
      ensures joined == if source in links then {} else JoinedGroups(Routes(), source, kind, issi)
    {
      hide UpdatesTo, Desired;
      joined := {};
      if source in links {
        return;
      }
      var prev := Get(subs, issi);
      var mine := prev.Some? && prev.value.client == source;
      var next: Option<Subscriber> := None;
      match kind {
        case Register => next := LocalEntry(source, if prev.Some? then prev.value.groups else {}, now);
        case Reregister => next := LocalEntry(source, if prev.Some? then prev.value.groups else {}, now);
        case Deregister => if !mine { return; }
        case Affiliate =>
          if prev.None? {
            next := LocalEntry(source, Elems(groups), now);
          } else if mine {
            next := Some(prev.value.(groups := prev.value.groups + Elems(groups)));
          } else {
            joined := JoinedGroups(Routes(), source, kind, issi);
            return;
          }
        case Deaffiliate =>
          if !mine { return; }
          next := Some(prev.value.(groups := prev.value.groups - Elems(groups)));
        case UnknownKind => return;
      }
      SetEffective(issi, next);
      if kind == Deregister {
        var _ := Reroute(issi);
      }
      Publish(issi, prev);
      joined := JoinedGroups(Routes(), source, kind, issi);
    }

    /** A registration here, stamped with a fresh tick of the clock. */
    method LocalEntry(source: ClientId, groups: set<Gssi>, now: u64) returns (s: Option<Subscriber>)
      modifies `clock
      ensures clock == Tick(old(clock), now)
      ensures s == Some(Subscriber(source, groups, ModeOf(Routes(), source), Route(clock, [])))
    {
      clock := Tick(clock, now);
      s := Some(Subscriber(source, groups, ModeOf(Routes(), source), Route(clock, [])));
    }

    /** Link up: registered and, for a peer, sent the full table under one lock. */
    method AttachClient(id: ClientId, mode: Mode, neighbour: Option<ServerId>, console: bool)
      requires Valid()
      modifies `clients, `links, `sent, `queue, `consoles
      ensures Valid() && Routes() == Attach(old(Routes()), id, mode, neighbour)
      ensures queue == old(queue)[id := []] && consoles == if console then old(consoles) + {id} else old(consoles)
    {
      clients := clients[id := mode];
      links := Put(links, id, neighbour);
      sent, queue := sent[id := []], queue[id := []];
      if console {
        consoles := consoles + {id};
      }
      if mode == Peer {
        sent := sent[id := SyncMessages(Routes(), id)];
      }
    }

    /** The offers and entries of a departed connection, ISSI by ISSI. */
    method DropEntries(id: ClientId, issis: seq<Issi>)
      requires Elems(issis) == Affected(Routes(), id) && Distinct(issis)
      requires forall i :: i in rib ==> rib[i] != map[]
      modifies `subs, `rib
      ensures Dropped(old(Routes()), id) ==
        Routes().(clients := clients - {id}, links := links - {id})
      ensures forall i :: i in rib ==> rib[i] != map[]
    {
      hide Dropped, Affected;
      ghost var t := Routes();
      for k := 0 to |issis|
        invariant PartlyDropped(t, id, issis[..k], subs, rib)
      {
        assert issis[..k + 1] == issis[..k] + [issis[k]];
        ghost var (s, r) := (subs, rib);
        var _ := DropOffer(issis[k], id);
        if issis[k] in subs && subs[issis[k]].client == id {
          subs := subs - {issis[k]};
        }
        DropStep(t, id, issis[..k], issis[k], s, r, subs, rib);
      }
      assert issis[..|issis|] == issis;
      DroppedIs(t, id, issis, subs, rib);
    }

    /** The bulk part of a link going down: its entries, offers and group memberships. */
    method DropConnection(id: ClientId, issis: seq<Issi>)
      requires Valid() && Elems(issis) == Affected(Routes(), id) && Distinct(issis)
      modifies `clients, `links, `subs, `rib, `groupClients
      ensures Valid() && Routes() == Dropped(old(Routes()), id)
    {
      hide Affected, Dropped, IndexExact, WithoutMember, Elems, Distinct;
      ghost var t := Routes();
      DropEntries(id, issis);
      clients, links := clients - {id}, links - {id};
      groupClients := WithoutMember(groupClients, id);
      DroppedIndex(t, id, old(groupClients), groupClients);
    }

    /** Each affected ISSI re-routed and its change published, in order. */
    method SettleAll(issis: seq<Issi>, before: Subs)
      requires Valid()
      modifies `subs, `groupClients, `sent
      ensures Valid() && Routes() == Settled(old(Routes()), issis, before)
    {
      hide UpdatesTo, Rerouted, Published;
      ghost var t := Routes();
      for k := 0 to |issis|
        invariant Valid() && Routes() == Settled(t, issis[..k], before)
      {
        assert issis[..k + 1][..k] == issis[..k];
        var _ := Reroute(issis[k]);
        Publish(issis[k], Get(before, issis[k]));
      }
      assert issis[..|issis|] == issis;
    }

    /** The calls a departed connection was on: ended if it owned them or they
        were private, otherwise it is dropped from the recipients. */
    method EndCallsOf(id: ClientId) returns (packets: seq<Packet>)
      requires id !in consoles
      modifies `calls, `floor
      ensures Lists(packets, GonePackets(old(State()), id, Routes()))
      ensures State() == Disconnected(old(State()), id, Routes())
    {
      hide Disconnected, Passed, GonePackets, Lists, ToAll;
      ghost var n := State();
      var todo := calls.Keys;
      packets := [];
      NothingPassed(n, id);
      while todo != {}
        invariant todo <= n.calls.Keys
        invariant Passed(n, id, todo, calls, floor, packets)
      {
        var k :| k in todo;
        assert todo - {k} + {k} == todo;
        todo := todo - {k};
        PassedAt(n, id, todo + {k}, calls, floor, packets, k);
        ghost var (c0, f0, p0) := (calls, floor, packets);
        var call := calls[k];
        if call.owner == id || (call.kind == Private && id in call.peers) {
          calls := calls - {k};
          if call.kind == Group && call.destination in floor && floor[call.destination] == k {
            floor := floor - {call.destination};
          }
          var more := Address(Listeners(call, id), CallEnd(k));
          packets := packets + more;
          ToAllFrame(State(), n, Listeners(call, id), CallEnd(k));
          PassedDying(n, id, todo, k, c0, f0, p0, more);
        } else {
          calls := calls[k := call.(peers := call.peers - {id})];
          PassedListening(n, id, todo, k, c0, f0, p0);
        }
      }
      LeftIs(n, id, calls, floor, packets);
      assert consoles - {id} == consoles;
    }

    /** Everything routed or offered over the link fails over or is withdrawn. */
    method FailOver(id: ClientId)
      requires Valid()
      modifies `clients, `links, `subs, `rib, `groupClients, `sent
      ensures Valid() && Routes() == Cleanup(old(Routes()), id)
    {
      hide Dropped, Settled, Affected, IndexExact;
      var issis := Sorted(Affected(Routes(), id));
      var before := subs;
      DropConnection(id, issis);
      SettleAll(issis, before);
    }

    /** Link down: the table fails over, then the calls of the connection end;
        the notices are left to be queued after the lock is released. */
    method CleanupClient(id: ClientId) returns (packets: seq<Packet>)
      requires Valid()
      modifies `clients, `links, `subs, `rib, `groupClients, `sent, `consoles, `calls, `floor, `background
      ensures Valid() && Lists(packets, GonePackets(old(State()), id, Cleanup(old(Routes()), id)))
      ensures State() == HandedOver(Disconnected(old(State()), id, Cleanup(old(Routes()), id)), None, packets)
    {
      hide Cleanup, Disconnected, IndexExact, GonePackets, Lists;
      ghost var n := State();
      consoles := consoles - {id};
      FailOver(id);
      ghost var m := State();
      packets := EndCallsOf(id);
      DisconnectedFrame(n, m, id);
      LeaveBehind(packets);
    }

    // ----- packets -----

    /** `m` for everyone of `to` who is connected, looked up under the lock. */
    method Address(to: set<ClientId>, m: CallMsg) returns (packets: seq<Packet>)
      ensures Lists(packets, ToAll(State(), to, m))
    {
      packets := [];
      var todo := to;
      while todo != {}
        invariant todo <= to && Distinct(packets)
        invariant forall q :: q in packets <==> q.msg == m && q.to in to && q.to !in todo && q.to in clients
      {
        var c :| c in todo;
        todo := todo - {c};
        if c in clients {
          packets := packets + [Packet(c, m)];
        }
      }
      assert Elems(packets) == ToAll(State(), to, m);
    }

    /** The same for a header, which consoles and peers may get with a raised priority. */
    method AddressHeaders(targets: set<ClientId>, header: CallMsg, raised: bool) returns (packets: seq<Packet>)
      ensures Lists(packets, HeaderPackets(State(), targets, header, raised))
    {
      packets := [];
      var todo := targets;
      while todo != {}
        invariant todo <= targets && Distinct(packets)
        invariant forall q :: q in packets <==>
          q.to in targets && q.to !in todo && q.to in clients && q.msg == HeaderFor(State(), header, raised, q.to)
      {
        var c :| c in todo;
        todo := todo - {c};
        if c in clients {
          packets := packets + [Packet(c, HeaderFor(State(), header, raised, c))];
        }
      }
      assert Elems(packets) == HeaderPackets(State(), targets, header, raised);
    }

    /** The next packet of the handler of `source`, after it released the lock. */
    method SendNext(source: ClientId)
      requires source in sending && sending[source] != []
      modifies `queue, `sending
      ensures State() == SentOne(old(State()), source)
    {
      var (p, rest) := (sending[source][0], sending[source][1..]);
      if p.to in queue {
        queue := queue[p.to := queue[p.to] + [p.msg]];
      }
      sending := if rest == [] then sending - {source} else sending[source := rest];
    }

    // ----- group calls -----

    /** `m` queued on every live connection of `to`. */
    method Send(to: set<ClientId>, m: CallMsg)
      requires clients.Keys <= queue.Keys
      modifies `queue
      ensures State() == SendAll(old(State()), to, m) && queue.Keys == old(queue).Keys
    {
      hide QueuesGrow;
      var todo := to;
      while todo != {}
        invariant todo <= to && queue.Keys == old(queue).Keys
        invariant forall c :: c in queue ==>
          queue[c] == (if c in to && c !in todo && c in clients then old(queue)[c] + [m] else old(queue)[c])
      {
        var c :| c in todo;
        todo := todo - {c};
        if c in clients {
          queue := queue[c := queue[c] + [m]];
        }
      }
      assert queue == SendAll(old(State()), to, m).queue;
    }

    /** Who a GROUP_TX goes to; the members of the group come from the index. */
    method GroupTargets(cfg: Config, source: ClientId, id: CallId, from: Issi, g: Gssi,
                        emergency: bool) returns (targets: set<ClientId>)
      requires IndexExact(groupClients, subs)
      ensures targets == Targets(cfg, State(), source, id, from, g, emergency)
    {
      targets := if cfg.routeAll then clients.Keys else At(groupClients, g);
      if targets == {} && !cfg.routeAll && cfg.fallback {
        targets := clients.Keys;
      }
      if id in calls && calls[id].owner == source && calls[id].source == from {
        targets := targets + calls[id].peers * PeerLinks(Routes());
      }
      if emergency {
        targets := targets + (consoles + PeerLinks(Routes()));
      }
      targets := targets - {source};
    }

    /** A transmission up to the release of the lock, with the headers it leaves
        to be queued. */
    method HandleGroupTx(cfg: Config, source: ClientId, id: CallId, from: Issi, g: Gssi, priority: Priority,
                         emergency: bool, duplicate: bool) returns (packets: seq<Packet>)
      requires Valid()
      modifies `calls, `floor, `headers, `queue, `sending
      ensures Valid()
      ensures Lists(packets, TxPackets(cfg, old(State()), source, id, from, g, priority, emergency, duplicate))
      ensures State() ==
        HandedOver(OnGroupTx(cfg, old(State()), source, id, from, g, priority, emergency, duplicate), Some(source),
                   packets)
      ensures (source in clients && clients[source] == Peer && duplicate)
        || cfg.allowMultiple || g !in old(floor) || old(floor)[g] == id || old(floor)[g] !in old(calls)
        || var (o, running) := (old(floor)[g], old(calls)[old(floor)[g]].priority);
           if (if cfg.higherWins then priority > running else priority < running)
           then o !in calls && id in calls && calls[id].owner == source && g in floor && floor[g] == id
           else calls == old(calls) && floor == old(floor) && queue == old(queue) && sending == old(sending)
                && packets == []
    {
      hide Targets, SendAll, Preempted, Rejected, QueuesGrow, IndexExact, Raise, HeaderPackets, Recorded, HandedOver,
           OnGroupTx, TxPackets;
      ghost var n := State();
      packets := [];
      GroupTxCases(cfg, n, source, id, from, g, priority, emergency, duplicate);
      NothingHanded(OnGroupTx(cfg, n, source, id, from, g, priority, emergency, duplicate), Some(source));
      if IsPeer(Routes(), source) && duplicate {
        if source in links {
          Send({source}, FedPrune(id, from));
        }
        return;
      }
      var won := SeizeFloor(cfg, id, g, priority);
      if won {
        packets := Record(cfg, source, id, from, g, priority, emergency);
        HandOver(source, packets);
      }
      FloorAfter(cfg, n, State(), source, id, from, g, priority, emergency, duplicate, packets);
    }

    /** The call is recorded under its new talker, and its headers are addressed. */
    method Record(cfg: Config, source: ClientId, id: CallId, from: Issi, g: Gssi, priority: Priority, emergency: bool)
      returns (packets: seq<Packet>)
      requires IndexExact(groupClients, subs)
      modifies `calls, `floor, `headers
      ensures Lists(packets, HeaderPackets(old(State()), Targets(cfg, old(State()), source, id, from, g, emergency),
                                           GroupTx(id, from, g, priority), Raise(priority, emergency) != priority))
      ensures State() == Recorded(cfg, old(State()), source, id, from, g, priority, emergency)
    {
      hide Targets, HeaderPackets, IndexExact, Raise;
      var targets := GroupTargets(cfg, source, id, from, g, emergency);
      packets := AddressHeaders(targets, GroupTx(id, from, g, priority), Raise(priority, emergency) != priority);
      floor := floor[g := id];
      calls := calls[id := Call(Group, source, from, g, Raise(priority, emergency), targets)];
      headers := (map k | k in headers && k in calls :: headers[k])[id := GroupTx(id, from, g, priority)];
    }

    /** Packets nobody's handler waits for. */
    method LeaveBehind(packets: seq<Packet>)
      modifies `background
      ensures State() == HandedOver(old(State()), None, packets)
    {
      if packets != [] {
        background := background + [packets];
      }
    }

    method HandOver(source: ClientId, packets: seq<Packet>)
      modifies `sending
      ensures State() == HandedOver(old(State()), Some(source), packets)
    {
      if packets != [] {
        sending := sending[source := packets];
      }
    }

    /** Pre-emption: the call on the floor of `g`, if any, must lose and is released. */
    method SeizeFloor(cfg: Config, id: CallId, g: Gssi, priority: Priority) returns (won: bool)
      requires clients.Keys <= queue.Keys
      modifies `calls, `queue
      ensures queue.Keys == old(queue).Keys && won == !Rejected(cfg, old(State()), id, g, priority)
      ensures State() == if won then Preempted(cfg, old(State()), id, g) else old(State())
    {
      hide SendAll, QueuesGrow;
      if cfg.allowMultiple || g !in floor || floor[g] == id || floor[g] !in calls {
        return true;
      }
      var existing := floor[g];
      if !Wins(cfg, priority, calls[existing].priority) {
        return false;
      }
      Send(calls[existing].peers + {calls[existing].owner}, CallEnd(existing));
      calls := calls - {existing};
      return true;
    }

    method TakeOn(client: ClientId, id: CallId)
      requires id in calls && client in queue
      modifies `calls, `queue
      ensures calls == old(calls)[id := old(calls)[id].(peers := old(calls)[id].peers + {client})]
      ensures queue == old(queue)[client := old(queue)[client] + [LateHeader(old(State()), client, id)]]
    {
      queue := queue[client := queue[client] + [LateHeader(State(), client, id)]];
      calls := calls[id := calls[id].(peers := calls[id].peers + {client})];
    }

    /** `client` has just joined `groups`: it is taken on by every running call
        to them and handed the call's header under the same lock. */
    method EnterLate(client: ClientId, groups: set<Gssi>) returns (ghost order: seq<CallId>)
      requires clients.Keys <= queue.Keys
      modifies `calls, `headers, `queue
      ensures Lists(order, Joinable(old(State()), client, groups))
      ensures State() == LateEntry(old(State()), client, groups, order)
    {
      hide QueuesGrow, LateHeader, LateEntry;
      ghost var n := State();
      if groups == {} || IsPeer(Routes(), client) || client !in clients {
        order := Enumerate(Joinable(n, client, groups));
        NoEntry(n, client, groups, order);
        return;
      }
      headers := map k | k in headers && k in calls :: headers[k];
      ghost var m := State();
      order := TakeOnAll(client, groups);
      LateHeadersFrame(n, m, client, order);
      EnteredAll(n, m, client, groups, calls, queue, order);
    }

    method TakeOnAll(client: ClientId, groups: set<Gssi>) returns (ghost order: seq<CallId>)
      requires client in queue
      modifies `calls, `queue
      ensures EnteredSoFar(old(State()), client, groups, {}, calls, queue, order)
    {
      hide EnteredSoFar, LateHeader, LateHeaders;
      ghost var n := State();
      var todo := calls.Keys;
      order := [];
      NoneEntered(n, client, groups);
      while todo != {}
        invariant todo <= n.calls.Keys && client in queue
        invariant EnteredSoFar(n, client, groups, todo, calls, queue, order)
      {
        var id :| id in todo;
        assert todo - {id} + {id} == todo;
        todo := todo - {id};
        ghost var (c0, q0, o0) := (calls, queue, order);
        EnteredAt(n, client, groups, todo + {id}, calls, queue, order, id);
        var call := calls[id];
        if call.kind == Group && call.destination in groups && call.owner != client && client !in call.peers {
          LateHeaderFrame(n, State(), client, id);
          TakeOn(client, id);
          order := order + [id];
          EnteredStep(n, client, groups, todo, c0, q0, o0, id);
        } else {
          NotEnteredStep(n, client, groups, todo, c0, q0, o0, id);
        }
      }
    }

    method HandleSubscriber(source: ClientId, kind: SubKind, issi: Issi, groups: seq<Gssi>,
                            now: u64) returns (ghost order: seq<CallId>)
      requires Valid()
      modifies `clock, `subs, `groupClients, `sent, `calls, `headers, `queue
      ensures Valid()
      ensures var n1 := Subscribed(old(State()), source, kind, issi, groups, now);
        var joined := if source in old(links) then {} else JoinedGroups(n1.table, source, kind, issi);
        Lists(order, Joinable(n1, source, joined)) && State() == LateEntry(n1, source, joined, order)
    {
      hide OnSub, Joinable, LateEntry, JoinedGroups, IndexExact;
      var joined := RegisterChange(source, kind, issi, groups, now);
      order := EnterLate(source, joined);
    }

    /** The recipients of a frame, if its source may send. */
    method HandleFrame(source: ClientId, id: CallId) returns (packets: seq<Packet>)
      requires Valid()
      modifies `sending
      ensures Valid() && Lists(packets, FramePackets(old(State()), source, id))
      ensures State() == HandedOver(old(State()), Some(source), packets)
      ensures forall q :: q in packets <==>
        && id in calls && q.to in clients && q.to != source && q.msg == Voice(id, calls[id].kind)
        && if calls[id].kind == Group then source == calls[id].owner && q.to in calls[id].peers
           else (source == calls[id].owner || source in calls[id].peers)
                && (q.to == calls[id].owner || q.to in calls[id].peers)
    {
      forall q: Packet { CallRules.FrameRule(State(), source, id, q); }
      packets := [];
      if id !in calls {
        return;
      }
      var call := calls[id];
      var allowed := source in call.peers || call.owner == source;
      if call.kind == Group {
        allowed := call.owner == source;
      }
      if !allowed {
        return;
      }
      var recipients := call.peers;
      if call.kind == Private {
        recipients := recipients + {call.owner};
      }
      packets := Address(recipients - {source}, Voice(id, call.kind));
      HandOver(source, packets);
    }

    /** A prune takes the link off the call, but only off the turn it was meant
        for; the rest of the call and all others stay. */
    method HandlePrune(source: ClientId, id: CallId, from: Issi)
      requires Valid()
      modifies `calls
      ensures Valid() && State() == OnPrune(old(State()), source, id, from)
      ensures calls.Keys == old(calls).Keys && forall k :: k in calls && k != id ==> calls[k] == old(calls)[k]
      ensures id in calls ==>
        && calls[id] == old(calls)[id].(peers := calls[id].peers)
        && (forall c :: c != source ==> (c in calls[id].peers <==> c in old(calls)[id].peers))
        && (source in calls[id].peers <==>
              source in old(calls)[id].peers &&
                  !(source in links && calls[id].kind == Group && calls[id].source == from))
    {
      if source in links && id in calls && calls[id].kind == Group && calls[id].source == from {
        calls := calls[id := calls[id].(peers := calls[id].peers - {source})];
      }
    }

    /** A private set-up that is routed records the connection its destination is
        on as the one other party, which is never the caller's own; one that is
        not changes nothing. No other call is touched. */
    method HandlePrivateSetup(source: ClientId, id: CallId, from: Issi, dest: Issi,
                              priority: Priority) returns (packets: seq<Packet>)
      requires Valid()
      modifies `calls, `sending
      ensures Valid() && Lists(packets, SetupPackets(old(State()), source, id, from, dest))
      ensures State() ==
        HandedOver(OnPrivateSetup(old(State()), source, id, from, dest, priority), Some(source), packets)
      ensures forall k :: k != id ==> Get(calls, k) == Get(old(calls), k)
      ensures if dest in subs && subs[dest].client != source
        then && id in calls && calls[id].kind == Private && calls[id].owner == source && calls[id].source == from
             && calls[id].destination == dest && calls[id].peers == {subs[dest].client} && source !in calls[id].peers
        else calls == old(calls) && sending == old(sending)
      ensures forall q :: q in packets ==>
        q.to != source && dest in subs && q.to == subs[dest].client && q.to in clients
    {
      packets := [];
      if dest !in subs || subs[dest].client == source {
        return;
      }
      packets := Address({subs[dest].client}, SetupReq(id, from, dest));
      assert forall q :: q in packets ==> q in Elems(packets);
      calls := calls[id := Call(Private, source, from, dest, priority, {subs[dest].client})];
      HandOver(source, packets);
    }

    /** A hang-up by a party that may end the call, or its time-out: the call and
        its floor go, the others are to be told. */
    method EndCall(source: ClientId, id: CallId, timedOut: bool) returns (packets: seq<Packet>)
      requires Valid()
      modifies `calls, `floor, `sending, `background
      ensures Valid() && Lists(packets, EndPackets(old(State()), source, id))
      ensures State() == HandedOver(Removed(old(State()), source, id), if timedOut then None else Some(source), packets)
    {
      hide IndexExact, HandedOver, Lists, ToAll, Removed;
      ghost var n := State();
      packets := [];
      NothingHanded(n, if timedOut then None else Some(source));
      EndsNothing(n, source, id);
      if id !in calls {
        return;
      }
      var call := calls[id];
      if call.owner != source && (source !in call.peers || call.kind == Group) {
        return;
      }
      TakeOff(source, id);
      var recipients := call.peers;
      if call.kind == Private {
        recipients := recipients + {call.owner};
      }
      packets := Address(recipients - {source}, CallEnd(id));
      ToAllFrame(State(), n, recipients - {source}, CallEnd(id));
      if timedOut {
        LeaveBehind(packets);
      } else {
        HandOver(source, packets);
      }
    }

    /** The call and its floor go. */
    method TakeOff(source: ClientId, id: CallId)
      requires EndsIt(State(), source, id)
      modifies `calls, `floor
      ensures State() == Removed(old(State()), source, id)
    {
      var call := calls[id];
      calls := calls - {id};
      if call.kind == Group && call.destination in floor && floor[call.destination] == id {
        floor := floor - {call.destination};
      }
    }

    /** An alarm came up: the calls of `issi` become emergency calls, consoles
        and peer links join them; the headers are queued after the lock is released. */
    method EmergencyRaised(issi: Issi) returns (packets: seq<Packet>)
      requires Valid()
      modifies `calls, `background
      ensures Valid() && Lists(packets, AlarmPackets(old(State()), issi))
      ensures State() == HandedOver(OnAlarm(old(State()), issi), None, packets)
    {
      hide AlarmPackets, Lists, OnAlarm;
      packets := RaiseCalls(issi);
      LeaveBehind(packets);
    }

    method RaiseCalls(issi: Issi) returns (packets: seq<Packet>)
      modifies `calls
      ensures Lists(packets, AlarmPackets(old(State()), issi)) && State() == OnAlarm(old(State()), issi)
    {
      hide AlarmPackets, Lists, OnAlarm, ToAll, AlarmedSoFar;
      ghost var n := State();
      var joining := consoles + PeerLinks(Routes());
      var todo := Alarmed(State(), issi);
      packets := [];
      NoneAlarmed(n, issi);
      while todo != {}
        invariant todo <= Alarmed(n, issi)
        invariant AlarmedSoFar(n, issi, todo, calls, packets)
      {
        var id :| id in todo;
        assert todo - {id} + {id} == todo;
        todo := todo - {id};
        ghost var (c0, p0) := (calls, packets);
        AlarmedAt(n, issi, todo + {id}, calls, packets, id);
        var call := calls[id];
        var peers := call.peers + (joining - {call.owner});
        calls := calls[id := call.(priority := EMERGENCY_PRIORITY, peers := peers)];
        var more := Address(peers * joining, GroupTx(id, issi, call.destination, EMERGENCY_PRIORITY));
        packets := packets + more;
        ToAllFrame(State(), n, peers * joining, GroupTx(id, issi, call.destination, EMERGENCY_PRIORITY));
        AlarmedStep(n, issi, todo, c0, p0, id, more);
      }
      AlarmedAll(n, issi, calls, packets);
    }
  }

  /** What a GROUP_TX does and owes, case by case. */
  lemma GroupTxCases(cfg: Config, n: Node, source: ClientId, id: CallId, from: Issi, g: Gssi, priority: Priority,
                     emergency: bool,
                     duplicate: bool)
    ensures var (r, owed) := (OnGroupTx(cfg, n, source, id, from, g, priority, emergency, duplicate),
                              TxPackets(cfg, n, source, id, from, g, priority, emergency, duplicate));
      if IsPeer(n.table, source) && duplicate
      then owed == {} && r == if source in n.table.links then SendAll(n, {source}, FedPrune(id, from)) else n
      else if Rejected(cfg, n, id, g, priority) then owed == {} && r == n
      else
        var n1 := Preempted(cfg, n, id, g);
        && r == Recorded(cfg, n1, source, id, from, g, priority, emergency)
        && owed == HeaderPackets(n1, Targets(cfg, n1, source, id, from, g, emergency), GroupTx(id, from, g, priority),
                                 Raise(priority, emergency) != priority)
  {
  }

  /** Which legacy peers are told to register. */
  lemma PublishRegisters(t: Table, issi: Issi, prev: Option<Subscriber>)
    requires t.clients.Keys <= t.sent.Keys
    ensures forall l ::
      (&& l in t.clients && t.clients[l] == Peer && l !in t.links
       && (prev.Some? ==> prev.value.client != l) && (issi in t.subs ==> t.subs[issi].client != l)) ==>
        (var sent := Published(t, issi, prev).sent;
         && t.sent[l] <= sent[l]
         && ((exists m :: m in sent[l][|t.sent[l]|..] && m.SubMsg? && m.kind == Register && m.issi == issi) <==>
               issi in t.subs && (prev.None? || prev.value.route.reg != t.subs[issi].route.reg)))
  {
    hide Published;
    forall l | && l in t.clients && t.clients[l] == Peer && l !in t.links
               && (prev.Some? ==> prev.value.client != l) && (issi in t.subs ==> t.subs[issi].client != l)
      ensures var sent := Published(t, issi, prev).sent;
         && t.sent[l] <= sent[l]
         && ((exists m :: m in sent[l][|t.sent[l]|..] && m.SubMsg? && m.kind == Register && m.issi == issi) <==>
               issi in t.subs && (prev.None? || prev.value.route.reg != t.subs[issi].route.reg))
    {
      RouteRules.RegistersExactly(t, issi, prev, l);
    }
  }

  /** Who has the floor after a transmission that finds it taken. */
  lemma FloorAfter(cfg: Config, n: Node, n': Node, src: ClientId, id: CallId, from: Issi, g: Gssi, priority: Priority,
                   emergency: bool, duplicate: bool, packets: seq<Packet>)
    requires n' == HandedOver(OnGroupTx(cfg, n, src, id, from, g, priority, emergency, duplicate), Some(src), packets)
    requires Lists(packets, TxPackets(cfg, n, src, id, from, g, priority, emergency, duplicate))
    ensures (src in n.table.clients && n.table.clients[src] == Peer && duplicate)
      || cfg.allowMultiple || g !in n.floor || n.floor[g] == id || n.floor[g] !in n.calls
      || var (o, running) := (n.floor[g], n.calls[n.floor[g]].priority);
         if (if cfg.higherWins then priority > running else priority < running)
         then o !in n'.calls && id in n'.calls && n'.calls[id].owner == src && g in n'.floor && n'.floor[g] == id
         else n' == n && packets == []
  {
    hide OnGroupTx, TxPackets, Lists;
    if !(CallRules.PeerLink(n, src) && duplicate) && CallRules.Holds(cfg, n, g, id) {
      if CallRules.Better(cfg, priority, n.calls[n.floor[g]].priority) {
        CallRules.AcceptedRuns(cfg, n, src, id, from, g, priority, emergency, duplicate);
        assert Get(n'.calls, n.floor[g]) == None;
      } else {
        CallRules.NotBetterRejected(cfg, n, src, id, from, g, priority, emergency, duplicate);
        NoneListed(packets);
      }
    }
  }

  lemma NoneListed(packets: seq<Packet>)
    ensures Lists(packets, {}) ==> packets == []
  {
    if packets != [] { assert packets[0] in Elems(packets); }
  }

  lemma EndsNothing(n: Node, src: ClientId, id: CallId)
    ensures !EndsIt(n, src, id) ==> Removed(n, src, id) == n && Lists([], EndPackets(n, src, id))
  {
  }

  lemma NothingHanded(n: Node, src: Option<ClientId>)
    ensures HandedOver(n, src, []) == n
  {
  }

  /** Addressing looks at the live connections only. */
  lemma ToAllFrame(n: Node, m: Node, to: set<ClientId>, msg: CallMsg)
    requires n.table.clients == m.table.clients
    ensures ToAll(n, to, msg) == ToAll(m, to, msg)
  {
  }

  lemma {:induction false} Enumerate(s: set<CallId>) returns (order: seq<CallId>)
    ensures Lists(order, s)
  {
    if s == {} {
      order := [];
    } else {
      var x :| x in s;
      order := Enumerate(s - {x});
      assert x !in Elems(order);
      order := order + [x];
    }
  }

  /** The state of the loop that takes `c` on, `todo` not yet passed. */
  ghost predicate EnteredSoFar(n: Node, c: ClientId, groups: set<Gssi>, todo: set<CallId>, calls: map<CallId, Call>,
                               queue: map<ClientId, seq<CallMsg>>, order: seq<CallId>) {
    && Distinct(order)
    && (forall id :: id in order <==> id in Joinable(n, c, groups) && id !in todo)
    && (forall id: CallId :: Get(calls, id) ==
          if id in Joinable(n, c, groups) && id !in todo then Some(n.calls[id].(peers := n.calls[id].peers + {c}))
          else Get(n.calls, id))
    && c in n.queue && queue == n.queue[c := n.queue[c] + LateHeaders(n, c, order)]
  }

  lemma NoEntry(n: Node, c: ClientId, groups: set<Gssi>, order: seq<CallId>)
    requires !Enters(n, c, groups) && Lists(order, Joinable(n, c, groups))
    ensures LateEntry(n, c, groups, order) == n
  {
  }

  lemma EnteredAt(n: Node, c: ClientId, groups: set<Gssi>, todo: set<CallId>, calls: map<CallId, Call>,
                  queue: map<ClientId, seq<CallMsg>>, order: seq<CallId>, id: CallId)
    requires EnteredSoFar(n, c, groups, todo, calls, queue, order) && id in todo && id in n.calls
    ensures id in calls && calls[id] == n.calls[id] && c in queue
  {
    assert Get(calls, id) == Get(n.calls, id);
  }

  lemma LateHeaderFrame(n: Node, m: Node, c: ClientId, id: CallId)
    requires id in n.calls && id in m.calls && m.consoles == n.consoles && Get(m.headers, id) == Get(n.headers, id)
    requires m.calls[id] == n.calls[id].(peers := m.calls[id].peers)
    ensures LateHeader(m, c, id) == LateHeader(n, c, id)
  {
  }

  lemma EnteredStep(n: Node, c: ClientId, groups: set<Gssi>, todo: set<CallId>, calls: map<CallId, Call>,
                    queue: map<ClientId, seq<CallMsg>>, order: seq<CallId>, id: CallId)
    requires id in Joinable(n, c, groups) && id !in todo && EnteredSoFar(n, c, groups, todo + {id}, calls, queue, order)
    ensures EnteredSoFar(n, c, groups, todo, calls[id := n.calls[id].(peers := n.calls[id].peers + {c})],
                         queue[c := queue[c] + [LateHeader(n, c, id)]], order + [id])
  {
    hide LateHeader;
    var calls' := calls[id := n.calls[id].(peers := n.calls[id].peers + {c})];
    forall j: CallId ensures Get(calls', j) ==
      if j in Joinable(n, c, groups) && j !in todo then Some(n.calls[j].(peers := n.calls[j].peers + {c}))
        else Get(n.calls, j)
    {
      assert j != id ==> Get(calls', j) == Get(calls, j);
    }
    assert LateHeaders(n, c, order + [id]) == LateHeaders(n, c, order) + [LateHeader(n, c, id)];
    assert queue[c] + [LateHeader(n, c, id)] == n.queue[c] + LateHeaders(n, c, order + [id]);
  }

  lemma NotEnteredStep(n: Node, c: ClientId, groups: set<Gssi>, todo: set<CallId>, calls: map<CallId, Call>,
                       queue: map<ClientId, seq<CallMsg>>, order: seq<CallId>, id: CallId)
    requires id !in Joinable(n, c, groups) && EnteredSoFar(n, c, groups, todo + {id}, calls, queue, order)
    ensures EnteredSoFar(n, c, groups, todo, calls, queue, order)
  {
    hide LateHeader;
  }

  lemma NoneEntered(n: Node, c: ClientId, groups: set<Gssi>)
    requires c in n.queue
    ensures EnteredSoFar(n, c, groups, n.calls.Keys, n.calls, n.queue, [])
  {
    assert n.queue[c] + LateHeaders(n, c, []) == n.queue[c];
  }

  /** Pruning stored headers of ended calls changes no late header. */
  lemma LateHeadersFrame(n: Node, m: Node, c: ClientId, order: seq<CallId>)
    requires m == n.(headers := map k | k in n.headers && k in n.calls :: n.headers[k])
    ensures forall id :: id in n.calls ==> LateHeader(m, c, id) == LateHeader(n, c, id)
    ensures (forall id :: id in order ==> id in n.calls) ==> LateHeaders(m, c, order) == LateHeaders(n, c, order)
  {
  }

  lemma EnteredAll(n: Node, m: Node, c: ClientId, groups: set<Gssi>, calls: map<CallId, Call>,
                   queue: map<ClientId, seq<CallMsg>>, order: seq<CallId>)
    requires EnteredSoFar(m, c, groups, {}, calls, queue, order) && Enters(n, c, groups)
    requires m == n.(headers := map k | k in n.headers && k in n.calls :: n.headers[k])
    requires LateHeaders(m, c, order) == LateHeaders(n, c, order)
    ensures Lists(order, Joinable(n, c, groups))
    ensures LateEntry(n, c, groups, order) == m.(calls := calls, queue := queue)
  {
    hide LateHeader, LateHeaders;
    assert Joinable(m, c, groups) == Joinable(n, c, groups);
    assert Elems(order) == Joinable(n, c, groups);
    var d := LateEntry(n, c, groups, order);
    forall k: CallId ensures Get(calls, k) == Get(d.calls, k) { }
    SameMap(calls, d.calls);
  }

  /** A raised header of a call the loop has passed. */
  ghost predicate AlarmNotice(n: Node, issi: Issi, todo: set<CallId>, q: Packet) {
    && q.msg.GroupTx? && q.msg.id in Alarmed(n, issi) && q.msg.id !in todo && q.msg == AlarmHeader(n, q.msg.id)
    && q.to in AlarmPeers(n, q.msg.id) * (n.consoles + PeerLinks(n.table)) && q.to in n.table.clients
  }

  /** The state of the loop over the alarmed calls. */
  ghost predicate AlarmedSoFar(n: Node, issi: Issi, todo: set<CallId>, calls: map<CallId, Call>, packets: seq<Packet>) {
    && Distinct(packets)
    && (forall q :: q in packets <==> AlarmNotice(n, issi, todo, q))
    && forall id: CallId :: Get(calls, id) ==
          if id in Alarmed(n, issi) && id !in todo
          then Some(n.calls[id].(priority := EMERGENCY_PRIORITY, peers := AlarmPeers(n, id))) else Get(n.calls, id)
  }

  lemma NoneAlarmed(n: Node, issi: Issi)
    ensures AlarmedSoFar(n, issi, Alarmed(n, issi), n.calls, [])
  {
  }

  lemma AlarmedAt(n: Node, issi: Issi, todo: set<CallId>, calls: map<CallId, Call>, packets: seq<Packet>, id: CallId)
    requires AlarmedSoFar(n, issi, todo, calls, packets) && id in todo && id in n.calls
    ensures id in calls && calls[id] == n.calls[id]
  {
    assert Get(calls, id) == Get(n.calls, id);
  }

  lemma JoinDistinct(a: seq<Packet>, b: seq<Packet>)
    requires Distinct(a) && Distinct(b) && forall q :: q in a ==> q !in b
    ensures Distinct(a + b) && forall q :: q in a + b <==> q in a || q in b
  {
    forall i, j | 0 <= i < j < |a + b| ensures (a + b)[i] != (a + b)[j] {
      if i < |a| <= j { assert a[i] in a && b[j - |a|] in b; }
    }
  }

  lemma AlarmedStep(n: Node, issi: Issi, todo: set<CallId>, calls: map<CallId, Call>, packets: seq<Packet>,
                    id: CallId, more: seq<Packet>)
    requires id in Alarmed(n, issi) && id !in todo && AlarmedSoFar(n, issi, todo + {id}, calls, packets)
    requires Lists(more, ToAll(n, AlarmPeers(n, id) * (n.consoles + PeerLinks(n.table)), AlarmHeader(n, id)))
    ensures AlarmedSoFar(n, issi, todo,
                         calls[id := n.calls[id].(priority := EMERGENCY_PRIORITY, peers := AlarmPeers(n, id))],
                             packets + more)
  {
    hide AlarmPeers;
    var raised := n.calls[id].(priority := EMERGENCY_PRIORITY, peers := AlarmPeers(n, id));
    forall j: CallId ensures Get(calls[id := raised], j) ==
      if j in Alarmed(n, issi) && j !in todo
      then Some(n.calls[j].(priority := EMERGENCY_PRIORITY, peers := AlarmPeers(n, j))) else Get(n.calls, j)
    {
      assert j != id ==> Get(calls[id := raised], j) == Get(calls, j);
    }
    assert forall q :: q in more <==> q in Elems(more);
    JoinDistinct(packets, more);
  }

  lemma AlarmedAll(n: Node, issi: Issi, calls: map<CallId, Call>, packets: seq<Packet>)
    requires AlarmedSoFar(n, issi, {}, calls, packets)
    ensures Lists(packets, AlarmPackets(n, issi))
    ensures OnAlarm(n, issi) == n.(calls := calls)
  {
    hide AlarmPeers;
    forall q ensures q in packets <==> q in AlarmPackets(n, issi) {
      assert q in packets <==> AlarmNotice(n, issi, {}, q);
    }
    assert Elems(packets) == AlarmPackets(n, issi);
    var d := OnAlarm(n, issi);
    forall k: CallId ensures Get(calls, k) == Get(d.calls, k) { }
    SameMap(calls, d.calls);
  }

  /** What a call is after the connections loop has passed over all but `todo`. */
  ghost function CallLeft(n: Node, id: ClientId, todo: set<CallId>, k: CallId): Option<Call> {
    if k !in n.calls then None
    else if k in todo then Some(n.calls[k])
    else if DiesWith(n.calls[k], id) then None
    else Some(n.calls[k].(peers := n.calls[k].peers - {id}))
  }

  ghost function FloorLeft(n: Node, id: ClientId, todo: set<CallId>, g: Gssi): Option<CallId> {
    if g in n.floor && n.floor[g] !in todo && RunningGroup(n, n.floor[g], g) && n.calls[n.floor[g]].owner == id
    then None else Get(n.floor, g)
  }

  /** The notice of a call the loop has passed and ended. */
  ghost predicate EndNotice(n: Node, id: ClientId, todo: set<CallId>, q: Packet) {
    && q.msg.CallEnd? && q.msg.id in n.calls && q.msg.id !in todo && DiesWith(n.calls[q.msg.id], id)
    && q.to in Listeners(n.calls[q.msg.id], id) && q.to in n.table.clients
  }

  /** The state of the loop over the calls of a departed connection. */
  ghost predicate Passed(n: Node, id: ClientId, todo: set<CallId>, calls: map<CallId, Call>, floor: map<Gssi, CallId>,
                         packets: seq<Packet>) {
    && Distinct(packets)
    && (forall q :: q in packets <==> EndNotice(n, id, todo, q))
    && (forall k: CallId :: Get(calls, k) == CallLeft(n, id, todo, k))
    && (forall g: Gssi :: Get(floor, g) == FloorLeft(n, id, todo, g))
  }

  lemma NothingPassed(n: Node, id: ClientId)
    ensures Passed(n, id, n.calls.Keys, n.calls, n.floor, [])
  {
  }

  lemma PassedAt(n: Node, id: ClientId, todo: set<CallId>, calls: map<CallId, Call>, floor: map<Gssi, CallId>,
                 packets: seq<Packet>, k: CallId)
    requires Passed(n, id, todo, calls, floor, packets) && k in todo && k in n.calls
    ensures k in calls && calls[k] == n.calls[k]
  {
    assert Get(calls, k) == CallLeft(n, id, todo, k);
  }

  lemma PassedListening(n: Node, id: ClientId, todo: set<CallId>, k: CallId, calls: map<CallId, Call>,
                        floor: map<Gssi, CallId>,
                        packets: seq<Packet>)
    requires k in n.calls && k !in todo && !DiesWith(n.calls[k], id)
    requires Passed(n, id, todo + {k}, calls, floor, packets)
    ensures Passed(n, id, todo, calls[k := n.calls[k].(peers := n.calls[k].peers - {id})], floor, packets)
  {
    var calls' := calls[k := n.calls[k].(peers := n.calls[k].peers - {id})];
    forall j ensures Get(calls', j) == CallLeft(n, id, todo, j) {
      assert Get(calls, j) == CallLeft(n, id, todo + {k}, j);
    }
    forall g ensures Get(floor, g) == FloorLeft(n, id, todo, g) {
      assert Get(floor, g) == FloorLeft(n, id, todo + {k}, g);
    }
  }

  lemma PassedDying(n: Node, id: ClientId, todo: set<CallId>, k: CallId, calls: map<CallId, Call>, floor: map<Gssi,
                    CallId>,
                    packets: seq<Packet>, more: seq<Packet>)
    requires k in n.calls && k !in todo && DiesWith(n.calls[k], id)
    requires Passed(n, id, todo + {k}, calls, floor, packets)
    requires Lists(more, ToAll(n, Listeners(n.calls[k], id), CallEnd(k)))
    ensures var call := n.calls[k];
      Passed(n, id, todo, calls - {k},
        if call.kind == Group && call.destination in floor && floor[call.destination] == k
        then floor - {call.destination} else floor,
        packets + more)
  {
    hide Listeners;
    forall j ensures Get(calls - {k}, j) == CallLeft(n, id, todo, j) {
      assert Get(calls, j) == CallLeft(n, id, todo + {k}, j);
    }
    FloorPassed(n, id, todo, k, floor);
    assert forall q :: q in more <==> q in Elems(more);
    JoinDistinct(packets, more);
  }

  lemma FloorPassed(n: Node, id: ClientId, todo: set<CallId>, k: CallId, floor: map<Gssi, CallId>)
    requires k in n.calls && k !in todo && DiesWith(n.calls[k], id)
    requires forall g: Gssi :: Get(floor, g) == FloorLeft(n, id, todo + {k}, g)
    ensures var call := n.calls[k];
      var floor' := if call.kind == Group && call.destination in floor && floor[call.destination] == k
                    then floor - {call.destination} else floor;
      forall g: Gssi :: Get(floor', g) == FloorLeft(n, id, todo, g)
  {
    var call := n.calls[k];
    var floor' := if call.kind == Group && call.destination in floor && floor[call.destination] == k
      then floor - {call.destination} else floor;
    forall g ensures Get(floor', g) == FloorLeft(n, id, todo, g) {
      assert Get(floor, g) == FloorLeft(n, id, todo + {k}, g);
    }
  }

  lemma LeftIs(n: Node, id: ClientId, calls: map<CallId, Call>, floor: map<Gssi, CallId>, packets: seq<Packet>)
    requires Passed(n, id, {}, calls, floor, packets)
    ensures Lists(packets, GonePackets(n, id, n.table))
    ensures Disconnected(n, id, n.table) == n.(calls := calls, floor := floor, consoles := n.consoles - {id})
  {
    forall q ensures q in packets <==> q in GonePackets(n, id, n.table) {
      assert q in packets <==> EndNotice(n, id, {}, q);
    }
    assert Elems(packets) == GonePackets(n, id, n.table);
    var d := Disconnected(n, id, n.table);
    forall k: CallId ensures Get(calls, k) == Get(d.calls, k) { }
    forall g: Gssi ensures Get(floor, g) == Get(d.floor, g) { }
    SameMap(calls, d.calls);
    SameMap(floor, d.floor);
  }

  lemma SameMap<K(!new), V>(a: map<K, V>, b: map<K, V>)
    requires forall k :: Get(a, k) == Get(b, k)
    ensures a == b
  {
    forall k ensures k in a <==> k in b { assert Get(a, k) == Get(b, k); }
    forall k | k in a ensures a[k] == b[k] { assert Get(a, k) == Get(b, k); }
  }

  /** The state of the loop over the affected ISSIs. */
  ghost predicate PartlyDropped(t: Table, id: ClientId, done: seq<Issi>, subs: Subs, rib: Rib) {
    && (forall i ::
          Get(subs, i) == if i in done && i in t.subs && t.subs[i].client == id then None else Get(t.subs, i))
    && (forall i :: i in done ==> OffersOf(rib, i) == OffersOf(t.rib, i) - {id})
    && (forall i :: i !in done ==> Get(rib, i) == Get(t.rib, i))
    && (forall i :: i in rib ==> rib[i] != map[])
  }

  lemma DropStep(t: Table, id: ClientId, done: seq<Issi>, x: Issi, subs: Subs, rib: Rib, subs': Subs, rib': Rib)
    requires PartlyDropped(t, id, done, subs, rib) && x !in done
    requires rib' == WithdrawOffer(rib, x, id)
    requires subs' == if x in subs && subs[x].client == id then subs - {x} else subs
    ensures PartlyDropped(t, id, done + [x], subs', rib')
  {
    forall i
      ensures Get(subs', i) ==
        (if i in done + [x] && i in t.subs && t.subs[i].client == id then None else Get(t.subs, i))
    {
      assert Get(subs, i) == (if i in done && i in t.subs && t.subs[i].client == id then None else Get(t.subs, i));
    }
    assert Get(rib, x) == Get(t.rib, x);
    forall i | i in done + [x] ensures OffersOf(rib', i) == OffersOf(t.rib, i) - {id} { }
    forall i | i !in done + [x] ensures Get(rib', i) == Get(t.rib, i) {
      assert Get(rib, i) == Get(t.rib, i);
    }
  }

  lemma DroppedIs(t: Table, id: ClientId, issis: seq<Issi>, subs: Subs, rib: Rib)
    requires Elems(issis) == Affected(t, id)
    requires PartlyDropped(t, id, issis, subs, rib)
    requires forall i :: i in t.rib ==> t.rib[i] != map[]
    ensures Dropped(t, id) == t.(clients := t.clients - {id}, links := t.links - {id}, subs := subs, rib := rib)
  {
    hide PartlyDropped, Affected, Elems;
    var d := Dropped(t, id);
    forall i ensures Get(subs, i) == Get(d.subs, i) { DroppedSub(t, id, issis, subs, rib, i); }
    forall i ensures Get(rib, i) == Get(d.rib, i) { DroppedOffersAt(t, id, issis, subs, rib, i); }
    SameMap(subs, d.subs);
    SameMap(rib, d.rib);
  }

  lemma DroppedSub(t: Table, id: ClientId, issis: seq<Issi>, subs: Subs, rib: Rib, i: Issi)
    requires Elems(issis) == Affected(t, id) && PartlyDropped(t, id, issis, subs, rib)
    ensures Get(subs, i) == Get(Dropped(t, id).subs, i)
  {
    assert i in issis <==> i in Affected(t, id);
  }

  lemma DroppedOffersAt(t: Table, id: ClientId, issis: seq<Issi>, subs: Subs, rib: Rib, i: Issi)
    requires Elems(issis) == Affected(t, id) && PartlyDropped(t, id, issis, subs, rib)
    requires forall j :: j in t.rib ==> t.rib[j] != map[]
    ensures Get(rib, i) == Get(Dropped(t, id).rib, i)
  {
    assert i in issis <==> i in Affected(t, id);
    if i in issis { assert OffersOf(Dropped(t, id).rib, i) == OffersOf(t.rib, i) - {id}; }
  }

  /** With every entry of a connection gone, dropping it from all groups is exact. */
  lemma DroppedIndex(t: Table, id: ClientId, index: Index, index': Index)
    requires IndexExact(index, t.subs)
    requires index' == WithoutMember(index, id)
    ensures IndexExact(index', Dropped(t, id).subs)
  {
    var subs := Dropped(t, id).subs;
    forall g: Gssi ensures At(index', g) == Members(subs, g) {
      assert At(index', g) == At(index, g) - {id};
      forall c ensures c in Members(subs, g) <==> c in Members(t.subs, g) - {id} {
        if i :| i in t.subs && g in t.subs[i].groups && t.subs[i].client == c && c != id { assert i in subs; }
        if i :| i in subs && g in subs[i].groups && subs[i].client == c { assert i in t.subs; }
      }
    }
  }

  /** The calls part of a disconnect does not look at the table it started from. */
  lemma DisconnectedFrame(n: Node, m: Node, id: ClientId)
    requires m == n.(table := m.table, consoles := n.consoles - {id})
    ensures GonePackets(m, id, m.table) == GonePackets(n, id, m.table)
    ensures Disconnected(n, id, m.table) == Disconnected(m, id, m.table)
  {
    assert n.consoles - {id} - {id} == n.consoles - {id};
    assert Dying(m, id) == Dying(n, id);
  }

  lemma NothingToTell(t: Table, issi: Issi, prev: Option<Subscriber>)
    requires Same(prev, Get(t.subs, issi))
    ensures Published(t, issi, prev) == t
  {
    assert forall l :: l in t.sent ==> t.sent[l] + [] == t.sent[l];
    assert Published(t, issi, prev).sent == t.sent;
  }

  lemma NothingDropped(rib: Rib, issi: Issi, link: ClientId)
    requires link !in OffersOf(rib, issi) && (issi in rib ==> rib[issi] != map[])
    ensures WithdrawOffer(rib, issi, link) == rib
  {
    if issi in rib { assert rib[issi] - {link} == rib[issi]; }
  }
}
