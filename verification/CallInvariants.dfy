/** What every reachable state of the group-call machine satisfies. */
module CallInvariants {
  import opened FedTypes
  import opened RouteTable
  import opened TableInvariant
  import opened Propagation
  import opened GroupCalls

  datatype CallEvent =
    | Advertised(e: Event)
    | Subscribe(src: ClientId, kind: SubKind, issi: Issi, groups: seq<Gssi>, now: u64, order: seq<CallId>)
    | Join(id: ClientId, mode: Mode, neighbour: Option<ServerId>, console: bool)
    | Leave(id: ClientId, packets: seq<Packet>)
    | Transmit(src: ClientId, call: CallId, from: Issi, group: Gssi, priority: Priority, emergency: bool,
               duplicate: bool,
               packets: seq<Packet>)
    | Alarm(issi: Issi, packets: seq<Packet>)
    | Frame(src: ClientId, call: CallId, packets: seq<Packet>)
    | Prune(src: ClientId, call: CallId, from: Issi)
    | Setup(src: ClientId, call: CallId, from: Issi, dest: Issi, priority: Priority, packets: seq<Packet>)
    | End(src: ClientId, call: CallId, timedOut: bool, packets: seq<Packet>)
    | Sent(src: ClientId)
    | BackgroundSent(k: nat)

  ghost function Subscribed(n: Node, src: ClientId, kind: SubKind, issi: Issi, groups: seq<Gssi>, now: u64): Node {
    n.(table := OnSub(n.table, src, kind, issi, groups, now))
  }

  /** What the handler of an event has to send once it released the lock. */
  ghost function Owed(cfg: Config, n: Node, ev: CallEvent): set<Packet> {
    match ev
    case Leave(id, _) => GonePackets(n, id, Cleanup(n.table, id))
    case Transmit(src, call, from, group, priority, emergency, duplicate, _) =>
      TxPackets(cfg, n, src, call, from, group, priority, emergency, duplicate)
    case Alarm(issi, _) => AlarmPackets(n, issi)
    case Frame(src, call, _) => FramePackets(n, src, call)
    case Setup(src, call, from, dest, _, _) => SetupPackets(n, src, call, from, dest)
    case End(src, call, _, _) => EndPackets(n, src, call)
    case _ => {}
  }

  /** The order in which it will. */
  function PacketsOf(ev: CallEvent): seq<Packet> {
    match ev
    case Leave(_, packets) => packets
    case Transmit(_, _, _, _, _, _, _, packets) => packets
    case Alarm(_, packets) => packets
    case Frame(_, _, packets) => packets
    case Setup(_, _, _, _, _, packets) => packets
    case End(_, _, _, packets) => packets
    case _ => []
  }

  /** The connection whose message an event is the handling of. */
  function Source(ev: CallEvent): Option<ClientId> {
    match ev
    case Subscribe(src, _, _, _, _, _) => Some(src)
    case Transmit(src, _, _, _, _, _, _, _) => Some(src)
    case Frame(src, _, _) => Some(src)
    case Prune(src, _, _) => Some(src)
    case Setup(src, _, _, _, _, _) => Some(src)
    case End(src, _, timedOut, _) => if timedOut then None else Some(src)
    case _ => None
  }

  /** One connection's messages are handled one at a time, so a source whose
      handler still has packets to queue does nothing else; calls may also be
      ended by the time-out, in the name of their owner. */
  ghost predicate Possible(cfg: Config, n: Node, ev: CallEvent) {
    && (Source(ev).Some? ==> Source(ev).value in n.table.clients && Source(ev).value !in n.sending)
    && Lists(PacketsOf(ev), Owed(cfg, n, ev))
    && match ev
       case Advertised(e) => (e.RouteIn? || e.WithdrawIn?) && Enabled(n.table, e)
       case Subscribe(src, kind, issi, groups, now, order) =>
         var n1 := Subscribed(n, src, kind, issi, groups, now);
         Lists(order, Joinable(n1, src, if src in n.table.links then {} else JoinedGroups(n1.table, src, kind, issi)))
       case Join(id, mode, neighbour, console) => id !in n.queue && Enabled(n.table, LinkUp(id, mode, neighbour))
       case Leave(id, _) => id !in n.sending
       case Sent(src) => src in n.sending && n.sending[src] != []
       case BackgroundSent(k) => k < |n.background| && n.background[k] != []
       case _ => true
  }

  /** What an event does under the lock. */
  ghost function Acted(cfg: Config, n: Node, ev: CallEvent): Node
    requires Possible(cfg, n, ev)
  {
    match ev
    case Advertised(e) => n.(table := Next(n.table, e))
    case Subscribe(src, kind, issi, groups, now, order) =>
      var n1 := Subscribed(n, src, kind, issi, groups, now);
      LateEntry(n1, src, if src in n.table.links then {} else JoinedGroups(n1.table, src, kind, issi), order)
    case Join(id, mode, neighbour, console) =>
      n.(table := Attach(n.table, id, mode, neighbour), queue := n.queue[id := []],
         consoles := if console then n.consoles + {id} else n.consoles)
    case Leave(id, _) => Disconnected(n, id, Cleanup(n.table, id))
    case Transmit(src, call, from, group, priority, emergency, duplicate, _) =>
      OnGroupTx(cfg, n, src, call, from, group, priority, emergency, duplicate)
    case Alarm(issi, _) => OnAlarm(n, issi)
    case Prune(src, call, from) => OnPrune(n, src, call, from)
    case Setup(src, call, from, dest, priority, _) => OnPrivateSetup(n, src, call, from, dest, priority)
    case End(src, call, _, _) => Removed(n, src, call)
    case _ => n
  }

  /** The state after an event, its packets waiting; or one packet further. */
  ghost function After(cfg: Config, n: Node, ev: CallEvent): (r: Node)
    requires Possible(cfg, n, ev)
    ensures r == Acted(cfg, n, ev).(queue := r.queue, sending := r.sending, background := r.background)
    ensures !ev.Sent? && !ev.BackgroundSent? ==> r.queue == Acted(cfg, n, ev).queue
  {
    match ev
    case Sent(src) => SentOne(n, src)
    case BackgroundSent(k) => BackgroundOne(n, k)
    case _ => HandedOver(Acted(cfg, n, ev), Source(ev), PacketsOf(ev))
  }

  function Start(selfId: ServerId): Node {
    Node(Initial(selfId), {}, map[], map[], map[], map[], map[], [])
  }

  // ----- one call per group -----

  /** The floor of a group is held by exactly the running call to it. */
  ghost predicate FloorExact(n: Node) {
    forall g: Gssi, id: CallId :: Get(n.floor, g) == Some(id) <==> RunningGroup(n, id, g)
  }

  /** A call uuid keeps its kind and group for as long as the call runs. */
  ghost predicate KeepsKind(n: Node, ev: CallEvent) {
    && (ev.Transmit? && ev.call in n.calls && n.calls[ev.call].kind == Group ==>
        n.calls[ev.call].destination == ev.group)
    && (ev.Setup? && ev.call in n.calls ==> n.calls[ev.call].kind == Private)
  }

  lemma FloorTransmit(cfg: Config, n: Node, ev: CallEvent)
    requires !cfg.allowMultiple && FloorExact(n) && ev.Transmit? && Possible(cfg, n, ev) && KeepsKind(n, ev)
    ensures FloorExact(After(cfg, n, ev))
  {
    hide After, Acted, Owed, Lists;
    var n' := After(cfg, n, ev);
    TransmitTakes(cfg, n, ev);
    forall g: Gssi, id: CallId ensures Get(n'.floor, g) == Some(id) <==> RunningGroup(n', id, g) {
      assert Get(n.floor, g) == Some(id) <==> RunningGroup(n, id, g);
      assert Get(n.floor, ev.group) == Some(id) <==> RunningGroup(n, id, ev.group);
    }
  }

  /** A transmission leaves calls and floor alone, or takes the floor of its group
      from whoever held it. */
  lemma TransmitTakes(cfg: Config, n: Node, ev: CallEvent)
    requires ev.Transmit? && Possible(cfg, n, ev)
    ensures var (n', o) := (After(cfg, n, ev), Occupant(cfg, n, ev.group, ev.call));
      || (n'.calls == n.calls && n'.floor == n.floor)
      || (n'.floor == n.floor[ev.group := ev.call] && ev.call in n'.calls
          && n'.calls[ev.call].kind == Group && n'.calls[ev.call].destination == ev.group
          && forall id :: id != ev.call ==> Get(n'.calls, id) == if o == Some(id) then None else Get(n.calls, id))
  {
    hide After, Owed, Lists, Targets, SendAll;
  }

  lemma FloorStep(cfg: Config, n: Node, ev: CallEvent)
    requires !cfg.allowMultiple && FloorExact(n) && Possible(cfg, n, ev) && KeepsKind(n, ev)
    ensures FloorExact(After(cfg, n, ev))
  {
    hide Next, OnSub, Cleanup, Attach, OnGroupTx, After, Owed, Lists;
    if ev.Transmit? {
      FloorTransmit(cfg, n, ev);
      return;
    }
    forall g: Gssi, id: CallId
      ensures Get(After(cfg, n, ev).floor, g) == Some(id) <==> RunningGroup(After(cfg, n, ev), id, g)
    {
      FloorAt(cfg, n, ev, g, id);
    }
  }

  lemma FloorAt(cfg: Config, n: Node, ev: CallEvent, g: Gssi, id: CallId)
    requires FloorExact(n) && Possible(cfg, n, ev) && KeepsKind(n, ev) && !ev.Transmit?
    ensures Get(After(cfg, n, ev).floor, g) == Some(id) <==> RunningGroup(After(cfg, n, ev), id, g)
  {
    hide Next, OnSub, Cleanup, Attach, OnGroupTx, After, Owed, Lists, Removed, Disconnected, OnAlarm, Elems, Joinable,
         JoinedGroups;
    assert Get(n.floor, g) == Some(id) <==> RunningGroup(n, id, g);
    if ev.End? {
      FloorRemoved(n, ev.src, ev.call, g, id);
    } else if ev.Leave? {
      FloorDisconnected(n, ev.id, Cleanup(n.table, ev.id), g, id);
    } else if ev.Alarm? {
      FloorAlarmed(n, ev.issi, g, id);
    }
  }

  lemma FloorRemoved(n: Node, src: ClientId, call: CallId, g: Gssi, id: CallId)
    requires Get(n.floor, g) == Some(id) <==> RunningGroup(n, id, g)
    ensures var n' := Removed(n, src, call); Get(n'.floor, g) == Some(id) <==> RunningGroup(n', id, g)
  {
  }

  lemma FloorDisconnected(n: Node, gone: ClientId, t': Table, g: Gssi, id: CallId)
    requires Get(n.floor, g) == Some(id) <==> RunningGroup(n, id, g)
    ensures var n' := Disconnected(n, gone, t'); Get(n'.floor, g) == Some(id) <==> RunningGroup(n', id, g)
  {
  }

  lemma FloorAlarmed(n: Node, issi: Issi, g: Gssi, id: CallId)
    requires Get(n.floor, g) == Some(id) <==> RunningGroup(n, id, g)
    ensures var n' := OnAlarm(n, issi); Get(n'.floor, g) == Some(id) <==> RunningGroup(n', id, g)
  {
  }

  /** Breaking the uuid rule breaks the floor: an accepted transmission keeps it
      exact if and only if its uuid is not running as a call to another group. */
  lemma TransmitKeepsFloorIff(cfg: Config, n: Node, ev: CallEvent)
    requires !cfg.allowMultiple && FloorExact(n) && Possible(cfg, n, ev) && ev.Transmit?
    requires !TurnedAway(cfg, n, ev.src, ev.call, ev.group, ev.priority, ev.duplicate)
    ensures FloorExact(After(cfg, n, ev)) <==>
      !(ev.call in n.calls && n.calls[ev.call].kind == Group && n.calls[ev.call].destination != ev.group)
  {
    hide Targets;
    if ev.call in n.calls && n.calls[ev.call].kind == Group && n.calls[ev.call].destination != ev.group {
      var g := n.calls[ev.call].destination;
      var n' := After(cfg, n, ev);
      assert RunningGroup(n, ev.call, g);
      assert Get(n'.floor, g) == Some(ev.call) && !RunningGroup(n', ev.call, g);
    } else {
      FloorStep(cfg, n, ev);
    }
  }

  lemma SetupKeepsFloorIff(cfg: Config, n: Node, ev: CallEvent)
    requires FloorExact(n) && Possible(cfg, n, ev) && ev.Setup?
    requires Routable(n, ev.src, ev.dest)
    ensures FloorExact(After(cfg, n, ev)) <==> !(ev.call in n.calls && n.calls[ev.call].kind == Group)
  {
    var n' := After(cfg, n, ev);
    if ev.call in n.calls && n.calls[ev.call].kind == Group {
      var g := n.calls[ev.call].destination;
      assert RunningGroup(n, ev.call, g);
      assert Get(n'.floor, g) == Some(ev.call) && !RunningGroup(n', ev.call, g);
    } else {
      forall g: Gssi, id: CallId ensures Get(n'.floor, g) == Some(id) <==> RunningGroup(n', id, g) {
        assert Get(n.floor, g) == Some(id) <==> RunningGroup(n, id, g);
      }
    }
  }

  ghost predicate OwnerApart(n: Node) {
    forall id :: id in n.calls ==> n.calls[id].owner !in n.calls[id].peers
  }

  lemma OwnerApartStep(cfg: Config, n: Node, ev: CallEvent)
    requires OwnerApart(n) && Possible(cfg, n, ev)
    ensures OwnerApart(After(cfg, n, ev))
  {
    hide Next, OnSub, Cleanup, Attach, OnGroupTx, After, Owed, Lists, SendAll, LateHeaders, WithoutFloor, JoinedGroups;
    if ev.Transmit? { OwnerApartTransmit(cfg, n, ev); }
  }

  lemma OwnerApartTransmit(cfg: Config, n: Node, ev: CallEvent)
    requires OwnerApart(n) && Possible(cfg, n, ev) && ev.Transmit?
    ensures OwnerApart(After(cfg, n, ev))
  {
    hide After, Owed, Lists, SendAll, Members;
  }

  // ----- late entry -----

  /** Every non-peer member of a group is on every running call to it. */
  ghost predicate Covered(n: Node) {
    forall id: CallId, c: ClientId ::
      id in n.calls && n.calls[id].kind == Group && c in Members(n.table.subs, n.calls[id].destination) &&
          !IsPeer(n.table, c)
      ==> c == n.calls[id].owner || c in n.calls[id].peers
  }

  /** A table step can bring a non-peer connection into a group only by that
      connection's own registration or affiliation. */
  lemma NewMember(t: Table, e: Event, c: ClientId, g: Gssi)
    requires TableOk(t) && Enabled(t, e) && TableOk(Next(t, e))
    requires c in Members(Next(t, e).subs, g) && !IsPeer(Next(t, e), c)
    ensures (c in Members(t.subs, g) && !IsPeer(t, c) && !(e.LinkDown? && e.id == c))
      || (e.SubIn? && e.src == c && g in JoinedGroups(Next(t, e), e.src, e.kind, e.issi))
  {
    hide Next;
    var t' := Next(t, e);
    NextShape(t, e);
    var i :| i in t'.subs && g in t'.subs[i].groups && t'.subs[i].client == c;
    assert EntryOk(t', i);
    EntryMeaning(t', i);
    LocalEntryComesFrom(t, e, i);
    assert EntryOk(t, i);
  }

  lemma LocalEntryComesFrom(t: Table, e: Event, i: Issi)
    requires TableOk(t) && Enabled(t, e) && EntryOk(Next(t, e), i)
    requires (forall l :: l in Next(t, e).links ==> IsPeer(Next(t, e), l))
    requires i in Next(t, e).subs && !IsPeer(Next(t, e), Next(t, e).subs[i].client)
    ensures var s := Next(t, e).subs[i];
      (i in t.subs && t.subs[i].client == s.client && s.groups <= t.subs[i].groups)
      || (e.SubIn? && e.src == s.client && e.issi == i && e.kind in {Register, Reregister, Affiliate})
  {
    hide EntryOk, Next;
    assert Next(t, e).subs[i].client !in OffersOf(Next(t, e).rib, i) by {
      OffersFromPeers(Next(t, e), i);
    }
    EntryComesFrom(t, e, i);
  }

  lemma OffersFromPeers(t: Table, i: Issi)
    requires EntryOk(t, i) && forall l :: l in t.links ==> IsPeer(t, l)
    ensures forall l :: l in OffersOf(t.rib, i) ==> IsPeer(t, l)
  {
  }

  /** An entry was there before, belongs to an offer, or was just registered. */
  lemma EntryComesFrom(t: Table, e: Event, i: Issi)
    requires i in Next(t, e).subs
    ensures var s := Next(t, e).subs[i];
      s.client in OffersOf(Next(t, e).rib, i)
      || (i in t.subs && t.subs[i].client == s.client && s.groups <= t.subs[i].groups)
      || (e.SubIn? && e.src == s.client && e.issi == i && e.kind in {Register, Reregister, Affiliate})
  {
    hide Published, Rerouted, Settled, OnSub, EntryOk;
    match e
    case RouteIn(src, j, a, now) => RerouteComesFrom(TakeOffer(t, src, j, a, now), j);
    case WithdrawIn(src, j) => RerouteComesFrom(t.(rib := WithdrawOffer(t.rib, j, src)), j);
    case SubIn(src, kind, j, groups, now) => SubComesFrom(t, src, kind, j, groups, now, i);
    case LinkUp(id, mode, neighbour) =>
    case LinkDown(id) => SettledComesFrom(Dropped(t, id), Sorted(Affected(t, id)), t.subs, i);
  }

  lemma SubComesFrom(t: Table, src: ClientId, kind: SubKind, j: Issi, groups: seq<Gssi>, now: u64, i: Issi)
    requires i in OnSub(t, src, kind, j, groups, now).subs
    ensures var s := OnSub(t, src, kind, j, groups, now).subs[i];
      s.client in OffersOf(t.rib, i)
      || (i in t.subs && t.subs[i].client == s.client && s.groups <= t.subs[i].groups)
      || (src == s.client && j == i && kind in {Register, Reregister, Affiliate})
    ensures OnSub(t, src, kind, j, groups, now).rib == t.rib
  {
    hide Published, Rerouted;
    RerouteComesFrom(t.(subs := t.subs - {j}), j);
  }

  lemma RerouteComesFrom(t: Table, i: Issi)
    ensures forall j :: j in Rerouted(t, i).subs ==>
      (j in t.subs && Rerouted(t, i).subs[j] == t.subs[j]) || Rerouted(t, i).subs[j].client in OffersOf(t.rib, j)
  {
    var c := Chosen(t, i);
    forall j | j in Rerouted(t, i).subs && j != i ensures j in t.subs && Rerouted(t, i).subs[j] == t.subs[j] {
      assert Get(Rerouted(t, i).subs, j) == Get(t.subs, j);
    }
  }

  lemma {:induction false} SettledComesFrom(d: Table, issis: seq<Issi>, before: Subs, i: Issi)
    ensures var s := Settled(d, issis, before);
      && s.rib == d.rib
      && (i in s.subs ==> (i in d.subs && s.subs[i] == d.subs[i]) || s.subs[i].client in OffersOf(d.rib, i))
    decreases |issis|
  {
    hide Rerouted, Published;
    if issis != [] {
      var last := |issis| - 1;
      SettledComesFrom(d, issis[..last], before, i);
      RerouteComesFrom(Settled(d, issis[..last], before), issis[last]);
    }
  }

  ghost predicate TableReady(n: Node) {
    TableOk(n.table) && n.table.clock < U64_MAX
  }

  /** The table step inside an event, if it has one. */
  function TableEvent(ev: CallEvent): Option<Event> {
    match ev
    case Advertised(e) => Some(e)
    case Subscribe(src, kind, issi, groups, now, _) => Some(SubIn(src, kind, issi, groups, now))
    case Join(id, mode, neighbour, _) => Some(LinkUp(id, mode, neighbour))
    case Leave(id, _) => Some(LinkDown(id))
    case _ => None
  }

  lemma TableStep(cfg: Config, n: Node, ev: CallEvent)
    requires TableReady(n) && Possible(cfg, n, ev)
    ensures TableOk(After(cfg, n, ev).table)
    ensures After(cfg, n, ev).table == if TableEvent(ev).Some? then Next(n.table, TableEvent(ev).value) else n.table
    ensures TableEvent(ev).Some? ==> Enabled(n.table, TableEvent(ev).value)
  {
    hide TableOk, After, Owed, Lists, OnGroupTx, LateEntry;
    if TableEvent(ev).Some? { NextOk(n.table, TableEvent(ev).value); }
  }

  /** A call after an event that does not set it up: it ran before, with the
      same owner and group, and keeps its participants but for peers and leavers. */
  lemma CallComesFrom(cfg: Config, n: Node, ev: CallEvent, id: CallId)
    requires Possible(cfg, n, ev) && id in After(cfg, n, ev).calls
    requires !(ev.Transmit? && ev.call == id) && !(ev.Setup? && ev.call == id)
    ensures var (c, c') := (Get(n.calls, id), After(cfg, n, ev).calls[id]);
      && c.Some? && c'.kind == c.value.kind && c'.owner == c.value.owner
      && c'.source == c.value.source && c'.destination == c.value.destination
      && (forall p :: p in c.value.peers && p !in c'.peers ==>
            (ev.Leave? && p == ev.id) || (ev.Prune? && p in n.table.links))
  {
    hide Next, OnSub, Cleanup, Attach, OnGroupTx, After, Owed, Lists, LateHeaders, WithoutFloor, JoinedGroups;
    if ev.Transmit? { TransmitTakes(cfg, n, ev); }
  }

  lemma CoveredStep(cfg: Config, n: Node, ev: CallEvent)
    requires Covered(n) && TableReady(n) && Possible(cfg, n, ev)
    ensures Covered(After(cfg, n, ev))
  {
    hide After, Members, Next, EntryOk, JoinedGroups;
    var n' := After(cfg, n, ev);
    TableStep(cfg, n, ev);
    forall id: CallId, c: ClientId
      | id in n'.calls && n'.calls[id].kind == Group && c in Members(n'.table.subs, n'.calls[id].destination) &&
          !IsPeer(n'.table, c)
      ensures c == n'.calls[id].owner || c in n'.calls[id].peers
    {
      var g := n'.calls[id].destination;
      if ev.Transmit? && ev.call == id && !(id in n.calls && n'.calls[id] == n.calls[id]) {
        TransmitCovers(cfg, n, ev, c);
      } else if !(ev.Setup? && ev.call == id && !(id in n.calls && n'.calls[id] == n.calls[id])) {
        if !(ev.Transmit? && ev.call == id) && !(ev.Setup? && ev.call == id) { CallComesFrom(cfg, n, ev, id); }
        if TableEvent(ev).Some? {
          NewMember(n.table, TableEvent(ev).value, c, g);
          NextShape(n.table, TableEvent(ev).value);
        }
        if ev.Subscribe? && c == ev.src && g in JoinedGroups(n'.table, ev.src, ev.kind, ev.issi) {
          EntryCovers(cfg, n, ev, id);
        }
      } else {
        SetupIsPrivate(cfg, n, ev);
      }
    }
  }

  lemma SetupIsPrivate(cfg: Config, n: Node, ev: CallEvent)
    requires Possible(cfg, n, ev) && ev.Setup?
    ensures var n' := After(cfg, n, ev); ev.call in n'.calls ==>
      n'.calls[ev.call].kind == Private || (ev.call in n.calls && n'.calls[ev.call] == n.calls[ev.call])
  {
    hide After, Owed, Lists;
  }

  /** A call set up or taken over reaches every member but its own source. */
  lemma TransmitCovers(cfg: Config, n: Node, ev: CallEvent, c: ClientId)
    requires Possible(cfg, n, ev) && ev.Transmit? && TableOk(n.table)
    requires var n' := After(cfg, n, ev);
      ev.call in n'.calls && !(ev.call in n.calls && n'.calls[ev.call] == n.calls[ev.call])
    requires c in Members(n.table.subs, After(cfg, n, ev).calls[ev.call].destination)
    ensures c == After(cfg, n, ev).calls[ev.call].owner || c in After(cfg, n, ev).calls[ev.call].peers
  {
    hide TableOk;
    MemberConnected(n.table, After(cfg, n, ev).calls[ev.call].destination, c);
  }

  lemma MemberConnected(t: Table, g: Gssi, c: ClientId)
    requires TableOk(t) && c in Members(t.subs, g)
    ensures c in t.clients
  {
    var i :| i in t.subs && t.subs[i].client == c;
    assert EntryOk(t, i);
    EntryMeaning(t, i);
  }

  /** Late entry leaves no running call of the joined groups behind. */
  lemma EntryCovers(cfg: Config, n: Node, ev: CallEvent, id: CallId)
    requires Possible(cfg, n, ev) && ev.Subscribe? && id in After(cfg, n, ev).calls
    requires After(cfg, n, ev).calls[id].kind == Group && !IsPeer(n.table, ev.src)
    requires n.table.links.Keys <= PeerLinks(n.table)
    requires After(cfg, n, ev).calls[id].destination in JoinedGroups(After(cfg, n, ev).table, ev.src, ev.kind, ev.issi)
    ensures ev.src == After(cfg, n, ev).calls[id].owner || ev.src in After(cfg, n, ev).calls[id].peers
  {
    hide OnSub, JoinedGroups;
  }
}
