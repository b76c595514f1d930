/** What each call message does, stated outright: who may take the floor, who is
    on a call, who hears what, and who is told of an end. */
module CallRules {
  import opened FedTypes
  import opened RouteTable
  import opened GroupCalls
  import TableInvariant
  import opened CallInvariants
  import opened CallRuns
  import opened CallEnds

  predicate PeerLink(n: Node, c: ClientId) {
    c in n.table.clients && n.table.clients[c] == Peer
  }

  // ----- taking the floor -----

  /** Who is to hear a transmission of `src` to group `g`: the group's members,
      or everybody if all is routed or nobody is in it; the peers of the turn it
      continues; in an emergency consoles and peers; never `src` itself. */
  ghost predicate Reaches(cfg: Config, n: Node, src: ClientId, id: CallId, from: Issi, g: Gssi, emergency: bool,
                          c: ClientId) {
    && c != src
    && (|| (cfg.routeAll && c in n.table.clients)
        || (!cfg.routeAll && exists i ::
             i in n.table.subs && g in n.table.subs[i].groups && n.table.subs[i].client == c)
        || (!cfg.routeAll && cfg.fallback && c in n.table.clients
            && forall i :: i in n.table.subs ==> g !in n.table.subs[i].groups)
        || (id in n.calls && n.calls[id].owner == src && n.calls[id].source == from
            && c in n.calls[id].peers && PeerLink(n, c))
        || (emergency && (c in n.consoles || PeerLink(n, c))))
  }

  lemma TargetsReach(cfg: Config, n: Node, src: ClientId, id: CallId, from: Issi, g: Gssi, emergency: bool, c: ClientId)
    ensures c in Targets(cfg, n, src, id, from, g, emergency) <==> Reaches(cfg, n, src, id, from, g, emergency, c)
  {
    var members := Members(n.table.subs, g);
    if i :| i in n.table.subs && g in n.table.subs[i].groups {
      assert n.table.subs[i].client in members;
    } else {
      assert members == {};
    }
  }

  /** The call that holds the floor of `g` against `id`, one call per group. */
  predicate Holds(cfg: Config, n: Node, g: Gssi, id: CallId) {
    !cfg.allowMultiple && g in n.floor && n.floor[g] != id && n.floor[g] in n.calls
  }

  /** Whether a new call's priority is strictly better than a running one's. */
  predicate Better(cfg: Config, priority: Priority, running: Priority) {
    if cfg.higherWins then priority > running else priority < running
  }

  /** A copy that came over a second peer link is pruned there and does nothing else. */
  lemma DuplicatePruned(cfg: Config, n: Node, src: ClientId, id: CallId, from: Issi, g: Gssi, priority: Priority,
                        emergency: bool)
    requires PeerLink(n, src)
    ensures var n' := OnGroupTx(cfg, n, src, id, from, g, priority, emergency, true);
      && n' == n.(queue := n'.queue) && n'.queue.Keys == n.queue.Keys
      && (forall c :: c in n.queue ==>
            n'.queue[c] == n.queue[c] + if c == src && src in n.table.links then [FedPrune(id, from)] else [])
      && TxPackets(cfg, n, src, id, from, g, priority, emergency, true) == {}
  {
    var n' := OnGroupTx(cfg, n, src, id, from, g, priority, emergency, true);
    forall c | c in n.queue
      ensures n'.queue[c] == n.queue[c] + if c == src && src in n.table.links then [FedPrune(id, from)] else []
    {
      assert n.queue[c] + [] == n.queue[c];
    }
  }

  /** Against a call whose priority is as good a transmission changes nothing and
      reaches nobody. */
  lemma NotBetterRejected(cfg: Config, n: Node, src: ClientId, id: CallId, from: Issi, g: Gssi, priority: Priority,
                          emergency: bool, duplicate: bool)
    requires !(PeerLink(n, src) && duplicate)
    requires Holds(cfg, n, g, id) && !Better(cfg, priority, n.calls[n.floor[g]].priority)
    ensures OnGroupTx(cfg, n, src, id, from, g, priority, emergency, duplicate) == n
    ensures TxPackets(cfg, n, src, id, from, g, priority, emergency, duplicate) == {}
  {
  }

  ghost predicate Accepted(cfg: Config, n: Node, src: ClientId, id: CallId, g: Gssi, priority: Priority,
                           duplicate: bool) {
    && !(PeerLink(n, src) && duplicate)
    && (Holds(cfg, n, g, id) ==> Better(cfg, priority, n.calls[n.floor[g]].priority))
  }

  /** Any other is accepted: the call runs under its new talker and holds the
      floor, the call it pre-empts is gone, and no other changes. */
  lemma AcceptedRuns(cfg: Config, n: Node, src: ClientId, id: CallId, from: Issi, g: Gssi, priority: Priority,
                     emergency: bool, duplicate: bool)
    requires Accepted(cfg, n, src, id, g, priority, duplicate)
    ensures var n' := OnGroupTx(cfg, n, src, id, from, g, priority, emergency, duplicate);
      && id in n'.calls && n'.floor == n.floor[g := id]
      && n'.calls[id].kind == Group && n'.calls[id].owner == src && n'.calls[id].source == from
      && n'.calls[id].destination == g
      && n'.calls[id].priority == (if emergency && priority < 15 then 15 else priority)
      && (forall k :: k != id ==>
            Get(n'.calls, k) == if Holds(cfg, n, g, id) && k == n.floor[g] then None else Get(n.calls, k))
      && n' == n.(calls := n'.calls, floor := n'.floor, headers := n'.headers, queue := n'.queue)
  {
    hide Targets, SendAll;
  }

  /** Those it reaches are on it. */
  lemma AcceptedReaches(cfg: Config, n: Node, src: ClientId, id: CallId, from: Issi, g: Gssi, priority: Priority,
                        emergency: bool, duplicate: bool, c: ClientId)
    requires Accepted(cfg, n, src, id, g, priority, duplicate)
    ensures var n' := OnGroupTx(cfg, n, src, id, from, g, priority, emergency, duplicate);
      id in n'.calls && (c in n'.calls[id].peers <==> Reaches(cfg, n, src, id, from, g, emergency, c))
  {
    hide SendAll, Targets;
    var n1 := Preempted(cfg, n, id, g);
    TargetsReach(cfg, n1, src, id, from, g, emergency, c);
  }

  /** Everyone on the pre-empted call is told at once, and nobody else of anything. */
  lemma AcceptedTells(cfg: Config, n: Node, src: ClientId, id: CallId, from: Issi, g: Gssi, priority: Priority,
                      emergency: bool, duplicate: bool, c: ClientId)
    requires Accepted(cfg, n, src, id, g, priority, duplicate) && c in n.queue
    ensures var n' := OnGroupTx(cfg, n, src, id, from, g, priority, emergency, duplicate);
      && n'.queue.Keys == n.queue.Keys
      && n'.queue[c] == n.queue[c] +
           if Holds(cfg, n, g, id) && c in n.table.clients
              && (c in n.calls[n.floor[g]].peers || c == n.calls[n.floor[g]].owner)
           then [CallEnd(n.floor[g])] else []
  {
    hide Targets;
    assert n.queue[c] + [] == n.queue[c];
  }

  /** The header is kept for those who come later; those of calls that are gone go. */
  lemma AcceptedHeader(cfg: Config, n: Node, src: ClientId, id: CallId, from: Issi, g: Gssi, priority: Priority,
                       emergency: bool, duplicate: bool, k: CallId)
    requires Accepted(cfg, n, src, id, g, priority, duplicate)
    ensures var n' := OnGroupTx(cfg, n, src, id, from, g, priority, emergency, duplicate);
      Get(n'.headers, k) ==
        if k == id then Some(GroupTx(id, from, g, priority)) else if k in n'.calls then Get(n.headers, k) else None
  {
    hide SendAll, Targets;
  }

  /** And it is on its way to every live recipient, raised for consoles and peers in
      an emergency. */
  lemma AcceptedSends(cfg: Config, n: Node, src: ClientId, id: CallId, from: Issi, g: Gssi, priority: Priority,
                      emergency: bool, duplicate: bool, q: Packet)
    requires Accepted(cfg, n, src, id, g, priority, duplicate)
    ensures q in TxPackets(cfg, n, src, id, from, g, priority, emergency, duplicate) <==>
      && Reaches(cfg, n, src, id, from, g, emergency, q.to) && q.to in n.table.clients
      && q.msg == GroupTx(id, from, g,
           if emergency && priority < 15 && (q.to in n.consoles || PeerLink(n, q.to)) then 15 else priority)
  {
    hide SendAll, Targets, Reaches;
    var n1 := Preempted(cfg, n, id, g);
    TargetsReach(cfg, n1, src, id, from, g, emergency, q.to);
    ReachesAsBefore(cfg, n, src, id, from, g, emergency, q.to);
  }

  lemma ReachesAsBefore(cfg: Config, n: Node, src: ClientId, id: CallId, from: Issi, g: Gssi, emergency: bool,
                        c: ClientId)
    ensures Reaches(cfg, Preempted(cfg, n, id, g), src, id, from, g, emergency, c)
      <==> Reaches(cfg, n, src, id, from, g, emergency, c)
  {
    hide SendAll;
  }

  /** In every run a running call leaves through a transmission only to one of
      strictly better priority, to its own group, with one call per group on. */
  lemma LeavesToBetter(cfg: Config, selfId: ServerId, nodes: seq<Node>, evs: seq<CallEvent>, k: nat, id: CallId)
    requires CallRun(cfg, selfId, nodes, evs) && k < |evs| && evs[k].Transmit?
    requires id in nodes[k].calls && id !in nodes[k + 1].calls
    ensures Holds(cfg, nodes[k], evs[k].group, evs[k].call) && nodes[k].floor[evs[k].group] == id
    ensures if cfg.higherWins then evs[k].priority > nodes[k].calls[id].priority
            else evs[k].priority < nodes[k].calls[id].priority
    ensures evs[k].call in nodes[k + 1].calls && Get(nodes[k + 1].floor, evs[k].group) == Some(evs[k].call)
  {
    hide After, OnGroupTx, Possible, Owed, Lists;
    var (n, ev, n') := (nodes[k], evs[k], nodes[k + 1]);
    assert CallStep(cfg, n, ev, n');
    TransmitActs(cfg, n, ev);
    if PeerLink(n, ev.src) && ev.duplicate {
      DuplicatePruned(cfg, n, ev.src, ev.call, ev.from, ev.group, ev.priority, ev.emergency);
    } else if Accepted(cfg, n, ev.src, ev.call, ev.group, ev.priority, ev.duplicate) {
      AcceptedRuns(cfg, n, ev.src, ev.call, ev.from, ev.group, ev.priority, ev.emergency, ev.duplicate);
      assert Get(n'.calls, id) == None && Get(n.calls, id).Some?;
    } else {
      NotBetterRejected(cfg, n, ev.src, ev.call, ev.from, ev.group, ev.priority, ev.emergency, ev.duplicate);
    }
  }

  lemma TransmitActs(cfg: Config, n: Node, ev: CallEvent)
    requires Possible(cfg, n, ev) && ev.Transmit?
    ensures var r := OnGroupTx(cfg, n, ev.src, ev.call, ev.from, ev.group, ev.priority, ev.emergency, ev.duplicate);
      After(cfg, n, ev).calls == r.calls && After(cfg, n, ev).floor == r.floor
  {
    hide OnGroupTx, Owed, Lists;
  }

  // ----- frames -----

  /** A frame is for everyone else on the call: in a group call from its talker to
      the listeners, in a private one from either party to the other. */
  lemma FrameRule(n: Node, src: ClientId, id: CallId, q: Packet)
    ensures q in FramePackets(n, src, id) <==>
      && id in n.calls && q.to in n.table.clients && q.to != src && q.msg == Voice(id, n.calls[id].kind)
      && if n.calls[id].kind == Group then src == n.calls[id].owner && q.to in n.calls[id].peers
         else (src == n.calls[id].owner || src in n.calls[id].peers)
              && (q.to == n.calls[id].owner || q.to in n.calls[id].peers)
  {
  }

  // ----- private calls -----

  /** A set-up goes to the one connection its destination is on, if it is not the
      caller's own, and makes a call of these two. */
  lemma SetupRule(n: Node, src: ClientId, id: CallId, from: Issi, dest: Issi, priority: Priority)
    ensures var n' := OnPrivateSetup(n, src, id, from, dest, priority);
      var found := dest in n.table.subs && n.table.subs[dest].client != src;
      && (!found ==> n' == n && SetupPackets(n, src, id, from, dest) == {})
      && (found ==>
            var c := n.table.subs[dest].client;
            && n' == n.(calls := n.calls[id := Call(Private, src, from, dest, priority, {c})])
            && SetupPackets(n, src, id, from, dest) ==
                 if c in n.table.clients then {Packet(c, SetupReq(id, from, dest))} else {})
  {
  }

  // ----- pruning -----

  lemma PruneRule(n: Node, src: ClientId, id: CallId, from: Issi)
    ensures var n' := OnPrune(n, src, id, from);
      if src in n.table.links && id in n.calls && n.calls[id].kind == Group && n.calls[id].source == from
      then n' == n.(calls := n.calls[id := n.calls[id].(peers := n.calls[id].peers - {src})])
      else n' == n
  {
  }

  // ----- ends -----

  /** A call ends for its owner, a private one for either party; its floor is free
      and everyone else on it is told. */
  lemma EndRule(n: Node, src: ClientId, id: CallId)
    ensures var n' := Removed(n, src, id);
      var may := id in n.calls
        && (n.calls[id].owner == src || (n.calls[id].kind == Private && src in n.calls[id].peers));
      && (!may ==> n' == n && EndPackets(n, src, id) == {})
      && (may ==>
            && n' == n.(calls := n.calls - {id}, floor := n'.floor)
            && (forall g :: Get(n'.floor, g) ==
                  if n.calls[id].kind == Group && n.calls[id].destination == g && Get(n.floor, g) == Some(id)
                  then None else Get(n.floor, g))
            && (forall q :: q in EndPackets(n, src, id) <==>
                  && q.msg == CallEnd(id) && q.to in n.table.clients && q.to != src
                  && (q.to in n.calls[id].peers || (n.calls[id].kind == Private && q.to == n.calls[id].owner))))
  {
  }

  /** A connection that goes takes its calls with it and leaves those it listened to. */
  lemma GoneCalls(n: Node, gone: ClientId, t': Table, id: CallId)
    ensures var n' := Disconnected(n, gone, t');
      var ends := id in n.calls
        && (n.calls[id].owner == gone || (n.calls[id].kind == Private && gone in n.calls[id].peers));
      && n'.table == t' && n'.consoles == n.consoles - {gone}
      && n' == n.(table := t', consoles := n'.consoles, calls := n'.calls, floor := n'.floor)
      && Get(n'.calls, id) ==
           if id !in n.calls || ends then None
           else Some(n.calls[id].(peers := n.calls[id].peers - {gone}))
  {
  }

  /** The floors of its group calls are free, the others stay. */
  lemma GoneFloor(n: Node, gone: ClientId, t': Table, g: Gssi)
    ensures Get(Disconnected(n, gone, t').floor, g) ==
      if g in n.floor && n.floor[g] in n.calls && n.calls[n.floor[g]].kind == Group
         && n.calls[n.floor[g]].destination == g && n.calls[n.floor[g]].owner == gone
      then None else Get(n.floor, g)
  {
  }

  lemma GoneTold(n: Node, gone: ClientId, t': Table, q: Packet)
    ensures q in GonePackets(n, gone, t') <==>
      && q.msg.CallEnd? && q.msg.id in n.calls && q.to in t'.clients && q.to != gone
      && var c := n.calls[q.msg.id];
      && (c.owner == gone || (c.kind == Private && gone in c.peers))
      && (q.to in c.peers || (c.kind == Private && q.to == c.owner))
  {
  }

  // ----- alarms -----

  predicate IsRaised(n: Node, issi: Issi, id: CallId) {
    id in n.calls && n.calls[id].kind == Group && n.calls[id].source == issi && n.calls[id].priority < 15
  }

  /** An alarm makes the talker's group calls emergency calls and puts consoles and
      peer links on them. */
  lemma AlarmRule(n: Node, issi: Issi, id: CallId)
    requires id in n.calls
    ensures var n' := OnAlarm(n, issi);
      && n' == n.(calls := n'.calls) && n'.calls.Keys == n.calls.Keys
      && n'.calls[id] == n.calls[id].(priority := if IsRaised(n, issi, id) then 15 else n.calls[id].priority,
                                      peers := n'.calls[id].peers)
      && forall c :: c in n'.calls[id].peers <==>
           || c in n.calls[id].peers
           || (IsRaised(n, issi, id) && c != n.calls[id].owner && (c in n.consoles || PeerLink(n, c)))
  {
  }

  /** All consoles and peer links now on them are told with the emergency priority. */
  lemma AlarmTold(n: Node, issi: Issi, q: Packet)
    ensures q in AlarmPackets(n, issi) <==>
      && q.msg.GroupTx? && IsRaised(n, issi, q.msg.id) && q.to in n.table.clients
      && q.msg == GroupTx(q.msg.id, issi, n.calls[q.msg.id].destination, 15)
      && (q.to in n.consoles || PeerLink(n, q.to))
      && (q.to in n.calls[q.msg.id].peers || q.to != n.calls[q.msg.id].owner)
  {
    var id := q.msg.id;
    if q.msg.GroupTx? && IsRaised(n, issi, id) && q.msg == GroupTx(id, issi, n.calls[id].destination, 15) {
      assert q == Packet(q.to, AlarmHeader(n, id)) && id in Alarmed(n, issi);
      assert q in AlarmPackets(n, issi)
        <== q.to in AlarmPeers(n, id) * (n.consoles + PeerLinks(n.table)) && q.to in n.table.clients;
    }
  }

  // ----- late entry -----

  /** `c` is to enter call `id` when it has come into `groups`. */
  predicate ToEnter(n: Node, c: ClientId, groups: set<Gssi>, id: CallId) {
    && groups != {} && c in n.table.clients && !PeerLink(n, c)
    && id in n.calls && n.calls[id].kind == Group && n.calls[id].destination in groups
    && c != n.calls[id].owner && c !in n.calls[id].peers
  }

  /** Running calls of its new groups take a connection on, and change in nothing else. */
  lemma LateOnCall(n: Node, c: ClientId, groups: set<Gssi>, order: seq<CallId>, id: CallId)
    requires Lists(order, Joinable(n, c, groups)) && id in n.calls
    ensures var n' := LateEntry(n, c, groups, order);
      && n'.calls.Keys == n.calls.Keys && n' == n.(calls := n'.calls, headers := n'.headers, queue := n'.queue)
      && n'.calls[id] == n.calls[id].(peers := n.calls[id].peers + if ToEnter(n, c, groups, id) then {c} else {})
  {
    hide LateHeaders;
    assert n.calls[id].peers + {} == n.calls[id].peers;
  }

  /** It is told of each by one header: the one that set the call up, raised for a
      console if it is an emergency; nobody else is told anything. */
  lemma LateTold(n: Node, c: ClientId, groups: set<Gssi>, order: seq<CallId>)
    requires Lists(order, Joinable(n, c, groups)) && c in n.queue
    ensures var n' := LateEntry(n, c, groups, order);
      && n'.queue.Keys == n.queue.Keys && (forall d :: d in n.queue && d != c ==> n'.queue[d] == n.queue[d])
      && n.queue[c] <= n'.queue[c]
      && var late := n'.queue[c][|n.queue[c]|..];
      && (|late| > 0 ==> |late| == |order|)
      && (|late| > 0 <==> exists id :: ToEnter(n, c, groups, id))
      && forall k :: 0 <= k < |late| ==> ToEnter(n, c, groups, order[k]) && late[k] == HeaderTo(n, c, order[k])
  {
    var n' := LateEntry(n, c, groups, order);
    forall k | 0 <= k < |order| ensures order[k] in Joinable(n, c, groups) { assert order[k] in Elems(order); }
    if id :| ToEnter(n, c, groups, id) {
      assert id in Elems(order);
    }
    if Enters(n, c, groups) {
      assert n'.queue[c][|n.queue[c]|..] == LateHeaders(n, c, order);
      if order != [] { assert ToEnter(n, c, groups, order[0]); }
    } else {
      assert n'.queue[c][|n.queue[c]|..] == [];
    }
  }

  /** On that occasion the headers of calls that are gone go. */
  lemma LateHeadersKept(n: Node, c: ClientId, groups: set<Gssi>, order: seq<CallId>, k: CallId)
    requires Lists(order, Joinable(n, c, groups))
    ensures Get(LateEntry(n, c, groups, order).headers, k) ==
      if groups != {} && c in n.table.clients && !PeerLink(n, c) && k !in n.calls then None else Get(n.headers, k)
  {
  }

  function HeaderTo(n: Node, c: ClientId, id: CallId): CallMsg
    requires id in n.calls
  {
    var call := n.calls[id];
    if id in n.headers && !n.headers[id].GroupTx? then n.headers[id]
    else
      var h := if id in n.headers then n.headers[id] else GroupTx(id, call.source, call.destination, call.priority);
      if c in n.consoles && call.priority >= 15 && h.priority < 15 then h.(priority := 15) else h
  }

  /** The groups that count are those of the ISSI just registered or affiliated. */
  lemma JoinedRule(t: Table, src: ClientId, kind: SubKind, issi: Issi, g: Gssi)
    ensures g in JoinedGroups(t, src, kind, issi) <==>
      && (kind == Register || kind == Reregister || kind == Affiliate)
      && issi in t.subs && t.subs[issi].client == src && g in t.subs[issi].groups
  {
  }

  // ----- steps of a run -----

  /** Every step of a run is what the method for its message leaves: the same
      state, the same packets waiting. */
  lemma StepsAreHandled(cfg: Config, n: Node, ev: CallEvent)
    requires Possible(cfg, n, ev)
    ensures var n' := After(cfg, n, ev);
      match ev
      case Advertised(e) => n' == n.(table := TableInvariant.Next(n.table, e))
      case Subscribe(src, kind, issi, groups, now, order) =>
        var n1 := n.(table := OnSub(n.table, src, kind, issi, groups, now));
        var joined := if src in n.table.links then {} else JoinedGroups(n1.table, src, kind, issi);
        Lists(order, Joinable(n1, src, joined)) && n' == LateEntry(n1, src, joined, order)
      case Join(id, mode, neighbour, console) =>
        && n'.table == Attach(n.table, id, mode, neighbour) && n'.queue == n.queue[id := []]
        && (forall c :: c in n'.consoles <==> c in n.consoles || (console && c == id))
        && n' == n.(table := n'.table, queue := n'.queue, consoles := n'.consoles)
      case Leave(id, ps) =>
        && Lists(ps, GonePackets(n, id, Cleanup(n.table, id)))
        && n' == HandedOver(Disconnected(n, id, Cleanup(n.table, id)), None, ps)
      case Transmit(src, id, from, g, priority, emergency, duplicate, ps) =>
        && Lists(ps, TxPackets(cfg, n, src, id, from, g, priority, emergency, duplicate))
        && n' == HandedOver(OnGroupTx(cfg, n, src, id, from, g, priority, emergency, duplicate), Some(src), ps)
      case Alarm(issi, ps) => Lists(ps, AlarmPackets(n, issi)) && n' == HandedOver(OnAlarm(n, issi), None, ps)
      case Frame(src, id, ps) => Lists(ps, FramePackets(n, src, id)) && n' == HandedOver(n, Some(src), ps)
      case Prune(src, id, from) => n' == OnPrune(n, src, id, from)
      case Setup(src, id, from, dest, priority, ps) =>
        && Lists(ps, SetupPackets(n, src, id, from, dest))
        && n' == HandedOver(OnPrivateSetup(n, src, id, from, dest, priority), Some(src), ps)
      case End(src, id, timedOut, ps) =>
        && Lists(ps, EndPackets(n, src, id))
        && n' == HandedOver(Removed(n, src, id), if timedOut then None else Some(src), ps)
      case Sent(src) => n' == SentOne(n, src)
      case BackgroundSent(k) => n' == BackgroundOne(n, k)
  {
    hide Lists, Joinable, LateEntry, Disconnected, OnGroupTx, OnAlarm, OnPrune, OnPrivateSetup, Removed, SentOne,
      BackgroundOne, OnSub, Attach, Cleanup, TableInvariant.Next, FramePackets, TxPackets, SetupPackets, EndPackets,
      GonePackets, AlarmPackets, JoinedGroups;
  }

  // ----- packets on their way -----

  /** A handler's packets wait with the connection whose message it handles, the
      others in the background; one is queued at a time, in order. */
  lemma PacketsWait(cfg: Config, n: Node, ev: CallEvent)
    requires Possible(cfg, n, ev) && !ev.Sent? && !ev.BackgroundSent?
    ensures var (n', ps) := (After(cfg, n, ev), PacketsOf(ev));
      var busy := ev.Transmit? || ev.Frame? || ev.Setup? || (ev.End? && !ev.timedOut);
      && (ps == [] ==> n'.sending == n.sending && n'.background == n.background)
      && (ps != [] && busy ==> n'.sending == n.sending[ev.src := ps] && n'.background == n.background)
      && (ps != [] && !busy ==> n'.sending == n.sending && n'.background == n.background + [ps])
  {
    hide Acted, Owed, Lists;
    ActedWaits(cfg, n, ev);
  }

  lemma SentRule(cfg: Config, n: Node, src: ClientId, c: ClientId)
    requires Possible(cfg, n, Sent(src)) && c in n.queue
    ensures var (n', ps) := (After(cfg, n, Sent(src)), n.sending[src]);
      && n' == n.(queue := n'.queue, sending := n'.sending) && n'.queue.Keys == n.queue.Keys
      && n'.queue[c] == n.queue[c] + (if c == ps[0].to then [ps[0].msg] else [])
      && (forall d :: Get(n'.sending, d) ==
            if d != src then Get(n.sending, d) else if |ps| == 1 then None else Some(ps[1..]))
  {
    assert n.queue[c] + [] == n.queue[c];
  }

  lemma BackgroundRule(cfg: Config, n: Node, k: nat, c: ClientId)
    requires Possible(cfg, n, BackgroundSent(k)) && c in n.queue
    ensures var (n', ps) := (After(cfg, n, BackgroundSent(k)), n.background[k]);
      && n' == n.(queue := n'.queue, background := n'.background) && n'.queue.Keys == n.queue.Keys
      && n'.queue[c] == n.queue[c] + (if c == ps[0].to then [ps[0].msg] else [])
      && n'.background == n.background[..k] + (if |ps| == 1 then [] else [ps[1..]]) + n.background[k + 1..]
  {
    assert n.queue[c] + [] == n.queue[c];
  }
}
