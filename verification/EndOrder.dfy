/** Whether the notice of a call's end is the last a connection hears of the
    call: a header still waiting to be queued can come after it. */
module EndOrder {
  import opened FedTypes
  import opened RouteTable
  import opened TableInvariant
  import opened Propagation
  import opened GroupCalls
  import opened CallInvariants
  import opened CallHeaders
  import opened CallRuns
  import opened CallEnds
  import opened SendOrders

  /** No GROUP_TX of a call after the notice of its end. */
  ghost predicate EndLast(q: seq<CallMsg>) {
    forall i, j :: 0 <= i < j < |q| && q[i].CallEnd? && q[j].GroupTx? ==> q[i].id != q[j].id
  }

  ghost predicate AllEndLast(n: Node) {
    forall c :: c in n.queue ==> EndLast(n.queue[c])
  }

  /** Nobody was or is going to be told that `id` ended. */
  ghost predicate Open(n: Node, id: CallId) {
    && (forall c :: c in n.queue ==> CallEnd(id) !in n.queue[c])
    && forall c :: Packet(c, CallEnd(id)) !in Waiting(n)
  }

  /** Running calls have not ended. */
  ghost predicate RunningOpen(n: Node) {
    forall id :: id in n.calls ==> Open(n, id)
  }

  /** A call that is set up runs already or never ended before. */
  ghost predicate FreshCall(n: Node, ev: CallEvent) {
    ev.Transmit? || ev.Setup? ==> ev.call in n.calls || Open(n, ev.call)
  }

  /** The next packet of a handler. */
  function NextPacket(n: Node, ev: CallEvent): Option<Packet> {
    match ev
    case Sent(src) => if src in n.sending && n.sending[src] != [] then Some(n.sending[src][0]) else None
    case BackgroundSent(k) => if k < |n.background| && n.background[k] != [] then Some(n.background[k][0]) else None
    case _ => None
  }

  /** It is the header of a call whose end its recipient was told. */
  ghost predicate ComesLate(n: Node, ev: CallEvent) {
    && NextPacket(n, ev).Some?
    && var q := NextPacket(n, ev).value;
    && q.msg.GroupTx? && q.to in n.queue && CallEnd(q.msg.id) in n.queue[q.to]
  }

  // ----- running calls stay open -----

  lemma {:induction false} CountIffIn(q: seq<CallMsg>, id: CallId)
    ensures CallEnd(id) in q <==> EndCount(q, id) > 0
  {
    if q != [] {
      CountIffIn(q[..|q| - 1], id);
      assert q == q[..|q| - 1] + [q[|q| - 1]];
    }
  }

  lemma OpenIff(n: Node, id: CallId)
    ensures Open(n, id) <==>
      (forall c :: c in n.queue ==> Notices(n, id, c) == 0) && forall c ::
          c !in n.queue ==> Packet(c, CallEnd(id)) !in Waiting(n)
  {
    hide EndCount, Waiting;
    forall c | c in n.queue ensures CallEnd(id) in n.queue[c] <==> EndCount(n.queue[c], id) > 0 {
      CountIffIn(n.queue[c], id);
    }
  }

  /** What waits after a step waited before or is owed by it. */
  lemma WaitingFrom(cfg: Config, n: Node, ev: CallEvent, q: Packet)
    requires Possible(cfg, n, ev) && q in Waiting(After(cfg, n, ev))
    ensures q in Waiting(n) || q in Owed(cfg, n, ev)
  {
    hide After, Waiting, Owed;
    WaitingStep(cfg, n, ev);
    if q in PacketsOf(ev) { assert q in Elems(PacketsOf(ev)); }
  }

  lemma OpenStep(cfg: Config, n: Node, ev: CallEvent, id: CallId)
    requires Possible(cfg, n, ev) && VoiceApart(n) && Known(n) && Open(n, id) && !Ended(n, After(cfg, n, ev), id)
    ensures Open(After(cfg, n, ev), id)
  {
    hide After, Waiting, EndCount, Owed, Lists, Notices, Open;
    var n' := After(cfg, n, ev);
    OpenIff(n, id);
    OpenIff(n', id);
    forall c | c in n'.queue ensures Notices(n', id, c) == 0 {
      if c in n.queue {
        EndsToldStep(cfg, n, ev, id, c);
      } else {
        NewQueue(cfg, n, ev, id, c);
      }
    }
    forall c | c !in n'.queue ensures Packet(c, CallEnd(id)) !in Waiting(n') {
      if Packet(c, CallEnd(id)) in Waiting(n') {
        WaitingFrom(cfg, n, ev, Packet(c, CallEnd(id)));
        OwedNotice(cfg, n, ev, id, c);
        if c in n.queue { QueueStep(cfg, n, ev, c); }
      }
    }
  }

  /** A fresh connection is owed nothing of a call that goes on. */
  lemma NewQueue(cfg: Config, n: Node, ev: CallEvent, id: CallId, c: ClientId)
    requires Possible(cfg, n, ev) && c !in n.queue && c in After(cfg, n, ev).queue
    requires Packet(c, CallEnd(id)) !in Waiting(n) && !Ended(n, After(cfg, n, ev), id)
    ensures Notices(After(cfg, n, ev), id, c) == 0
  {
    hide After, Waiting, Owed, Lists;
    QueueDomain(cfg, n, ev);
    var n' := After(cfg, n, ev);
    assert n'.queue[c] == [];
    if Packet(c, CallEnd(id)) in Waiting(n') {
      WaitingFrom(cfg, n, ev, Packet(c, CallEnd(id)));
      OwedNotice(cfg, n, ev, id, c);
    }
  }

  /** Calls start open and stay so while they run. */
  lemma RunningOpenStep(cfg: Config, n: Node, ev: CallEvent)
    requires RunningOpen(n) && FreshCall(n, ev) && VoiceApart(n) && Known(n) && Possible(cfg, n, ev)
    ensures RunningOpen(After(cfg, n, ev))
  {
    hide After, Open, Owed, Lists;
    var n' := After(cfg, n, ev);
    forall id | id in n'.calls ensures Open(n', id) {
      if id !in n.calls { StartsHow(cfg, n, ev, id); }
      OpenStep(cfg, n, ev, id);
    }
  }

  lemma StartsHow(cfg: Config, n: Node, ev: CallEvent, id: CallId)
    requires Possible(cfg, n, ev) && id !in n.calls && id in After(cfg, n, ev).calls
    ensures (ev.Transmit? || ev.Setup?) && ev.call == id
  {
    hide After, Next, OnSub, Cleanup, Attach, Targets, Owed, Lists;
  }

  // ----- the notice is the last word -----

  lemma EndLastOn(q: seq<CallMsg>, m: CallMsg)
    requires EndLast(q)
    ensures EndLast(q + [m]) <==> !(m.GroupTx? && CallEnd(m.id) in q)
  {
    if m.GroupTx? && CallEnd(m.id) in q {
      var i :| 0 <= i < |q| && q[i] == CallEnd(m.id);
      assert (q + [m])[i] == CallEnd(m.id) && (q + [m])[|q|] == m;
    }
  }

  lemma {:induction false} EndLastMore(q: seq<CallMsg>, ms: seq<CallMsg>)
    requires EndLast(q)
    requires forall m :: m in ms ==> m.GroupTx? && CallEnd(m.id) !in q
    ensures EndLast(q + ms)
  {
    if ms == [] {
      assert q + ms == q;
    } else {
      var (init, m) := (ms[..|ms| - 1], ms[|ms| - 1]);
      EndLastMore(q, init);
      assert q + ms == (q + init) + [m];
      EndLastOn(q + init, m);
    }
  }

  /** Under the lock nobody is told of a call that ended. */
  lemma ActedEndLast(cfg: Config, n: Node, ev: CallEvent, c: ClientId)
    requires Possible(cfg, n, ev) && VoiceApart(n) && HeadersMatch(n)
    requires RunningOpen(n) && c in n.queue && EndLast(n.queue[c])
    requires c in Acted(cfg, n, ev).queue
    ensures EndLast(Acted(cfg, n, ev).queue[c])
  {
    hide Next, OnSub, Cleanup, Attach, Targets, EndLast, Waiting, Owed, LateEntry, OnGroupTx, JoinedGroups,
         HeadersMatch;
    if ev.Subscribe? {
      LateEndLast(cfg, n, ev, c);
    } else if ev.Transmit? {
      TransmitEndLast(cfg, n, ev, c);
    }
  }

  lemma TransmitEndLast(cfg: Config, n: Node, ev: CallEvent, c: ClientId)
    requires Possible(cfg, n, ev) && ev.Transmit? && c in n.queue && EndLast(n.queue[c])
    ensures c in Acted(cfg, n, ev).queue && EndLast(Acted(cfg, n, ev).queue[c])
  {
    hide Targets, EndLast, Owed, Lists;
    EndLastOn(n.queue[c], FedPrune(ev.call, ev.from));
    var o := Occupant(cfg, n, ev.group, ev.call);
    if o.Some? { EndLastOn(n.queue[c], CallEnd(o.value)); }
  }

  lemma LateHeaderOf(n: Node, n1: Node, c: ClientId, id: CallId)
    requires HeadersMatch(n) && id in n.calls && n.calls[id].kind == Group
    requires n1.calls == n.calls && n1.headers == n.headers
    ensures LateHeader(n1, c, id).GroupTx? && LateHeader(n1, c, id).id == id
  {
  }

  lemma LateEndLast(cfg: Config, n: Node, ev: CallEvent, c: ClientId)
    requires Possible(cfg, n, ev) && ev.Subscribe? && HeadersMatch(n)
    requires RunningOpen(n) && c in n.queue && EndLast(n.queue[c])
    ensures c in Acted(cfg, n, ev).queue && EndLast(Acted(cfg, n, ev).queue[c])
  {
    hide EndLast, OnSub, JoinedGroups, Waiting, Owed;
    var n1 := Subscribed(n, ev.src, ev.kind, ev.issi, ev.groups, ev.now);
    var groups := if ev.src in n.table.links then {} else JoinedGroups(n1.table, ev.src, ev.kind, ev.issi);
    forall k | k in ev.order ensures k in Joinable(n1, ev.src, groups) { assert k in Elems(ev.order); }
    var late := LateHeaders(n1, ev.src, ev.order);
    forall k | 0 <= k < |late| ensures late[k].GroupTx? && CallEnd(late[k].id) !in n.queue[c] {
      var id := ev.order[k];
      assert id in ev.order && id in Joinable(n1, ev.src, groups);
      assert id in n.calls && n.calls[id].kind == Group && Open(n, id);
      assert late[k] == LateHeader(n1, ev.src, id);
      LateHeaderOf(n, n1, ev.src, id);
    }
    assert forall m :: m in late ==> exists k :: 0 <= k < |late| && late[k] == m;
    EndLastMore(n.queue[c], LateHeaders(n1, ev.src, ev.order));
  }

  /** A step keeps the notice of an end the last word if and only if it does not
      queue the header of a call whose end the recipient was told. */
  lemma EndLastStepIff(cfg: Config, n: Node, ev: CallEvent)
    requires AllEndLast(n) && RunningOpen(n) && VoiceApart(n) && HeadersMatch(n) && Possible(cfg, n, ev)
    ensures AllEndLast(After(cfg, n, ev)) <==> !ComesLate(n, ev)
  {
    hide EndLast, RunningOpen, VoiceApart, HeadersMatch, Owed, Lists, Acted;
    var n' := After(cfg, n, ev);
    if ev.Sent? || ev.BackgroundSent? {
      var q := NextPacket(n, ev).value;
      assert n'.queue == Queued(n, q).queue;
      if q.to in n.queue { EndLastOn(n.queue[q.to], q.msg); }
    } else {
      QueueDomain(cfg, n, ev);
      forall c | c in n'.queue ensures EndLast(n'.queue[c]) {
        if c in n.queue { ActedEndLast(cfg, n, ev, c); } else { NoEnds(); }
      }
    }
  }

  lemma NoEnds()
    ensures EndLast([])
  {
  }

  lemma {:induction false} RunRunningOpen(cfg: Config, selfId: ServerId, nodes: seq<Node>, evs: seq<CallEvent>, k: nat)
    requires CallRun(cfg, selfId, nodes, evs) && k <= |evs|
    requires forall j :: 0 <= j < |evs| ==> FreshCall(nodes[j], evs[j])
    ensures RunningOpen(nodes[k])
  {
    hide After, Possible, FreshCall, RunningOpen, TableOk, VoiceApart, Known;
    if k == 0 {
      NoneRunning(selfId);
    } else {
      RunRunningOpen(cfg, selfId, nodes, evs, k - 1);
      RunSound(cfg, selfId, nodes, evs, k - 1);
      assert CallStep(cfg, nodes[k - 1], evs[k - 1], nodes[k - 1 + 1]) && FreshCall(nodes[k - 1], evs[k - 1]);
      RunningOpenStep(cfg, nodes[k - 1], evs[k - 1]);
    }
  }

  lemma NoneRunning(selfId: ServerId)
    ensures RunningOpen(Start(selfId)) && AllEndLast(Start(selfId))
  {
  }

  lemma {:induction false} RunEndLast(cfg: Config, selfId: ServerId, nodes: seq<Node>, evs: seq<CallEvent>, k: nat)
    requires CallRun(cfg, selfId, nodes, evs) && k <= |evs|
    requires forall j :: 0 <= j < |evs| ==> FreshCall(nodes[j], evs[j])
    requires forall j :: 0 <= j < k ==> !ComesLate(nodes[j], evs[j])
    ensures AllEndLast(nodes[k])
  {
    hide After, Possible, FreshCall, RunningOpen, AllEndLast, ComesLate, TableOk, VoiceApart, HeadersMatch;
    if k == 0 {
      NoneRunning(selfId);
    } else {
      RunEndLast(cfg, selfId, nodes, evs, k - 1);
      RunSound(cfg, selfId, nodes, evs, k - 1);
      RunRunningOpen(cfg, selfId, nodes, evs, k - 1);
      assert CallStep(cfg, nodes[k - 1], evs[k - 1], nodes[k - 1 + 1]);
      EndLastStepIff(cfg, nodes[k - 1], evs[k - 1]);
    }
  }

  /** With fresh call uuids the notice of an end is the last word throughout a
      run if and only if no header is queued behind it. */
  lemma RunEndLastIff(cfg: Config, selfId: ServerId, nodes: seq<Node>, evs: seq<CallEvent>)
    requires CallRun(cfg, selfId, nodes, evs)
    requires forall j :: 0 <= j < |evs| ==> FreshCall(nodes[j], evs[j])
    ensures (forall k :: 0 <= k <= |evs| ==> AllEndLast(nodes[k]))
       <==> (forall j :: 0 <= j < |evs| ==> !ComesLate(nodes[j], evs[j]))
  {
    hide After, Possible, FreshCall, RunningOpen, AllEndLast, ComesLate, TableOk, VoiceApart, HeadersMatch;
    if forall j :: 0 <= j < |evs| ==> !ComesLate(nodes[j], evs[j]) {
      forall k | 0 <= k <= |evs| ensures AllEndLast(nodes[k]) { RunEndLast(cfg, selfId, nodes, evs, k); }
    }
    if forall k :: 0 <= k <= |evs| ==> AllEndLast(nodes[k]) {
      forall j | 0 <= j < |evs| ensures !ComesLate(nodes[j], evs[j]) {
        RunSound(cfg, selfId, nodes, evs, j);
        RunRunningOpen(cfg, selfId, nodes, evs, j);
        assert CallStep(cfg, nodes[j], evs[j], nodes[j + 1]);
        EndLastStepIff(cfg, nodes[j], evs[j]);
      }
    }
  }

  // ----- the guard at the end of a call -----

  /** The calls a step takes off the table. */
  function EndedBy(cfg: Config, n: Node, ev: CallEvent): set<CallId> {
    match ev
    case End(src, call, _, _) => if EndsIt(n, src, call) then {call} else {}
    case Leave(id, _) => Dying(n, id)
    case Transmit(_, _, _, _, _, _, _, _) =>
      var o := PreemptedBy(cfg, n, ev);
      if o.Some? then {o.value} else {}
    case _ => {}
  }

  lemma EndedByIff(cfg: Config, n: Node, ev: CallEvent, id: CallId)
    requires Possible(cfg, n, ev)
    ensures id in EndedBy(cfg, n, ev) <==> Ended(n, After(cfg, n, ev), id)
  {
    hide After, Next, OnSub, Cleanup, Attach, OnGroupTx, PreemptedBy, Owed, Lists;
    if ev.Transmit? {
      EndedHow(cfg, n, ev, id);
    }
  }

  /** Who is told that the step ends `id`. */
  ghost predicate IsTold(n: Node, ev: CallEvent, id: CallId, c: ClientId) {
    id in n.calls && c in Audience(ev, n.calls[id]) && c in n.table.clients
  }

  lemma StillThere(cfg: Config, n: Node, ev: CallEvent, id: CallId, c: ClientId)
    requires Possible(cfg, n, ev) && id in EndedBy(cfg, n, ev) && c in Audience(ev, n.calls[id])
    ensures c in After(cfg, n, ev).table.clients <==> c in n.table.clients
    ensures After(cfg, n, ev).table.clock == n.table.clock
  {
    hide Next, OnSub, Cleanup, Attach, Targets, SendAll, Owed, Lists;
    if ev.Leave? { LeaveTable(n.table, ev.id); }
  }

  lemma LeaveTable(t: Table, id: ClientId)
    ensures Cleanup(t, id).clients == t.clients - {id} && Cleanup(t, id).clock == t.clock
  {
    NextShape(t, LinkDown(id));
    SettledClock(Dropped(t, id), Sorted(Affected(t, id)), t.subs);
  }

  ghost predicate IsHeader(q: Packet, id: CallId, c: ClientId) {
    q.to == c && q.msg.GroupTx? && q.msg.id == id
  }

  /** No header of a call the step ends is still on its way to anyone who is told. */
  ghost predicate EndsCleanly(cfg: Config, n: Node, ev: CallEvent) {
    forall id, c, q :: id in EndedBy(cfg, n, ev) && IsTold(n, ev, id, c) && IsHeader(q, id, c) ==> q !in Waiting(n)
  }

  /** Whoever was or will be told of the end of a call has no header of it on its way. */
  ghost predicate NoneBehind(n: Node) {
    forall id, c, q :: q in Waiting(n) && IsHeader(q, id, c) ==>
      Packet(c, CallEnd(id)) !in Waiting(n) && (c in n.queue ==> CallEnd(id) !in n.queue[c])
  }

  lemma NoticesNone(n: Node, id: CallId, c: ClientId)
    requires c in n.queue
    ensures Notices(n, id, c) == 0 <==> Packet(c, CallEnd(id)) !in Waiting(n) && CallEnd(id) !in n.queue[c]
  {
    hide Waiting, EndCount;
    CountIffIn(n.queue[c], id);
  }

  /** A header is owed only of a call that is on the table afterwards. */
  lemma OwedHeader(cfg: Config, n: Node, ev: CallEvent, q: Packet)
    requires Possible(cfg, n, ev) && q in Owed(cfg, n, ev) && q.msg.GroupTx?
    ensures q.msg.id in After(cfg, n, ev).calls
  {
    hide After, Next, OnSub, Cleanup, Attach, Targets, Preempted, Lists;
  }

  lemma NoneBehindStep(cfg: Config, n: Node, ev: CallEvent)
    requires NoneBehind(n) && RunningOpen(n) && FreshCall(n, ev) && VoiceApart(n) && Known(n) && Possible(cfg, n, ev)
    requires EndsCleanly(cfg, n, ev)
    ensures NoneBehind(After(cfg, n, ev))
  {
    hide After, Waiting, Owed, Lists, RunningOpen, FreshCall, VoiceApart, Known, EndsCleanly, IsHeader;
    var n' := After(cfg, n, ev);
    RunningOpenStep(cfg, n, ev);
    forall id, c, q | q in Waiting(n') && IsHeader(q, id, c)
      ensures Packet(c, CallEnd(id)) !in Waiting(n') && (c in n'.queue ==> CallEnd(id) !in n'.queue[c])
    {
      WaitingFrom(cfg, n, ev, q);
      if q in Waiting(n) {
        StillNoneBehind(cfg, n, ev, id, c, q);
      } else {
        assert id in n'.calls by { HeaderOf(q, id, c); OwedHeader(cfg, n, ev, q); }
        assert Open(n', id) by { OpenOf(n', id); }
      }
    }
  }

  lemma HeaderOf(q: Packet, id: CallId, c: ClientId)
    requires IsHeader(q, id, c)
    ensures q.to == c && q.msg.GroupTx? && q.msg.id == id
  {
  }

  lemma OpenOf(n: Node, id: CallId)
    requires RunningOpen(n) && id in n.calls
    ensures Open(n, id)
  {
  }

  lemma StillNoneBehind(cfg: Config, n: Node, ev: CallEvent, id: CallId, c: ClientId, q: Packet)
    requires NoneBehind(n) && VoiceApart(n) && Known(n) && Possible(cfg, n, ev) && EndsCleanly(cfg, n, ev)
    requires q in Waiting(n) && IsHeader(q, id, c)
    ensures var n' := After(cfg, n, ev);
      Packet(c, CallEnd(id)) !in Waiting(n') && (c in n'.queue ==> CallEnd(id) !in n'.queue[c])
  {
    hide After, Waiting, Owed, Lists, EndCount, VoiceApart, Known;
    var n' := After(cfg, n, ev);
    EndedByIff(cfg, n, ev, id);
    if Ended(n, n', id) && c in Audience(ev, n.calls[id]) { StillThere(cfg, n, ev, id, c); }
    if c in n.queue {
      NoticesNone(n, id, c);
      VoiceApartHeaders(n);
      EndsToldStep(cfg, n, ev, id, c);
      NoticesNone(n', id, c);
    } else {
      if Packet(c, CallEnd(id)) in Waiting(n') {
        WaitingFrom(cfg, n, ev, Packet(c, CallEnd(id)));
        OwedNotice(cfg, n, ev, id, c);
      }
      QueueDomain(cfg, n, ev);
    }
  }

  lemma VoiceApartHeaders(n: Node)
    requires VoiceApart(n)
    ensures forall k :: k in n.headers ==> n.headers[k].GroupTx?
  {
  }

  /** A late header was waiting behind the notice. */
  lemma LateWaits(n: Node, ev: CallEvent)
    requires ComesLate(n, ev)
    ensures !NoneBehind(n)
  {
    hide Waiting;
    var q := NextPacket(n, ev).value;
    NextWaits(n, ev);
    assert IsHeader(q, q.msg.id, q.to);
  }

  lemma NextWaits(n: Node, ev: CallEvent)
    requires NextPacket(n, ev).Some?
    ensures NextPacket(n, ev).value in Waiting(n)
  {
    match ev
    case Sent(src) => BagSplit(n.sending, src);
    case BackgroundSent(k) => InBag(n.background, k, n.background[k][0]);
  }

  lemma {:induction false} RunNoneBehind(cfg: Config, selfId: ServerId, nodes: seq<Node>, evs: seq<CallEvent>, k: nat)
    requires CallRun(cfg, selfId, nodes, evs) && k <= |evs|
    requires forall j :: 0 <= j < |evs| ==> FreshCall(nodes[j], evs[j])
    requires forall j :: 0 <= j < k ==> EndsCleanly(cfg, nodes[j], evs[j])
    ensures NoneBehind(nodes[k])
  {
    hide After, Possible, FreshCall, RunningOpen, EndsCleanly, TableOk, VoiceApart, Known;
    if k > 0 {
      RunNoneBehind(cfg, selfId, nodes, evs, k - 1);
      RunSound(cfg, selfId, nodes, evs, k - 1);
      RunRunningOpen(cfg, selfId, nodes, evs, k - 1);
      assert CallStep(cfg, nodes[k - 1], evs[k - 1], nodes[k - 1 + 1]);
      NoneBehindStep(cfg, nodes[k - 1], evs[k - 1]);
    }
  }

  /** If every call ends cleanly, the notice of an end is the last word in all of
      the run, whatever came in whatever order. */
  lemma CleanRun(cfg: Config, selfId: ServerId, nodes: seq<Node>, evs: seq<CallEvent>)
    requires CallRun(cfg, selfId, nodes, evs)
    requires forall j :: 0 <= j < |evs| ==> FreshCall(nodes[j], evs[j])
    requires forall j :: 0 <= j < |evs| ==> EndsCleanly(cfg, nodes[j], evs[j])
    ensures forall k :: 0 <= k <= |evs| ==> AllEndLast(nodes[k])
  {
    hide CallStep, Start, FreshCall, EndsCleanly, AllEndLast, ComesLate, NoneBehind;
    forall j | 0 <= j < |evs| ensures !ComesLate(nodes[j], evs[j]) {
      RunNoneBehind(cfg, selfId, nodes, evs, j);
      if ComesLate(nodes[j], evs[j]) { LateWaits(nodes[j], evs[j]); }
    }
    RunEndLastIff(cfg, selfId, nodes, evs);
  }

  // ----- an unclean end can be overtaken -----

  /** The notices of an end are a lane of their own. */
  lemma OwnLane(cfg: Config, n: Node, ev: CallEvent) returns (lane: Lane)
    requires Possible(cfg, n, ev) && (ev.End? || ev.Leave?) && PacketsOf(ev) != []
    ensures LaneOf(After(cfg, n, ev), lane) == PacketsOf(ev)
    ensures forall x :: x in PacketsOf(ev) ==> x.msg.CallEnd?
  {
    hide Acted, Cleanup;
    lane := if Source(ev).Some? then Handler(Source(ev).value) else Task(|n.background|);
    assert forall x :: x in PacketsOf(ev) ==> x in Elems(PacketsOf(ev));
    assert Acted(cfg, n, ev).background == n.background by { ActedWaits(cfg, n, ev); }
  }

  /** What waited before an end still does. */
  lemma WaitsOn(cfg: Config, n: Node, ev: CallEvent, q: Packet)
    requires Possible(cfg, n, ev) && !ev.Sent? && !ev.BackgroundSent? && q in Waiting(n)
    ensures q in Waiting(After(cfg, n, ev))
  {
    hide After, Waiting, Owed, Lists;
    WaitingStep(cfg, n, ev);
  }

  /** Pre-emption queues its notices at once. */
  lemma PreemptedTold(cfg: Config, n: Node, ev: CallEvent, id: CallId, c: ClientId)
    requires Possible(cfg, n, ev) && PreemptedBy(cfg, n, ev) == Some(id) && IsTold(n, ev, id, c) && c in n.queue
    ensures c in After(cfg, n, ev).queue && CallEnd(id) in After(cfg, n, ev).queue[c]
  {
    hide Targets, Owed, Lists, HandedOver;
  }

  lemma ToldAndWaiting(cfg: Config, n: Node, ev: CallEvent, id: CallId, c: ClientId, q: Packet)
    requires Possible(cfg, n, ev) && Known(n) && id in EndedBy(cfg, n, ev) && IsTold(n, ev, id, c) && q in Waiting(n)
    ensures var n' := After(cfg, n, ev);
      && q in Waiting(n') && c in n.queue && c in n'.queue && n'.table.clock == n.table.clock
      && (if ev.End? || ev.Leave? then Packet(c, CallEnd(id)) in PacketsOf(ev)
          else PreemptedBy(cfg, n, ev) == Some(id))
  {
    hide After, Waiting, Owed, Lists;
    EndedByIff(cfg, n, ev, id);
    EndedHow(cfg, n, ev, id);
    StillThere(cfg, n, ev, id, c);
    WaitsOn(cfg, n, ev, q);
    QueueStep(cfg, n, ev, c);
    if ev.End? || ev.Leave? {
      OwedNotice(cfg, n, ev, id, c);
      assert Packet(c, CallEnd(id)) in Elems(PacketsOf(ev)) by { ListedElems(cfg, n, ev); }
    }
  }

  lemma ListedElems(cfg: Config, n: Node, ev: CallEvent)
    requires Possible(cfg, n, ev)
    ensures Elems(PacketsOf(ev)) == Owed(cfg, n, ev)
  {
    hide Owed;
  }

  /** After an unclean end some order of the sends has the notice queued while the
      header still waits: with pre-emption every order. */
  lemma NoticeFirst(cfg: Config, n: Node, ev: CallEvent, id: CallId, c: ClientId, q: Packet)
    returns (nodes: seq<Node>, evs: seq<CallEvent>)
    requires Possible(cfg, n, ev) && n.table.clock < U64_MAX && Known(n)
    requires id in EndedBy(cfg, n, ev) && IsTold(n, ev, id, c) && IsHeader(q, id, c) && q in Waiting(n)
    ensures Sends(cfg, nodes, evs) && nodes[0] == After(cfg, n, ev)
    ensures var x := nodes[|evs|];
      q in Waiting(x) && c in x.queue && CallEnd(id) in x.queue[c] && x.table.clock < U64_MAX
  {
    hide After, Waiting, Owed, Lists, CallStep, Known, EndedBy, IsTold, Possible;
    var n' := After(cfg, n, ev);
    ToldAndWaiting(cfg, n, ev, id, c, q);
    if ev.End? || ev.Leave? {
      var lane := OwnLane(cfg, n, ev);
      var i :| 0 <= i < |PacketsOf(ev)| && PacketsOf(ev)[i] == Packet(c, CallEnd(id));
      nodes, evs := SendThrough(cfg, n', lane, i + 1);
    } else {
      nodes, evs := [n'], [];
      PreemptedTold(cfg, n, ev, id, c);
    }
  }

  /** A header queued behind its notice stays there. */
  lemma BrokenOrder(n: Node, n': Node, id: CallId, c: ClientId, q: Packet)
    requires QueuesGrow(n, n') && c in n.queue && CallEnd(id) in n.queue[c] && IsHeader(q, id, c)
    requires |n'.queue[c]| > |n.queue[c]| && n'.queue[c][|n'.queue[c]| - 1] == q.msg
    ensures !AllEndLast(n')
  {
    var i :| 0 <= i < |n.queue[c]| && n.queue[c][i] == CallEnd(id);
    assert n'.queue[c][i] == CallEnd(id) && !EndLast(n'.queue[c]);
  }

  lemma UncleanBreaks(cfg: Config, n: Node, ev: CallEvent) returns (nodes: seq<Node>, evs: seq<CallEvent>)
    requires Possible(cfg, n, ev) && n.table.clock < U64_MAX && Known(n) && !EndsCleanly(cfg, n, ev)
    ensures Sends(cfg, nodes, evs) && nodes[0] == After(cfg, n, ev) && !AllEndLast(nodes[|evs|])
  {
    hide After, Possible, Waiting, CallStep, Known, EndedBy, IsTold, IsHeader, AllEndLast;
    var id, c, q :| id in EndedBy(cfg, n, ev) && IsTold(n, ev, id, c) && IsHeader(q, id, c) && q in Waiting(n);
    HeaderOf(q, id, c);
    var first, es := NoticeFirst(cfg, n, ev, id, c, q);
    var more, es' := SendUpTo(cfg, first[|es|], q);
    SendsJoin(cfg, first, es, more, es');
    nodes, evs := first + more[1..], es + es';
    BrokenOrder(first[|es|], more[|es'|], id, c, q);
  }

  /** Whatever order the packets that wait are queued in, notices are the last word. */
  ghost predicate EndLastInEveryOrder(cfg: Config, n: Node) {
    forall nodes: seq<Node>, evs: seq<CallEvent> ::
      Sends(cfg, nodes, evs) && nodes[0] == n ==> AllEndLast(nodes[|evs|])
  }

  lemma SendsAreClean(cfg: Config, n: Node, ev: CallEvent)
    requires ev.Sent? || ev.BackgroundSent?
    ensures EndsCleanly(cfg, n, ev) && FreshCall(n, ev)
  {
    hide Waiting;
  }

  lemma CleanContinuation(cfg: Config, selfId: ServerId, nodes: seq<Node>, evs: seq<CallEvent>, k: nat,
                          more: seq<Node>, es: seq<CallEvent>)
    requires CallRun(cfg, selfId, nodes, evs) && k <= |evs| && Sends(cfg, more, es) && more[0] == nodes[k]
    requires forall j :: 0 <= j < |evs| ==> FreshCall(nodes[j], evs[j])
    requires forall j :: 0 <= j < |evs| ==> EndsCleanly(cfg, nodes[j], evs[j])
    ensures AllEndLast(more[|es|])
  {
    hide CallStep, FreshCall, EndsCleanly, AllEndLast, Start;
    RunJoin(cfg, selfId, nodes, evs, k, more, es);
    var (all, steps) := (nodes[..k + 1] + more[1..], evs[..k] + es);
    forall j | 0 <= j < |steps| ensures FreshCall(all[j], steps[j]) && EndsCleanly(cfg, all[j], steps[j]) {
      if j < k {
        assert all[j] == nodes[j] && steps[j] == evs[j];
      } else {
        assert steps[j] == es[j - k];
        SendsAreClean(cfg, all[j], steps[j]);
      }
    }
    CleanRun(cfg, selfId, all, steps);
    assert AllEndLast(all[|steps|]);
  }

  /** With fresh call uuids: the notice of an end is the last word wherever the
      run stops and in whatever order the packets that wait are then queued, if and
      only if no step ends a call while a header of it is on its way to somebody
      who is told. */
  lemma CleanEndsIff(cfg: Config, selfId: ServerId, nodes: seq<Node>, evs: seq<CallEvent>)
    requires CallRun(cfg, selfId, nodes, evs)
    requires forall j :: 0 <= j < |evs| ==> FreshCall(nodes[j], evs[j])
    ensures (forall k :: 0 <= k <= |evs| ==> EndLastInEveryOrder(cfg, nodes[k]))
       <==> (forall j :: 0 <= j < |evs| ==> EndsCleanly(cfg, nodes[j], evs[j]))
  {
    hide After, Possible, FreshCall, EndsCleanly, AllEndLast, Start, TableOk, Known;
    if forall j :: 0 <= j < |evs| ==> EndsCleanly(cfg, nodes[j], evs[j]) {
      forall k | 0 <= k <= |evs| ensures EndLastInEveryOrder(cfg, nodes[k]) {
        forall more: seq<Node>, es: seq<CallEvent> | Sends(cfg, more, es) && more[0] == nodes[k]
          ensures AllEndLast(more[|es|])
        {
          CleanContinuation(cfg, selfId, nodes, evs, k, more, es);
        }
      }
    }
    if forall k :: 0 <= k <= |evs| ==> EndLastInEveryOrder(cfg, nodes[k]) {
      forall j | 0 <= j < |evs| ensures EndsCleanly(cfg, nodes[j], evs[j]) {
        assert CallStep(cfg, nodes[j], evs[j], nodes[j + 1]) && EndLastInEveryOrder(cfg, nodes[j + 1]);
        RunSound(cfg, selfId, nodes, evs, j);
        if !EndsCleanly(cfg, nodes[j], evs[j]) {
          var more, es := UncleanBreaks(cfg, nodes[j], evs[j]);
        }
      }
    }
  }

  /** Once a call is pre-empted while its header waits for somebody on it, the
      order is broken as soon as that header is queued, whatever comes between. */
  lemma PreemptedHeaderIsLate(cfg: Config, selfId: ServerId, nodes: seq<Node>, evs: seq<CallEvent>, j: nat, k: nat,
                              id: CallId, c: ClientId)
    requires CallRun(cfg, selfId, nodes, evs) && j < k < |evs|
    requires PreemptedBy(cfg, nodes[j], evs[j]) == Some(id) && IsTold(nodes[j], evs[j], id, c)
    requires NextPacket(nodes[k], evs[k]).Some? && IsHeader(NextPacket(nodes[k], evs[k]).value, id, c)
    ensures !AllEndLast(nodes[k + 1])
  {
    hide After, Possible, IsTold, IsHeader, TableOk, AllEndLast, PreemptedBy, NextPacket, Covered, OwnerApart,
         HeadersMatch,
         Told, VoiceCovered, VoiceApart, Start, Known;
    RunSound(cfg, selfId, nodes, evs, j);
    assert CallStep(cfg, nodes[j], evs[j], nodes[j + 1]);
    ToldIsClient(nodes[j], evs[j], id, c);
    KnownQueue(nodes[j], c);
    PreemptedTold(cfg, nodes[j], evs[j], id, c);
    RunQueues(cfg, selfId, nodes, evs, j + 1, k, c);
    assert CallStep(cfg, nodes[k], evs[k], nodes[k + 1]);
    HeaderOf(NextPacket(nodes[k], evs[k]).value, id, c);
    SentLast(cfg, nodes[k], evs[k]);
    BrokenOrder(nodes[k], nodes[k + 1], id, c, NextPacket(nodes[k], evs[k]).value);
  }

  lemma ToldIsClient(n: Node, ev: CallEvent, id: CallId, c: ClientId)
    requires IsTold(n, ev, id, c)
    ensures c in n.table.clients
  {
  }

  lemma KnownQueue(n: Node, c: ClientId)
    requires Known(n) && c in n.table.clients
    ensures c in n.queue
  {
  }

  lemma SentLast(cfg: Config, n: Node, ev: CallEvent)
    requires Possible(cfg, n, ev) && NextPacket(n, ev).Some? && NextPacket(n, ev).value.to in n.queue
    ensures var (n', q) := (After(cfg, n, ev), NextPacket(n, ev).value);
      && QueuesGrow(n, n') && |n'.queue[q.to]| > |n.queue[q.to]| && n'.queue[q.to][|n'.queue[q.to]| - 1] == q.msg
  {
    hide Acted;
  }

  lemma {:induction false} RunQueues(cfg: Config, selfId: ServerId, nodes: seq<Node>, evs: seq<CallEvent>, j: nat,
                                     k: nat,
                                     c: ClientId)
    requires CallRun(cfg, selfId, nodes, evs) && j <= k <= |evs| && c in nodes[j].queue
    ensures c in nodes[k].queue && nodes[j].queue[c] <= nodes[k].queue[c]
    decreases k - j
  {
    hide After, Possible, Start;
    if j < k {
      RunQueues(cfg, selfId, nodes, evs, j, k - 1, c);
      assert CallStep(cfg, nodes[k - 1], evs[k - 1], nodes[k - 1 + 1]);
      QueueStep(cfg, nodes[k - 1], evs[k - 1], c);
    }
  }

  // ----- the notice that is overtaken -----

  /** Every call goes to everybody, the higher priority wins. */
  const OPEN := Config(false, true, true, false)

  /** Two Basestations. */
  ghost function Pair(): Node {
    var t := Attach(Attach(Initial(1), 1, Basestation, None), 2, Basestation, None);
    Start(1).(table := t, queue := map[1 := [], 2 := []])
  }

  /** Call 0 of connection 1, its header not yet queued. */
  ghost function Calling(): Node {
    Pair().(calls := map[0 := Call(Group, 1, 7, 9, 0, {2})], floor := map[9 := 0],
            headers := map[0 := GroupTx(0, 7, 9, 0)],
            sending := map[1 := [Packet(2, GroupTx(0, 7, 9, 0))]])
  }

  /** Pre-empted by call 5 of connection 2. */
  ghost function Seized(): Node {
    Calling().(calls := map[5 := Call(Group, 2, 8, 9, 1, {1})], floor := map[9 := 5],
               headers := map[5 := GroupTx(5, 8, 9, 1)],
               queue := map[1 := [CallEnd(0)], 2 := [CallEnd(0)]],
               sending := map[1 := [Packet(2, GroupTx(0, 7, 9, 0))], 2 := [Packet(1, GroupTx(5, 8, 9, 1))]])
  }

  /** The pre-empted call's header reaches connection 2 after the notice of its
      end: a reachable state with the calls of all uuids fresh. */
  lemma EndCanBeOvertaken()
    ensures exists nodes: seq<Node>, evs: seq<CallEvent> ::
      CallRun(OPEN, 1, nodes, evs) && (forall j :: 0 <= j < |evs| ==> FreshCall(nodes[j], evs[j])) &&
          !AllEndLast(nodes[|evs|])
  {
    hide CallStep, CallRun, FreshCall, AllEndLast, Pair, Calling, Seized, Attach;
    var n0 := Start(1);
    var n1 := n0.(table := Attach(n0.table, 1, Basestation, None), queue := map[1 := []]);
    var n2, n3, n4 := Pair(), Calling(), Seized();
    var n5 := n4.(queue := map[1 := [CallEnd(0)], 2 := [CallEnd(0), GroupTx(0, 7, 9, 0)]],
                  sending := map[2 := [Packet(1, GroupTx(5, 8, 9, 1))]]);
    var e0, e1 := Join(1, Basestation, None, false), Join(2, Basestation, None, false);
    var e2 := Transmit(1, 0, 7, 9, 0, false, false, [Packet(2, GroupTx(0, 7, 9, 0))]);
    var e3, e4 := Transmit(2, 5, 8, 9, 1, false, false, [Packet(1, GroupTx(5, 8, 9, 1))]), Sent(1);
    PairSteps(n0, n1, n2, e0, e1);
    CallingStep(e2);
    SeizedStep(e3);
    LateStep(n5, e4);
    var nodes, evs := [n0, n1, n2, n3, n4, n5], [e0, e1, e2, e3, e4];
    FiveSteps(nodes, evs);
    assert !AllEndLast(nodes[|evs|]) by { Late(n5); }
  }

  lemma FiveSteps(nodes: seq<Node>, evs: seq<CallEvent>)
    requires |nodes| == 6 && |evs| == 5 && nodes[0] == Start(1)
    requires CallStep(OPEN, nodes[0], evs[0], nodes[1]) && CallStep(OPEN, nodes[1], evs[1], nodes[2])
    requires CallStep(OPEN, nodes[2], evs[2], nodes[3]) && CallStep(OPEN, nodes[3], evs[3], nodes[4])
    requires CallStep(OPEN, nodes[4], evs[4], nodes[5])
    requires FreshCall(nodes[0], evs[0]) && FreshCall(nodes[1], evs[1]) && FreshCall(nodes[2], evs[2])
    requires FreshCall(nodes[3], evs[3]) && FreshCall(nodes[4], evs[4])
    ensures CallRun(OPEN, 1, nodes, evs) && forall j :: 0 <= j < |evs| ==> FreshCall(nodes[j], evs[j])
  {
    hide CallStep, FreshCall;
  }

  lemma Late(n: Node)
    requires n.queue == map[1 := [CallEnd(0)], 2 := [CallEnd(0), GroupTx(0, 7, 9, 0)]]
    ensures !AllEndLast(n)
  {
    assert n.queue[2][0].CallEnd? && n.queue[2][1].GroupTx?;
    assert !EndLast(n.queue[2]);
  }

  lemma PairSteps(n0: Node, n1: Node, n2: Node, e0: CallEvent, e1: CallEvent)
    requires n0 == Start(1) && n2 == Pair()
    requires e0 == Join(1, Basestation, None, false) && e1 == Join(2, Basestation, None, false)
    requires n1 == n0.(table := Attach(n0.table, 1, Basestation, None), queue := map[1 := []])
    ensures CallStep(OPEN, n0, e0, n1) && CallStep(OPEN, n1, e1, n2) && FreshCall(n0, e0) && FreshCall(n1, e1)
  {
  }

  lemma CallingStep(e: CallEvent)
    requires e == Transmit(1, 0, 7, 9, 0, false, false, [Packet(2, GroupTx(0, 7, 9, 0))])
    ensures CallStep(OPEN, Pair(), e, Calling()) && FreshCall(Pair(), e)
  {
    var n := Pair();
    assert Targets(OPEN, n, 1, 0, 7, 9, false) == {2} && 2 in n.table.clients;
    assert TxPackets(OPEN, n, 1, 0, 7, 9, 0, false, false) == {Packet(2, GroupTx(0, 7, 9, 0))} == Elems(e.packets);
    assert OnGroupTx(OPEN, n, 1, 0, 7, 9, 0, false, false) == Calling().(sending := map[]);
  }

  lemma SeizedStep(e: CallEvent)
    requires e == Transmit(2, 5, 8, 9, 1, false, false, [Packet(1, GroupTx(5, 8, 9, 1))])
    ensures CallStep(OPEN, Calling(), e, Seized()) && FreshCall(Calling(), e)
  {
    hide Preempted, Targets, TxPackets, OnGroupTx, TurnedAway, Rejected, Calling;
    SeizedPackets();
    SeizedCall();
    CallingOpen();
    CallingState();
  }

  lemma CallingState()
    ensures var n := Calling();
      && n.table.clock < U64_MAX && 2 in n.table.clients && n.sending == map[1 := [Packet(2, GroupTx(0, 7, 9, 0))]]
  {
  }

  lemma SeizedPackets()
    ensures TxPackets(OPEN, Calling(), 2, 5, 8, 9, 1, false, false) == {Packet(1, GroupTx(5, 8, 9, 1))}
    ensures Elems([Packet(1, GroupTx(5, 8, 9, 1))]) == {Packet(1, GroupTx(5, 8, 9, 1))}
  {
    hide Preempted, Targets;
    SeizedTargets();
  }

  lemma SeizedCall()
    ensures OnGroupTx(OPEN, Calling(), 2, 5, 8, 9, 1, false, false) == Seized().(sending := Calling().sending)
  {
    hide Preempted, Targets;
    SeizedTargets();
  }

  /** Call 0 released, call 5 not yet recorded. */
  ghost function Released(): Node {
    Calling().(calls := map[], queue := map[1 := [CallEnd(0)], 2 := [CallEnd(0)]])
  }

  lemma SeizedTargets()
    ensures Preempted(OPEN, Calling(), 5, 9) == Released()
    ensures Targets(OPEN, Released(), 2, 5, 8, 9, false) == {1} && 1 in Calling().table.clients
  {
    var n := Calling();
    var n1 := Preempted(OPEN, n, 5, 9);
    assert [] + [CallEnd(0)] == [CallEnd(0)];
    assert n.calls[0].peers + {n.calls[0].owner} == {1, 2};
    assert n1.calls == map[] && n1.queue == Released().queue;
  }

  lemma CallingOpen()
    ensures Open(Calling(), 5)
  {
    var n := Calling();
    BagSplit(n.sending, 1);
    assert n.sending - {1} == map[];
    assert Waiting(n) == multiset{Packet(2, GroupTx(0, 7, 9, 0))};
  }

  lemma LateStep(n5: Node, e: CallEvent)
    requires e == Sent(1)
    requires n5 == Seized().(queue := map[1 := [CallEnd(0)], 2 := [CallEnd(0), GroupTx(0, 7, 9, 0)]],
                             sending := map[2 := [Packet(1, GroupTx(5, 8, 9, 1))]])
    ensures CallStep(OPEN, Seized(), e, n5) && FreshCall(Seized(), e)
  {
    var n := Seized();
    assert n.sending[1][1..] == [];
    assert n.queue[2] + [GroupTx(0, 7, 9, 0)] == [CallEnd(0), GroupTx(0, 7, 9, 0)];
    assert n.queue[2 := [CallEnd(0), GroupTx(0, 7, 9, 0)]] == n5.queue;
    assert n.sending - {1} == n5.sending;
  }

  // ----- without pre-emption -----

  /** The talker hangs up while the console's header of the alarm still waits. */
  lemma HangsUp(e: CallEvent)
    requires e == End(1, 0, false, [Packet(2, CallEnd(0))])
    ensures Possible(STRICT, Alarming(), e) && !EndsCleanly(STRICT, Alarming(), e)
    ensures Known(Alarming()) && Alarming().table.clock < U64_MAX
  {
    hide Alarming, Waiting, EndPackets;
    var n := Alarming();
    AlarmingState();
    assert EndPackets(n, 1, 0) == {Packet(2, CallEnd(0))} == Elems(e.packets) by { HangUpPackets(); }
    var q := Packet(2, GroupTx(0, 7, 9, EMERGENCY_PRIORITY));
    assert q in Waiting(n) by { AlarmWaits(n, q); }
    assert 0 in EndedBy(STRICT, n, e) && IsTold(n, e, 0, 2) && IsHeader(q, 0, 2);
  }

  lemma HangUpPackets()
    ensures EndPackets(Alarming(), 1, 0) == {Packet(2, CallEnd(0))}
  {
    var n := Alarming();
    assert Listeners(n.calls[0], 1) == {2} && 2 in n.table.clients;
  }

  lemma AlarmWaits(n: Node, q: Packet)
    requires n.background == [[q]]
    ensures q in Waiting(n)
  {
    OneBatch([q]);
  }

  lemma AlarmingState()
    ensures var n := Alarming();
      && n.table.clients.Keys == {1, 2} && n.consoles == {2} && n.queue == map[1 := [], 2 := []] && n.sending == map[]
      && n.calls == map[0 := Call(Group, 1, 7, 9, EMERGENCY_PRIORITY, {2})]
      && n.background == [[Packet(2, GroupTx(0, 7, 9, EMERGENCY_PRIORITY))]] && n.table.clock < U64_MAX
  {
  }

  /** All uuids are fresh, and nothing is pre-empted. */
  ghost predicate Plain(nodes: seq<Node>, evs: seq<CallEvent>) {
    && |nodes| == |evs| + 1
    && forall j :: 0 <= j < |evs| ==> FreshCall(nodes[j], evs[j]) && PreemptedBy(STRICT, nodes[j], evs[j]).None?
  }

  lemma PlainTalk()
    ensures Plain(TalkNodes(), TalkEvents())
  {
    var (nodes, evs) := (TalkNodes(), TalkEvents());
    assert Waiting(Attached()) == multiset{};
    forall j | 0 <= j < |evs| ensures FreshCall(nodes[j], evs[j]) && PreemptedBy(STRICT, nodes[j], evs[j]).None? {
      assert j < 2 ==> evs[j].Join?;
    }
  }

  lemma PlainMore(nodes: seq<Node>, evs: seq<CallEvent>, more: seq<Node>, es: seq<CallEvent>)
    requires Plain(nodes, evs) && |more| == |es| + 1 && more[0] == nodes[|evs|]
    requires forall j :: 0 <= j < |es| ==> !es[j].Transmit? && !es[j].Setup?
    ensures Plain(nodes + more[1..], evs + es)
  {
    hide Open;
    var (all, steps) := (nodes + more[1..], evs + es);
    forall j | 0 <= j < |steps| ensures FreshCall(all[j], steps[j]) && PreemptedBy(STRICT, all[j], steps[j]).None? {
      if j < |evs| { assert FreshCall(nodes[j], evs[j]) && PreemptedBy(STRICT, nodes[j], evs[j]).None?; }
    }
  }

  /** Nothing is pre-empted, and still the header comes after the notice. */
  lemma HangUpCanBeOvertaken()
    ensures exists nodes: seq<Node>, evs: seq<CallEvent> ::
      CallRun(STRICT, 1, nodes, evs) && Plain(nodes, evs) && !AllEndLast(nodes[|evs|])
  {
    hide CallStep, AllEndLast, Talking, Alarming, After, Possible, EndsCleanly, Known, Plain, Start, TalkNodes,
         TalkEvents;
    var e3, e4 := Alarm(7, [Packet(2, GroupTx(0, 7, 9, EMERGENCY_PRIORITY))]),
        End(1, 0, false, [Packet(2, CallEnd(0))]);
    var n4 := Alarming();
    TalkRun();
    AlarmStep(e3);
    RunOn(STRICT, 1, TalkNodes(), TalkEvents(), e3, n4);
    HangsUp(e4);
    AnyStep(STRICT, n4, e4);
    var n5 := After(STRICT, n4, e4);
    var nodes4, evs4 := TalkNodes() + [n4], TalkEvents() + [e3];
    RunOn(STRICT, 1, nodes4, evs4, e4, n5);
    var nodes, evs := nodes4 + [n5], evs4 + [e4];
    var more, es := UncleanBreaks(STRICT, n4, e4);
    RunJoin(STRICT, 1, nodes, evs, |evs|, more, es);
    assert nodes[..|evs| + 1] == nodes && evs[..|evs|] == evs;
    PlainTalk();
    PlainMore(TalkNodes(), TalkEvents(), [Talking(), n4], [e3]);
    PlainMore(nodes4, evs4, [n4, n5], [e4]);
    PlainMore(nodes, evs, more, es);
  }
}
