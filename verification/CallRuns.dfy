/** The group-call claims over whole runs. */
module CallRuns {
  import opened FedTypes
  import opened RouteTable
  import opened TableInvariant
  import opened GroupCalls
  import opened CallInvariants
  import opened CallHeaders

  /** Any event at any node whose clock is not exhausted. */
  ghost predicate CallStep(cfg: Config, n: Node, ev: CallEvent, n': Node) {
    n.table.clock < U64_MAX && Possible(cfg, n, ev) && n' == After(cfg, n, ev)
  }

  /** The nodes passed through, one more than the events. */
  ghost predicate CallRun(cfg: Config, selfId: ServerId, nodes: seq<Node>, evs: seq<CallEvent>) {
    && |nodes| == |evs| + 1 && nodes[0] == Start(selfId)
    && forall k :: 0 <= k < |evs| ==> CallStep(cfg, nodes[k], evs[k], nodes[k + 1])
  }

  ghost predicate Sound(n: Node) {
    && TableOk(n.table)
    && Covered(n) && OwnerApart(n) && HeadersMatch(n) && Known(n) && Told(n) && VoiceCovered(n) && VoiceApart(n)
  }

  lemma StartSound(selfId: ServerId)
    ensures Sound(Start(selfId))
  {
    hide TableOk;
    AlwaysFixpoint(selfId, [], 0);
    assert Run(selfId, []) == Start(selfId).table;
  }

  /** In every reachable state the table is a fixpoint, each non-peer member of
      a group is on every running call to it, no owner is among its own peers,
      the stored header announces the current talker, every participant was
      told or is owed it, and so is whoever a voice frame is on its way to. */
  lemma {:induction false} RunSound(cfg: Config, selfId: ServerId, nodes: seq<Node>, evs: seq<CallEvent>, k: nat)
    requires CallRun(cfg, selfId, nodes, evs) && k <= |evs|
    ensures Sound(nodes[k])
  {
    hide After, Possible, Covered, OwnerApart, HeadersMatch, Known, Told, VoiceCovered, VoiceApart, TableOk;
    if k == 0 {
      StartSound(selfId);
    } else {
      RunSound(cfg, selfId, nodes, evs, k - 1);
      var (n, ev) := (nodes[k - 1], evs[k - 1]);
      assert CallStep(cfg, n, ev, nodes[k - 1 + 1]);
      TableStep(cfg, n, ev);
      CoveredStep(cfg, n, ev);
      OwnerApartStep(cfg, n, ev);
      HeadersMatchStep(cfg, n, ev);
      KnownStep(cfg, n, ev);
      ToldStep(cfg, n, ev);
      VoiceCoveredStep(cfg, n, ev);
      VoiceApartStep(cfg, n, ev);
    }
  }

  /** One call per group: with multiple calls off and uuids that keep their kind
      and group, the floor is exact, so a group never has two running calls. */
  lemma {:induction false} RunOneCallPerGroup(cfg: Config, selfId: ServerId, nodes: seq<Node>, evs: seq<CallEvent>,
                                              k: nat)
    requires CallRun(cfg, selfId, nodes, evs) && k <= |evs| && !cfg.allowMultiple
    requires forall j :: 0 <= j < |evs| ==> KeepsKind(nodes[j], evs[j])
    ensures FloorExact(nodes[k])
    ensures forall g: Gssi, a: CallId, b: CallId :: RunningGroup(nodes[k], a, g) && RunningGroup(nodes[k], b, g) ==>
      a == b
  {
    hide After, Possible, KeepsKind;
    if k > 0 {
      RunOneCallPerGroup(cfg, selfId, nodes, evs, k - 1);
      var (n, ev) := (nodes[k - 1], evs[k - 1]);
      assert CallStep(cfg, n, ev, nodes[k - 1 + 1]) && KeepsKind(n, ev);
      FloorStep(cfg, n, ev);
    }
    forall g: Gssi, a: CallId, b: CallId | RunningGroup(nodes[k], a, g) && RunningGroup(nodes[k], b, g) ensures a == b {
      assert Get(nodes[k].floor, g) == Some(a) && Get(nodes[k].floor, g) == Some(b);
    }
  }

  /** As long as no frame overtakes the header of an alarm, nobody is queued a
      voice frame of a group call before a GROUP_TX of that call. */
  lemma {:induction false} RunHeaderFirst(cfg: Config, selfId: ServerId, nodes: seq<Node>, evs: seq<CallEvent>, k: nat)
    requires CallRun(cfg, selfId, nodes, evs) && k <= |evs|
    requires forall j :: 0 <= j < k ==> !Races(nodes[j], evs[j])
    ensures AllHeaderFirst(nodes[k])
  {
    hide After, Possible, TableOk, Races, AllHeaderFirst, VoiceCovered, VoiceApart;
    if k == 0 {
      assert AllHeaderFirst(nodes[0]) by { NoQueues(selfId); }
    } else {
      RunHeaderFirst(cfg, selfId, nodes, evs, k - 1);
      RunSound(cfg, selfId, nodes, evs, k - 1);
      var (n, ev) := (nodes[k - 1], evs[k - 1]);
      assert CallStep(cfg, n, ev, nodes[k - 1 + 1]);
      OrderStepIff(cfg, n, ev);
    }
  }

  /** And only then: the order holds throughout a run if and only if no frame
      overtakes the header of an alarm in it. */
  lemma RunHeaderFirstIff(cfg: Config, selfId: ServerId, nodes: seq<Node>, evs: seq<CallEvent>)
    requires CallRun(cfg, selfId, nodes, evs)
    ensures (forall k :: 0 <= k <= |evs| ==> AllHeaderFirst(nodes[k]))
       <==> (forall j :: 0 <= j < |evs| ==> !Races(nodes[j], evs[j]))
  {
    hide After, Possible, TableOk, Races, AllHeaderFirst, VoiceCovered, VoiceApart;
    if forall j :: 0 <= j < |evs| ==> !Races(nodes[j], evs[j]) {
      forall k | 0 <= k <= |evs| ensures AllHeaderFirst(nodes[k]) { RunHeaderFirst(cfg, selfId, nodes, evs, k); }
    }
    if forall k :: 0 <= k <= |evs| ==> AllHeaderFirst(nodes[k]) {
      forall j | 0 <= j < |evs| ensures !Races(nodes[j], evs[j]) {
        RunSound(cfg, selfId, nodes, evs, j);
        assert CallStep(cfg, nodes[j], evs[j], nodes[j + 1]);
        OrderStepIff(cfg, nodes[j], evs[j]);
      }
    }
  }

  lemma NoQueues(selfId: ServerId)
    ensures AllHeaderFirst(Start(selfId))
  {
  }

  // ----- the alarm that is overtaken -----

  const STRICT := Config(false, true, false, false)

  /** A Basestation and a console attached, nobody affiliated. */
  ghost function Attached(): Node {
    var t := Attach(Attach(Initial(1), 1, Basestation, None), 2, Basestation, None);
    Start(1).(table := t, queue := map[1 := [], 2 := []], consoles := {2})
  }

  ghost function Talking(): Node {
    Attached().(calls := map[0 := Call(Group, 1, 7, 9, 0, {})], floor := map[9 := 0],
                headers := map[0 := GroupTx(0, 7, 9, 0)])
  }

  ghost function Alarming(): Node {
    Talking().(calls := map[0 := Call(Group, 1, 7, 9, EMERGENCY_PRIORITY, {2})],
               background := [[Packet(2, GroupTx(0, 7, 9, EMERGENCY_PRIORITY))]])
  }

  ghost function Speaking(): Node {
    Alarming().(sending := map[1 := [Packet(2, Voice(0, Group))]])
  }

  /** A run goes on by one event. */
  lemma RunOn(cfg: Config, selfId: ServerId, nodes: seq<Node>, evs: seq<CallEvent>, ev: CallEvent, n': Node)
    requires CallRun(cfg, selfId, nodes, evs) && CallStep(cfg, nodes[|evs|], ev, n')
    ensures CallRun(cfg, selfId, nodes + [n'], evs + [ev]) && (nodes + [n'])[|evs + [ev]|] == n'
    ensures (nodes + [n'])[|evs|] == nodes[|evs|] && |evs + [ev]| == |evs| + 1
  {
    hide CallStep, Start;
    var (all, steps) := (nodes + [n'], evs + [ev]);
    forall k | 0 <= k < |steps| ensures CallStep(cfg, all[k], steps[k], all[k + 1]) {
      if k < |evs| { assert CallStep(cfg, nodes[k], evs[k], nodes[k + 1]); }
    }
  }

  /** The run up to `Talking`. */
  ghost function TalkNodes(): seq<Node> {
    [Start(1), Start(1).(table := Attach(Initial(1), 1, Basestation, None), queue := map[1 := []]), Attached(),
     Talking()]
  }

  function TalkEvents(): seq<CallEvent> {
    [Join(1, Basestation, None, false), Join(2, Basestation, None, true), Transmit(1, 0, 7, 9, 0, false, false, [])]
  }

  lemma TalkRun()
    ensures CallRun(STRICT, 1, TalkNodes(), TalkEvents()) && |TalkEvents()| == 3 && TalkNodes()[3] == Talking()
  {
    hide CallStep, Attached, Talking, Attach;
    var (nodes, evs) := (TalkNodes(), TalkEvents());
    JoinSteps(STRICT, nodes[0], nodes[1], nodes[2], evs[0], evs[1]);
    TalkStep(evs[2]);
  }

  /** `emergency_raised` queues its headers after it released the lock. A frame
      routed in between reaches a console that was never told of the call. */
  lemma AlarmCanBeOvertaken()
    ensures exists nodes: seq<Node>, evs: seq<CallEvent> ::
      CallRun(STRICT, 1, nodes, evs) && !AllHeaderFirst(nodes[|evs|])
  {
    hide CallStep, CallRun, AllHeaderFirst, Talking, Alarming, Speaking, TalkNodes, TalkEvents;
    var n6 := Alarming().(queue := map[1 := [], 2 := [Voice(0, Group)]]);
    var e3 := Alarm(7, [Packet(2, GroupTx(0, 7, 9, EMERGENCY_PRIORITY))]);
    var e4, e5 := Frame(1, 0, [Packet(2, Voice(0, Group))]), Sent(1);
    TalkRun();
    AlarmStep(e3);
    RunOn(STRICT, 1, TalkNodes(), TalkEvents(), e3, Alarming());
    var nodes, evs := TalkNodes() + [Alarming()], TalkEvents() + [e3];
    FrameStep(e4);
    RunOn(STRICT, 1, nodes, evs, e4, Speaking());
    OvertakingStep(n6, e5);
    RunOn(STRICT, 1, nodes + [Speaking()], evs + [e4], e5, n6);
    Untold(n6);
  }

  lemma Untold(n: Node)
    requires n.queue == map[1 := [], 2 := [Voice(0, Group)]]
    ensures !AllHeaderFirst(n)
  {
    assert !HasHeader(n.queue[2][..0], 0);
    assert !HeaderFirst(n.queue[2]);
  }

  lemma TalkStep(e: CallEvent)
    requires e == Transmit(1, 0, 7, 9, 0, false, false, [])
    ensures CallStep(STRICT, Attached(), e, Talking())
  {
    var n := Attached();
    assert Members(n.table.subs, 9) == {};
    assert Targets(STRICT, n, 1, 0, 7, 9, false) == {};
    assert TxPackets(STRICT, n, 1, 0, 7, 9, 0, false, false) == {};
    assert n.headers == map[];
    assert OnGroupTx(STRICT, n, 1, 0, 7, 9, 0, false, false) == Talking();
  }

  lemma AlarmStep(e: CallEvent)
    requires e == Alarm(7, [Packet(2, GroupTx(0, 7, 9, EMERGENCY_PRIORITY))])
    ensures CallStep(STRICT, Talking(), e, Alarming())
  {
    var n := Talking();
    assert Alarmed(n, 7) == {0} && PeerLinks(n.table) == {};
    assert AlarmPeers(n, 0) == {2} && AlarmPeers(n, 0) * (n.consoles + PeerLinks(n.table)) == {2};
    assert 2 in n.table.clients;
    assert AlarmPackets(n, 7) == {Packet(2, AlarmHeader(n, 0))} == Elems(e.packets);
    assert OnAlarm(n, 7).calls == Alarming().calls;
  }

  lemma FrameStep(e: CallEvent)
    requires e == Frame(1, 0, [Packet(2, Voice(0, Group))])
    ensures CallStep(STRICT, Alarming(), e, Speaking())
  {
    var n := Alarming();
    assert Listeners(n.calls[0], 1) == {2} && 2 in n.table.clients;
    assert FramePackets(n, 1, 0) == {Packet(2, Voice(0, Group))} == Elems(e.packets);
    assert n.sending == map[];
  }

  lemma OvertakingStep(n6: Node, e: CallEvent)
    requires n6 == Alarming().(queue := map[1 := [], 2 := [Voice(0, Group)]])
    requires e == Sent(1)
    ensures CallStep(STRICT, Speaking(), e, n6)
  {
    var n := Speaking();
    assert n.sending[1][1..] == [];
    assert n.queue[2] + [Voice(0, Group)] == [Voice(0, Group)];
    assert n.sending - {1} == map[];
    assert n.queue[2 := [Voice(0, Group)]] == n6.queue;
  }

  lemma JoinSteps(cfg: Config, n0: Node, n1: Node, n2: Node, e0: CallEvent, e1: CallEvent)
    requires n0 == Start(1)
    requires e0 == Join(1, Basestation, None, false) && e1 == Join(2, Basestation, None, true)
    requires n1 == n0.(table := Attach(n0.table, 1, Basestation, None), queue := map[1 := []])
    requires n2 == Attached()
    ensures CallStep(cfg, n0, e0, n1) && CallStep(cfg, n1, e1, n2)
  {
  }

  // ----- the uuid that is used again -----

  /** Call 0 to group 9 set up again as a call to group 8. */
  lemma MovesGroup(e: CallEvent)
    requires e == Transmit(1, 0, 7, 8, 0, false, false, [])
    ensures Possible(STRICT, Talking(), e) && FloorExact(Talking()) && Talking().table.clock < U64_MAX
    ensures !TurnedAway(STRICT, Talking(), e.src, e.call, e.group, e.priority, e.duplicate)
  {
    var n := Talking();
    assert Members(n.table.subs, 8) == {};
    assert Targets(STRICT, n, 1, 0, 7, 8, false) == {};
    assert TxPackets(STRICT, n, 1, 0, 7, 8, 0, false, false) == {};
  }

  /** The last step of the run breaks the floor. */
  ghost predicate BreaksFloor(nodes: seq<Node>, evs: seq<CallEvent>) {
    && CallRun(STRICT, 1, nodes, evs) && evs != []
    && FloorExact(nodes[|evs| - 1]) && !FloorExact(nodes[|evs|])
  }

  /** A running uuid taken for another group leaves both floors with the call. */
  lemma ReusedForGroup()
    ensures exists nodes: seq<Node>, evs: seq<CallEvent> :: BreaksFloor(nodes, evs) && evs[|evs| - 1].Transmit?
  {
    hide CallStep, CallRun, FloorExact, Talking, TalkNodes, TalkEvents, Possible, After;
    var e := Transmit(1, 0, 7, 8, 0, false, false, []);
    TalkRun();
    MovesGroup(e);
    TalksTo9();
    AnyStep(STRICT, Talking(), e);
    TransmitKeepsFloorIff(STRICT, Talking(), e);
    RunOn(STRICT, 1, TalkNodes(), TalkEvents(), e, After(STRICT, Talking(), e));
    assert BreaksFloor(TalkNodes() + [After(STRICT, Talking(), e)], TalkEvents() + [e]);
  }

  lemma TalksTo9()
    ensures 0 in Talking().calls && Talking().calls[0].kind == Group && Talking().calls[0].destination == 9
  {
  }

  lemma AnyStep(cfg: Config, n: Node, ev: CallEvent)
    requires Possible(cfg, n, ev) && n.table.clock < U64_MAX
    ensures CallStep(cfg, n, ev, After(cfg, n, ev))
  {
  }

  /** A radio that registers at connection 2. */
  lemma Radio(e: CallEvent)
    requires e == Subscribe(2, Register, 5, [], 1, [])
    ensures Possible(STRICT, Talking(), e)
    ensures var n := After(STRICT, Talking(), e);
      && n.table.clock < U64_MAX && n.calls == Talking().calls && n.floor == Talking().floor && n.sending == map[]
      && 5 in n.table.subs && n.table.subs[5].client == 2 && 1 in n.table.clients && 2 in n.table.clients
  {
    var n := Talking();
    var n1 := Subscribed(n, 2, Register, 5, [], 1);
    assert n1.table.subs[5].groups == {};
    assert Joinable(n1, 2, {}) == {};
  }

  lemma Calls(n: Node, e: CallEvent)
    requires e == Setup(1, 0, 7, 5, 0, [Packet(2, SetupReq(0, 7, 5))])
    requires n.sending == map[] && 5 in n.table.subs && n.table.subs[5].client == 2
    requires 1 in n.table.clients && 2 in n.table.clients
    ensures Possible(STRICT, n, e) && Routable(n, e.src, e.dest)
  {
    assert SetupPackets(n, 1, 0, 7, 5) == {Packet(2, SetupReq(0, 7, 5))} == Elems(e.packets);
  }

  /** Taken for a private call it leaves the floor of its group with that call. */
  lemma ReusedForPrivate()
    ensures exists nodes: seq<Node>, evs: seq<CallEvent> :: BreaksFloor(nodes, evs) && evs[|evs| - 1].Setup?
  {
    hide CallStep, CallRun, FloorExact, Talking, TalkNodes, TalkEvents, Possible, After;
    var e3, e4 := Subscribe(2, Register, 5, [], 1, []), Setup(1, 0, 7, 5, 0, [Packet(2, SetupReq(0, 7, 5))]);
    TalkRun();
    MovesGroup(Transmit(1, 0, 7, 8, 0, false, false, []));
    TalksTo9();
    Radio(e3);
    AnyStep(STRICT, Talking(), e3);
    FloorStep(STRICT, Talking(), e3);
    var n4 := After(STRICT, Talking(), e3);
    RunOn(STRICT, 1, TalkNodes(), TalkEvents(), e3, n4);
    Calls(n4, e4);
    AnyStep(STRICT, n4, e4);
    SetupKeepsFloorIff(STRICT, n4, e4);
    var nodes, evs := TalkNodes() + [n4], TalkEvents() + [e3];
    RunOn(STRICT, 1, nodes, evs, e4, After(STRICT, n4, e4));
    assert BreaksFloor(nodes + [After(STRICT, n4, e4)], evs + [e4]);
  }
}
