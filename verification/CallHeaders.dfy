/** Nobody hears a call before being told of it: the header of a group call
    reaches every participant ahead of its voice. */
module CallHeaders {
  import opened FedTypes
  import opened RouteTable
  import opened TableInvariant
  import opened Propagation
  import opened GroupCalls
  import opened CallInvariants

  ghost predicate HasHeader(q: seq<CallMsg>, id: CallId) {
    exists m :: m in q && m.GroupTx? && m.id == id
  }

  /** Every voice frame of a group call has a GROUP_TX of that call before it. */
  ghost predicate HeaderFirst(q: seq<CallMsg>) {
    forall k :: 0 <= k < |q| && q[k].Voice? && q[k].kind == Group ==> HasHeader(q[..k], q[k].id)
  }

  ghost predicate AllHeaderFirst(n: Node) {
    forall c :: c in n.queue ==> HeaderFirst(n.queue[c])
  }

  /** One of `ps` tells `p` of the call `id`. */
  ghost predicate Tells(ps: seq<Packet>, id: CallId, p: ClientId) {
    exists k :: 0 <= k < |ps| && ps[k].to == p && ps[k].msg.GroupTx? && ps[k].msg.id == id
  }

  ghost predicate OwedInBackground(n: Node, id: CallId, p: ClientId) {
    exists k :: 0 <= k < |n.background| && Tells(n.background[k], id, p)
  }

  /** Has the header of the call, or somebody still owes it. */
  ghost predicate Informed(n: Node, id: CallId, p: ClientId)
    requires id in n.calls && p in n.queue
  {
    || HasHeader(n.queue[p], id)
    || (n.calls[id].owner in n.sending && Tells(n.sending[n.calls[id].owner], id, p))
    || OwedInBackground(n, id, p)
  }

  /** Every live participant of a running group call has its header, or a
      handler that still owes it. */
  ghost predicate Told(n: Node) {
    forall id: CallId, p: ClientId ::
      id in n.calls && n.calls[id].kind == Group && p in n.calls[id].peers && p in n.table.clients
      ==> p in n.queue && Informed(n, id, p)
  }

  /** The stored header announces the call and its current talker. */
  ghost predicate HeadersMatch(n: Node) {
    forall id :: id in n.calls && n.calls[id].kind == Group ==>
      && id in n.headers && n.headers[id].GroupTx? && n.headers[id].id == id
      && n.headers[id].source == n.calls[id].source && n.headers[id].destination == n.calls[id].destination
  }

  /** Participants, consoles and recipients are connections that were attached here. */
  ghost predicate Known(n: Node) {
    && n.table.clients.Keys <= n.queue.Keys
    && n.consoles <= n.table.clients.Keys
    && (forall id :: id in n.calls ==> n.calls[id].peers <= n.queue.Keys)
  }

  lemma HeadersMatchStep(cfg: Config, n: Node, ev: CallEvent)
    requires HeadersMatch(n) && Possible(cfg, n, ev)
    ensures HeadersMatch(After(cfg, n, ev))
  {
    hide After;
    var n' := After(cfg, n, ev);
    forall id | id in n'.calls && n'.calls[id].kind == Group
      ensures id in n'.headers && n'.headers[id].GroupTx? && n'.headers[id].id == id
        && n'.headers[id].source == n'.calls[id].source && n'.headers[id].destination == n'.calls[id].destination
    {
      if ev.Setup? && ev.call == id {
        SetupIsPrivate(cfg, n, ev);
        HeaderComesFrom(cfg, n, ev, id);
      } else if ev.Transmit? && ev.call == id {
        TransmitHeader(cfg, n, ev);
      } else {
        CallComesFrom(cfg, n, ev, id);
        HeaderComesFrom(cfg, n, ev, id);
      }
    }
  }

  /** The stored header of a running call changes only when the call is set up. */
  lemma HeaderComesFrom(cfg: Config, n: Node, ev: CallEvent, id: CallId)
    requires Possible(cfg, n, ev) && id in After(cfg, n, ev).calls
    requires id in n.headers && !(ev.Transmit? && ev.call == id)
    requires id in n.calls || !ev.Setup?
    ensures id in After(cfg, n, ev).headers && After(cfg, n, ev).headers[id] == n.headers[id]
  {
    hide Next, OnSub, Cleanup, Attach, Targets, After, Owed, Lists;
  }

  lemma TransmitHeader(cfg: Config, n: Node, ev: CallEvent)
    requires Possible(cfg, n, ev) && ev.Transmit?
    ensures var n' := After(cfg, n, ev);
      (Get(n'.calls, ev.call) == Get(n.calls, ev.call) && Get(n'.headers, ev.call) == Get(n.headers, ev.call))
      || (ev.call in n'.calls && ev.call in n'.headers && n'.calls[ev.call].source == ev.from
          && n'.calls[ev.call].destination == ev.group
          && n'.headers[ev.call] == GroupTx(ev.call, ev.from, ev.group, ev.priority))
  {
    hide Targets, After, Owed, Lists;
  }

  lemma EntryClient(t: Table, i: Issi)
    requires TableOk(t) && i in t.subs
    ensures t.subs[i].client in t.clients
  {
    assert EntryOk(t, i);
    EntryMeaning(t, i);
  }

  /** A new participant is a live connection. */
  lemma PeerComesFrom(cfg: Config, n: Node, ev: CallEvent, id: CallId, p: ClientId)
    requires Possible(cfg, n, ev) && id in After(cfg, n, ev).calls && p in After(cfg, n, ev).calls[id].peers
    requires n.consoles <= n.table.clients.Keys
    requires forall i :: i in n.table.subs ==> n.table.subs[i].client in n.table.clients
    requires ev.Transmit? && ev.call in n.calls ==> n.calls[ev.call].peers <= n.queue.Keys
    ensures p in n.table.clients || (id in n.calls && p in n.calls[id].peers)
  {
    hide Next, OnSub, Cleanup, Attach, OnGroupTx, LateHeaders, After, Owed, Lists;
    if ev.Transmit? {
      TransmitPeers(cfg, n, ev.src, ev.call, ev.from, ev.group, ev.priority, ev.emergency, ev.duplicate, id);
    }
  }

  lemma TransmitPeers(cfg: Config, n: Node, src: ClientId, call: CallId, from: Issi, g: Gssi, priority: Priority,
                      emergency: bool, duplicate: bool, id: CallId)
    requires id in OnGroupTx(cfg, n, src, call, from, g, priority, emergency, duplicate).calls
    ensures var n' := OnGroupTx(cfg, n, src, call, from, g, priority, emergency, duplicate);
      (id in n.calls && n'.calls[id] == n.calls[id])
      || (id == call && n'.calls[id].peers ==
            Targets(cfg, Preempted(cfg, n, id, g), src, id, from, g, emergency))
    ensures id == call ==> forall p :: p in Targets(cfg, Preempted(cfg, n, id, g), src, id, from, g, emergency) ==>
      p in n.table.clients || p in n.consoles || p in Members(n.table.subs, g) ||
          (id in n.calls && p in n.calls[id].peers)
  {
  }

  lemma KnownStep(cfg: Config, n: Node, ev: CallEvent)
    requires Known(n) && TableReady(n) && Possible(cfg, n, ev)
    ensures Known(After(cfg, n, ev))
  {
    hide After, EntryOk;
    var n' := After(cfg, n, ev);
    TableStep(cfg, n, ev);
    if TableEvent(ev).Some? { NextShape(n.table, TableEvent(ev).value); }
    forall c | c in n.queue ensures c in n'.queue { QueueStep(cfg, n, ev, c); }
    forall id | id in n'.calls ensures n'.calls[id].peers <= n'.queue.Keys { PeersKnown(cfg, n, ev, id); }
    ConsolesStep(cfg, n, ev);
  }

  lemma PeersKnown(cfg: Config, n: Node, ev: CallEvent, id: CallId)
    requires Known(n) && TableReady(n) && Possible(cfg, n, ev) && id in After(cfg, n, ev).calls
    ensures After(cfg, n, ev).calls[id].peers <= After(cfg, n, ev).queue.Keys
  {
    hide After, EntryOk, Possible;
    var n' := After(cfg, n, ev);
    forall i | i in n.table.subs ensures n.table.subs[i].client in n.table.clients { EntryClient(n.table, i); }
    forall c | c in n.queue ensures c in n'.queue { QueueStep(cfg, n, ev, c); }
    forall p | p in n'.calls[id].peers ensures p in n'.queue { PeerComesFrom(cfg, n, ev, id, p); }
  }

  lemma ConsolesStep(cfg: Config, n: Node, ev: CallEvent)
    requires Possible(cfg, n, ev)
    ensures After(cfg, n, ev).consoles ==
      if ev.Join? && ev.console then n.consoles + {ev.id} else if ev.Leave? then n.consoles - {ev.id} else n.consoles
    ensures ev.Join? ==> ev.id in After(cfg, n, ev).queue
  {
    hide Next, OnSub, Cleanup, Attach, Targets, After, Owed, Lists;
  }

  /** Queues only grow. */
  lemma QueueStep(cfg: Config, n: Node, ev: CallEvent, c: ClientId)
    requires Possible(cfg, n, ev) && c in n.queue
    ensures c in After(cfg, n, ev).queue && n.queue[c] <= After(cfg, n, ev).queue[c]
  {
    hide Next, OnSub, Cleanup, Attach, OnGroupTx, LateEntry, Disconnected, SentOne, BackgroundOne, HandedOver,
         SendAll, Joinable, Owed, Lists;
  }

  lemma HeaderKept(q: seq<CallMsg>, q': seq<CallMsg>, id: CallId)
    requires q <= q' && HasHeader(q, id)
    ensures HasHeader(q', id)
  {
    var m :| m in q && m.GroupTx? && m.id == id;
    assert m in q';
  }

  /** What was still to be sent is sent or still to be sent. */
  lemma StillOwed(cfg: Config, n: Node, ev: CallEvent, id: CallId, p: ClientId)
    requires Possible(cfg, n, ev) && p in n.queue && OwedInBackground(n, id, p)
    ensures var n' := After(cfg, n, ev); p in n'.queue && (HasHeader(n'.queue[p], id) || OwedInBackground(n', id, p))
  {
    hide After, HasHeader, Tells;
    var n' := After(cfg, n, ev);
    QueueStep(cfg, n, ev, p);
    var k :| 0 <= k < |n.background| && Tells(n.background[k], id, p);
    if ev.BackgroundSent? {
      BackgroundStep(cfg, n, ev, id, p, k);
    } else {
      BackgroundGrows(cfg, n, ev);
      assert n'.background[k] == n.background[k];
    }
  }

  lemma BackgroundGrows(cfg: Config, n: Node, ev: CallEvent)
    requires Possible(cfg, n, ev) && !ev.BackgroundSent?
    ensures n.background <= After(cfg, n, ev).background
  {
    hide Next, OnSub, Cleanup, Attach, Targets, SendAll, Owed, Lists;
  }

  lemma BackgroundStep(cfg: Config, n: Node, ev: CallEvent, id: CallId, p: ClientId, k: nat)
    requires Possible(cfg, n, ev) && ev.BackgroundSent? && p in n.queue
    requires k < |n.background| && Tells(n.background[k], id, p)
    ensures var n' := After(cfg, n, ev); p in n'.queue && (HasHeader(n'.queue[p], id) || OwedInBackground(n', id, p))
  {
    hide Tells, HasHeader;
    var n' := After(cfg, n, ev);
    var j := ev.k;
    var rest := n.background[j][1..];
    var mid := if rest == [] then [] else [rest];
    assert n'.background == n.background[..j] + mid + n.background[j + 1..];
    if k < j {
      assert n'.background[k] == n.background[k];
    } else if k > j {
      assert n'.background[k - 1 + |mid|] == n.background[k];
    } else {
      TellsNext(n.background[k], id, p);
      if Tells(rest, id, p) {
        TellsSome(rest, id, p);
        assert n'.background[j] == rest;
      } else {
        QueuedHeader(n, n.background[k][0], id);
      }
    }
  }

  lemma TellsNext(ps: seq<Packet>, id: CallId, p: ClientId)
    requires ps != [] && Tells(ps, id, p)
    ensures Tells(ps[1..], id, p) || (ps[0].to == p && ps[0].msg.GroupTx? && ps[0].msg.id == id)
  {
    var k :| 0 <= k < |ps| && ps[k].to == p && ps[k].msg.GroupTx? && ps[k].msg.id == id;
    if k > 0 { assert ps[1..][k - 1] == ps[k]; }
  }

  lemma TellsSome(ps: seq<Packet>, id: CallId, p: ClientId)
    requires Tells(ps, id, p)
    ensures ps != []
  {
  }

  lemma QueuedHeader(n: Node, q: Packet, id: CallId)
    requires q.to in n.queue && q.msg.GroupTx? && q.msg.id == id
    ensures HasHeader(Queued(n, q).queue[q.to], id)
  {
    assert q.msg in Queued(n, q).queue[q.to];
  }

  /** An existing participant stays informed: what was owed is sent or still owed. */
  lemma InformedStep(cfg: Config, n: Node, ev: CallEvent, id: CallId, p: ClientId)
    requires Possible(cfg, n, ev) && p in n.queue && id in n.calls && Informed(n, id, p)
    requires id in After(cfg, n, ev).calls && After(cfg, n, ev).calls[id].owner == n.calls[id].owner
    ensures p in After(cfg, n, ev).queue && Informed(After(cfg, n, ev), id, p)
  {
    hide After, HasHeader, Tells, OwedInBackground, Owed, Lists;
    var n' := After(cfg, n, ev);
    var o := n.calls[id].owner;
    QueueStep(cfg, n, ev, p);
    if HasHeader(n.queue[p], id) {
      HeaderKept(n.queue[p], n'.queue[p], id);
    } else if o in n.sending && Tells(n.sending[o], id, p) {
      SendingStep(cfg, n, ev, o);
      if ev.Sent? && ev.src == o {
        TellsNext(n.sending[o], id, p);
        if Tells(n.sending[o][1..], id, p) {
          TellsSome(n.sending[o][1..], id, p);
        } else {
          QueuedHeader(n, n.sending[o][0], id);
        }
      }
    } else {
      StillOwed(cfg, n, ev, id, p);
    }
  }

  /** A handler's packets change by its own sends only. */
  lemma SendingStep(cfg: Config, n: Node, ev: CallEvent, o: ClientId)
    requires Possible(cfg, n, ev) && o in n.sending
    ensures var n' := After(cfg, n, ev);
      if ev.Sent? && ev.src == o
      then n'.queue == Queued(n, n.sending[o][0]).queue
           && Get(n'.sending, o) == if n.sending[o][1..] == [] then None else Some(n.sending[o][1..])
      else o in n'.sending && n'.sending[o] == n.sending[o]
  {
    hide Next, OnSub, Cleanup, Attach, Targets, Owed, Lists, Queued;
  }

  /** A call just set up owes its header to every target. */
  lemma TransmitOwes(cfg: Config, n: Node, ev: CallEvent, p: ClientId)
    requires Possible(cfg, n, ev) && ev.Transmit?
    requires var n' := After(cfg, n, ev);
      && ev.call in n'.calls && p in n'.calls[ev.call].peers && p in n'.queue && p in n.table.clients
      && !(ev.call in n.calls && n'.calls[ev.call] == n.calls[ev.call])
    ensures Informed(After(cfg, n, ev), ev.call, p)
  {
    hide Targets, SendAll, HasHeader, OwedInBackground, Tells, TxPackets, Preempted, Acted, After, Elems;
    TransmitAccepted(cfg, n, ev, p);
    TxTells(cfg, n, ev, p);
    TransmitHands(cfg, n, ev);
  }

  /** A call that is not as before was accepted, and goes to its targets. */
  lemma TransmitAccepted(cfg: Config, n: Node, ev: CallEvent, p: ClientId)
    requires Possible(cfg, n, ev) && ev.Transmit?
    requires var n' := After(cfg, n, ev);
      && ev.call in n'.calls && p in n'.calls[ev.call].peers
      && !(ev.call in n.calls && n'.calls[ev.call] == n.calls[ev.call])
    ensures !TurnedAway(cfg, n, ev.src, ev.call, ev.group, ev.priority, ev.duplicate)
    ensures p in Targets(cfg, Preempted(cfg, n, ev.call, ev.group), ev.src, ev.call, ev.from, ev.group, ev.emergency)
    ensures After(cfg, n, ev).calls[ev.call].owner == ev.src
  {
    hide Targets, SendAll, TxPackets, Preempted, HandedOver, Lists;
  }

  lemma TransmitHands(cfg: Config, n: Node, ev: CallEvent)
    requires Possible(cfg, n, ev) && ev.Transmit? && ev.packets != []
    ensures ev.src in After(cfg, n, ev).sending && After(cfg, n, ev).sending[ev.src] == ev.packets
  {
    hide Acted, Owed, Lists;
  }

  lemma TxTells(cfg: Config, n: Node, ev: CallEvent, p: ClientId)
    requires ev.Transmit? && p in n.table.clients
    requires !TurnedAway(cfg, n, ev.src, ev.call, ev.group, ev.priority, ev.duplicate)
    requires p in Targets(cfg, Preempted(cfg, n, ev.call, ev.group), ev.src, ev.call, ev.from, ev.group, ev.emergency)
    requires Lists(ev.packets,
                   TxPackets(cfg, n, ev.src, ev.call, ev.from, ev.group, ev.priority, ev.emergency, ev.duplicate))
    ensures ev.packets != [] && Tells(ev.packets, ev.call, p)
  {
    hide Targets, SendAll;
    var n1 := Preempted(cfg, n, ev.call, ev.group);
    var header := HeaderFor(n1, GroupTx(ev.call, ev.from, ev.group, ev.priority),
                            Raise(ev.priority, ev.emergency) != ev.priority, p);
    assert Packet(p, header) in TxPackets(cfg, n, ev.src, ev.call, ev.from, ev.group, ev.priority, ev.emergency,
                                          ev.duplicate);
    assert Packet(p, header) in Elems(ev.packets);
    var k :| 0 <= k < |ev.packets| && ev.packets[k] == Packet(p, header);
  }

  /** Whoever joins a running call is handed its header in the same step, or is owed it by the alarm. */
  lemma NewListener(cfg: Config, n: Node, ev: CallEvent, id: CallId, p: ClientId)
    requires Possible(cfg, n, ev) && HeadersMatch(n) && Known(n) && !ev.Transmit? && !ev.Setup?
    requires var n' := After(cfg, n, ev);
      id in n'.calls && n'.calls[id].kind == Group && p in n'.calls[id].peers && p in n'.queue
    requires id in n.calls && p !in n.calls[id].peers
    ensures Informed(After(cfg, n, ev), id, p)
  {
    hide Next, OnSub, Cleanup, Attach, JoinedGroups, SentOne, BackgroundOne;
    var n' := After(cfg, n, ev);
    if ev.Subscribe? {
      var k :| 0 <= k < |ev.order| && ev.order[k] == id;
      var n1 := Subscribed(n, ev.src, ev.kind, ev.issi, ev.groups, ev.now);
      assert LateHeaders(n1, p, ev.order)[k] == LateHeader(n1, p, id);
      assert LateHeader(n1, p, id) in n'.queue[p];
    } else if ev.Alarm? {
      AlarmOwes(n, ev.issi, ev.packets, id, p);
    }
  }

  /** The alarm owes its header to everyone it brings in. */
  lemma AlarmOwes(n: Node, issi: Issi, packets: seq<Packet>, id: CallId, p: ClientId)
    requires id in Alarmed(n, issi) && p in AlarmPeers(n, id) && p !in n.calls[id].peers && Known(n)
    requires Lists(packets, AlarmPackets(n, issi))
    ensures OwedInBackground(InBackground(n, packets), id, p)
  {
    var packet := Packet(p, AlarmHeader(n, id));
    assert packet in AlarmPackets(n, issi);
    assert packet in Elems(packets);
    var k :| 0 <= k < |packets| && packets[k] == packet;
    var b := InBackground(n, packets).background;
    assert b[|n.background|] == packets;
    assert Tells(b[|n.background|], id, p);
  }

  lemma ToldStep(cfg: Config, n: Node, ev: CallEvent)
    requires Told(n) && HeadersMatch(n) && Known(n) && TableReady(n) && Possible(cfg, n, ev)
    ensures Told(After(cfg, n, ev))
  {
    hide After, EntryOk, Informed, Owed, Lists;
    var n' := After(cfg, n, ev);
    TableStep(cfg, n, ev);
    KnownStep(cfg, n, ev);
    if TableEvent(ev).Some? { NextShape(n.table, TableEvent(ev).value); }
    forall id: CallId, p: ClientId | id in n'.calls && n'.calls[id].kind == Group && p in n'.calls[id].peers &&
        p in n'.table.clients
      ensures p in n'.queue && Informed(n', id, p)
    {
      if ev.Transmit? && ev.call == id && !(id in n.calls && n'.calls[id] == n.calls[id]) {
        TransmitOwes(cfg, n, ev, p);
      } else {
        if ev.Setup? && ev.call == id {
          SetupIsPrivate(cfg, n, ev);
        } else if !(ev.Transmit? && ev.call == id) {
          CallComesFrom(cfg, n, ev, id);
        }
        if ev.Transmit? || ev.Setup? { OthersKeepCalls(cfg, n, ev, id); }
        if p in n.calls[id].peers {
          assert p in n.table.clients;
          InformedStep(cfg, n, ev, id, p);
        } else {
          NewListener(cfg, n, ev, id, p);
        }
      }
    }
  }

  lemma OthersKeepCalls(cfg: Config, n: Node, ev: CallEvent, id: CallId)
    requires Possible(cfg, n, ev) && (ev.Transmit? || ev.Setup?) && id in n.calls && id in After(cfg, n, ev).calls
    ensures id != ev.call ==> After(cfg, n, ev).calls[id] == n.calls[id]
  {
    hide Targets, After, Owed, Lists;
  }

  // ----- voice -----

  predicate GroupVoice(m: CallMsg) {
    m.Voice? && m.kind == Group
  }

  /** Every voice packet on its way goes to somebody who has the header of the
      call, or whom an alarm still owes it. */
  ghost predicate VoiceCovered(n: Node) {
    forall o, q: Packet :: o in n.sending && q in n.sending[o] && GroupVoice(q.msg) ==>
      q.to in n.queue && (HasHeader(n.queue[q.to], q.msg.id) || OwedInBackground(n, q.msg.id, q.to))
  }

  /** Stored headers are headers, and nothing in the background is voice. */
  ghost predicate VoiceApart(n: Node) {
    && (forall k :: k in n.headers ==> n.headers[k].GroupTx?)
    && forall k: nat, q: Packet :: k < |n.background| && q in n.background[k] ==> !GroupVoice(q.msg)
  }

  /** Where the packets waiting after a step come from. */
  lemma SendingFrom(cfg: Config, n: Node, ev: CallEvent, o: ClientId, q: Packet)
    requires Possible(cfg, n, ev) && o in After(cfg, n, ev).sending && q in After(cfg, n, ev).sending[o]
    ensures (o in n.sending && q in n.sending[o]) || (Source(ev) == Some(o) && q in Owed(cfg, n, ev))
  {
    hide Next, OnSub, Cleanup, Attach, Targets, Owed, Queued, SendAll;
    var n' := After(cfg, n, ev);
    if q in PacketsOf(ev) { assert q in Elems(PacketsOf(ev)); }
  }

  lemma BackgroundFrom(cfg: Config, n: Node, ev: CallEvent, k: nat, q: Packet)
    requires Possible(cfg, n, ev) && k < |After(cfg, n, ev).background| && q in After(cfg, n, ev).background[k]
    ensures (exists j: nat :: j < |n.background| && q in n.background[j]) || (Source(ev).None? && q in Owed(cfg, n, ev))
  {
    hide Next, OnSub, Cleanup, Attach, Targets, Owed, Queued, SendAll;
    var b := After(cfg, n, ev).background;
    if ev.BackgroundSent? {
      var rest := n.background[ev.k][1..];
      var mid := if rest == [] then [] else [rest];
      assert b == n.background[..ev.k] + mid + n.background[ev.k + 1..];
      if k < ev.k {
        assert q in n.background[k];
      } else if k < ev.k + |mid| {
        assert b[k] == rest && q in n.background[ev.k];
      } else {
        assert b[k] == n.background[k - |mid| + 1];
      }
    } else if k < |n.background| {
      BackgroundGrows(cfg, n, ev);
      assert b[k] == n.background[k];
    } else {
      assert q in PacketsOf(ev);
      assert q in Elems(PacketsOf(ev));
    }
  }

  /** Only frames owe voice, and only to those who listen to the call. */
  lemma OwedVoice(cfg: Config, n: Node, ev: CallEvent, q: Packet)
    requires q in Owed(cfg, n, ev) && GroupVoice(q.msg)
    ensures ev.Frame? && MaySend(n, ev.src, ev.call) && q.msg == Voice(ev.call, Group) && n.calls[ev.call].kind == Group
    ensures q.to in n.calls[ev.call].peers && q.to in n.table.clients && n.calls[ev.call].owner == ev.src != q.to
  {
    hide Cleanup, Targets, Preempted;
  }

  lemma VoiceCoveredStep(cfg: Config, n: Node, ev: CallEvent)
    requires VoiceCovered(n) && Told(n) && Possible(cfg, n, ev)
    ensures VoiceCovered(After(cfg, n, ev))
  {
    hide After, HasHeader, OwedInBackground, Owed, Lists;
    var n' := After(cfg, n, ev);
    forall o, q: Packet | o in n'.sending && q in n'.sending[o] && GroupVoice(q.msg)
      ensures q.to in n'.queue && (HasHeader(n'.queue[q.to], q.msg.id) || OwedInBackground(n', q.msg.id, q.to))
    {
      SendingFrom(cfg, n, ev, o, q);
      if !(o in n.sending && q in n.sending[o]) {
        OwedVoice(cfg, n, ev, q);
        assert Informed(n, ev.call, q.to);
      }
      QueueStep(cfg, n, ev, q.to);
      if HasHeader(n.queue[q.to], q.msg.id) {
        HeaderKept(n.queue[q.to], n'.queue[q.to], q.msg.id);
      } else {
        StillOwed(cfg, n, ev, q.msg.id, q.to);
      }
    }
  }

  lemma VoiceApartStep(cfg: Config, n: Node, ev: CallEvent)
    requires VoiceApart(n) && Possible(cfg, n, ev)
    ensures VoiceApart(After(cfg, n, ev))
  {
    hide After, Owed, Lists;
    var n' := After(cfg, n, ev);
    forall k: nat, q: Packet | k < |n'.background| && q in n'.background[k] ensures !GroupVoice(q.msg) {
      BackgroundFrom(cfg, n, ev, k, q);
      if GroupVoice(q.msg) && q in Owed(cfg, n, ev) { OwedVoice(cfg, n, ev, q); }
    }
    StoredHeaders(cfg, n, ev);
  }

  lemma StoredHeaders(cfg: Config, n: Node, ev: CallEvent)
    requires Possible(cfg, n, ev) && forall k :: k in n.headers ==> n.headers[k].GroupTx?
    ensures forall k :: k in After(cfg, n, ev).headers ==> After(cfg, n, ev).headers[k].GroupTx?
  {
    hide After, Owed, Lists, Next, OnSub, Cleanup, Attach, Targets, SendAll, Disconnected, OnAlarm;
  }

  ghost predicate AddsNoVoice(q: seq<CallMsg>, q': seq<CallMsg>) {
    q <= q' && forall k :: |q| <= k < |q'| ==> !GroupVoice(q'[k])
  }

  lemma AddsSuffix(q: seq<CallMsg>, ms: seq<CallMsg>)
    requires forall m :: m in ms ==> !GroupVoice(m)
    ensures AddsNoVoice(q, q + ms)
  {
    forall k | |q| <= k < |q + ms| ensures !GroupVoice((q + ms)[k]) {
      assert (q + ms)[k] == ms[k - |q|];
    }
  }

  lemma AddedOrder(q: seq<CallMsg>, q': seq<CallMsg>)
    requires HeaderFirst(q) && AddsNoVoice(q, q')
    ensures HeaderFirst(q')
  {
    forall k | 0 <= k < |q'| && GroupVoice(q'[k]) ensures HasHeader(q'[..k], q'[k].id) {
      assert k < |q| && q'[..k] == q[..k] && q'[k] == q[k];
    }
  }

  /** Only a handler's own packets put group voice on a queue. */
  lemma NoVoice(cfg: Config, n: Node, ev: CallEvent, c: ClientId)
    requires VoiceApart(n) && Possible(cfg, n, ev) && c in n.queue
    requires ev.Sent? ==> !GroupVoice(n.sending[ev.src][0].msg)
    ensures c in After(cfg, n, ev).queue && AddsNoVoice(n.queue[c], After(cfg, n, ev).queue[c])
  {
    hide Next, OnSub, Cleanup, Attach, Targets, JoinedGroups, LateEntry, OnGroupTx, HandedOver, Owed;
    if ev.Subscribe? {
      var n1 := Subscribed(n, ev.src, ev.kind, ev.issi, ev.groups, ev.now);
      var groups := if ev.src in n.table.links then {} else JoinedGroups(n1.table, ev.src, ev.kind, ev.issi);
      LateNoVoice(n1, c, groups, ev.src, ev.order);
    } else if ev.Transmit? {
      TransmitNoVoice(cfg, n, ev, c);
    } else if ev.BackgroundSent? {
      assert n.background[ev.k][0] in n.background[ev.k];
    }
  }

  lemma TransmitNoVoice(cfg: Config, n: Node, ev: CallEvent, c: ClientId)
    requires ev.Transmit? && Possible(cfg, n, ev) && c in n.queue
    ensures c in After(cfg, n, ev).queue && AddsNoVoice(n.queue[c], After(cfg, n, ev).queue[c])
  {
    hide Targets, Owed, Lists, HandedOver;
  }

  lemma LateNoVoice(n: Node, c: ClientId, groups: set<Gssi>, src: ClientId, order: seq<CallId>)
    requires (forall k :: k in n.headers ==> n.headers[k].GroupTx?)
    requires c in n.queue && Elems(order) == Joinable(n, src, groups)
    ensures c in LateEntry(n, src, groups, order).queue
    ensures AddsNoVoice(n.queue[c], LateEntry(n, src, groups, order).queue[c])
  {
    forall m | m in LateHeaders(n, src, order) ensures !GroupVoice(m) {
    }
    AddsSuffix(n.queue[c], LateHeaders(n, src, order));
  }

  /** The next packet is a frame for somebody an alarm brought in and has not
      told of the call yet. */
  ghost predicate Races(n: Node, ev: CallEvent) {
    && ev.Sent? && ev.src in n.sending && n.sending[ev.src] != []
    && var q := n.sending[ev.src][0];
    && GroupVoice(q.msg) && q.to in n.queue
    && OwedInBackground(n, q.msg.id, q.to) && !HasHeader(n.queue[q.to], q.msg.id)
  }

  /** Whatever is queued, the header stays ahead of the voice if and only if this
      is not a frame that overtakes the header of an alarm. */
  lemma OrderStepIff(cfg: Config, n: Node, ev: CallEvent)
    requires AllHeaderFirst(n) && VoiceCovered(n) && VoiceApart(n) && Possible(cfg, n, ev)
    ensures AllHeaderFirst(After(cfg, n, ev)) <==> !Races(n, ev)
  {
    hide OwedInBackground, HeaderFirst, HasHeader, VoiceApart;
    if ev.Sent? && GroupVoice(n.sending[ev.src][0].msg) {
      var q := n.sending[ev.src][0];
      assert q in n.sending[ev.src];
      VoiceOrder(n.queue[q.to], q.msg);
    } else {
      QuietOrderStep(cfg, n, ev);
    }
  }

  lemma VoiceOrder(q: seq<CallMsg>, v: CallMsg)
    requires HeaderFirst(q) && GroupVoice(v)
    ensures HeaderFirst(q + [v]) <==> HasHeader(q, v.id)
  {
    hide HasHeader;
    assert (q + [v])[..|q|] == q && (q + [v])[|q|] == v;
    assert forall k :: 0 <= k < |q| ==> (q + [v])[..k] == q[..k];
  }

  lemma QuietOrderStep(cfg: Config, n: Node, ev: CallEvent)
    requires AllHeaderFirst(n) && VoiceApart(n) && Possible(cfg, n, ev)
    requires ev.Sent? ==> !GroupVoice(n.sending[ev.src][0].msg)
    ensures AllHeaderFirst(After(cfg, n, ev))
  {
    hide After, HeaderFirst, AddsNoVoice, Owed, Lists;
    var n' := After(cfg, n, ev);
    QueueDomain(cfg, n, ev);
    forall c | c in n'.queue ensures HeaderFirst(n'.queue[c]) {
      if c in n.queue {
        NoVoice(cfg, n, ev, c);
        AddedOrder(n.queue[c], n'.queue[c]);
      } else {
        EmptyOrder();
      }
    }
  }

  lemma EmptyOrder()
    ensures HeaderFirst([])
  {
  }

  lemma QueueDomain(cfg: Config, n: Node, ev: CallEvent)
    requires Possible(cfg, n, ev)
    ensures forall c :: c in After(cfg, n, ev).queue && c !in n.queue ==> After(cfg, n, ev).queue[c] == []
  {
    hide Acted, Queued, Owed, Lists;
    if !ev.Sent? && !ev.BackgroundSent? {
      ActedDomain(cfg, n, ev);
    } else {
      assert forall q: Packet :: Queued(n, q).queue.Keys == n.queue.Keys by { QueuedDomain(n); }
    }
  }

  lemma QueuedDomain(n: Node)
    ensures forall q: Packet :: Queued(n, q).queue.Keys == n.queue.Keys
  {
  }

  lemma ActedDomain(cfg: Config, n: Node, ev: CallEvent)
    requires Possible(cfg, n, ev) && !ev.Sent? && !ev.BackgroundSent?
    ensures forall c :: c in Acted(cfg, n, ev).queue && c !in n.queue ==> Acted(cfg, n, ev).queue[c] == []
  {
    hide Next, OnSub, Cleanup, Attach, OnGroupTx, LateEntry, Joinable, JoinedGroups, Disconnected, Owed, Lists;
    if ev.Transmit? {
      TransmitDomain(cfg, n, ev);
    } else if ev.Subscribe? {
      LateDomain(cfg, n, ev);
    }
  }

  lemma TransmitDomain(cfg: Config, n: Node, ev: CallEvent)
    requires ev.Transmit? && Possible(cfg, n, ev)
    ensures Acted(cfg, n, ev).queue.Keys == n.queue.Keys
  {
    hide Targets, Owed, Lists, Recorded, Rejected;
  }

  lemma LateDomain(cfg: Config, n: Node, ev: CallEvent)
    requires ev.Subscribe? && Possible(cfg, n, ev)
    ensures Acted(cfg, n, ev).queue.Keys == n.queue.Keys
  {
    hide OnSub, Joinable, JoinedGroups, LateHeaders, Owed;
  }
}
