/** When a frame can reach a listener before the header of its call: a guard at
    the frame, and the listeners who fail it. */
module FrameOrder {
  import opened FedTypes
  import opened TableInvariant
  import opened GroupCalls
  import opened CallInvariants
  import opened CallHeaders
  import opened CallRuns
  import opened CallEnds
  import opened SendOrders

  /** Who gets a frame of a group call. */
  ghost predicate Hears(n: Node, ev: CallEvent, c: ClientId) {
    && ev.Frame? && MaySend(n, ev.src, ev.call) && n.calls[ev.call].kind == Group
    && c in Listeners(n.calls[ev.call], ev.src) && c in n.table.clients && c in n.queue
  }

  /** All of them were told of the call. */
  ghost predicate HeardOf(n: Node, ev: CallEvent) {
    forall c :: Hears(n, ev, c) ==> HasHeader(n.queue[c], ev.call)
  }

  /** Whoever was not is owed the header by an alarm: the talker's own handler has
      queued all it had to before it takes the next frame. */
  lemma UnheardAreAlarmed(cfg: Config, n: Node, ev: CallEvent, c: ClientId)
    requires Told(n) && Possible(cfg, n, ev) && Hears(n, ev, c) && !HasHeader(n.queue[c], ev.call)
    ensures OwedInBackground(n, ev.call, c)
  {
    hide HasHeader, Tells, OwedInBackground;
    assert Informed(n, ev.call, c);
  }

  // ----- the guard suffices -----

  /** Every frame on its way goes to somebody who was told of the call. */
  ghost predicate VoiceTold(n: Node) {
    forall o, q: Packet :: o in n.sending && q in n.sending[o] && GroupVoice(q.msg) ==>
      q.to in n.queue && HasHeader(n.queue[q.to], q.msg.id)
  }

  lemma VoiceToldStep(cfg: Config, n: Node, ev: CallEvent)
    requires VoiceTold(n) && Known(n) && Possible(cfg, n, ev) && HeardOf(n, ev)
    ensures VoiceTold(After(cfg, n, ev))
  {
    hide After, HasHeader, Owed, Lists, Possible;
    var n' := After(cfg, n, ev);
    forall o, q: Packet | o in n'.sending && q in n'.sending[o] && GroupVoice(q.msg)
      ensures q.to in n'.queue && HasHeader(n'.queue[q.to], q.msg.id)
    {
      SendingFrom(cfg, n, ev, o, q);
      if !(o in n.sending && q in n.sending[o]) {
        OwedVoice(cfg, n, ev, q);
        assert Hears(n, ev, q.to);
      }
      QueueStep(cfg, n, ev, q.to);
      HeaderKept(n.queue[q.to], After(cfg, n, ev).queue[q.to], q.msg.id);
    }
  }

  lemma ToldNeverRaces(n: Node, ev: CallEvent)
    requires VoiceTold(n)
    ensures !Races(n, ev)
  {
    hide HasHeader, OwedInBackground;
  }

  lemma {:induction false} RunVoiceTold(cfg: Config, selfId: ServerId, nodes: seq<Node>, evs: seq<CallEvent>, k: nat)
    requires CallRun(cfg, selfId, nodes, evs) && k <= |evs|
    requires forall j :: 0 <= j < k ==> HeardOf(nodes[j], evs[j])
    ensures VoiceTold(nodes[k])
  {
    hide After, Possible, HeardOf, TableOk, Known;
    if k > 0 {
      RunVoiceTold(cfg, selfId, nodes, evs, k - 1);
      RunSound(cfg, selfId, nodes, evs, k - 1);
      assert CallStep(cfg, nodes[k - 1], evs[k - 1], nodes[k - 1 + 1]);
      VoiceToldStep(cfg, nodes[k - 1], evs[k - 1]);
    }
  }

  /** If every frame finds its listeners told, no queue has voice before a header. */
  lemma HeardRun(cfg: Config, selfId: ServerId, nodes: seq<Node>, evs: seq<CallEvent>)
    requires CallRun(cfg, selfId, nodes, evs)
    requires forall j :: 0 <= j < |evs| ==> HeardOf(nodes[j], evs[j])
    ensures AllHeaderFirst(nodes[|evs|])
  {
    hide CallStep, Start, HeardOf, VoiceTold, Races, AllHeaderFirst;
    forall j | 0 <= j < |evs| ensures !Races(nodes[j], evs[j]) {
      RunVoiceTold(cfg, selfId, nodes, evs, j);
      ToldNeverRaces(nodes[j], evs[j]);
    }
    RunHeaderFirst(cfg, selfId, nodes, evs, |evs|);
  }

  // ----- and is needed -----

  /** A frame's packets are a lane of their own, and nothing but that voice. */
  lemma FrameLane(cfg: Config, n: Node, ev: CallEvent, c: ClientId) returns (lane: Lane, i: nat)
    requires Possible(cfg, n, ev) && Hears(n, ev, c)
    ensures var (n', v) := (After(cfg, n, ev), Voice(ev.call, Group));
      && n'.queue == n.queue && n'.table == n.table
      && i < |LaneOf(n', lane)| && LaneOf(n', lane)[i] == Packet(c, v)
      && forall k :: 0 <= k < |LaneOf(n', lane)| ==> LaneOf(n', lane)[k].msg == v
  {
    var v := Voice(ev.call, Group);
    lane := Handler(ev.src);
    assert Packet(c, v) in Elems(ev.packets);
    forall k | 0 <= k < |ev.packets| ensures ev.packets[k].msg == v { assert ev.packets[k] in Elems(ev.packets); }
    i :| 0 <= i < |ev.packets| && ev.packets[i] == Packet(c, v);
  }

  /** A listener not told of the call can get the frame first. */
  lemma UnheardBreaks(cfg: Config, n: Node, ev: CallEvent) returns (nodes: seq<Node>, evs: seq<CallEvent>)
    requires Possible(cfg, n, ev) && n.table.clock < U64_MAX && !HeardOf(n, ev)
    ensures Sends(cfg, nodes, evs) && nodes[0] == After(cfg, n, ev) && !AllHeaderFirst(nodes[|evs|])
  {
    hide After, Possible, CallStep, Waiting, HasHeader, AllHeaderFirst, LaneOf;
    var c :| Hears(n, ev, c) && !HasHeader(n.queue[c], ev.call);
    var n' := After(cfg, n, ev);
    var lane, i := FrameLane(cfg, n, ev, c);
    nodes, evs := SendThrough(cfg, n', lane, i + 1);
    VoiceFirst(n', nodes[|evs|], LaneOf(n', lane), i + 1, ev.call);
  }

  lemma VoiceFirst(n: Node, n': Node, ps: seq<Packet>, count: nat, id: CallId)
    requires 0 < count <= |ps| && LaneAdds(n, n', ps, count) && forall k :: 0 <= k < |ps| ==>
      ps[k].msg == Voice(id, Group)
    requires ps[count - 1].to in n.queue && !HasHeader(n.queue[ps[count - 1].to], id)
    ensures !AllHeaderFirst(n')
  {
    var q := n'.queue[ps[count - 1].to];
    assert forall m :: m in q ==> !(m.GroupTx? && m.id == id);
    assert q[|q| - 1] == Voice(id, Group) && !HasHeader(q[..|q| - 1], id);
    assert !HeaderFirst(q);
  }

  /** Whatever order the packets that wait are queued in, headers come first. */
  ghost predicate HeaderFirstInEveryOrder(cfg: Config, n: Node) {
    forall nodes: seq<Node>, evs: seq<CallEvent> ::
      Sends(cfg, nodes, evs) && nodes[0] == n ==> AllHeaderFirst(nodes[|evs|])
  }

  lemma HeardContinuation(cfg: Config, selfId: ServerId, nodes: seq<Node>, evs: seq<CallEvent>, k: nat,
                          more: seq<Node>, es: seq<CallEvent>)
    requires CallRun(cfg, selfId, nodes, evs) && k <= |evs| && Sends(cfg, more, es) && more[0] == nodes[k]
    requires forall j :: 0 <= j < |evs| ==> HeardOf(nodes[j], evs[j])
    ensures AllHeaderFirst(more[|es|])
  {
    hide CallStep, HeardOf, AllHeaderFirst, Start;
    RunJoin(cfg, selfId, nodes, evs, k, more, es);
    var (all, steps) := (nodes[..k + 1] + more[1..], evs[..k] + es);
    forall j | 0 <= j < |steps| ensures HeardOf(all[j], steps[j]) {
      if j < k {
        assert all[j] == nodes[j] && steps[j] == evs[j];
      } else {
        assert steps[j] == es[j - k];
        SendsAreHeard(all[j], steps[j]);
      }
    }
    HeardRun(cfg, selfId, all, steps);
  }

  lemma SendsAreHeard(n: Node, ev: CallEvent)
    requires !ev.Frame?
    ensures HeardOf(n, ev)
  {
  }

  /** Headers come before voice wherever the run stops and in whatever order the
      packets that wait are then queued, if and only if each frame finds all its
      listeners told of the call. */
  lemma FramesHeardIff(cfg: Config, selfId: ServerId, nodes: seq<Node>, evs: seq<CallEvent>)
    requires CallRun(cfg, selfId, nodes, evs)
    ensures (forall k :: 0 <= k <= |evs| ==> HeaderFirstInEveryOrder(cfg, nodes[k]))
       <==> (forall j :: 0 <= j < |evs| ==> HeardOf(nodes[j], evs[j]))
  {
    hide After, Possible, HeardOf, AllHeaderFirst, Start;
    if forall j :: 0 <= j < |evs| ==> HeardOf(nodes[j], evs[j]) {
      forall k | 0 <= k <= |evs| ensures HeaderFirstInEveryOrder(cfg, nodes[k]) {
        forall more: seq<Node>, es: seq<CallEvent> | Sends(cfg, more, es) && more[0] == nodes[k]
          ensures AllHeaderFirst(more[|es|])
        {
          HeardContinuation(cfg, selfId, nodes, evs, k, more, es);
        }
      }
    }
    if forall k :: 0 <= k <= |evs| ==> HeaderFirstInEveryOrder(cfg, nodes[k]) {
      forall j | 0 <= j < |evs| ensures HeardOf(nodes[j], evs[j]) {
        assert CallStep(cfg, nodes[j], evs[j], nodes[j + 1]) && HeaderFirstInEveryOrder(cfg, nodes[j + 1]);
        if !HeardOf(nodes[j], evs[j]) {
          var more, es := UnheardBreaks(cfg, nodes[j], evs[j]);
        }
      }
    }
  }
}
