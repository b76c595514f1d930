/** The orders in which what waits can still be queued: each handler and each
    background task keeps its own order, and whose turn it is nobody decides. */
module SendOrders {
  import opened FedTypes
  import opened GroupCalls
  import opened CallInvariants
  import opened CallRuns
  import opened CallEnds

  /** One handler or background task with packets to queue. */
  datatype Lane = Handler(src: ClientId) | Task(k: nat)

  function LaneOf(n: Node, lane: Lane): seq<Packet> {
    match lane
    case Handler(c) => if c in n.sending then n.sending[c] else []
    case Task(k) => if k < |n.background| then n.background[k] else []
  }

  function SendOn(lane: Lane): CallEvent {
    match lane
    case Handler(c) => Sent(c)
    case Task(k) => BackgroundSent(k)
  }

  /** A run of nothing but sends. */
  ghost predicate Sends(cfg: Config, nodes: seq<Node>, evs: seq<CallEvent>) {
    && |nodes| == |evs| + 1
    && forall k :: 0 <= k < |evs| ==>
         (evs[k].Sent? || evs[k].BackgroundSent?) && CallStep(cfg, nodes[k], evs[k], nodes[k + 1])
  }

  lemma SendsJoin(cfg: Config, nodes: seq<Node>, evs: seq<CallEvent>, more: seq<Node>, es: seq<CallEvent>)
    requires Sends(cfg, nodes, evs) && Sends(cfg, more, es) && more[0] == nodes[|evs|]
    ensures Sends(cfg, nodes + more[1..], evs + es) && (nodes + more[1..])[|evs + es|] == more[|es|]
    ensures (nodes + more[1..])[0] == nodes[0]
  {
    hide CallStep;
    var (all, steps) := (nodes + more[1..], evs + es);
    forall k | 0 <= k < |steps|
      ensures (steps[k].Sent? || steps[k].BackgroundSent?) && CallStep(cfg, all[k], steps[k], all[k + 1])
    {
      if k >= |evs| {
        assert CallStep(cfg, more[k - |evs|], es[k - |evs|], more[k - |evs| + 1]);
      } else {
        assert CallStep(cfg, nodes[k], evs[k], nodes[k + 1]);
      }
    }
  }

  /** A run goes on with sends. */
  lemma RunJoin(cfg: Config, selfId: ServerId, nodes: seq<Node>, evs: seq<CallEvent>, k: nat,
                more: seq<Node>, es: seq<CallEvent>)
    requires CallRun(cfg, selfId, nodes, evs) && k <= |evs| && Sends(cfg, more, es) && more[0] == nodes[k]
    ensures CallRun(cfg, selfId, nodes[..k + 1] + more[1..], evs[..k] + es)
    ensures (nodes[..k + 1] + more[1..])[|evs[..k] + es|] == more[|es|]
  {
    hide CallStep, Start;
    var (all, steps) := (nodes[..k + 1] + more[1..], evs[..k] + es);
    forall j | 0 <= j < |steps| ensures CallStep(cfg, all[j], steps[j], all[j + 1]) {
      if j >= k {
        assert CallStep(cfg, more[j - k], es[j - k], more[j - k + 1]);
      } else {
        assert CallStep(cfg, nodes[j], evs[j], nodes[j + 1]);
      }
    }
  }

  // ----- one lane -----

  /** The next packet of a lane is queued. */
  lemma LaneStep(cfg: Config, n: Node, lane: Lane)
    requires LaneOf(n, lane) != [] && n.table.clock < U64_MAX
    ensures Possible(cfg, n, SendOn(lane))
    ensures var (n', ps) := (After(cfg, n, SendOn(lane)), LaneOf(n, lane));
      && CallStep(cfg, n, SendOn(lane), n')
      && n'.table == n.table && n'.queue == Queued(n, ps[0]).queue
      && (|ps| > 1 ==> LaneOf(n', lane) == ps[1..])
  {
    hide Acted, Queued;
  }

  /** What a lane adds to the queues when it queues its first `count` packets. */
  ghost predicate LaneAdds(n: Node, n': Node, ps: seq<Packet>, count: nat)
    requires 0 < count <= |ps|
  {
    && n'.table == n.table && QueuesGrow(n, n') && n'.queue.Keys == n.queue.Keys
    && (forall c, m :: c in n'.queue && m in n'.queue[c] ==>
          m in n.queue[c] || exists i :: 0 <= i < count && ps[i] == Packet(c, m))
    && var q := ps[count - 1];
       q.to in n.queue ==> |n'.queue[q.to]| > |n.queue[q.to]| && n'.queue[q.to][|n'.queue[q.to]| - 1] == q.msg
  }

  /** Everything of one lane up to a packet can be queued before anything else. */
  lemma {:induction false} SendThrough(cfg: Config, n: Node, lane: Lane, count: nat)
    returns (nodes: seq<Node>, evs: seq<CallEvent>)
    requires 0 < count <= |LaneOf(n, lane)| && n.table.clock < U64_MAX
    ensures Sends(cfg, nodes, evs) && nodes[0] == n && LaneAdds(n, nodes[|evs|], LaneOf(n, lane), count)
    ensures forall h :: h in Waiting(n) && h !in LaneOf(n, lane)[..count] ==> h in Waiting(nodes[|evs|])
    decreases count
  {
    hide CallStep, After, Possible, Waiting, LaneOf, LaneAdds;
    var ps := LaneOf(n, lane);
    LaneStep(cfg, n, lane);
    var n1 := After(cfg, n, SendOn(lane));
    OneWaitsLess(cfg, n, lane);
    if count == 1 {
      nodes, evs := [n, n1], [SendOn(lane)];
      OneAdds(n, n1, ps);
    } else {
      var more, es := SendThrough(cfg, n1, lane, count - 1);
      nodes, evs := [n] + more, [SendOn(lane)] + es;
      SendsJoin(cfg, [n, n1], [SendOn(lane)], more, es);
      assert [n, n1] + more[1..] == nodes;
      OneAdds(n, n1, ps);
      AddsMore(n, n1, nodes[|evs|], ps, count);
      assert forall h :: h in ps[1..][..count - 1] ==> h in ps[..count];
    }
  }

  lemma OneWaitsLess(cfg: Config, n: Node, lane: Lane)
    requires LaneOf(n, lane) != [] && n.table.clock < U64_MAX && Possible(cfg, n, SendOn(lane))
    ensures forall h :: h in Waiting(n) && h != LaneOf(n, lane)[0] ==> h in Waiting(After(cfg, n, SendOn(lane)))
  {
    hide Waiting, After;
    WaitingStep(cfg, n, SendOn(lane));
  }

  lemma OneAdds(n: Node, n': Node, ps: seq<Packet>)
    requires ps != [] && n'.table == n.table && n'.queue == Queued(n, ps[0]).queue
    ensures LaneAdds(n, n', ps, 1)
  {
  }

  lemma AddsMore(n: Node, n1: Node, n': Node, ps: seq<Packet>, count: nat)
    requires 1 < count <= |ps| && LaneAdds(n, n1, ps, 1) && LaneAdds(n1, n', ps[1..], count - 1)
    ensures LaneAdds(n, n', ps, count)
  {
    forall c, m | c in n'.queue && m in n'.queue[c] && m !in n.queue[c]
      ensures exists i :: 0 <= i < count && ps[i] == Packet(c, m)
    {
      if m in n1.queue[c] {
        assert ps[0] == Packet(c, m);
      } else {
        var i :| 0 <= i < count - 1 && ps[1..][i] == Packet(c, m);
        assert ps[i + 1] == Packet(c, m);
      }
    }
  }

  // ----- where a packet waits -----

  lemma {:induction false} InSending(m: map<ClientId, seq<Packet>>, q: Packet) returns (c: ClientId)
    requires q in SendingBag(m)
    ensures c in m && q in m[c]
  {
    var k :| k in m && SendingBag(m) == multiset(m[k]) + SendingBag(m - {k});
    if q in m[k] {
      c := k;
    } else {
      assert q in SendingBag(m - {k});
      c := InSending(m - {k}, q);
    }
  }

  lemma {:induction false} InBackgroundBag(b: seq<seq<Packet>>, q: Packet) returns (k: nat)
    requires q in BackgroundBag(b)
    ensures k < |b| && q in b[k]
  {
    if q in b[0] {
      k := 0;
    } else {
      k := InBackgroundBag(b[1..], q);
      k := k + 1;
    }
  }

  lemma LaneWith(n: Node, q: Packet) returns (lane: Lane, i: nat)
    requires q in Waiting(n)
    ensures i < |LaneOf(n, lane)| && LaneOf(n, lane)[i] == q
  {
    if q in SendingBag(n.sending) {
      var c := InSending(n.sending, q);
      lane := Handler(c);
    } else {
      var k := InBackgroundBag(n.background, q);
      lane := Task(k);
    }
    i :| 0 <= i < |LaneOf(n, lane)| && LaneOf(n, lane)[i] == q;
  }

  /** Any packet that waits can be the next to reach its connection's queue. */
  lemma SendUpTo(cfg: Config, n: Node, q: Packet) returns (nodes: seq<Node>, evs: seq<CallEvent>)
    requires q in Waiting(n) && n.table.clock < U64_MAX
    ensures Sends(cfg, nodes, evs) && nodes[0] == n
    ensures var n' := nodes[|evs|];
      && n'.table == n.table && QueuesGrow(n, n')
      && (q.to in n.queue ==> |n'.queue[q.to]| > |n.queue[q.to]| && n'.queue[q.to][|n'.queue[q.to]| - 1] == q.msg)
  {
    hide Waiting, LaneOf, CallStep;
    var lane, i := LaneWith(n, q);
    nodes, evs := SendThrough(cfg, n, lane, i + 1);
  }
}
