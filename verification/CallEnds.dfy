/** How calls end: everyone left on an ended call is told exactly once, and what
    may still come after the notice. */
module CallEnds {
  import opened FedTypes
  import opened RouteTable
  import opened TableInvariant
  import opened GroupCalls
  import opened CallInvariants
  import opened CallHeaders
  import opened CallRuns

  // ----- packets on their way -----

  /** Everything the handlers of connections still have to queue. */
  ghost function SendingBag(m: map<ClientId, seq<Packet>>): multiset<Packet> {
    if m == map[] then multiset{}
    else
      var k :| k in m;
      multiset(m[k]) + SendingBag(m - {k})
  }

  function BackgroundBag(b: seq<seq<Packet>>): multiset<Packet> {
    if b == [] then multiset{} else multiset(b[0]) + BackgroundBag(b[1..])
  }

  ghost function Waiting(n: Node): multiset<Packet> {
    SendingBag(n.sending) + BackgroundBag(n.background)
  }

  lemma {:induction false} BagSplit(m: map<ClientId, seq<Packet>>, k: ClientId)
    requires k in m
    ensures SendingBag(m) == multiset(m[k]) + SendingBag(m - {k})
  {
    var j :| j in m && SendingBag(m) == multiset(m[j]) + SendingBag(m - {j});
    if j != k {
      BagSplit(m - {j}, k);
      BagSplit(m - {k}, j);
      assert m - {j} - {k} == m - {k} - {j};
    }
  }

  lemma BagPut(m: map<ClientId, seq<Packet>>, k: ClientId, ps: seq<Packet>)
    ensures SendingBag(m[k := ps]) == multiset(ps) + SendingBag(m - {k})
  {
    BagSplit(m[k := ps], k);
    assert m[k := ps] - {k} == m - {k};
  }

  lemma {:induction false} BackgroundJoin(a: seq<seq<Packet>>, b: seq<seq<Packet>>)
    ensures BackgroundBag(a + b) == BackgroundBag(a) + BackgroundBag(b)
    decreases |a|
  {
    hide BackgroundBag;
    NoBatch();
    if a == [] {
      assert a + b == b;
    } else {
      var (ps, rest) := (a[0], a[1..]);
      BackgroundJoin(rest, b);
      BackgroundFirst(ps, rest);
      BackgroundFirst(ps, rest + b);
      assert a == [ps] + rest && a + b == [ps] + (rest + b);
      Grouped(multiset(ps), BackgroundBag(rest), BackgroundBag(b));
    }
  }

  lemma Grouped(a: multiset<Packet>, b: multiset<Packet>, c: multiset<Packet>)
    ensures a + (b + c) == (a + b) + c
  {
  }

  lemma NoBatch()
    ensures BackgroundBag([]) == multiset{}
  {
  }

  lemma BackgroundFirst(ps: seq<Packet>, rest: seq<seq<Packet>>)
    ensures BackgroundBag([ps] + rest) == multiset(ps) + BackgroundBag(rest)
  {
    assert ([ps] + rest)[1..] == rest;
  }

  /** One batch replaced by `mid`. */
  lemma BackgroundReplace(b: seq<seq<Packet>>, k: nat, mid: seq<seq<Packet>>)
    requires k < |b|
    ensures BackgroundBag(b[..k] + mid + b[k + 1..]) + multiset(b[k]) == BackgroundBag(b) + BackgroundBag(mid)
  {
    hide BackgroundBag;
    var (front, back) := (b[..k], b[k + 1..]);
    assert b == front + ([b[k]] + back);
    assert front + mid + back == front + (mid + back);
    BackgroundJoin(front, [b[k]] + back);
    BackgroundFirst(b[k], back);
    BackgroundJoin(front, mid + back);
    BackgroundJoin(mid, back);
  }

  lemma HeadTail(ps: seq<Packet>)
    requires ps != []
    ensures multiset(ps) == multiset{ps[0]} + multiset(ps[1..])
  {
    assert ps == [ps[0]] + ps[1..];
  }

  lemma SentUses(n: Node, src: ClientId)
    requires src in n.sending && n.sending[src] != []
    ensures n.sending[src][0] in Waiting(n) && Waiting(SentOne(n, src)) == Waiting(n) - multiset{n.sending[src][0]}
  {
    hide Queued;
    var ps := n.sending[src];
    HeadTail(ps);
    BagSplit(n.sending, src);
    if ps[1..] != [] { BagPut(n.sending, src, ps[1..]); }
  }

  lemma BackgroundUses(n: Node, k: nat)
    requires k < |n.background| && n.background[k] != []
    ensures n.background[k][0] in Waiting(n)
    ensures Waiting(BackgroundOne(n, k)) == Waiting(n) - multiset{n.background[k][0]}
  {
    hide Queued, BackgroundBag;
    var b := n.background;
    InBag(b, k, b[k][0]);
    LaneUses(b, k);
    Moved(SendingBag(n.sending), BackgroundBag(WithoutHead(b, k)), BackgroundBag(b), b[k][0]);
  }

  /** The background once the head of batch `k` is gone. */
  function WithoutHead(b: seq<seq<Packet>>, k: nat): seq<seq<Packet>>
    requires k < |b| && b[k] != []
  {
    b[..k] + (if b[k][1..] == [] then [] else [b[k][1..]]) + b[k + 1..]
  }

  lemma LaneUses(b: seq<seq<Packet>>, k: nat)
    requires k < |b| && b[k] != []
    ensures BackgroundBag(WithoutHead(b, k)) + multiset{b[k][0]} == BackgroundBag(b)
  {
    hide BackgroundBag;
    var (head, rest) := (b[k][0], b[k][1..]);
    HeadTail(b[k]);
    OneBatch(rest);
    BackgroundReplace(b, k, if rest == [] then [] else [rest]);
    Cancel(BackgroundBag(WithoutHead(b, k)), multiset{head}, BackgroundBag(b), multiset(rest));
  }

  lemma Cancel(a: multiset<Packet>, x: multiset<Packet>, b: multiset<Packet>, c: multiset<Packet>)
    requires a + (x + c) == b + c
    ensures a + x == b
  {
    forall y ensures (a + x)[y] == b[y] { assert (a + (x + c))[y] == (b + c)[y]; }
  }

  lemma Moved(s: multiset<Packet>, a: multiset<Packet>, b: multiset<Packet>, q: Packet)
    requires a + multiset{q} == b
    ensures s + a == s + b - multiset{q}
  {
  }

  lemma {:induction false} InBag(b: seq<seq<Packet>>, k: nat, q: Packet)
    requires k < |b| && q in b[k]
    ensures q in BackgroundBag(b)
    decreases k
  {
    if k > 0 { InBag(b[1..], k - 1, q); }
  }

  lemma OneBatch(ps: seq<Packet>)
    ensures BackgroundBag([ps]) == multiset(ps)
    ensures BackgroundBag(if ps == [] then [] else [ps]) == multiset(ps)
  {
    assert BackgroundBag([]) == multiset{};
  }

  lemma HandedOverAdds(n: Node, src: Option<ClientId>, packets: seq<Packet>)
    requires src.Some? ==> src.value !in n.sending
    ensures Waiting(HandedOver(n, src, packets)) == Waiting(n) + multiset(packets)
  {
    hide BackgroundBag, SendingBag;
    if packets != [] {
      match src
      case Some(c) =>
        BagPut(n.sending, c, packets);
        assert n.sending - {c} == n.sending;
      case None =>
        BackgroundJoin(n.background, [packets]);
        OneBatch(packets);
    }
  }

  /** Packets wait from the step that owes them until they are queued. */
  lemma WaitingStep(cfg: Config, n: Node, ev: CallEvent)
    requires Possible(cfg, n, ev)
    ensures var n' := After(cfg, n, ev);
      if ev.Sent? then n.sending[ev.src][0] in Waiting(n) && Waiting(n') == Waiting(n) - multiset{n.sending[ev.src][0]}
      else if ev.BackgroundSent? then
        n.background[ev.k][0] in Waiting(n) && Waiting(n') == Waiting(n) - multiset{n.background[ev.k][0]}
      else Waiting(n') == Waiting(n) + multiset(PacketsOf(ev))
  {
    hide Waiting, Acted, SentOne, BackgroundOne, HandedOver, Owed, Lists;
    match ev
    case Sent(src) => SentUses(n, src);
    case BackgroundSent(k) => BackgroundUses(n, k);
    case _ =>
      ActedWaits(cfg, n, ev);
      HandedOverAdds(Acted(cfg, n, ev), Source(ev), PacketsOf(ev));
  }

  lemma ActedWaits(cfg: Config, n: Node, ev: CallEvent)
    requires Possible(cfg, n, ev)
    ensures Acted(cfg, n, ev).sending == n.sending && Acted(cfg, n, ev).background == n.background
    ensures Waiting(Acted(cfg, n, ev)) == Waiting(n)
  {
    hide Next, OnSub, Cleanup, Attach, Targets, SendAll, Owed, Lists;
  }

  lemma {:induction false} OnceIfListed(packets: seq<Packet>, s: set<Packet>, q: Packet)
    requires Lists(packets, s)
    ensures multiset(packets)[q] == if q in s then 1 else 0
  {
    OnceIfDistinct(packets, q);
    assert q in s <==> q in packets;
  }

  lemma {:induction false} OnceIfDistinct(packets: seq<Packet>, q: Packet)
    requires Distinct(packets)
    ensures multiset(packets)[q] == if q in packets then 1 else 0
  {
    if packets != [] {
      var (x, rest) := (packets[0], packets[1..]);
      assert packets == [x] + rest;
      OnceIfDistinct(rest, q);
      assert x !in rest;
    }
  }

  // ----- everyone is told once -----

  /** How often a queue announces the end of call `id`. */
  function EndCount(q: seq<CallMsg>, id: CallId): nat {
    if q == [] then 0 else EndCount(q[..|q| - 1], id) + if q[|q| - 1] == CallEnd(id) then 1 else 0
  }

  /** Everyone on the call but the connection that ended it. */
  function Audience(ev: CallEvent, c: Call): set<ClientId> {
    c.peers + {c.owner} - if ev.End? then {ev.src} else if ev.Leave? then {ev.id} else {}
  }

  predicate Ended(n: Node, n': Node, id: CallId) {
    id in n.calls && id !in n'.calls
  }

  /** Notices of the end of `id` that `c` got or is going to get. */
  ghost function Notices(n: Node, id: CallId, c: ClientId): nat
    requires c in n.queue
  {
    EndCount(n.queue[c], id) + Waiting(n)[Packet(c, CallEnd(id))]
  }

  /** What one step adds to them. */
  ghost predicate HearsEnd(n: Node, n': Node, ev: CallEvent, id: CallId, c: ClientId)
    requires c in n.queue
  {
    && c in n'.queue
    && Notices(n', id, c) == Notices(n, id, c)
         + if Ended(n, n', id) && c in n'.table.clients && c in Audience(ev, n.calls[id]) then 1 else 0
  }

  lemma {:induction false} CountJoin(a: seq<CallMsg>, b: seq<CallMsg>, id: CallId)
    ensures EndCount(a + b, id) == EndCount(a, id) + EndCount(b, id)
    decreases |b|
  {
    if b == [] {
      assert a + b == a;
    } else {
      var init := b[..|b| - 1];
      assert (a + b)[..|a + b| - 1] == a + init;
      CountJoin(a, init, id);
    }
  }

  lemma CountOne(m: CallMsg, id: CallId)
    ensures EndCount([m], id) == if m == CallEnd(id) then 1 else 0
  {
    assert EndCount([], id) == 0;
  }

  lemma {:induction false} CountNone(q: seq<CallMsg>, id: CallId)
    requires forall m :: m in q ==> !m.CallEnd?
    ensures EndCount(q, id) == 0
  {
    if q != [] { CountNone(q[..|q| - 1], id); }
  }

  lemma SendCount(n: Node, to: set<ClientId>, m: CallMsg, id: CallId, c: ClientId)
    requires c in n.queue
    ensures c in SendAll(n, to, m).queue
    ensures EndCount(SendAll(n, to, m).queue[c], id) ==
      EndCount(n.queue[c], id) + if m == CallEnd(id) && c in to && c in n.table.clients then 1 else 0
  {
    CountJoin(n.queue[c], [m], id);
    CountOne(m, id);
  }

  lemma QueuedCount(n: Node, q: Packet, id: CallId, c: ClientId)
    requires c in n.queue
    ensures c in Queued(n, q).queue
    ensures EndCount(Queued(n, q).queue[c], id) ==
      EndCount(n.queue[c], id) + if q == Packet(c, CallEnd(id)) then 1 else 0
  {
    CountJoin(n.queue[c], [q.msg], id);
    CountOne(q.msg, id);
  }

  /** The call pre-empted by an accepted GROUP_TX, if any. */
  function PreemptedBy(cfg: Config, n: Node, ev: CallEvent): Option<CallId> {
    if ev.Transmit? && !TurnedAway(cfg, n, ev.src, ev.call, ev.group, ev.priority, ev.duplicate)
    then Occupant(cfg, n, ev.group, ev.call) else None
  }

  /** Under the lock only pre-emption tells of an end. */
  lemma ActedCount(cfg: Config, n: Node, ev: CallEvent, id: CallId, c: ClientId)
    requires Possible(cfg, n, ev) && (forall k :: k in n.headers ==> n.headers[k].GroupTx?) && c in n.queue
    ensures c in Acted(cfg, n, ev).queue
    ensures EndCount(Acted(cfg, n, ev).queue[c], id) == EndCount(n.queue[c], id)
      + if PreemptedBy(cfg, n, ev) == Some(id) && id in n.calls && c in n.calls[id].peers + {n.calls[id].owner} &&
          c in n.table.clients
        then 1 else 0
  {
    hide EndCount, SendAll, Next, Cleanup, Attach, OnSub, Targets, Owed, Lists, OnGroupTx, LateEntry;
    if ev.Transmit? {
      TransmitCount(cfg, n, ev, id, c);
    } else if ev.Subscribe? {
      LateCount(cfg, n, ev, id, c);
    }
  }

  lemma TransmitCount(cfg: Config, n: Node, ev: CallEvent, id: CallId, c: ClientId)
    requires Possible(cfg, n, ev) && ev.Transmit? && c in n.queue
    ensures c in Acted(cfg, n, ev).queue
    ensures EndCount(Acted(cfg, n, ev).queue[c], id) == EndCount(n.queue[c], id)
      + if PreemptedBy(cfg, n, ev) == Some(id) && id in n.calls && c in n.calls[id].peers + {n.calls[id].owner} &&
          c in n.table.clients
        then 1 else 0
  {
    hide EndCount, SendAll, Targets, Owed, Lists;
    if IsPeer(n.table, ev.src) && ev.duplicate {
      SendCount(n, {ev.src}, FedPrune(ev.call, ev.from), id, c);
    } else {
      var o := Occupant(cfg, n, ev.group, ev.call);
      if o.Some? {
        var call := n.calls[o.value];
        SendCount(n, call.peers + {call.owner}, CallEnd(o.value), id, c);
      }
    }
  }

  lemma LateCount(cfg: Config, n: Node, ev: CallEvent, id: CallId, c: ClientId)
    requires Possible(cfg, n, ev) && ev.Subscribe?
    requires (forall k :: k in n.headers ==> n.headers[k].GroupTx?) && c in n.queue
    ensures c in Acted(cfg, n, ev).queue && EndCount(Acted(cfg, n, ev).queue[c], id) == EndCount(n.queue[c], id)
  {
    hide EndCount, OnSub, JoinedGroups, Owed;
    var n1 := Subscribed(n, ev.src, ev.kind, ev.issi, ev.groups, ev.now);
    forall k | k in ev.order ensures k in n1.calls { assert k in Elems(ev.order); }
    CountNone(LateHeaders(n1, ev.src, ev.order), id);
    CountJoin(n.queue[c], LateHeaders(n1, ev.src, ev.order), id);
  }

  /** After it, hang-ups, time-outs and disconnects owe exactly the notices of
      the calls they end. */
  lemma OwedNotice(cfg: Config, n: Node, ev: CallEvent, id: CallId, c: ClientId)
    requires Possible(cfg, n, ev)
    ensures Packet(c, CallEnd(id)) in Owed(cfg, n, ev) <==>
      (ev.End? || ev.Leave?) && Ended(n, After(cfg, n, ev), id) && c in After(cfg, n, ev).table.clients &&
          c in Audience(ev, n.calls[id])
  {
    hide After, Cleanup, Next, Attach, OnSub, Targets, Preempted, Lists;
  }

  lemma EndedHow(cfg: Config, n: Node, ev: CallEvent, id: CallId)
    requires Possible(cfg, n, ev)
    ensures Ended(n, After(cfg, n, ev), id) ==> ev.End? || ev.Leave? || PreemptedBy(cfg, n, ev) == Some(id)
    ensures PreemptedBy(cfg, n, ev) == Some(id) ==>
      id in n.calls && Ended(n, After(cfg, n, ev), id) && After(cfg, n, ev).table == n.table
  {
    hide After, Next, OnSub, Cleanup, Attach, Targets, SendAll, Owed, Lists;
  }

  /** Every step adds one notice for each call it ends and each connection left
      on it, and none besides. */
  lemma EndsToldStep(cfg: Config, n: Node, ev: CallEvent, id: CallId, c: ClientId)
    requires Possible(cfg, n, ev) && (forall k :: k in n.headers ==> n.headers[k].GroupTx?) && c in n.queue
    ensures HearsEnd(n, After(cfg, n, ev), ev, id, c)
  {
    hide EndCount, Waiting, Owed, Ended, Lists, Acted;
    var q := Packet(c, CallEnd(id));
    EndedHow(cfg, n, ev, id);
    if ev.Sent? {
      QueueStep(cfg, n, ev, c);
      WaitingStep(cfg, n, ev);
      QueuedCount(n, n.sending[ev.src][0], id, c);
    } else if ev.BackgroundSent? {
      QueueStep(cfg, n, ev, c);
      WaitingStep(cfg, n, ev);
      QueuedCount(n, n.background[ev.k][0], id, c);
    } else {
      ActedHears(cfg, n, ev, id, c);
    }
  }

  lemma ActedHears(cfg: Config, n: Node, ev: CallEvent, id: CallId, c: ClientId)
    requires Possible(cfg, n, ev) && (forall k :: k in n.headers ==> n.headers[k].GroupTx?) && c in n.queue
    requires !ev.Sent? && !ev.BackgroundSent?
    ensures HearsEnd(n, After(cfg, n, ev), ev, id, c)
  {
    hide EndCount, Waiting, Owed, Ended, Lists, Acted;
    var q := Packet(c, CallEnd(id));
    QueueStep(cfg, n, ev, c);
    WaitingStep(cfg, n, ev);
    EndedHow(cfg, n, ev, id);
    ActedCount(cfg, n, ev, id, c);
    OwedNotice(cfg, n, ev, id, c);
    OnceIfListed(PacketsOf(ev), Owed(cfg, n, ev), q);
  }

  /** In every run. */
  lemma RunEndsTold(cfg: Config, selfId: ServerId, nodes: seq<Node>, evs: seq<CallEvent>, k: nat, id: CallId,
                    c: ClientId)
    requires CallRun(cfg, selfId, nodes, evs) && k < |evs| && c in nodes[k].queue
    ensures HearsEnd(nodes[k], nodes[k + 1], evs[k], id, c)
  {
    hide HearsEnd, After, Possible, TableOk;
    RunSound(cfg, selfId, nodes, evs, k);
    assert CallStep(cfg, nodes[k], evs[k], nodes[k + 1]);
    EndsToldStep(cfg, nodes[k], evs[k], id, c);
  }

  /** Whoever is no longer on a call that goes on left by itself, was pruned, or
      was replaced when the call was set up again: nobody tells it. */
  lemma WhoIsDropped(cfg: Config, n: Node, ev: CallEvent, id: CallId, c: ClientId)
    requires Possible(cfg, n, ev) && id in n.calls && id in After(cfg, n, ev).calls
    requires c in n.calls[id].peers + {n.calls[id].owner}
    requires var call := After(cfg, n, ev).calls[id]; c !in call.peers + {call.owner}
    ensures (ev.Leave? && ev.id == c) || (ev.Prune? && ev.src == c) || ((ev.Transmit? || ev.Setup?) && ev.call == id)
  {
    hide After, Next, OnSub, Cleanup, Attach, Targets, Owed, Lists;
  }
}
