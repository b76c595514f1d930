/** Two nodes watching each other: never two Active, and always settling on one. */
module HaCluster {
  import opened FedTypes
  import opened HaElection

  // ----- exclusivity -----

  /** A node runs or has crashed; ids tell the two apart. */
  datatype Cluster = Cluster(a: Option<Node>, b: Option<Node>)

  /** A view of the peer as it is now; whether a takeover request is still open
      and whether it is in sync are whatever the heartbeat said. */
  predicate Current(v: Option<PeerView>, s: Option<Node>) {
    match (v, s)
    case (None, None) => true
    case (Some(p), Some(n)) =>
      p == View(n, 0, p.synced).(takeoverRequest := p.takeoverRequest)
    case _ => false
  }

  datatype Move =
    | Advances(now: nat, peer: Option<PeerView>, gatewayOk: bool)
    | HandsOver(now: nat, peer: Option<PeerView>, manual: bool)
    | AsksActive(now: nat, peer: Option<PeerView>)
    | Persists(value: bool)
    | Crashes
    | Boots(name: Name, weight: nat, persist: bool, now: nat, listen: nat)

  /** One node's move; `other` is its peer. */
  ghost predicate Moves(s: Option<Node>, m: Move, other: Option<Node>, s': Option<Node>) {
    match m
    case Advances(now, peer, gw) => s.Some? && Current(peer, other) && s' == Some(Tick(s.value, now, peer, gw))
    case HandsOver(now, peer, manual) =>
      s.Some? && var r := RequestHandover(s.value, peer, now, manual); s' == if r.Some? then r else s
    case AsksActive(now, peer) =>
      s.Some? && var r := RequestActive(s.value, peer, now); s' == if r.Some? then r else s
    case Persists(v) => s.Some? && s' == Some(SetPersist(s.value, v))
    case Crashes => s' == None
    case Boots(name, weight, persist, now, listen) => s.None? && s' == Some(Boot(name, weight, persist, now, listen))
  }

  /** Which node moves, and how. */
  datatype Turn = Turn(onA: bool, move: Move)

  ghost predicate ClusterStep(c: Cluster, t: Turn, c': Cluster) {
    if t.onA then c'.b == c.b && Moves(c.a, t.move, c.b, c'.a) else c'.a == c.a && Moves(c.b, t.move, c.a, c'.b)
  }

  predicate IsActive(s: Option<Node>) {
    s.Some? && s.value.role == Active
  }

  ghost predicate Exclusive(c: Cluster) {
    && (c.a.Some? ==> NodeOk(c.a.value)) && (c.b.Some? ==> NodeOk(c.b.value))
    && !(IsActive(c.a) && IsActive(c.b))
  }

  /** A node becomes Active only while its peer, seen as it is, is not. */
  lemma MoveExclusive(s: Option<Node>, m: Move, other: Option<Node>, s': Option<Node>)
    requires s.Some? ==> NodeOk(s.value)
    requires other.Some? ==> NodeOk(other.value)
    requires Moves(s, m, other, s') && !(IsActive(s) && IsActive(other))
    ensures s'.Some? ==> NodeOk(s'.value)
    ensures !(IsActive(s') && IsActive(other))
  {
    if m.Advances? { TickOk(s.value, m.now, m.peer, m.gatewayOk); }
  }

  ghost predicate ClusterRun(cs: seq<Cluster>, ms: seq<Turn>) {
    && |cs| == |ms| + 1 && cs[0] == Cluster(None, None)
    && forall k :: 0 <= k < |ms| ==> ClusterStep(cs[k], ms[k], cs[k + 1])
  }

  /** No interleaving of ticks, commands, timeouts, gateway faults, crashes and
      restarts makes both nodes Active while ticks see the peer as it is. */
  lemma {:induction false} NeverBothActive(cs: seq<Cluster>, ms: seq<Turn>, k: nat)
    requires ClusterRun(cs, ms) && k <= |ms|
    ensures Exclusive(cs[k])
  {
    if k > 0 {
      NeverBothActive(cs, ms, k - 1);
      var (c, m, c') := (cs[k - 1], ms[k - 1], cs[k - 1 + 1]);
      assert ClusterStep(c, m, c');
      if m.onA {
        MoveExclusive(c.a, m.move, c.b, c'.a);
      } else {
        MoveExclusive(c.b, m.move, c.a, c'.b);
      }
    }
  }

  /** A healed partition: of two Active nodes exactly one steps down, whichever
      ticks first, and the other stays Active. */
  lemma HealedPartition(first: Node, second: Node, t1: nat, t2: nat, sync1: bool, sync2: bool)
    requires NodeOk(first) && NodeOk(second) && first.name != second.name
    requires first.role == Active && second.role == Active
    ensures var f := Tick(first, t1, Some(View(second, t1, sync2)), true);
      var s := Tick(second, t2, Some(View(f, t1, sync1)), true);
      && (f.role == Active) != (s.role == Active)
      && var (one, two) := (first.persist || first.hold, second.persist || second.hold);
      && (f.role == Active <==>
            || (one && !two)
            || (one == two && first.weight > second.weight)
            || (one == two && first.weight == second.weight && first.name > second.name))
  {
  }

  // ----- convergence -----

  /** Both nodes with the last heartbeat of each that the other received; sync
      flags are constant. */
  datatype Pair = Pair(a: Node, b: Node, fromA: PeerView, fromB: PeerView)

  function TickA(p: Pair, now: nat): Pair {
    var a := Tick(p.a, now, Some(p.fromB), true);
    p.(a := a, fromA := View(a, now, p.fromA.synced))
  }

  function Swap(p: Pair): Pair {
    Pair(p.b, p.a, p.fromB, p.fromA)
  }

  function TickB(p: Pair, now: nat): Pair {
    Swap(TickA(Swap(p), now))
  }

  /** A tick of one of the nodes. */
  datatype Beat = Beat(onA: bool, now: nat)

  function TickOne(p: Pair, beat: Beat): Pair {
    if beat.onA then TickA(p, beat.now) else TickB(p, beat.now)
  }

  function Ticks(p: Pair, beats: seq<Beat>): Pair {
    if beats == [] then p else TickOne(Ticks(p, beats[..|beats| - 1]), beats[|beats| - 1])
  }

  /** Both nodes tick, in whatever order and however often. */
  ghost predicate Both(beats: seq<Beat>) {
    exists i, j :: 0 <= i < |beats| && 0 <= j < |beats| && beats[i].onA && !beats[j].onA
  }

  /** `v` announces `s`, sent at some time. */
  ghost predicate Announces(v: PeerView, s: Node) {
    exists t: nat :: v == View(s, t, v.synced)
  }

  predicate Pending(s: Node) {
    s.handover.Some?
  }

  /** Requests are for the peer; a takeover runs out by `T`. */
  predicate Asks(s: Node, peer: Name, T: nat) {
    NodeOk(s) && (Pending(s) ==> s.handover.value.to == peer) && (s.takeover.Some? ==> s.takeover.value <= T)
  }

  /** Whatever the heartbeats say, they are the peer's, and every request runs
      out by `T`. */
  ghost predicate LooseOk(p: Pair, T: nat) {
    && p.a.name != p.b.name && p.fromA.node == p.a.name && p.fromB.node == p.b.name
    && Asks(p.a, p.b.name, T) && Asks(p.b, p.a.name, T)
    && (Pending(p.a) ==> p.a.handover.value.until <= T) && (Pending(p.b) ==> p.b.handover.value.until <= T)
  }

  /** The heartbeats are up to date; of two handovers both run out by `T`. */
  ghost predicate PairOk(p: Pair, T: nat) {
    && p.a.name != p.b.name && Announces(p.fromA, p.a) && Announces(p.fromB, p.b)
    && Asks(p.a, p.b.name, T) && Asks(p.b, p.a.name, T)
    && (Pending(p.a) && Pending(p.b) ==> p.a.handover.value.until <= T && p.b.handover.value.until <= T)
  }

  function TimeOfMove(m: Move): nat {
    match m
    case Advances(now, _, _) => now
    case HandsOver(now, _, _) => now
    case AsksActive(now, _) => now
    case Boots(_, _, _, now, _) => now
    case _ => 0
  }

  function PeerOfMove(m: Move): Option<PeerView> {
    match m
    case Advances(_, peer, _) => peer
    case HandsOver(_, peer, _) => peer
    case AsksActive(_, peer) => peer
    case _ => None
  }

  /** By `t0`, by a node called `me`, about a peer called `other`. */
  ghost predicate Named(m: Move, me: Name, other: Name, t0: nat) {
    && TimeOfMove(m) <= t0
    && (PeerOfMove(m).Some? ==> PeerOfMove(m).value.node == other)
    && (m.Boots? ==> m.name == me)
  }

  ghost predicate NamedRun(ms: seq<Turn>, a: Name, b: Name, t0: nat) {
    forall k :: 0 <= k < |ms| ==> Named(ms[k].move, if ms[k].onA then a else b, if ms[k].onA then b else a, t0)
  }

  /** A node whose requests all run out by `t0` plus the timeout. */
  ghost predicate Expires(s: Option<Node>, me: Name, other: Name, t0: nat) {
    s.Some? ==>
      && NodeOk(s.value) && s.value.name == me
      && (s.value.takeover.Some? ==> s.value.takeover.value <= t0 + HANDOVER_TIMEOUT_MS)
      && (Pending(s.value) ==>
          s.value.handover.value.to == other && s.value.handover.value.until <= t0 + HANDOVER_TIMEOUT_MS)
  }

  lemma MoveExpires(s: Option<Node>, m: Move, o: Option<Node>, s': Option<Node>, me: Name, other: Name, t0: nat)
    requires Expires(s, me, other, t0) && Named(m, me, other, t0) && Moves(s, m, o, s')
    ensures Expires(s', me, other, t0)
  {
    hide Tick;
    if m.Advances? {
      TickOk(s.value, m.now, m.peer, m.gatewayOk);
      TickKeeps(s.value, m.now, m.peer, m.gatewayOk);
    }
  }

  /** Every reachable pair of running nodes, whatever heartbeats they hold of
      each other, is one from which `Converges` starts. */
  lemma {:induction false} ReachablePair(cs: seq<Cluster>, ms: seq<Turn>, k: nat, a: Name, b: Name, t0: nat,
                                         fromA: PeerView, fromB: PeerView)
    requires ClusterRun(cs, ms) && NamedRun(ms, a, b, t0) && a != b && k <= |ms|
    requires fromA.node == a && fromB.node == b
    ensures Expires(cs[k].a, a, b, t0) && Expires(cs[k].b, b, a, t0)
    ensures cs[k].a.Some? && cs[k].b.Some? ==>
      LooseOk(Pair(cs[k].a.value, cs[k].b.value, fromA, fromB), t0 + HANDOVER_TIMEOUT_MS)
  {
    hide Moves, NodeOk;
    if k > 0 {
      ReachablePair(cs, ms, k - 1, a, b, t0, fromA, fromB);
      var (c, m, c') := (cs[k - 1], ms[k - 1], cs[k - 1 + 1]);
      assert ClusterStep(c, m, c') && Named(m.move, if m.onA then a else b, if m.onA then b else a, t0);
      if m.onA {
        MoveExpires(c.a, m.move, c.b, c'.a, a, b, t0);
      } else {
        MoveExpires(c.b, m.move, c.a, c'.b, b, a, t0);
      }
    }
  }

  // ----- the heartbeats catch up -----

  lemma LooseTickA(p: Pair, now: nat, T: nat)
    requires LooseOk(p, T) && now + HANDOVER_TIMEOUT_MS <= T
    ensures LooseOk(TickA(p, now), T) && Announces(TickA(p, now).fromA, TickA(p, now).a)
  {
    hide Tick;
    TickOk(p.a, now, Some(p.fromB), true);
    TickKeeps(p.a, now, Some(p.fromB), true);
  }

  lemma LooseTick(p: Pair, beat: Beat, T: nat)
    requires LooseOk(p, T) && beat.now + HANDOVER_TIMEOUT_MS <= T
    ensures var p' := TickOne(p, beat);
      && LooseOk(p', T)
      && (beat.onA || Announces(p.fromA, p.a) ==> Announces(p'.fromA, p'.a))
      && (!beat.onA || Announces(p.fromB, p.b) ==> Announces(p'.fromB, p'.b))
  {
    hide Tick, Announces;
    if beat.onA { LooseTickA(p, beat.now, T); } else { LooseTickA(Swap(p), beat.now, T); }
  }

  lemma {:induction false} LooseTicks(p: Pair, beats: seq<Beat>, T: nat)
    requires LooseOk(p, T) && forall k :: 0 <= k < |beats| ==> beats[k].now + HANDOVER_TIMEOUT_MS <= T
    ensures var p' := Ticks(p, beats);
      && LooseOk(p', T)
      && ((exists i :: 0 <= i < |beats| && beats[i].onA) ==> Announces(p'.fromA, p'.a))
      && ((exists i :: 0 <= i < |beats| && !beats[i].onA) ==> Announces(p'.fromB, p'.b))
    decreases |beats|
  {
    hide LooseOk, Announces, TickOne;
    if beats != [] {
      var init := beats[..|beats| - 1];
      LooseTicks(p, init, T);
      LooseTick(Ticks(p, init), beats[|beats| - 1], T);
      forall i | 0 <= i < |beats| - 1 ensures beats[i] == init[i] { }
    }
  }

  /** Once both have ticked each knows the other as it is. */
  lemma CatchUp(p: Pair, beats: seq<Beat>, T: nat)
    requires LooseOk(p, T) && Both(beats) && forall k :: 0 <= k < |beats| ==> beats[k].now + HANDOVER_TIMEOUT_MS <= T
    ensures PairOk(Ticks(p, beats), T)
  {
    hide Ticks, Announces;
    LooseTicks(p, beats, T);
  }

  // ----- the requests run out -----

  lemma TickAOk(p: Pair, now: nat, T: nat)
    requires PairOk(p, T)
    ensures PairOk(TickA(p, now), T)
    ensures TickA(p, now).a.role in {Standby, Active}
    ensures now >= T ==> TickA(p, now).a.takeover.None? && !(Pending(TickA(p, now).a) && Pending(p.b))
    ensures p.a.takeover.None? ==> TickA(p, now).a.takeover.None?
  {
    hide Tick;
    TickOk(p.a, now, Some(p.fromB), true);
    TickKeeps(p.a, now, Some(p.fromB), true);
    TickSeesPeer(p.a, now, p.fromB);
  }

  /** `s` is up and has no takeover open. */
  predicate Quiet(s: Node) {
    s.role in {Standby, Active} && s.takeover.None?
  }

  lemma LateTick(p: Pair, beat: Beat, T: nat)
    requires PairOk(p, T) && beat.now >= T
    ensures var p' := TickOne(p, beat);
      && PairOk(p', T) && !(Pending(p'.a) && Pending(p'.b))
      && (beat.onA || Quiet(p.a) ==> Quiet(p'.a)) && (!beat.onA || Quiet(p.b) ==> Quiet(p'.b))
  {
    hide Tick, Announces;
    if beat.onA { TickAOk(p, beat.now, T); } else { TickAOk(Swap(p), beat.now, T); }
  }

  lemma {:induction false} LateTicks(p: Pair, beats: seq<Beat>, T: nat)
    requires PairOk(p, T) && forall k :: 0 <= k < |beats| ==> beats[k].now >= T
    ensures var p' := Ticks(p, beats);
      && PairOk(p', T) && (beats != [] ==> !(Pending(p'.a) && Pending(p'.b)))
      && ((exists i :: 0 <= i < |beats| && beats[i].onA) ==> Quiet(p'.a))
      && ((exists i :: 0 <= i < |beats| && !beats[i].onA) ==> Quiet(p'.b))
    decreases |beats|
  {
    hide PairOk, Quiet, TickOne;
    if beats != [] {
      var init := beats[..|beats| - 1];
      LateTicks(p, init, T);
      LateTick(Ticks(p, init), beats[|beats| - 1], T);
      forall i | 0 <= i < |beats| - 1 ensures beats[i] == init[i] { }
    }
  }

  /** Past the timeouts: no request is open, both nodes are up, at most one hands over. */
  ghost predicate Calm(p: Pair, T: nat) {
    PairOk(p, T) && Quiet(p.a) && Quiet(p.b) && !(Pending(p.a) && Pending(p.b))
  }

  lemma BecomesCalm(p: Pair, beats: seq<Beat>, T: nat)
    requires PairOk(p, T) && Both(beats) && forall k :: 0 <= k < |beats| ==> beats[k].now >= T
    ensures Calm(Ticks(p, beats), T)
  {
    hide PairOk, Quiet, Ticks;
    LateTicks(p, beats, T);
  }

  // ----- the roles settle -----

  /** Nothing lets the Standby preempt an Active node holding as `hold` says. */
  predicate Secure(active: Node, hold: bool, standby: Node, synced: bool) {
    active.persist || hold || !synced || Preferred(active.weight, active.name, standby.weight, standby.name)
  }

  /** How many ticks that matter are left at most, one node Active and the other not. */
  function RankWith(active: Node, standby: Node, synced: bool): nat {
    if Pending(standby) then
      (if Secure(active, active.hold && standby.handover.value.manual, standby, synced) then 1 else 4)
    else if Secure(active, active.hold, standby, synced) then 0 else 3
  }

  /** The same with the first about to take over from the second. */
  function RankHanding(next: Node, handing: Node, synced: bool): nat
    requires Pending(handing)
  {
    if Secure(next, handing.handover.value.manual, handing, synced) then 2 else 5
  }

  function Rank(p: Pair): nat {
    if p.a.role == Active && p.b.role == Active then 4
    else if p.a.role == Active then RankWith(p.a, p.b, p.fromB.synced)
    else if p.b.role == Active then RankWith(p.b, p.a, p.fromA.synced)
    else if Pending(p.a) then RankHanding(p.b, p.a, p.fromA.synced)
    else if Pending(p.b) then RankHanding(p.a, p.b, p.fromB.synced)
    else 1
  }

  /** Whether the tick that matters next is A's. */
  predicate ActsA(p: Pair) {
    if p.a.role == Active && p.b.role == Active then
      Outranks(p.b.persist || p.b.hold, p.b.weight, p.b.name, p.a.persist || p.a.hold, p.a.weight, p.a.name)
    else if p.a.role == Active then !Pending(p.b)
    else if p.b.role == Active then Pending(p.a)
    else if Pending(p.a) then false
    else if Pending(p.b) then true
    else Preferred(p.a.weight, p.a.name, p.b.weight, p.b.name)
  }

  lemma SwapRank(p: Pair, T: nat)
    requires Calm(p, T)
    ensures Calm(Swap(p), T) && Rank(Swap(p)) == Rank(p)
    ensures Rank(p) > 0 ==> ActsA(Swap(p)) == !ActsA(p)
  {
  }

  /** A tick never leads away, and the one that matters leads closer. */
  lemma RankTickA(p: Pair, now: nat, T: nat)
    requires Calm(p, T) && now >= T
    ensures var p' := TickA(p, now);
      && Calm(p', T) && Rank(p') <= Rank(p)
      && (Rank(p) > 0 && ActsA(p) ==> Rank(p') < Rank(p))
      && (Rank(p) > 0 && Rank(p') == Rank(p) ==> !ActsA(p'))
  {
    TickAOk(p, now, T);
  }

  lemma RankTick(p: Pair, beat: Beat, T: nat)
    requires Calm(p, T) && beat.now >= T
    ensures var p' := TickOne(p, beat);
      && Calm(p', T) && Rank(p') <= Rank(p)
      && (Rank(p) > 0 && ActsA(p) == beat.onA ==> Rank(p') < Rank(p))
      && (Rank(p) > 0 && Rank(p') == Rank(p) ==> ActsA(p') == ActsA(p))
  {
    hide Tick, Calm, Rank, ActsA;
    if beat.onA {
      RankTickA(p, beat.now, T);
    } else {
      SwapRank(p, T);
      RankTickA(Swap(p), beat.now, T);
      SwapRank(TickA(Swap(p), beat.now), T);
    }
  }

  /** While the rank stays, only the other node has ticked. */
  lemma {:induction false} RankTicks(p: Pair, beats: seq<Beat>, T: nat)
    requires Calm(p, T) && forall k :: 0 <= k < |beats| ==> beats[k].now >= T
    ensures var p' := Ticks(p, beats);
      && Calm(p', T) && Rank(p') <= Rank(p)
      && (Rank(p) > 0 && Rank(p') == Rank(p) ==>
            ActsA(p') == ActsA(p) && forall k :: 0 <= k < |beats| ==> beats[k].onA != ActsA(p))
    decreases |beats|
  {
    hide Calm, Rank, ActsA, TickOne;
    if beats != [] {
      var (init, last) := (beats[..|beats| - 1], beats[|beats| - 1]);
      RankTicks(p, init, T);
      RankTick(Ticks(p, init), last, T);
      assert forall k :: 0 <= k < |init| ==> beats[k] == init[k];
    }
  }

  /** Whenever both have ticked again the pair is closer. */
  lemma RankDrops(p: Pair, beats: seq<Beat>, T: nat)
    requires Calm(p, T) && Both(beats) && forall k :: 0 <= k < |beats| ==> beats[k].now >= T
    ensures var p' := Ticks(p, beats); Calm(p', T) && (Rank(p') < Rank(p) || Rank(p') == Rank(p) == 0)
  {
    hide Calm, Rank, ActsA, Ticks;
    RankTicks(p, beats, T);
  }

  /** Exactly one Active, nothing pending, nobody to preempt it. */
  ghost predicate Stable(p: Pair, T: nat) {
    && Calm(p, T) && !Pending(p.a) && !Pending(p.b)
    && ((p.a.role == Active && p.b.role == Standby && Secure(p.a, p.a.hold, p.b, p.fromB.synced))
        || (p.b.role == Active && p.a.role == Standby && Secure(p.b, p.b.hold, p.a, p.fromA.synced)))
  }

  lemma RankZeroIff(p: Pair, T: nat)
    requires Calm(p, T)
    ensures Stable(p, T) <==> Rank(p) == 0
  {
  }

  lemma StableTickA(p: Pair, now: nat, T: nat)
    requires Stable(p, T) && now >= T
    ensures var p' := TickA(p, now); Stable(p', T) && p'.a.role == p.a.role && p'.b.role == p.b.role
  {
    TickAOk(p, now, T);
  }

  /** A stable pair keeps its roles for ever. */
  lemma {:induction false} StableStays(p: Pair, beats: seq<Beat>, T: nat)
    requires Stable(p, T) && forall k :: 0 <= k < |beats| ==> beats[k].now >= T
    ensures var p' := Ticks(p, beats); Stable(p', T) && p'.a.role == p.a.role && p'.b.role == p.b.role
    decreases |beats|
  {
    if beats != [] {
      hide Tick, Calm, Secure;
      var (init, last) := (beats[..|beats| - 1], beats[|beats| - 1]);
      StableStays(p, init, T);
      var q := Ticks(p, init);
      if last.onA {
        StableTickA(q, last.now, T);
      } else {
        StableSwap(q, T);
        StableTickA(Swap(q), last.now, T);
        StableSwap(TickA(Swap(q), last.now), T);
      }
    }
  }

  lemma StableSwap(p: Pair, T: nat)
    requires Stable(p, T)
    ensures Stable(Swap(p), T)
  {
  }

  // ----- convergence -----

  function Rounds(p: Pair, rounds: seq<seq<Beat>>): Pair {
    if rounds == [] then p else Ticks(Rounds(p, rounds[..|rounds| - 1]), rounds[|rounds| - 1])
  }

  ghost predicate Late(rounds: seq<seq<Beat>>, T: nat) {
    forall r, k :: 0 <= r < |rounds| && 0 <= k < |rounds[r]| ==> rounds[r][k].now >= T
  }

  /** A calm pair loses a rank in every round. */
  lemma {:induction false} Settles(p: Pair, rounds: seq<seq<Beat>>, T: nat)
    requires Calm(p, T) && Late(rounds, T) && forall r :: 0 <= r < |rounds| ==> Both(rounds[r])
    ensures var p' := Rounds(p, rounds); Calm(p', T) && (Rank(p') == 0 || Rank(p') + |rounds| <= Rank(p))
    decreases |rounds|
  {
    hide Calm, Rank, Both, Ticks;
    if rounds != [] {
      var init := rounds[..|rounds| - 1];
      Settles(p, init, T);
      RankDrops(Rounds(p, init), rounds[|rounds| - 1], T);
    }
  }

  /** From any reachable pair with gateways up, constant sync flags and no
      further commands, whatever their last heartbeats said: let both nodes
      tick at least once, then, all requests having run out, at least six times
      over, in any order. Then exactly one node is Active, and no tick changes
      the roles again. */
  lemma Converges(p: Pair, first: seq<Beat>, second: seq<Beat>, rounds: seq<seq<Beat>>, later: seq<Beat>, T: nat)
    requires LooseOk(p, T) && Both(first) && forall k :: 0 <= k < |first| ==> first[k].now + HANDOVER_TIMEOUT_MS <= T
    requires Both(second) && (forall k :: 0 <= k < |second| ==> second[k].now >= T)
    requires |rounds| == 5 && Late(rounds, T) && forall r :: 0 <= r < |rounds| ==> Both(rounds[r])
    requires forall k :: 0 <= k < |later| ==> later[k].now >= T
    ensures var x := Rounds(Ticks(Ticks(p, first), second), rounds);
      var y := Ticks(x, later);
      && (x.a.role == Active) != (x.b.role == Active)
      && y.a.role == x.a.role && y.b.role == x.b.role
  {
    hide LooseOk, PairOk, Calm, Rank, Ticks, Rounds, Both;
    var q := Ticks(Ticks(p, first), second);
    CatchUp(p, first, T);
    BecomesCalm(Ticks(p, first), second, T);
    Settles(q, rounds, T);
    RankBound(q);
    RankZeroIff(Rounds(q, rounds), T);
    StableStays(Rounds(q, rounds), later, T);
  }

  lemma RankBound(p: Pair)
    ensures Rank(p) <= 5
  {
  }
}
