/** Who is Active and when it changes, in plain numbers: what each tick and each
    command does, and who is Active once two nodes have settled. */
module ElectionRules {
  import opened FedTypes
  import opened HaElection
  import opened HaCluster

  // ----- a tick on its own -----

  /** A tick never changes who a node is or what it was configured to be. */
  lemma TickKeepsIdentity(s: Node, now: nat, peer: Option<PeerView>, gatewayOk: bool)
    ensures var s' := Tick(s, now, peer, gatewayOk);
      && s'.name == s.name && s'.weight == s.weight && s'.persist == s.persist
      && s'.initUntil == if gatewayOk && s.role == Fault then now else s.initUntil
  {
  }

  /** Without its gateway a node is in Fault and asks for nothing. */
  lemma TickFault(s: Node, now: nat, peer: Option<PeerView>)
    ensures var s' := Tick(s, now, peer, false);
      s'.role == Fault && s'.handover.None? && s'.takeover.None? && !s'.hold
  {
  }

  /** With it and without a peer it is Active, but for the time it listens after boot. */
  lemma TickAlone(s: Node, now: nat)
    requires NodeOk(s)
    ensures var s' := Tick(s, now, None, true);
      if s.role == Init && now < s.initUntil then s' == s
      else s'.role == Active && s'.handover.None? && s'.takeover.None? && s'.hold == (s.role == Active && s.hold)
  {
  }

  // ----- a tick that sees the peer -----

  /** What a waiting handover of ours does: it lasts until the peer is Active or
      its time is up. */
  predicate Waits(s: Node, p: PeerView, now: nat) {
    s.handover.Some? && p.role != Active && now < s.handover.value.until
  }

  lemma TickWaits(s: Node, now: nat, p: PeerView)
    requires NodeOk(s) && Waits(s, p, now)
    ensures var s' := Tick(s, now, Some(p), true);
      && s'.role == Standby && s'.handover == s.handover && !s'.hold
      && s'.takeover == if s.takeover.Some? && now < s.takeover.value then s.takeover else None
  {
  }

  /** Named by the peer it is Active, and holds exactly if the switch was manual. */
  lemma TickTakesOver(s: Node, now: nat, p: PeerView)
    requires NodeOk(s) && !Waits(s, p, now) && p.handoverTo == Some(s.name)
    ensures var s' := Tick(s, now, Some(p), true);
      s'.role == Active && s'.hold == p.handoverManual && s'.handover.None? && s'.takeover.None?
  {
  }

  /** Next to a peer in Fault it is Active, and keeps its hold if it was already. */
  lemma TickBesideFault(s: Node, now: nat, p: PeerView)
    requires NodeOk(s) && !Waits(s, p, now) && p.handoverTo != Some(s.name) && p.role == Fault
    ensures var s' := Tick(s, now, Some(p), true);
      s'.role == Active && s'.handover.None? && s'.takeover.None? && s'.hold == (s.role == Active && s.hold)
  {
  }

  /** Two Active nodes: this one steps down exactly if the other is the larger in
      (persist or hold, weight, name). */
  lemma TickBothActive(s: Node, now: nat, p: PeerView)
    requires NodeOk(s) && s.role == Active && p.role == Active && p.handoverTo != Some(s.name)
    ensures var s' := Tick(s, now, Some(p), true);
      var (mine, theirs) := (s.persist || s.hold, p.persist || p.hold);
      if (theirs && !mine)
         || (theirs == mine && (p.weight > s.weight || (p.weight == s.weight && p.node > s.name)))
      then s'.role == Standby && !s'.hold && s'.handover.None? && s'.takeover.None?
      else s' == s
  {
  }

  /** An Active node hands over to one that is not when asked to, or unasked when
      it neither persists nor holds, the other has all its data and is the larger
      in (weight, name); it waits for five seconds. Else nothing changes. */
  lemma TickHandsOver(s: Node, now: nat, p: PeerView)
    requires NodeOk(s) && s.role == Active && p.role in {Init, Standby} && p.handoverTo != Some(s.name)
    ensures var s' := Tick(s, now, Some(p), true);
      if p.takeoverRequest
         || (!s.persist && !s.hold && p.synced
             && (p.weight > s.weight || (p.weight == s.weight && p.node > s.name)))
      then && s'.role == Standby && !s'.hold && s'.takeover.None?
           && s'.handover == Some(Handover(p.node, p.takeoverRequest, now + 5000))
      else s' == s
  {
  }

  /** Of two nodes that wait this one becomes Active if it was asked to be, which
      makes it hold, or is the larger in (weight, name); else it is Standby. */
  lemma TickBothWaiting(s: Node, now: nat, p: PeerView)
    requires NodeOk(s) && s.role != Active && p.role in {Init, Standby} && p.handoverTo != Some(s.name)
    requires !Waits(s, p, now)
    ensures var s' := Tick(s, now, Some(p), true);
      var asked := s.takeover.Some? && now < s.takeover.value;
      && s'.handover.None?
      && if asked || s.weight > p.weight || (s.weight == p.weight && s.name > p.node)
         then s'.role == Active && s'.hold == asked && s'.takeover.None?
         else s'.role == Standby && !s'.hold && s'.takeover.None?
  {
  }

  /** Beside an Active peer a node that is not Active waits, its request with it. */
  lemma TickBesideActive(s: Node, now: nat, p: PeerView)
    requires NodeOk(s) && s.role != Active && p.role == Active && p.handoverTo != Some(s.name)
    ensures var s' := Tick(s, now, Some(p), true);
      && s'.role == Standby && !s'.hold && s'.handover.None?
      && s'.takeover == if s.takeover.Some? && now < s.takeover.value then s.takeover else None
  {
  }

  // ----- commands and heartbeats -----

  lemma BootListens(name: Name, weight: nat, persist: bool, now: nat, listen: nat)
    ensures var s := Boot(name, weight, persist, now, listen);
      && s.name == name && s.weight == weight && s.persist == persist && s.role == Init && !s.hold
      && s.handover.None? && s.takeover.None? && s.initUntil == now + listen
  {
  }

  /** A handover starts exactly from Active towards a peer in Standby or Init. */
  lemma HandoverStarts(s: Node, peer: Option<PeerView>, now: nat, manual: bool)
    requires NodeOk(s)
    ensures var r := RequestHandover(s, peer, now, manual);
      && (r.Some? <==> s.role == Active && peer.Some? && peer.value.role in {Init, Standby})
      && (r.Some? ==>
            r.value == s.(role := Standby, hold := false,
                          handover := Some(Handover(peer.value.node, manual, now + 5000))))
  {
  }

  /** A takeover is asked for exactly from Standby with a peer in sight. */
  lemma TakeoverStarts(s: Node, peer: Option<PeerView>, now: nat)
    ensures var r := RequestActive(s, peer, now);
      && (r.Some? <==> s.role == Standby && peer.Some?)
      && (r.Some? ==> r.value == s.(takeover := Some(now + 5000)))
  {
  }

  /** Changing `persist` ends a hold and nothing else. */
  lemma PersistChanges(s: Node, persist: bool)
    ensures SetPersist(s, persist) == s.(persist := persist, hold := false)
  {
  }

  lemma Announced(s: Node, now: nat, synced: bool)
    ensures var v := View(s, now, synced);
      && v.node == s.name && v.role == s.role && v.weight == s.weight && v.persist == s.persist && v.hold == s.hold
      && (v.handoverTo == if s.handover.Some? then Some(s.handover.value.to) else None)
      && (v.handoverManual <==> s.handover.Some? && s.handover.value.manual)
      && (v.takeoverRequest <==> s.takeover.Some? && now < s.takeover.value) && v.synced == synced
  {
  }

  /** The moves of a run are these ticks and commands; a refused one changes nothing. */
  lemma MovesAreCommands(s: Node, m: Move, other: Option<Node>, s': Option<Node>)
    requires Moves(Some(s), m, other, s')
    ensures match m
      case Advances(now, peer, gatewayOk) => s' == Some(Tick(s, now, peer, gatewayOk)) && Current(peer, other)
      case HandsOver(now, peer, manual) =>
        var r := RequestHandover(s, peer, now, manual); s' == Some(if r.Some? then r.value else s)
      case AsksActive(now, peer) => var r := RequestActive(s, peer, now); s' == Some(if r.Some? then r.value else s)
      case Persists(value) => s' == Some(SetPersist(s, value))
      case Crashes => s'.None?
      case Boots(_, _, _, _, _) => false
  {
  }

  // ----- who is Active in the end -----

  /** After `Converges` an Active node that neither persists nor holds, beside a
      peer with all its data, is the larger in (weight, name). */
  lemma SettlesOnTheLarger(p: Pair, first: seq<Beat>, second: seq<Beat>, rounds: seq<seq<Beat>>, T: nat)
    requires LooseOk(p, T) && Both(first) && forall k :: 0 <= k < |first| ==> first[k].now + HANDOVER_TIMEOUT_MS <= T
    requires Both(second) && (forall k :: 0 <= k < |second| ==> second[k].now >= T)
    requires |rounds| == 5 && Late(rounds, T) && forall r :: 0 <= r < |rounds| ==> Both(rounds[r])
    ensures var x := Rounds(Ticks(Ticks(p, first), second), rounds);
      && (x.a.role == Active && !x.a.persist && !x.a.hold && x.fromB.synced ==>
            x.a.weight > x.b.weight || (x.a.weight == x.b.weight && x.a.name > x.b.name))
      && (x.b.role == Active && !x.b.persist && !x.b.hold && x.fromA.synced ==>
            x.b.weight > x.a.weight || (x.b.weight == x.a.weight && x.b.name > x.a.name))
  {
    hide LooseOk, PairOk, Calm, Rank, Ticks, Rounds, Both;
    var q := Ticks(Ticks(p, first), second);
    CatchUp(p, first, T);
    BecomesCalm(Ticks(p, first), second, T);
    Settles(q, rounds, T);
    RankBound(q);
    RankZeroIff(Rounds(q, rounds), T);
  }

  /** Two nodes booted with nothing asked of them: whichever ticks first, the
      larger in (weight, name) is the Active one. */
  lemma LargerBootsActive(a: Node, b: Node, t1: nat, t2: nat, syncA: bool, syncB: bool)
    requires a.role in {Init, Standby} && b.role in {Init, Standby} && NodeOk(a) && NodeOk(b) && a.name != b.name
    requires a.handover.None? && b.handover.None? && a.takeover.None? && b.takeover.None?
    requires a.weight > b.weight || (a.weight == b.weight && a.name > b.name)
    ensures var a' := Tick(a, t1, Some(View(b, t1, syncB)), true); a'.role == Active && !a'.hold
    ensures var a' := Tick(a, t1, Some(View(b, t1, syncB)), true);
      Tick(b, t2, Some(View(a', t2, syncA)), true).role == Standby
    ensures var b' := Tick(b, t1, Some(View(a, t1, syncA)), true);
      b'.role == Standby && Tick(a, t2, Some(View(b', t2, syncB)), true).role == Active
  {
  }
}
