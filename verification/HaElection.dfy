/** Active/standby election (`ha::Election`): one node's state machine, as a
    value and as the object the runtime updates. */
module HaElection {
  import opened FedTypes

  /** Node names are compared as ordered identifiers. */
  type Name = nat

  /** How long a handover or a takeover request waits for the peer. */
  const HANDOVER_TIMEOUT_MS: nat := 5000

  datatype Role = Init | Standby | Active | Fault

  datatype Handover = Handover(to: Name, manual: bool, until: nat)

  datatype PeerView = PeerView(node: Name, role: Role, weight: nat, persist: bool, hold: bool,
                               handoverTo: Option<Name>, handoverManual: bool, takeoverRequest: bool, synced: bool)

  datatype Node = Node(name: Name, weight: nat, persist: bool, role: Role, hold: bool,
                       handover: Option<Handover>, takeover: Option<nat>, initUntil: nat)

  function Boot(name: Name, weight: nat, persist: bool, now: nat, listen: nat): Node {
    Node(name, weight, persist, Init, false, None, None, now + listen)
  }

  /** Higher weight, then name. */
  predicate Preferred(w1: nat, n1: Name, w2: nat, n2: Name) {
    w1 > w2 || (w1 == w2 && n1 > n2)
  }

  /** Split-brain ranking: entitled to stay first, then the normal preference. */
  predicate Outranks(e1: bool, w1: nat, n1: Name, e2: bool, w2: nat, n2: Name) {
    (e1 && !e2) || (e1 == e2 && Preferred(w1, n1, w2, n2))
  }

  function SetRole(s: Node, role: Role): Node {
    s.(role := role, hold := s.hold && role == Active, takeover := if role == Standby then s.takeover else None)
  }

  function StartHandover(s: Node, to: Name, manual: bool, now: nat): Node {
    SetRole(s.(handover := Some(Handover(to, manual, now + HANDOVER_TIMEOUT_MS))), Standby)
  }

  predicate TakeoverRequested(s: Node, now: nat) {
    s.takeover.Some? && now < s.takeover.value
  }

  /** What a node announces after a tick at `now`. */
  function View(s: Node, now: nat, synced: bool): PeerView {
    PeerView(s.name, s.role, s.weight, s.persist, s.hold,
             if s.handover.Some? then Some(s.handover.value.to) else None,
             s.handover.Some? && s.handover.value.manual, TakeoverRequested(s, now), synced)
  }

  // ----- the normal rules, with both gateways up and no handover going on -----

  function ActiveRules(s: Node, p: PeerView, now: nat): Node {
    if p.role == Active then
      if Outranks(p.persist || p.hold, p.weight, p.node, s.persist || s.hold, s.weight, s.name)
      then SetRole(s, Standby) else s
    else if p.takeoverRequest then StartHandover(s, p.node, true, now)
    else if !s.persist && !s.hold && p.synced && Preferred(p.weight, p.node, s.weight, s.name)
    then StartHandover(s, p.node, false, now)
    else s
  }

  function WaitingRules(s: Node, p: PeerView, now: nat): Node {
    if p.role == Active then SetRole(s, Standby)
    else
      var takeover := TakeoverRequested(s, now);
      if takeover || Preferred(s.weight, s.name, p.weight, p.node) then SetRole(s, Active).(hold := takeover)
      else SetRole(s, Standby)
  }

  function WithPeer(s: Node, p: PeerView, now: nat): Node {
    if s.handover.Some? && p.role != Active && now < s.handover.value.until then SetRole(s, Standby)
    else
      var s1 := s.(handover := None);
      if p.handoverTo == Some(s.name) then SetRole(s1, Active).(hold := p.handoverManual)
      else if p.role == Fault then (if s1.role == Active then s1 else SetRole(s1, Active))
      else if s1.role == Active then ActiveRules(s1, p, now)
      else WaitingRules(s1, p, now)
  }

  function Tick(s: Node, now: nat, peer: Option<PeerView>, gatewayOk: bool): Node {
    var s0 := if s.takeover.Some? && now >= s.takeover.value then s.(takeover := None) else s;
    if !gatewayOk then SetRole(s0.(handover := None), Fault)
    else
      var s1 := if s0.role == Fault then SetRole(s0, Init).(initUntil := now) else s0;
      if s1.role == Init && now < s1.initUntil && peer.None? then s1
      else if peer.None? then SetRole(s1.(handover := None), Active)
      else WithPeer(s1, peer.value, now)
  }

  // ----- dashboard commands -----

  function RequestHandover(s: Node, peer: Option<PeerView>, now: nat, manual: bool): Option<Node> {
    if s.role == Active && peer.Some? && (peer.value.role == Standby || peer.value.role == Init)
    then Some(StartHandover(s, peer.value.node, manual, now)) else None
  }

  function RequestActive(s: Node, peer: Option<PeerView>, now: nat): Option<Node> {
    if s.role == Standby && peer.Some? then Some(s.(takeover := Some(now + HANDOVER_TIMEOUT_MS))) else None
  }

  function SetPersist(s: Node, persist: bool): Node {
    s.(persist := persist, hold := false)
  }

  // ----- what every reachable node satisfies -----

  /** A pending handover or takeover implies Standby, hold implies Active. */
  predicate NodeOk(s: Node) {
    && (s.handover.Some? ==> s.role == Standby)
    && (s.takeover.Some? ==> s.role == Standby)
    && (s.hold ==> s.role == Active)
  }

  /** Kept whatever the peer looks like: dead, stale or current. */
  lemma TickOk(s: Node, now: nat, peer: Option<PeerView>, gatewayOk: bool)
    requires NodeOk(s)
    ensures NodeOk(Tick(s, now, peer, gatewayOk))
  {
  }

  /** No request is open after a tick but one open before that has not run out,
      or a handover to the peer that starts now. */
  ghost predicate Keeps(s: Node, s': Node, peer: Option<PeerView>, now: nat) {
    && s'.name == s.name
    && (s'.takeover.Some? ==> s'.takeover == s.takeover && now < s.takeover.value)
    && (s'.handover.Some? && s'.handover != s.handover ==>
          peer.Some? && s'.handover.value.to == peer.value.node && s'.handover.value.until == now + HANDOVER_TIMEOUT_MS)
    && (s'.handover.Some? && s'.handover == s.handover && peer.Some? && s.handover.value.to == peer.value.node ==>
          now < s.handover.value.until)
  }

  lemma WithPeerKeeps(s: Node, p: PeerView, now: nat)
    requires s.takeover.Some? ==> now < s.takeover.value
    ensures Keeps(s, WithPeer(s, p, now), Some(p), now)
  {
  }

  lemma TickKeeps(s: Node, now: nat, peer: Option<PeerView>, gatewayOk: bool)
    requires NodeOk(s)
    ensures Keeps(s, Tick(s, now, peer, gatewayOk), peer, now)
  {
    hide WithPeer;
    var s0 := if s.takeover.Some? && now >= s.takeover.value then s.(takeover := None) else s;
    var s1 := if s0.role == Fault then SetRole(s0, Init).(initUntil := now) else s0;
    if gatewayOk && peer.Some? {
      WithPeerKeeps(s1, peer.value, now);
    }
  }

  /** With its gateway up a node that sees its peer is up, and starts no
      handover to a peer that hands over to it. */
  lemma TickSeesPeer(s: Node, now: nat, p: PeerView)
    ensures var s' := Tick(s, now, Some(p), true);
      && s'.role in {Standby, Active}
      && (p.handoverTo == Some(s.name) && s'.handover.Some? ==>
          s'.handover == s.handover && now < s.handover.value.until)
  {
  }

  lemma CommandsOk(s: Node, peer: Option<PeerView>, now: nat, flag: bool)
    requires NodeOk(s)
    ensures RequestHandover(s, peer, now, flag).Some? ==> NodeOk(RequestHandover(s, peer, now, flag).value)
    ensures RequestActive(s, peer, now).Some? ==> NodeOk(RequestActive(s, peer, now).value)
    ensures NodeOk(SetPersist(s, flag))
  {
  }

  /** The object the runtime keeps. */
  class Election {
    const node: Name
    const weight: nat
    var persist: bool
    var role: Role
    var hold: bool
    var handover: Option<Handover>
    var takeoverUntil: Option<nat>
    var initUntil: nat

    constructor (node: Name, weight: nat, persist: bool, now: nat, listen: nat)
      ensures State() == Boot(node, weight, persist, now, listen)
    {
      this.node, this.weight, this.persist := node, weight, persist;
      role, hold, handover, takeoverUntil, initUntil := Init, false, None, None, now + listen;
    }

    function State(): Node
      reads this
    {
      Node(node, weight, persist, role, hold, handover, takeoverUntil, initUntil)
    }

    method ChangeRole(next: Role)
      modifies this
      ensures State() == SetRole(old(State()), next)
    {
      if next != Active {
        hold := false;
      }
      if next != Standby {
        takeoverUntil := None;
      }
      role := next;
    }

    method BeginHandover(to: Name, manual: bool, now: nat)
      modifies this
      ensures State() == StartHandover(old(State()), to, manual, now)
    {
      handover := Some(Handover(to, manual, now + HANDOVER_TIMEOUT_MS));
      ChangeRole(Standby);
    }

    method AskHandover(peer: Option<PeerView>, now: nat, manual: bool) returns (ok: bool)
      modifies this
      ensures ok == RequestHandover(old(State()), peer, now, manual).Some?
      ensures State() == if ok then RequestHandover(old(State()), peer, now, manual).value else old(State())
    {
      if role != Active {
        return false;
      }
      if peer.None? || (peer.value.role != Standby && peer.value.role != Init) {
        return false;
      }
      BeginHandover(peer.value.node, manual, now);
      return true;
    }

    method AskActive(peer: Option<PeerView>, now: nat) returns (ok: bool)
      modifies this
      ensures ok == RequestActive(old(State()), peer, now).Some?
      ensures State() == if ok then RequestActive(old(State()), peer, now).value else old(State())
    {
      if role != Standby || peer.None? {
        return false;
      }
      takeoverUntil := Some(now + HANDOVER_TIMEOUT_MS);
      return true;
    }

    /** Advances the state machine; every branch leaves through `ChangeRole`. */
    method Advance(now: nat, peer: Option<PeerView>, gatewayOk: bool) returns (r: Role)
      requires NodeOk(State())
      modifies this
      ensures State() == Tick(old(State()), now, peer, gatewayOk) && NodeOk(State()) && r == role
    {
      hide WithPeer, NodeOk;
      TickOk(State(), now, peer, gatewayOk);
      if takeoverUntil.Some? && now >= takeoverUntil.value {
        takeoverUntil := None;
      }
      if !gatewayOk {
        handover := None;
        ChangeRole(Fault);
        return role;
      }
      if role == Fault {
        ChangeRole(Init);
        initUntil := now;
      }
      if role == Init && now < initUntil && peer.None? {
        return role;
      }
      if peer.None? {
        handover := None;
        ChangeRole(Active);
        return role;
      }
      MeetPeer(peer.value, now);
      return role;
    }

    /** The rest of a tick, with a peer that was heard of. */
    method MeetPeer(p: PeerView, now: nat)
      modifies this
      ensures State() == WithPeer(old(State()), p, now)
    {
      hide Outranks, Preferred, TakeoverRequested;
      if handover.Some? {
        if p.role == Active || now >= handover.value.until {
          handover := None;
        } else {
          ChangeRole(Standby);
          return;
        }
      }
      if p.handoverTo == Some(node) {
        ChangeRole(Active);
        hold := p.handoverManual;
        return;
      }
      if p.role == Fault {
        if role != Active {
          ChangeRole(Active);
        }
        return;
      }
      if role == Active {
        if p.role == Active {
          if Outranks(p.persist || p.hold, p.weight, p.node, persist || hold, weight, node) {
            ChangeRole(Standby);
          }
        } else if p.takeoverRequest {
          BeginHandover(p.node, true, now);
        } else if !persist && !hold && p.synced && Preferred(p.weight, p.node, weight, node) {
          BeginHandover(p.node, false, now);
        }
      } else if p.role != Active {
        var takeover := TakeoverRequested(State(), now);
        if takeover || Preferred(weight, node, p.weight, p.node) {
          ChangeRole(Active);
          hold := takeover;
        } else {
          ChangeRole(Standby);
        }
      } else {
        ChangeRole(Standby);
      }
    }
  }
}
