/** Calls over the effective table: floor, participants, late entry, pruning and
    disconnects as one state machine. A handler that sends after it released the
    lock leaves its packets behind, and each of them is queued by a step of its
    own, so everything that can come between is covered. */
module GroupCalls {
  import opened FedTypes
  import opened RouteTable

  type CallId = nat
  type Priority = x: int | 0 <= x < 256

  /** Priority of an emergency call (ETSI EN 300 392-2 clause 14.8). */
  const EMERGENCY_PRIORITY: Priority := 15

  datatype CallKind = Group | Private

  datatype Call = Call(kind: CallKind, owner: ClientId, source: Issi, destination: u32, priority: Priority,
                       peers: set<ClientId>)

  datatype CallMsg =
    | GroupTx(id: CallId, source: Issi, destination: u32, priority: Priority)
    | Voice(id: CallId, kind: CallKind)
    | CallEnd(id: CallId)
    | FedPrune(id: CallId, source: Issi)
    | SetupReq(id: CallId, source: Issi, destination: u32)

  /** A message whose recipient was looked up under the lock. */
  datatype Packet = Packet(to: ClientId, msg: CallMsg)

  datatype Config = Config(allowMultiple: bool, higherWins: bool, routeAll: bool, fallback: bool)

  /** `sending` has what the handler of a connection's last message still has to
      queue, `background` the same for alarms, timeouts and disconnects. */
  datatype Node = Node(
    table: Table,
    consoles: set<ClientId>,
    calls: map<CallId, Call>,
    floor: map<Gssi, CallId>,
    headers: map<CallId, CallMsg>,
    queue: map<ClientId, seq<CallMsg>>,
    sending: map<ClientId, seq<Packet>>,
    background: seq<seq<Packet>>)

  function Members(subs: Subs, g: Gssi): set<ClientId> {
    set i | i in subs && g in subs[i].groups :: subs[i].client
  }

  predicate RunningGroup(n: Node, id: CallId, g: Gssi) {
    id in n.calls && n.calls[id].kind == Group && n.calls[id].destination == g
  }

  /** Every queue of `n` is a prefix of the same queue in `r`. */
  ghost predicate QueuesGrow(n: Node, r: Node) {
    forall c :: c in n.queue ==> c in r.queue && n.queue[c] <= r.queue[c]
  }

  /** `m` queued on every live connection of `to`. */
  function SendAll(n: Node, to: set<ClientId>, m: CallMsg): (r: Node)
    ensures QueuesGrow(n, r) && r == n.(queue := r.queue)
  {
    n.(queue := map c | c in n.queue :: if c in to && c in n.table.clients then n.queue[c] + [m] else n.queue[c])
  }

  // ----- packets -----

  /** `order` has each element of `s` once. */
  ghost predicate Lists<T(!new)>(order: seq<T>, s: set<T>) {
    Elems(order) == s && Distinct(order)
  }

  /** `m` for every live connection of `to`. */
  function ToAll(n: Node, to: set<ClientId>, m: CallMsg): set<Packet> {
    set c | c in to && c in n.table.clients :: Packet(c, m)
  }

  /** The packets of a connection's handler, to be queued in this order. */
  function Handing(n: Node, src: ClientId, packets: seq<Packet>): (r: Node)
    ensures r == n.(sending := r.sending)
  {
    if packets == [] then n else n.(sending := n.sending[src := packets])
  }

  function InBackground(n: Node, packets: seq<Packet>): (r: Node)
    ensures r == n.(background := r.background)
  {
    if packets == [] then n else n.(background := n.background + [packets])
  }

  /** The packets of a handler are left with its connection, or with no one. */
  function HandedOver(n: Node, src: Option<ClientId>, packets: seq<Packet>): (r: Node)
    ensures r == n.(sending := r.sending, background := r.background)
  {
    match src
    case Some(c) => Handing(n, c, packets)
    case None => InBackground(n, packets)
  }

  /** One packet reaches the queue of its connection. */
  function Queued(n: Node, p: Packet): (r: Node)
    ensures QueuesGrow(n, r) && r == n.(queue := r.queue)
  {
    if p.to in n.queue then n.(queue := n.queue[p.to := n.queue[p.to] + [p.msg]]) else n
  }

  /** The next packet of the handler of `src`. */
  function SentOne(n: Node, src: ClientId): (r: Node)
    requires src in n.sending && n.sending[src] != []
    ensures QueuesGrow(n, r) && r == n.(queue := r.queue, sending := r.sending)
  {
    var (p, rest) := (n.sending[src][0], n.sending[src][1..]);
    Queued(n, p).(sending := if rest == [] then n.sending - {src} else n.sending[src := rest])
  }

  function BackgroundOne(n: Node, k: nat): (r: Node)
    requires k < |n.background| && n.background[k] != []
    ensures QueuesGrow(n, r) && r == n.(queue := r.queue, background := r.background)
  {
    var (p, rest) := (n.background[k][0], n.background[k][1..]);
    Queued(n, p).(background := n.background[..k] + (if rest == [] then [] else [rest]) + n.background[k + 1..])
  }

  // ----- set-up and talker change -----

  predicate Wins(cfg: Config, priority: Priority, existing: Priority) {
    if cfg.higherWins then priority > existing else priority < existing
  }

  /** The call that holds the floor of `g` against a new call `id`, if any. */
  function Occupant(cfg: Config, n: Node, g: Gssi, id: CallId): Option<CallId> {
    if !cfg.allowMultiple && g in n.floor && n.floor[g] != id && n.floor[g] in n.calls
    then Some(n.floor[g]) else None
  }

  function Raise(p: Priority, emergency: bool): Priority {
    if emergency && p < EMERGENCY_PRIORITY then EMERGENCY_PRIORITY else p
  }

  function PeerLinks(t: Table): set<ClientId> {
    set c | c in t.clients && t.clients[c] == Peer
  }

  function Targets(cfg: Config, n: Node, src: ClientId, id: CallId, from: Issi, g: Gssi,
                   emergency: bool): set<ClientId> {
    var all := n.table.clients.Keys;
    var members := if cfg.routeAll then all else Members(n.table.subs, g);
    var reached := if members == {} && !cfg.routeAll && cfg.fallback then all else members;
    var kept := if id in n.calls && n.calls[id].owner == src && n.calls[id].source == from
                then n.calls[id].peers * PeerLinks(n.table) else {};
    var called := if emergency then n.consoles + PeerLinks(n.table) else {};
    reached + kept + called - {src}
  }

  predicate Rejected(cfg: Config, n: Node, id: CallId, g: Gssi, priority: Priority) {
    var o := Occupant(cfg, n, g, id);
    o.Some? && !Wins(cfg, priority, n.calls[o.value].priority)
  }

  /** The pre-empted call is released to everyone on it. */
  function Preempted(cfg: Config, n: Node, id: CallId, g: Gssi): Node {
    match Occupant(cfg, n, g, id)
    case None => n
    case Some(o) =>
      var c := n.calls[o];
      SendAll(n, c.peers + {c.owner}, CallEnd(o)).(calls := n.calls - {o})
  }

  /** What recipient `c` gets of a header: consoles and peers see the raised priority. */
  function HeaderFor(n: Node, header: CallMsg, raised: bool, c: ClientId): CallMsg {
    if raised && header.GroupTx? && (c in n.consoles || IsPeer(n.table, c))
    then header.(priority := Raise(header.priority, true)) else header
  }

  function HeaderPackets(n: Node, targets: set<ClientId>, header: CallMsg, raised: bool): set<Packet> {
    set c | c in targets && c in n.table.clients :: Packet(c, HeaderFor(n, header, raised, c))
  }

  predicate TurnedAway(cfg: Config, n: Node, src: ClientId, id: CallId, g: Gssi, priority: Priority, duplicate: bool) {
    (IsPeer(n.table, src) && duplicate) || Rejected(cfg, n, id, g, priority)
  }

  /** The headers an accepted GROUP_TX has to send. */
  function TxPackets(cfg: Config, n: Node, src: ClientId, id: CallId, from: Issi, g: Gssi, priority: Priority,
                     emergency: bool, duplicate: bool): set<Packet> {
    if TurnedAway(cfg, n, src, id, g, priority, duplicate) then {}
    else
      var n1 := Preempted(cfg, n, id, g);
      HeaderPackets(n1, Targets(cfg, n1, src, id, from, g, emergency), GroupTx(id, from, g, priority),
                    Raise(priority, emergency) != priority)
  }

  /** The call under its new talker. */
  function Recorded(cfg: Config, n: Node, src: ClientId, id: CallId, from: Issi, g: Gssi, priority: Priority,
                    emergency: bool): (r: Node)
    ensures r == n.(calls := r.calls, floor := r.floor, headers := r.headers)
  {
    var targets := Targets(cfg, n, src, id, from, g, emergency);
    var calls := n.calls[id := Call(Group, src, from, g, Raise(priority, emergency), targets)];
    n.(calls := calls, floor := n.floor[g := id],
       headers := (map k | k in n.headers && k in calls :: n.headers[k])[id := GroupTx(id, from, g, priority)])
  }

  /** GROUP_TX up to the release of the lock: the headers are addressed, not yet queued. */
  function OnGroupTx(cfg: Config, n: Node, src: ClientId, id: CallId, from: Issi, g: Gssi, priority: Priority,
                     emergency: bool, duplicate: bool): (r: Node)
    ensures QueuesGrow(n, r) && r == n.(calls := r.calls, floor := r.floor, headers := r.headers, queue := r.queue)
  {
    if IsPeer(n.table, src) && duplicate then
      if src in n.table.links then SendAll(n, {src}, FedPrune(id, from)) else n
    else if Rejected(cfg, n, id, g, priority) then n
    else Recorded(cfg, Preempted(cfg, n, id, g), src, id, from, g, priority, emergency)
  }

  // ----- late entry -----

  /** Running group calls `c` joins with `groups` and is not on yet. */
  function Joinable(n: Node, c: ClientId, groups: set<Gssi>): set<CallId> {
    set id | id in n.calls && n.calls[id].kind == Group && n.calls[id].destination in groups
      && c != n.calls[id].owner && c !in n.calls[id].peers
  }

  predicate Enters(n: Node, c: ClientId, groups: set<Gssi>) {
    groups != {} && !IsPeer(n.table, c) && c in n.table.clients
  }

  /** The GROUP_TX that set the call up; a console is told an emergency by its priority. */
  function LateHeader(n: Node, c: ClientId, id: CallId): CallMsg
    requires id in n.calls
  {
    var call := n.calls[id];
    var h := if id in n.headers then n.headers[id] else GroupTx(id, call.source, call.destination, call.priority);
    if h.GroupTx? && c in n.consoles && call.priority >= EMERGENCY_PRIORITY
    then h.(priority := Raise(h.priority, true)) else h
  }

  function LateHeaders(n: Node, c: ClientId, order: seq<CallId>): seq<CallMsg>
    requires forall id :: id in order ==> id in n.calls
  {
    seq(|order|, k requires 0 <= k < |order| => LateHeader(n, c, order[k]))
  }

  /** `c` is taken on as a participant of every running call of `groups`; `order`
      is the order in which the call map is walked. */
  function LateEntry(n: Node, c: ClientId, groups: set<Gssi>, order: seq<CallId>): (r: Node)
    requires Elems(order) == Joinable(n, c, groups)
    ensures QueuesGrow(n, r) && r == n.(calls := r.calls, headers := r.headers, queue := r.queue)
  {
    if !Enters(n, c, groups) then n
    else
      n.(calls := map id | id in n.calls ::
           if id in Joinable(n, c, groups) then n.calls[id].(peers := n.calls[id].peers + {c}) else n.calls[id],
         headers := map k | k in n.headers && k in n.calls :: n.headers[k],
         queue := if c in n.queue then n.queue[c := n.queue[c] + LateHeaders(n, c, order)] else n.queue)
  }

  /** The groups a subscriber message can have brought `src` into. */
  function JoinedGroups(t: Table, src: ClientId, kind: SubKind, issi: Issi): set<Gssi> {
    if kind in {Register, Reregister, Affiliate} && issi in t.subs && t.subs[issi].client == src
    then t.subs[issi].groups else {}
  }

  // ----- frames, pruning, alarms, ends -----

  predicate MaySend(n: Node, src: ClientId, id: CallId) {
    id in n.calls && var c := n.calls[id];
    if c.kind == Group then c.owner == src else c.owner == src || src in c.peers
  }

  function Listeners(c: Call, src: ClientId): set<ClientId> {
    (if c.kind == Private then c.peers + {c.owner} else c.peers) - {src}
  }

  /** A voice frame for everyone else on the call, if the source may send. */
  function FramePackets(n: Node, src: ClientId, id: CallId): set<Packet> {
    if MaySend(n, src, id) then ToAll(n, Listeners(n.calls[id], src), Voice(id, n.calls[id].kind)) else {}
  }

  function OnPrune(n: Node, src: ClientId, id: CallId, source: Issi): Node {
    if src in n.table.links && id in n.calls && n.calls[id].kind == Group && n.calls[id].source == source
    then n.(calls := n.calls[id := n.calls[id].(peers := n.calls[id].peers - {src})]) else n
  }

  /** A private set-up goes to the one connection its destination is on, unless
      that is where it came from. */
  predicate Routable(n: Node, src: ClientId, dest: Issi) {
    dest in n.table.subs && n.table.subs[dest].client != src
  }

  function SetupPackets(n: Node, src: ClientId, id: CallId, source: Issi, dest: Issi): set<Packet> {
    if Routable(n, src, dest) then ToAll(n, {n.table.subs[dest].client}, SetupReq(id, source, dest)) else {}
  }

  function OnPrivateSetup(n: Node, src: ClientId, id: CallId, source: Issi, dest: Issi, priority: Priority): (r: Node)
    ensures r == n.(calls := r.calls)
  {
    if !Routable(n, src, dest) then n
    else n.(calls := n.calls[id := Call(Private, src, source, dest, priority, {n.table.subs[dest].client})])
  }

  predicate EndsIt(n: Node, src: ClientId, id: CallId) {
    id in n.calls && var c := n.calls[id];
    c.owner == src || (c.kind == Private && src in c.peers)
  }

  function WithoutFloor(floor: map<Gssi, CallId>, id: CallId, c: Call): map<Gssi, CallId> {
    if c.kind == Group && c.destination in floor && floor[c.destination] == id then floor - {c.destination} else floor
  }

  function EndPackets(n: Node, src: ClientId, id: CallId): set<Packet> {
    if EndsIt(n, src, id) then ToAll(n, Listeners(n.calls[id], src), CallEnd(id)) else {}
  }

  /** The call is gone and its floor free; its end is still to be told. */
  function Removed(n: Node, src: ClientId, id: CallId): (r: Node)
    ensures r == n.(calls := r.calls, floor := r.floor)
  {
    if !EndsIt(n, src, id) then n
    else n.(calls := n.calls - {id}, floor := WithoutFloor(n.floor, id, n.calls[id]))
  }

  /** Calls an alarm of `issi` turns into emergency calls. */
  function Alarmed(n: Node, issi: Issi): set<CallId> {
    set id | id in n.calls && n.calls[id].kind == Group && n.calls[id].source == issi
      && n.calls[id].priority < EMERGENCY_PRIORITY
  }

  function AlarmPeers(n: Node, id: CallId): set<ClientId>
    requires id in n.calls
  {
    n.calls[id].peers + (n.consoles + PeerLinks(n.table) - {n.calls[id].owner})
  }

  /** The raised headers of every alarmed call, for its consoles and peers. */
  function AlarmPackets(n: Node, issi: Issi): set<Packet> {
    set id, c | id in Alarmed(n, issi) && c in AlarmPeers(n, id) * (n.consoles + PeerLinks(n.table)) &&
        c in n.table.clients ::
      Packet(c, AlarmHeader(n, id))
  }

  function AlarmHeader(n: Node, id: CallId): CallMsg
    requires id in n.calls
  {
    GroupTx(id, n.calls[id].source, n.calls[id].destination, EMERGENCY_PRIORITY)
  }

  /** `emergency_raised` up to the release of the lock: consoles and peers are
      already participants, their headers are still to be queued. */
  function OnAlarm(n: Node, issi: Issi): (r: Node)
    ensures r == n.(calls := r.calls)
  {
    n.(calls := map id | id in n.calls ::
         if id in Alarmed(n, issi)
         then n.calls[id].(priority := EMERGENCY_PRIORITY, peers := AlarmPeers(n, id)) else n.calls[id])
  }

  /** The calls a departing connection ends: private ones, and group calls it owns. */
  predicate DiesWith(c: Call, id: ClientId) {
    c.owner == id || (c.kind == Private && id in c.peers)
  }

  function Dying(n: Node, id: ClientId): set<CallId> {
    set k | k in n.calls && DiesWith(n.calls[k], id)
  }

  /** The end notices of a disconnect, for those still connected. */
  function GonePackets(n: Node, id: ClientId, t': Table): set<Packet> {
    set k, c | k in Dying(n, id) && c in Listeners(n.calls[k], id) && c in t'.clients :: Packet(c, CallEnd(k))
  }

  /** `cleanup_client`: table first, then the calls; the notices come last. */
  function Disconnected(n: Node, id: ClientId, t': Table): (r: Node)
    ensures r == n.(table := t', consoles := n.consoles - {id}, calls := r.calls, floor := r.floor)
  {
    n.(table := t', consoles := n.consoles - {id},
       calls := map k | k in n.calls && !DiesWith(n.calls[k], id) :: n.calls[k].(peers := n.calls[k].peers - {id}),
       floor := map g | g in n.floor && !(RunningGroup(n, n.floor[g], g) && n.calls[n.floor[g]].owner == id) ::
           n.floor[g])
  }
}
