# Verification of the Brew server's protocols

A Dafny model of how the servers of a TETRA network find each other's radios,
run group calls, fail over and keep messages, with proofs about whole runs.
`dafny verify dfyconfig.toml` checks everything; the modules need nothing else.

## Routing between servers

Servers form a path-vector protocol over peer links. `RouteSelection` states
what `select` promises and proves its two passes against it. `RouteTable` has
one server's table as a value and one function per handler; `TableInvariant`
shows that every reachable table is a fixpoint of selection; `Propagation` that
the messages on every link are exactly the changes, so that what was ever sent
equals a full sync. `Federation` puts servers and in-order links into a
network, and `Agreement` shows that a quiet network routes every ISSI to its
newest registration by shortest paths; `TwoServers` is a small run that gets
there. `Settling`, `Convergence`, `Layers` and `FairRuns` show that a network
does get there once links and radios rest: if every link keeps delivering, stale
routes die out, everyone in reach takes a shortest way to the newest registration
and tells nobody beyond `MAX_PATH` hops, those beyond settle in their turn, and
after a number of phases fixed beforehand nothing is left to deliver. If some
links starve it need not (below): `Oscillation` and `OscillationStart` are that
run. `InnerState` is the object behind one server:
its methods work in place, with loops, and are proved to do what the functions
say while the group index stays exact.

A registration lives only as the effective entry, as in the program: when a
newer remote one replaces it, it is gone. `sent` keeps everything ever queued
on a connection, so a link is a position in its sender's history.

`FedCodec`, `Utf8` and `ByteOrder` are the bytes of these messages;
`WireFormat` ties them to the network: whatever is sent in any run is read at
the far end as it was meant. `MsFlood` and `FloodRuns` are the flooding of
radio positions over a fixed network with deliveries in any order: a bound on
the number of deliveries, at most one relay of each fix per server, and the
newest fix everywhere once drained.

## Calls

`GroupCalls` extends the table with running calls, the floor, consoles and
queues. Whatever a handler computes under the lock and sends after releasing it
(headers, frames, set-ups, notices of an end) becomes a list of packets of
that connection's task, or of a background task for alarms, time-outs and
disconnects; queuing each packet is a step of its own, so anything can come
between. Over all runs: late entry is complete, a group has one call at a time,
every call that leaves the table is told exactly once to those who are still on
it and did not end it themselves (`CallEnds`, which also says who drops off a
call that goes on without being told). Whether headers come before voice, and
whether the notice of an end is the last word, depends on the order in which
waiting packets are queued (`SendOrders`): `FrameOrder` and `EndOrder` give the
exact condition for every order to be right, at the frame and at the end of the
call, and runs of the program that fail it (below).
`VoicePacking`, `CallControl` and `SevenBit` cover voice payloads, the two
versions of call control messages and packed talker names.

## Availability and messages

`HaElection` is the election of the Active node as a pure transition and as
the object that performs it; `HaCluster` composes two nodes: never both Active
while they see each other, one steps down after a partition, and from any
reachable pair, however stale its heartbeats and in whatever order the nodes
tick, a bounded number of rounds after the handover timeout the roles are
settled for good.

`SmsQueue` is the SMS Center's queue with its delivery loop; `SmsLaws`,
`SmsAttempts` and `SmsDelivery` prove over all runs what no single operation
enforces: conservation, limits, spacing of copies, the attempt cap, when a
message can be tried again and in which order messages are taken, and what an
undisturbed delivery pass does as a whole.

`HistoryLog` is the framed append-only log with its chunked reads;
`LogReplication` is two nodes copying each other's log through chunks in flight.

## Rules

The state machines above are pure functions, and the objects are proved to compute
them; what the functions do is stated a second time, outright, in numbers, fields
and byte offsets and without the helper functions they are made of: `RouteRules`
(which offer is chosen, what each message does to the table, what each kind of link
is told), `CallRules` (who may take the floor, who is on a call, hears a frame and is
told of an end), `ElectionRules`, `SmsRules`, `FloodRules`, `LogRules`, and `WireRules`,
`BitRules` and `Utf8Rules` for messages byte by byte, voice bit by bit and texts
character by character. What follows over runs is there too: a running call
leaves through a transmission only to one of strictly better priority, the pair settles
on the larger in weight and name, a message is kept for its configured time, and
(`LegacyNews`) a legacy server takes every new registration for its newest.

## Where the program does less than it seems to promise

- `emergency_raised` (src/router.rs:43-71) adds recipients under the lock and
  sends their headers afterwards; a voice frame in between arrives first
  (`CallRuns.AlarmCanBeOvertaken`). `FrameOrder.FramesHeardIff` gives the exact condition.
- However a call ends, nothing waits for its headers: if one is still to be queued
  for somebody who is told, it can come after the notice, and the listener is left
  with a call that has ended (`EndOrder.CleanEndsIff`). Pre-emption makes sure of it,
  as its notices are queued under the lock (src/router.rs:214-236,
  `EndOrder.EndCanBeOvertaken`); after a hang-up, time-out or disconnect it depends
  on the order of the sends, for instance when an alarm has just been raised
  (`EndOrder.HangUpCanBeOvertaken`).
- `select` compares offers of one origin by length alone (src/fedroute.rs:543-569),
  so a stale short offer beats a newer long one. While links starve, two servers
  can keep undoing each other's choice without end
  (`OscillationStart.DeliveriesNeedNotEnd`); links that keep delivering put an
  end to it (`FairRuns.FairDeliveriesEnd`).
- A call uuid reused for another group or kind leaves a stale floor entry
  (`CallInvariants.TransmitKeepsFloorIff`, `CallInvariants.SetupKeepsFloorIff`;
  `CallRuns.ReusedForGroup` and `CallRuns.ReusedForPrivate` are runs that do it).
- The clock saturates (src/fedroute.rs:211-215): at its maximum, which a run can
  reach, a new registration may lose to an old offer (`TableInvariant.SaturatedTickCanLose`).
- Opening a log with a torn tail keeps the tail (src/store.rs:67-86), although the
  file comment calls the format crash-safe: behind it every record is lost whose
  length is not the one the tail happens to announce (`HistoryLog.LongTailLoses`,
  `HistoryLog.ShortTailLoses`, `HistoryLog.AppendableIff`). A record of 2^32
  bytes or more is framed with a truncated length (`HistoryLog.AppendedIff`).
- `due_destinations` does not look at expiry (src/sms_center.rs:245-258); only
  after a sweep does it name the right destinations (`SmsAttempts.DueIff`).
- `release` takes back the count of an attempt, but the retry interval starts
  anew (`SmsAttempts.ReleaseUndoesTake`).
- An alarm for destination 0 arrives without destination, and a flag byte above
  1 is read as 1 (`FedCodec.SurvivesIff`, `FedCodec.RebuiltIff`).

## Model

| member | source | states |
|---|---|---|
| RouteSelection.PickRoute | src/fedroute.rs:552-569 | the two passes of `select` end at the declarative rule `IsChoice`: newest registration (tie: higher server id), then shortest path from that origin (tie: lower neighbour, then link) |
| RouteSelection.ChoiceUnique | src/fedroute.rs:543-551 | that rule leaves no freedom: any two outcomes that satisfy it are equal, so every server decides alike |
| RouteSelection.ChoiceExists | src/fedroute.rs:552-569 | the rule decides every case |
| RouteSelection.NextHopIgnoresClock | src/fedroute.rs:546-551 | a re-registration at the origin does not move the next hop: among the offers of the chosen origin the length alone counts |
| TableInvariant.EntryMeaning | src/fedroute.rs:620-645 | a remote entry equals a current offer of a live link, a path is empty exactly for a local entry, and no path repeats a server, holds our own id or exceeds `MAX_PATH`; every entry's clock is at most ours |
| TableInvariant.RerouteIdempotent | src/fedroute.rs:620-645 | re-routing an ISSI of a table that satisfies the invariant changes nothing |
| TableInvariant.RerouteEstablishes | src/fedroute.rs:620-645 | re-routing makes an entry a fixpoint whatever it was before and touches no other ISSI |
| TableInvariant.OnRouteOk | src/fedroute.rs:951-969 | an advert, accepted or refused, keeps the whole table a fixpoint |
| TableInvariant.OnWithdrawOk | src/fedroute.rs:970-974 | so does a withdrawal |
| TableInvariant.RegisterKeepsFixpoint | src/router.rs:924-975 | a registration writes its entry without selecting again; the table stays a fixpoint if and only if the new clock beats every offer held for the ISSI |
| TableInvariant.TickWins | src/fedroute.rs:208-219 | a tick below saturation exceeds every clock observed, so a new registration always beats the offers held |
| TableInvariant.SaturatedTickCanLose | src/fedroute.rs:211-215 | at `u64::MAX` the saturating tick cannot exceed what was observed: in a reachable table a new registration loses to the offer held, and the table stops being a fixpoint, at any time |
| TableInvariant.LastDayRun | src/fedroute.rs:208-219 | the run of three events that reaches it, with an advert within the accepted future |
| TableInvariant.OnSubOk | src/router.rs:905-976 | every SUB message from a link that is not loop-safe keeps the fixpoint |
| TableInvariant.AttachOk | src/federation.rs:507-523 | so does a new connection |
| TableInvariant.CleanupOk | src/state.rs:508-545 | so does a disconnect: bulk removal first, then each affected ISSI against the final state |
| TableInvariant.AlwaysFixpoint | src/fedroute.rs:617-645 | in every reachable state within clock range `reroute` changes nothing for any ISSI, and the clock stays bounded by the latest time seen |
| Propagation.NextTellsDifference | src/fedroute.rs:703-722 | every handler queues on every live peer link exactly the difference between the table before and after |
| Propagation.SyncReplay | src/fedroute.rs:724-733 | replaying a full sync gives exactly the offers the current table allows on that link |
| Propagation.AlwaysInSync | src/fedroute.rs:703-733 | in every run the replay of all that was ever queued on a negotiated link equals what the table offers there now |
| Propagation.IncrementalEqualsFullSync | src/fedroute.rs:653-733 | in every run the incremental messages and a full sync of the current table replay to the same offers |
| Propagation.OfferAccepted | src/fedroute.rs:647-661 | an advert the table emits starts with our id, crosses no server twice, fits `MAX_PATH`, does not hold the neighbour's id and carries the entry's groups |
| Propagation.ReceiverRules | src/router.rs:924-976 | what a receiver makes of one SUB message is the abstract rule used for replay (REGISTER keeps groups, only the owner deregisters) |
| Propagation.LegacyDiff | src/fedroute.rs:664-701 | the SUB messages between two entries turn the first, at the receiver, into the second |
| Propagation.LegacyRelayCorrect | src/fedroute.rs:664-733 | for an ISSI a legacy peer never owns, replaying what it was sent gives registered flag and groups of the current entry, in every run |
| Federation.NetAlwaysOk | src/fedroute.rs:934-975 | every network reachable from isolated servers by local events, joined links and in-order deliveries keeps the invariant: tables are fixpoints and each end holds the replay of what it was delivered |
| Federation.NextAcceptable | src/fedroute.rs:647-661 | whatever a server sends can be accepted by that neighbour |
| Federation.DeliveredEnabled | src/fedroute.rs:951-962 | on an honest live link nothing delivered is refused |
| Agreement.RouteLeadsHome | src/fedroute.rs:653-661 | in a quiet network every effective route leads hop by hop to a server that holds the ISSI locally, with the same clock and groups at every hop |
| Agreement.OfferComesFrom | src/fedroute.rs:653-661 | every offer held comes, over a walk of its length, from a local registration with its clock and groups |
| Agreement.NoDetour | src/fedroute.rs:653-661 | a neighbour on a shortest route does offer it on: the path filter never suppresses it |
| Agreement.TakesShortest | src/fedroute.rs:552-569 | with a shortest offer of the newest registration at hand selection takes a path of that length |
| Agreement.QuietAgreement | src/fedroute.rs:552-569 | every server within `MAX_PATH` hops of the newest registration routes to it by a shortest path and keeps no registration of its own |
| Agreement.NoRegistrationNoRoute | src/fedroute.rs:620-661 | in a quiet network somebody has a route if and only if somebody has a registration |
| Agreement.QuietRunsAgree | src/fedroute.rs:8-40 | the same for every run that has become quiet |
| Settling.HeardSince | src/fedroute.rs:703-722 | after a phase in which a link delivered what was queued when it began, its far end holds an offer the neighbour made at some time since |
| Settling.ReceiverChange | src/fedroute.rs:951-974 | a delivery changes the entry of one ISSI only, queues at most one message on each link, and creates no registration |
| Convergence.FreshOffer | src/fedroute.rs:653-661 | stale routes die out: while registrations stand, after `n` phases every offer over at most `n` hops leads, over links there are, to a registration there is |
| Convergence.RoutesNear | src/fedroute.rs:552-569 | once all is fresh, `d` phases later every server `d` hops from the newest registration routes to it over `d` hops, with its clock and groups |
| Convergence.SteadyEntry | src/fedroute.rs:552-569 | and from a known phase on its entry does not change again, next hop included, whatever is still delivered |
| Layers.EdgeSilent | src/fedroute.rs:647-661 | a server in reach of the newest registration tells nobody out of reach: its route has the longest path there is |
| Layers.BeyondIsPart | src/fedroute.rs:647-661 | so from then on those out of reach hear of the ISSI from each other only |
| Layers.PartSteady | src/fedroute.rs:552-569 | and settle in their turn: `STEADY` phases a layer, and no route to the ISSI changes again anywhere |
| FairRuns.FairDeliveriesEnd | src/fedroute.rs:934-975 | deliveries in any order end and leave the network quiet, however wide it is, once every link has had `Window` phases for each registration and one more in which it delivered what was queued at their start |
| FairRuns.OneRegistration | src/fedroute.rs:8-40 | a quiet network at most `MAX_PATH` hops across has exactly one registration of an ISSI and one origin for it at all servers, reached by shortest paths, or none and no route anywhere |
| FairRuns.FairRunsAgree | src/fedroute.rs:8-40 | both together, after any history of registrations, departures and links from isolated servers on, for networks at most `MAX_PATH` hops across |
| FairRuns.FairRunsAgreeInReach | src/fedroute.rs:552-569 | in networks of any width such a history ends with every server within `MAX_PATH` hops of the newest registration routing to it by a shortest path, and holding none itself |
| Oscillation.OneSwing | src/fedroute.rs:543-569 | two servers that undo each other's choice: four deliveries lead back to where they began, because the closest offer of the newest origin may be a stale one |
| OscillationStart.DeliveriesNeedNotEnd | src/fedroute.rs:543-569 | so without that fairness deliveries need not end: from a reachable network of four servers, all links up, there are runs of deliveries of any length |
| TwoServers.TwoServersAgree | src/fedroute.rs:934-975 | such a run exists: two servers link up, one registers a radio, the other routes it over one hop and all queues are empty |
| RouteRules.LocalRule | src/fedroute.rs:552-569 | the local registration stays exactly if no offer is of a newer one, by clock and then by server id |
| RouteRules.UnreachableRule | src/fedroute.rs:552-569 | there is no route exactly without a registration and without an offer |
| RouteRules.RemoteRule | src/fedroute.rs:543-569 | a link is chosen exactly if it offers the server of the newest registration and comes first among those that do: fewer servers, lower neighbour, lower link; and that registration is newer than the local one |
| RouteRules.RerouteRule | src/fedroute.rs:617-645 | re-routing makes exactly that choice the entry, with the chosen offer's link, clock, path and groups, and touches nothing else |
| RouteRules.AdvertRule | src/fedroute.rs:951-969 | an advert becomes the offer of its link and moves the clock, unless it is from more than a day ahead or passed this server: then the link has no offer |
| RouteRules.AdvertSelects | src/fedroute.rs:951-969 | and the entry is then what selection makes of the offers there are |
| RouteRules.WithdrawRule | src/fedroute.rs:970-974 | a withdrawal takes away that one offer |
| RouteRules.WithdrawSelects | src/fedroute.rs:970-974 | and selects again |
| RouteRules.RegisterRule | src/router.rs:924-934 | a registration takes the ISSI at once, whoever had it, with a new clock, no path and the groups it had |
| RouteRules.AffiliateRule | src/router.rs:943-954 | an affiliation adds to the groups of an ISSI of that link, registers an unknown one and leaves others alone |
| RouteRules.DeaffiliateRule | src/router.rs:955-962 | a deaffiliation takes just those groups from an ISSI of that link |
| RouteRules.DeregisterRule | src/router.rs:935-976 | only its owner deregisters an ISSI, which then goes to whoever else offers it |
| RouteRules.AttachRule | src/federation.rs:507-523 | a new connection changes nothing but its own entry, its link and its queue |
| RouteRules.DroppedRule | src/state.rs:508-545 | a connection that goes takes along exactly the entries and offers over it |
| RouteRules.LoopSafeTold | src/fedroute.rs:647-722 | for a change of an entry a loop-safe link is queued exactly one message: the advert with this server in front, its clock and its groups in order, if the neighbour may have it, else a withdrawal |
| RouteRules.LegacyOwnTold | src/fedroute.rs:664-675 | an entry that runs over a legacy peer is hidden from it: it is told nothing when the entry comes to run over it or goes, and of a new entry when it ceases to |
| RouteRules.LegacyTold | src/fedroute.rs:664-701 | for a change of an entry a legacy peer it does not run over is queued exactly: REGISTER and all groups if it is newly registered, else the groups it came into; then those it left; or DEREGISTER if it is gone |
| RouteRules.RegistersExactly | src/fedroute.rs:683-687 | so a REGISTER is among what is queued if and only if there is an entry and it is new or its registration changed |
| LegacyNews.NewsReaches | src/fedroute.rs:664-701 | in every run, below saturation: each time the registration of an ISSI the peer does not own changes, what it is sent makes it the peer's entry with a clock newer than any the peer had |
| InnerState.Inner.SetEffective | src/fedroute.rs:588-615 | replaces one entry and keeps `group_clients` exact: a connection is in a group exactly while an ISSI routed over it is, no empty set is kept |
| InnerState.Inner.Reroute | src/fedroute.rs:617-645 | the loop over offers computes the specified re-routing and reports whether the entry changed; the index stays exact |
| InnerState.Inner.Publish | src/fedroute.rs:703-722 | queues the difference on every peer link; on a legacy one that neither entry runs over a REGISTER is among it if and only if there is an entry and it is new or its registration changed |
| InnerState.Inner.HandleRoute | src/fedroute.rs:951-969 | an incoming advert has exactly the effect of `OnRoute`, index included |
| InnerState.Inner.HandleWithdraw | src/fedroute.rs:970-974 | an incoming withdrawal has exactly the effect of `OnWithdraw` |
| InnerState.Inner.AttachClient | src/federation.rs:507-523 | link up, registration and initial sync as one step |
| InnerState.Inner.FailOver | src/state.rs:508-545 | bulk removal and fail-over leave the specified table and an exact index |
| InnerState.Inner.CleanupClient | src/state.rs:508-577 | a disconnect as a whole: fail-over, then the calls it ends or leaves, and the notices left to be queued for those who stay |
| InnerState.Inner.HandleGroupTx | src/router.rs:189-328 | a GROUP_TX up to the release of the lock, with its effect written out: against a running call whose priority is as good (with one call per group, in the configured direction) nothing changes and no packet results; otherwise that call is gone, the uuid runs under its new talker and holds the floor, those reached are on it and each live one has its header left to be queued |
| InnerState.Inner.GroupTargets | src/router.rs:237-262 | the recipients, read from `group_clients`, are the connections of the group's members: the exact index carries the call theorems |
| InnerState.Inner.EnterLate | src/router.rs:872-903 | every joinable running call is entered once, each with its header for that connection |
| InnerState.Inner.HandleSubscriber | src/router.rs:905-1000 | the registration change followed by late entry, in one step |
| InnerState.Inner.HandleFrame | src/router.rs:748-779 | a voice frame is left to be queued, as it is, for exactly the attached connections other than its source that are on the call: in a group call from the owner to its peers, in a private call from either party to the other; they are queued later, one by one |
| InnerState.Inner.HandlePrune | src/fedroute.rs:975-982 | takes the link off the call exactly if it is a peer link and the stored talker is the one the prune names; every other participant and call stays |
| InnerState.Inner.HandlePrivateSetup | src/router.rs:572-660 | a set-up that is routed records the one connection its destination is on, never the caller's own, and addresses it alone; any other changes nothing; no other call is touched |
| InnerState.Inner.EndCall | src/router.rs:826-855 | ends a call and frees its floor exactly when the sender may, and leaves the notices for the others to be queued |
| InnerState.Inner.EmergencyRaised | src/router.rs:43-70 | raises every running call of the ISSI and adds consoles and peers; their headers are still to be queued |
| InnerState.MembersSplit | src/fedroute.rs:595-615 | the index entry of a group is the connection of one ISSI plus those of all others: why leaving a group may keep the connection in it |
| InnerState.DroppedIndex | src/state.rs:536-537 | removing a connection from all groups at once is exact when its entries are gone |
| CallInvariants.FloorStep | src/router.rs:214-295 | with one call per group and uuids that keep kind and group every step keeps `group_floor[g] = id` if and only if `id` is a running group call to `g` |
| CallInvariants.TransmitKeepsFloorIff | src/router.rs:189-295 | an accepted GROUP_TX keeps the floor exact if and only if its uuid is not running as a call to another group |
| CallInvariants.SetupKeepsFloorIff | src/router.rs:572-660 | an accepted private set-up keeps it exact if and only if its uuid is not a running group call |
| CallRuns.ReusedForGroup | src/router.rs:189-295 | a run whose last step breaks the floor by taking a running uuid for another group |
| CallRuns.ReusedForPrivate | src/router.rs:572-660 | a run whose last step breaks it by taking a running group call's uuid for a private call |
| CallInvariants.OwnerApartStep | src/router.rs:237-262 | no step makes a call's owner one of its own peers |
| CallInvariants.CoveredStep | src/router.rs:872-1000 | late entry is complete: after every step each non-peer member of a group is owner or participant of every running call to it |
| CallHeaders.ToldStep | src/router.rs:189-328 | every participant of a running call has its GROUP_TX queued or still owed to it |
| CallHeaders.VoiceCoveredStep | src/router.rs:735-765 | whoever a frame is on its way to was told of the call, or is owed it by an alarm |
| CallHeaders.OrderStepIff | src/router.rs:43-71 | any one step, among them the queuing of one packet after the lock was released, keeps header before voice if and only if it is not a frame queued for somebody to whom an alarm still owes the first header |
| CallRuns.RunSound | src/router.rs:189-328 | in every reachable state the table is a fixpoint, late entry is complete, no owner is its own peer, and everyone on a call, or with a frame on the way, was told of it or is owed it; nothing but the clock bound is assumed |
| CallRuns.RunOneCallPerGroup | src/router.rs:214-295 | in every reachable state the floor is exact, so no group has two running calls |
| CallRuns.RunHeaderFirstIff | src/router.rs:735-765 | and only then: the order holds throughout a run if and only if no frame overtakes an alarm in it |
| FrameOrder.FramesHeardIff | src/router.rs:735-765 | throughout a run, and in whatever order the packets that wait are then queued, headers come before voice, if and only if each frame finds all its listeners told of the call when it is handled |
| FrameOrder.UnheardAreAlarmed | src/router.rs:43-71 | a listener who was not told then is one an alarm brought in and still owes the header |
| CallRuns.RunHeaderFirst | src/router.rs:735-765 | in every run without that race nobody is queued group voice before a GROUP_TX of the call |
| CallRuns.AlarmCanBeOvertaken | src/router.rs:43-71 | a concrete run in which a frame overtakes the header of an alarm, because the headers are sent after the lock was released |
| CallEnds.EndsToldStep | src/router.rs:826-850 | every step, for every call and connection: the notices queued or waiting grow by one exactly if the step removes the call from the table, and the connection is still attached, was on it and did not end it itself; they change in no other case |
| CallEnds.OwedNotice | src/state.rs:556-577 | hang-ups, time-outs and disconnects leave exactly the notices of the calls they remove, each to each remaining participant |
| CallEnds.RunEndsTold | src/state.rs:547-577 | the same in every run: every call that leaves the table is told to its audience once |
| CallEnds.WhoIsDropped | src/router.rs:262-295 | who is off a call that goes on without being told: one that left, was pruned, or was replaced when the same uuid was set up again, as at a change of talker |
| EndOrder.CleanEndsIff | src/router.rs:826-850 | throughout a run with fresh call uuids, and in whatever order the packets that wait are then queued, the notice of an end is the last a connection hears of the call, if and only if no step ends a call (by hang-up, time-out, disconnect or pre-emption) while a header of it is on its way to somebody who is told |
| EndOrder.UncleanBreaks | src/state.rs:556-577 | any end with such a header on its way can be overtaken: an order of the remaining sends is given that queues the notice first |
| EndOrder.NoneBehindStep | src/router.rs:826-850 | a clean end keeps: whoever was or will be told of the end of a call has no header of it on its way |
| EndOrder.PreemptedHeaderIsLate | src/router.rs:214-236 | after pre-emption with a header on its way there is no good order: the order is broken as soon as that header is queued, whatever comes between |
| EndOrder.EndCanBeOvertaken | src/router.rs:214-236 | such a run: a call is pre-empted while its own headers are still to be queued, and the listener is left with a call that has ended |
| EndOrder.HangUpCanBeOvertaken | src/router.rs:43-70 | and one without any pre-emption: the talker hangs up while the header of an alarm is still on its way to a console |
| SendOrders.SendThrough | src/router.rs:735-765 | what a handler or background task still has to queue, up to any of its packets, can be queued before anything else |
| CallRules.TargetsReach | src/router.rs:243-284 | who is to hear a transmission: the members of the group, or all if all is routed or nobody is in it; peers of the turn it continues; in an emergency consoles and peers; never its source |
| CallRules.DuplicatePruned | src/router.rs:198-211 | a copy that came over a second peer link changes nothing and is answered with a prune on a loop-safe link |
| CallRules.NotBetterRejected | src/router.rs:214-227 | with one call per group, a transmission whose priority is not strictly better than that of the call holding the floor changes nothing and reaches nobody |
| CallRules.AcceptedRuns | src/router.rs:228-295 | any other runs under its new talker and holds the floor; the call it pre-empts is gone and no other changes |
| CallRules.AcceptedReaches | src/router.rs:243-295 | exactly those it reaches are on it |
| CallRules.AcceptedTells | src/router.rs:229-233 | exactly those on the pre-empted call are told of its end |
| CallRules.AcceptedHeader | src/router.rs:296-300 | its header is kept for those who come later and that of the pre-empted call goes |
| CallRules.AcceptedSends | src/router.rs:302-316 | exactly the attached recipients are left to be queued the header, with the emergency priority for consoles and peers of an emergency |
| CallRules.LeavesToBetter | src/router.rs:214-241 | in every run a call leaves through a transmission only to one of strictly better priority, to the group whose floor it held, with one call per group |
| CallRules.FrameRule | src/router.rs:748-765 | who hears a frame, with nothing but the fields of the call |
| CallRules.SetupRule | src/router.rs:572-660 | a private set-up makes a call of the caller and the one connection its destination is on, and addresses that one |
| CallRules.PruneRule | src/fedroute.rs:975-982 | a prune takes its loop-safe link off the group call of that talker and changes nothing else |
| CallRules.EndRule | src/router.rs:826-841 | a call ends for its owner, a private one for either party; its floor is free and exactly the others on it are told |
| CallRules.GoneCalls | src/state.rs:547-577 | a connection that goes ends its own calls and leaves the others |
| CallRules.GoneFloor | src/state.rs:547-577 | which frees the floors of its group calls |
| CallRules.GoneTold | src/state.rs:547-577 | and tells exactly those still on them |
| CallRules.AlarmRule | src/router.rs:43-71 | an alarm raises the group calls of its ISSI that are not emergencies yet and puts consoles and peers on them |
| CallRules.AlarmTold | src/router.rs:59-70 | exactly these are told, with the emergency priority |
| CallRules.LateOnCall | src/router.rs:872-903 | running calls of its new groups take a connection on, and change in nothing else |
| CallRules.LateTold | src/router.rs:872-903 | it is told of each of them by one header, and nobody else is told anything |
| CallRules.LateHeadersKept | src/router.rs:882-891 | on that occasion the headers of calls that are gone go, and no others |
| CallRules.JoinedRule | src/router.rs:985-993 | the groups that count are those of the ISSI the message was about, if it is registered over that link |
| CallRules.PacketsWait | src/router.rs:735-742 | what a handler leaves to be queued waits with its connection, alarms, time-outs and disconnects in the background |
| CallRules.SentRule | src/router.rs:735-742 | a packet is queued for its recipient alone, in order |
| CallRules.BackgroundRule | src/state.rs:559-577 | so in the background |
| HaElection.Election.Advance | src/ha.rs:223-311 | the method is the transition `Tick`, branch by branch, and keeps the node invariant; what `Tick` does in each case is written out in `ElectionRules` |
| HaElection.Election.AskHandover | src/ha.rs:180-190 | refused unless Active with a healthy Standby peer; otherwise Standby with a handover that runs out |
| HaElection.Election.AskActive | src/ha.rs:193-205 | refused unless Standby with a reachable peer; otherwise a request that runs out |
| HaElection.TickOk | src/ha.rs:212-311 | whatever the peer looks like, a pending handover or takeover implies Standby and hold implies Active |
| HaElection.TickKeeps | src/ha.rs:223-311 | no request outlives its time, and a tick opens none but a handover to its peer |
| HaElection.CommandsOk | src/ha.rs:173-205 | commands keep the node invariant too |
| HaCluster.MoveExclusive | src/ha.rs:223-311 | a node becomes Active only while its peer, seen as it is, is not |
| HaCluster.NeverBothActive | src/ha.rs:173-311 | no interleaving of ticks, commands, timeouts, gateway faults, crashes and restarts makes both nodes Active while ticks see the peer as it is |
| HaCluster.HealedPartition | src/ha.rs:158-162 | of two Active nodes exactly one steps down, whichever ticks first: the one that stays is the larger in (persist or hold, weight, name) |
| HaCluster.ReachablePair | src/ha.rs:164-205 | every reachable pair of running nodes, with whatever heartbeats they last heard, satisfies the starting condition of convergence; all requests run out one timeout after the last tick or command |
| HaCluster.CatchUp | src/ha.rs:212-222 | once both have ticked, in any order, each has heard what the other is |
| HaCluster.BecomesCalm | src/ha.rs:223-311 | and once both have ticked after the timeout no request is open and at most one waits |
| HaCluster.RankDrops | src/ha.rs:223-311 | then each time both have ticked, in any order, the pair is a rank nearer to settled |
| HaCluster.StableStays | src/ha.rs:223-311 | a settled pair keeps its roles for ever |
| HaCluster.Converges | src/ha.rs:223-311 | from every reachable pair, however stale the heartbeats and in whatever order the nodes tick: six rounds after the handover timeout, in each of which both tick, exactly one is Active and the roles never change again |
| ElectionRules.TickKeepsIdentity | src/ha.rs:223-311 | a tick changes neither who a node is nor how it is configured |
| ElectionRules.TickFault | src/ha.rs:223-231 | without its gateway a node is in Fault and asks for nothing |
| ElectionRules.TickAlone | src/ha.rs:238-246 | without a peer it is Active, except while it listens after boot |
| ElectionRules.TickWaits | src/ha.rs:248-257 | while a handover waits the node stays in Standby with it |
| ElectionRules.TickTakesOver | src/ha.rs:259-265 | named by the peer it is Active, and holds exactly after a manual switch |
| ElectionRules.TickBesideFault | src/ha.rs:267-272 | beside a peer in Fault it is Active |
| ElectionRules.TickBothActive | src/ha.rs:276-284 | of two Active nodes this one steps down exactly if the other is the larger in (persist or hold, weight, name) |
| ElectionRules.TickHandsOver | src/ha.rs:285-293 | an Active node hands over exactly if asked to, or if it neither persists nor holds and the other, with all data, is the larger in (weight, name) |
| ElectionRules.TickBothWaiting | src/ha.rs:295-303 | of two that wait this one becomes Active exactly if it was asked to be or is the larger in (weight, name) |
| ElectionRules.TickBesideActive | src/ha.rs:295-306 | beside an Active peer a node that is not waits |
| ElectionRules.HandoverStarts | src/ha.rs:180-190 | a handover starts exactly from Active towards a peer in Standby or Init, and runs out after five seconds |
| ElectionRules.TakeoverStarts | src/ha.rs:193-205 | a takeover is asked for exactly from Standby with a peer in sight, and runs out likewise |
| ElectionRules.PersistChanges | src/ha.rs:826-836 | changing `persist` ends a hold and nothing else |
| ElectionRules.Announced | src/ha.rs:164-170 | what a node announces |
| ElectionRules.SettlesOnTheLarger | src/ha.rs:276-306 | where `Converges` ends, an Active node that neither persists nor holds, beside a peer with all data, is the larger in (weight, name) |
| ElectionRules.LargerBootsActive | src/ha.rs:295-306 | of two nodes booted with nothing asked of them the larger in (weight, name) becomes Active, whichever ticks first, and the other waits |
| MsFlood.PositionTable.Relay | src/fedroute.rs:868-879 | a fix is queued, with our id in front, on exactly the announced links that are not its source and whose server is not on its path |
| MsFlood.PositionTable.Accept | src/fedroute.rs:894-905 | stores and passes on exactly the fixes that are real, newer and did not pass here |
| MsFlood.PositionTable.Advertise | src/fedroute.rs:907-915 | the same for a fix decoded here |
| MsFlood.PositionTable.Announced | src/fedroute.rs:983-989 | a link that announced support is queued every position its server is not on the path of, each once |
| MsFlood.NextFloodOk | src/fedroute.rs:868-915 | every step keeps: servers on a path hold a fix at least as new, and what a server holds is known at, or on its way to, the far end of each announced link |
| FloodRuns.RelaysOnce | src/fedroute.rs:892-905 | over any run a server relays a given fix at most once |
| FloodRuns.DeliveryCosts | src/fedroute.rs:894-905 | each delivery, accepted or not, uses up the potential: messages in flight plus links times fixes still lacked |
| FloodRuns.FloodEnds | src/fedroute.rs:868-905 | so no order of deliveries is longer than the potential at its start |
| FloodRuns.CanDeliver | src/fedroute.rs:894-905 | as long as anything is in flight it can be delivered |
| FloodRuns.DrainedAgree | src/fedroute.rs:868-915 | a drained connected network holds a position exactly for the ISSIs somebody decoded, everywhere the newest |
| FloodRuns.FloodConverges | src/fedroute.rs:868-915 | every drained run leaves all servers with the same newest position |
| FloodRules.AcceptRule | src/fedroute.rs:892-905 | a relayed fix is taken exactly if it is real, newer than the one held and did not pass here |
| FloodRules.StoreRule | src/fedroute.rs:894-905 | it is then what is held, with the path it came |
| FloodRules.RelayRule | src/fedroute.rs:868-878 | and goes on over exactly the announced links that are not its source, to servers it did not pass, with this server in front, up to sixteen servers |
| FloodRules.SyncRule | src/fedroute.rs:983-989 | what a link that announced support is sent |
| FloodRules.DeliverRule | src/fedroute.rs:894-905 | a delivery takes one message off its way; only an accepted one changes the receiver and flies on |
| FloodRules.LocalRule | src/fedroute.rs:907-915 | so for a fix decoded here |
| FloodRules.HelloRule | src/fedroute.rs:983-989 | an announcement sends that link the positions and changes nothing else |
| SmsQueue.SmsCenter.Store | src/sms_center.rs:177-218 | a message that is stored is appended as it came, never tried, with `expiresAt` the time to live in milliseconds from now, or the end of the clock; else the queue stays and the outcome says why: skipped, duplicate or full |
| SmsQueue.SmsCenter.TakeNextDue | src/sms_center.rs:223-241 | the oldest takeable message, first in the queue on a tie, is put in flight |
| SmsQueue.SmsCenter.Release | src/sms_center.rs:262-269 | undoes the count of an attempt that was not sent |
| SmsQueue.SmsCenter.OnReport | src/sms_center.rs:273-279 | removes the message whose attempt was acknowledged |
| SmsQueue.SmsCenter.Sweep | src/sms_center.rs:283-312 | the loop splits the freed queue into waiting, expired and failed; the revision moves exactly when the queue changed |
| SmsQueue.SmsCenter.Delete | src/sms_center.rs:314-323 | removes exactly the messages with that id and says whether there was one |
| SmsQueue.SmsCenter.DeliverPending | src/sms_center.rs:534-556 | an undisturbed delivery loop computes `Pass` for whatever world its rounds meet: presence, clock, and whether sending succeeds |
| SmsQueue.Pick | src/sms_center.rs:228-235 | the pick is a takeable message no other is older than, or there is none |
| SmsLaws.NextBounded | src/sms_center.rs:197-207 | no step exceeds the total or a per-destination limit or brings two copies of a text closer than the retransmission window, whatever the clock says |
| SmsLaws.MovesOnly | src/sms_center.rs:262-323 | every step but a store only moves letters between queue, delivered, expired, failed and deleted |
| SmsLaws.NextConserves | src/sms_center.rs:177-323 | no step loses, doubles or changes a letter |
| SmsLaws.InExactlyOnePlace | src/sms_center.rs:177-323 | hence each stored id is in exactly one of the five places |
| SmsLaws.AlwaysKept | src/sms_center.rs:177-323 | conservation, limits and spacing in every run |
| SmsAttempts.NextCapped | src/sms_center.rs:223-312 | the attempt cap holds although taking a message never tests it |
| SmsAttempts.NextAttempts | src/sms_center.rs:223-269 | a message's count is the number of its attempts not taken back |
| SmsAttempts.SweepGivesUpRightly | src/sms_center.rs:297-306 | failed messages had exactly the allowed attempts, expired ones are past their time, and an expired one survives a sweep only while a recent attempt may be reported |
| SmsAttempts.RunFromEmpty | src/sms_center.rs:223-312 | from an empty queue nothing is ever attempted more often than allowed, what waits less often, and no id is queued twice |
| SmsAttempts.ReportMeansItsOwn | src/sms_center.rs:273-279 | a report removes the message its attempt was for, or none |
| SmsAttempts.ReleaseUndoesTake | src/sms_center.rs:260-269 | take and release restore the queue but for the time of the attempt |
| SmsAttempts.DueIff | src/sms_center.rs:245-258 | `due_destinations` names exactly the destinations something can be taken for if and only if none has expired messages only |
| SmsAttempts.DueAfterSweep | src/sms_center.rs:559-582 | right after a sweep that is so |
| SmsAttempts.DueWithoutSweep | src/sms_center.rs:245-258 | without one it is not: a concrete queue |
| SmsDelivery.PassHandles | src/sms_center.rs:534-556 | in an undisturbed pass each message is tried at most once and is then under way, or was the last one and taken back; all others are untouched |
| SmsDelivery.PassLeavesNothing | src/sms_center.rs:534-556 | an undisturbed pass that was not cut off leaves nothing it could still deliver |
| SmsDelivery.PassOldestFirst | src/sms_center.rs:223-235 | after a registration an undisturbed pass goes oldest first |
| SmsDelivery.TriedAgainOnlyIfFreed | src/sms_center.rs:223-312 | whatever stores, reports, sweeps and other passes come between: a message is taken again only after its attempt was given back or its report was missing for the whole acknowledgement time |
| SmsDelivery.TakenInOrder | src/sms_center.rs:223-241 | likewise: of two messages waiting when a pass after a registration takes the first, one taken later is not older |
| SmsRules.StoreCases | src/sms_center.rs:177-200 | stored is exactly what has a payload that is not excluded and long enough, repeats none of the last minute, and has room in the queue and for its destination; else skipped, duplicate or full, in that order |
| SmsRules.RepeatsTheFirst | src/sms_center.rs:190-197 | a repeated text is answered with the first message it repeats |
| SmsRules.StoredAsGiven | src/sms_center.rs:202-217 | what is stored is the message as it came, never tried, to be kept for the configured time |
| SmsRules.TakeRule | src/sms_center.rs:223-241 | taken is the oldest message that may go, the first of equals; it is then one attempt older, in flight, and nothing else changed |
| SmsRules.ReleaseRule | src/sms_center.rs:262-269 | an attempt given back waits again, counted one less |
| SmsRules.ReportRule | src/sms_center.rs:273-279 | an acknowledged message leaves and the others keep their order |
| SmsRules.SweepRule | src/sms_center.rs:283-312 | what a sweep makes of one message: an overdue attempt is given up; past its time it expires; tried as often as allowed it fails; under way or otherwise it stays |
| SmsRules.SweepJoins | src/sms_center.rs:283-312 | and it makes that of each in turn |
| SmsRules.DeleteRule | src/sms_center.rs:314-323 | deleting takes exactly the messages with that id |
| SmsRules.DueRule | src/sms_center.rs:245-258 | due is a destination of a message that waits and was not tried lately |
| SmsRules.PassRule | src/sms_center.rs:534-556 | one round of a delivery pass: cut off without the destination, over when nothing may go, and cut off by what could not be sent |
| SmsRules.KeptForItsTime | src/sms_center.rs:202-217 | in every run nothing expires before the configured time has passed since it was stored, and nothing is taken from then on |
| HistoryLog.SplitFrames | src/store.rs:49-62 | the walk over a buffer computes `Split` |
| HistoryLog.SplitCut | src/store.rs:46-62 | of any prefix of a log just the records that fit whole are split off |
| HistoryLog.SplitLog | src/store.rs:46-62 | a log of records splits into these records |
| HistoryLog.SplitRebuilds | src/store.rs:49-62 | what was split off writes back the same bytes |
| HistoryLog.SplitJoin | src/store.rs:49-62 | splitting goes through a whole part and on |
| HistoryLog.AppendedIff | src/store.rs:95-103 | on a whole log an appended record is read back if and only if its length fits 32 bits |
| HistoryLog.AppendableIff | src/store.rs:67-86 | an opened log reads back all that is written to it if and only if it has no torn tail, as soon as two different records of fewer than 256 bytes are written: opening does not remove a tail |
| HistoryLog.LongTailLoses | src/store.rs:49-86 | behind a tail of four bytes or more every record is lost, whatever it holds, whose length is not the one the tail announces |
| HistoryLog.LongTailReadsOne | src/store.rs:49-86 | and of that length all but at most one |
| HistoryLog.ShortTailLoses | src/store.rs:49-86 | behind a tail of one to three bytes every record is lost whose length fits the bytes of its length field that are read with the tail |
| HistoryLog.ReadTakes | src/store.rs:122-146 | a read takes whole frames from its offset, and something exactly if a frame stands there and at least four bytes may be read |
| HistoryLog.ReadKeepsBoundary | src/store.rs:122-146 | reading on from a record boundary leads to one, with the records between |
| HistoryLog.Store.AppendReplicated | src/store.rs:112-120 | appends exactly when the hash is unknown and the record decodes |
| HistoryLog.Store.ReadFrames | src/store.rs:125-146 | the method computes `Read`, large records and offsets past the end included |
| HistoryLog.Store.Tail | src/ha_repl.rs:255-267 | the inner send loop ends, its chunks lie on boundaries and are never empty, and join to all complete frames |
| LogReplication.ReceiveChunk | src/ha_repl.rs:333-349 | the receive loop of a chunk |
| LogReplication.CopiedAllOk | src/store.rs:112-120 | appends exactly the records missing, keeps `known` the hashes of the log, and changes nothing if none was missing |
| LogReplication.CopiedIff | src/store.rs:105-120 | without distinct hashes a record is kept exactly if it is held already or no record held shares its hash |
| LogReplication.NextPairOk | src/ha_repl.rs:246-268 | any step of two nodes copying each other keeps: hashes match the log, and no peer record before the saved position is missing |
| LogReplication.AlwaysPairOk | src/ha_repl.rs:246-268 | so in every run |
| LogReplication.DrainedEqual | src/ha_repl.rs:333-349 | after any run that leaves both directions drained the logs hold the same records |
| LogReplication.EqualForever | src/ha_repl.rs:333-349 | from then on copying appends nothing |
| LogReplication.CopyRestGetsAll | src/ha_repl.rs:246-268 | one undisturbed pull leaves the receiver with its own records and all of the sender's |
| LogReplication.TwoPullsAgree | src/ha_repl.rs:230-268 | from any reachable pair one pull each way makes the logs equal |
| LogRules.FrameBytes | src/store.rs:95-103 | a frame is the record behind its length modulo 2^32 in four bytes, the lowest first |
| LogRules.SplitRule | src/store.rs:46-62 | one record after the other is split off as long as all its bytes are there |
| LogRules.ReadFills | src/store.rs:125-146 | a read stays within its limit, except for a single larger record, and stops only where the next record is torn or would pass the limit |
| LogRules.AppendRule | src/store.rs:89-103 | an append changes that log and nothing else |
| LogRules.ConnectRule | src/ha_repl.rs:246-249 | copying starts where the receiver has got to |
| LogRules.ServeRule | src/ha_repl.rs:255-267 | what was read next is sent, if there was anything |
| LogRules.ReceiveRule | src/ha_repl.rs:333-349 | the first chunk is copied and then counts as copied |
| LogRules.CopyRule | src/store.rs:112-120 | a record is appended exactly if it decodes and its hash is unknown |
| LogRules.CopyJoins | src/store.rs:112-120 | copying some records and then others is copying them all |
| Utf8.Clip | src/fedroute.rs:287-291 | the loop ends at the last character boundary within 64 bytes |
| Utf8.ClippedOk | src/fedroute.rs:287-291 | a clipped text is valid UTF-8, a prefix, at most 64 bytes, and at most three bytes shorter than it could be |
| FedCodec.SurvivesIff | src/fedroute.rs:324-531 | parsing a built message gives it back if and only if it fits: path of 1 to `MAX_PATH` distinct servers starting at the sender, texts of at most 64 bytes, no destination 0 |
| FedCodec.ParsesToFit | src/fedroute.rs:490-531 | whatever bytes arrive, only such messages come out |
| FedCodec.RouteRebuilt | src/fedroute.rs:502-524 | any FED_ROUTE that parses is built again byte for byte |
| FedCodec.RebuiltIff | src/fedroute.rs:490-531 | any known message is, if and only if its flag byte is 0 or 1 and a hello has three bytes |
| FedCodec.PosSurvives | src/fedroute.rs:367-408 | a position with a text of any length arrives with the text clipped |
| FedCodec.EmergencySurvives | src/fedroute.rs:324-364 | so does an alarm; destination 0 arrives as none |
| FedCodec.BtsSurvives | src/fedroute.rs:411-462 | so does a Basestation position, both texts clipped |
| WireFormat.SentIsRead | src/fedroute.rs:653-661 | in every reachable network whatever was queued on a link parses at the far end as it was meant and does not hold its id |
| VoicePacking.PackInPlace | src/protocol.rs:677-685 | setting bits one by one in a zeroed buffer gives `Pack` |
| VoicePacking.UnpackPack | src/protocol.rs:668-685 | unpacking what was packed gives every bit back, for every number of bits |
| VoicePacking.PackUnpack | src/protocol.rs:668-685 | packing what was unpacked gives every bit back and clears the rest of the last byte |
| VoicePacking.PackUnpackIff | src/protocol.rs:668-685 | hence the bytes return unchanged if and only if the pad bits were clear |
| VoicePacking.PayloadCarriesBoth | src/protocol.rs:694-728 | both subframes arrive with nothing but their seven pad bits cleared |
| VoicePacking.PayloadRestored | src/protocol.rs:694-728 | packing what was unpacked restores the payload but for header and last six bits |
| VoicePacking.PayloadLosslessIff | src/protocol.rs:694-728 | nothing is lost if and only if both pads were clear |
| CallControl.AdaptKeepsMeaning | src/protocol.rs:197-215 | a version 0 parser reads from the adapted bytes the same message without the talker's name, or the same error, and is never taken for version 1 |
| CallControl.AdaptCutsIff | src/protocol.rs:203-215 | only group transmissions and set-ups longer than the version 0 layout are cut, to a prefix, once |
| SevenBit.Decode | src/protocol.rs:330-349 | the loop yields the septets of the bit stream, zero behind its end |
| SevenBit.DecodesBack | src/protocol.rs:330-349 | whatever seven-bit text the data holds is what comes out |
| WireRules.NumbersAt | src/protocol.rs:273-283 | the numbers read off a message, as sums of bytes |
| WireRules.RouteBytes | src/fedroute.rs:477-524 | where clock, path and groups stand in a FED_ROUTE, and its tag |
| WireRules.ShortBytes | src/fedroute.rs:464-531 | tags and fields of withdrawals, prunes and hellos |
| WireRules.PosBytes | src/fedroute.rs:367-408 | the fields of a position |
| WireRules.EmergencyBytes | src/fedroute.rs:324-364 | those of an alarm |
| WireRules.BtsBytes | src/fedroute.rs:411-462 | those of a Basestation position |
| WireRules.FixedParts | src/fedroute.rs:490-530 | a message is refused as too short exactly below the fixed part of its kind; a hello without version is of version 1 |
| WireRules.UnknownBytes | src/fedroute.rs:525-530 | any other tag is passed over |
| WireRules.GroupTxBytes | src/protocol.rs:422-449 | offsets of the fields of a group transmission, and of the name in version 1 |
| WireRules.CircularBytes | src/protocol.rs:450-489 | those of a set-up to one subscriber and of what may follow it |
| WireRules.OtherBytes | src/protocol.rs:490-507 | all other kinds carry what stands behind the first 18 bytes |
| WireRules.TooShortBytes | src/protocol.rs:410-507 | what is shorter than its fields is refused |
| WireRules.AdaptedBytes | src/protocol.rs:197-215 | a version 0 connection gets group transmissions and set-ups cut to their old length, all else as it is |
| BitRules.PayloadBits | src/protocol.rs:694-707 | a payload bit by bit: an empty byte, 137 bits of the first subframe, 137 of the second, six empty bits, the highest bit of a byte first |
| BitRules.SubframeBits | src/protocol.rs:715-728 | and back: each subframe is its 137 bits of the payload and seven empty ones |
| BitRules.CharacterBits | src/protocol.rs:330-349 | each character is the seven bits of the data at its place, the lowest first |
| Utf8Rules.ValidIff | src/fedroute.rs:287-291 | a text counts as valid exactly if it is the UTF-8 form of some sequence of characters (RFC 3629, section 3) |

## Left out

- TableInvariant.AlwaysFixpoint: for runs whose times stay a day below the end of the 64-bit clock; what happens at its end is `SaturatedTickCanLose`.
- Agreement.QuietRunsAgree: about networks once quiet; that they become quiet is `FairRuns.FairDeliveriesEnd`, for links that keep delivering. A link's two ends are attached and joined by separate steps, and deliveries are honest, at most a day ahead of the receiver's clock.
- FairRuns.FairDeliveriesEnd: the bound counts phases, not messages; which starved links let deliveries go on for ever is shown by one family of runs, not characterised.
- FairRuns.OneRegistration: for networks at most `MAX_PATH` hops across; in a wider one servers out of reach may keep a registration of their own.
- CallRuns.RunHeaderFirst: for runs without the race of an alarm; the general claim is false of the program, and `RunHeaderFirstIff` and `FrameOrder.FramesHeardIff` are the exact ones.
- EndOrder.CleanEndsIff: for runs in which no ended call's uuid is set up anew.
- LegacyNews.NewsReaches: for an ISSI none of whose registrations ran over the peer, and below the end of the peer's clock, where a tick adds nothing.
- HaCluster.Converges: without further commands and gateway faults; names are numbers in their order, and times do not overflow.
- FloodRuns.FloodConverges: for networks whose links and servers stay, at most `MAX_PATH` servers; a position is opaque bits that are a real fix or not.
- LogReplication.DrainedEqual: takes record hashes as distinct for the records ever written; `CopiedIff` says what a collision does. FNV-1a, bincode and the saved cursor file are not part of this model; whether a body decodes is a parameter.
- SmsQueue.SmsCenter.TakeNextDue: the attempt count is a natural number; with no cap the program's 32-bit count could overflow.
- SmsQueue.SmsCenter.DeliverPending: as a loop, for a pass nothing disturbs. With other operations between its rounds a pass is a run of single takes and releases: for those `SmsLaws`, `SmsAttempts` and `SmsDelivery.TriedAgainOnlyIfFreed` and `TakenInOrder` hold.
- SMS Center: loading and importing the queue file, the known-ISSI filter, status reports and text previews.
- Calls: whether a packet is a duplicate and whether a call is an emergency are inputs of the step; the memory of recent calls is not part of this model. Private-call signalling other than its effect on `calls`, call duration and idle sweeps, and SDS routing are left out.
- Queues: registration traffic and call traffic of a connection are two histories, as no claim relates them.
- The SIP bridge writes `group_clients`, `calls` and `group_floor` directly and breaks their invariants; it is not part of this model, nor are transcoding, telemetry and the blacklist.
- Basestation positions and emergency alarms flood by the same rules but are purged by time; only their bytes are modelled.
- The decoded talker name: `CallControl` keeps the bytes of the field; `SevenBit` decodes one of its codings, the 8-bit ones are left out.
- Sockets, TLS, discovery, authentication, keepalive, the dashboard and configuration; the virtual IP address and restarts of the process.
- Memory and disk errors, and writes that fail half way other than the torn tail they leave.
