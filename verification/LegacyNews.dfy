/** What a legacy server makes of the SUB messages it is sent: every new
    registration becomes its newest entry, so those behind it hear of it too. */
module LegacyNews {
  import opened FedTypes
  import opened RouteTable
  import opened TableInvariant
  import opened Propagation
  import opened Federation
  import opened RouteRules

  /** `r` after the SUB messages `ms` came in from `src`, each at its time. */
  ghost function Received(r: Table, src: ClientId, ms: seq<Msg>, times: seq<u64>): Table
    requires |ms| == |times|
    decreases |ms|
  {
    if ms == [] then r
    else
      var (m, last) := (ms[|ms| - 1], |ms| - 1);
      var r1 := Received(r, src, ms[..last], times[..last]);
      if m.SubMsg? then OnSub(r1, src, m.kind, m.issi, m.groups, times[last]) else r1
  }

  predicate IsSub(m: Msg, kind: SubKind, issi: Issi) {
    m.SubMsg? && m.kind == kind && m.issi == issi
  }

  /** `issi` is `src`'s, registered later than `at`. */
  ghost predicate NewerThan(r: Table, src: ClientId, issi: Issi, at: u64) {
    issi in r.subs && r.subs[issi].client == src && at < r.subs[issi].route.reg <= r.clock
  }

  /** One message: the clock does not go back, a registration beats it, and only a
      deregistration takes it away. */
  lemma OneReceived(r: Table, src: ClientId, m: Msg, now: u64, issi: Issi, at: u64)
    requires src !in r.links && m.SubMsg?
    ensures var r' := OnSub(r, src, m.kind, m.issi, m.groups, now);
      && r'.links == r.links && r'.clock >= r.clock
      && (IsSub(m, Register, issi) && r'.clock < U64_MAX && at <= r.clock ==> NewerThan(r', src, issi, at))
      && (!IsSub(m, Deregister, issi) && NewerThan(r, src, issi, at) && r'.clock < U64_MAX ==>
            NewerThan(r', src, issi, at))
  {
    hide OnSub, Rerouted, Published;
    var (kind, groups) := (m.kind, m.groups);
    SubLinks(r, src, m, now);
    match kind
    case Register => RegisterRule(r, src, kind, m.issi, groups, now);
    case Reregister => RegisterRule(r, src, kind, m.issi, groups, now);
    case Affiliate => AffiliateRule(r, src, m.issi, groups, now);
    case Deaffiliate => DeaffiliateRule(r, src, m.issi, groups, now);
    case Deregister =>
      DeregisterRule(r, src, m.issi, groups, now);
      assert m.issi != issi ==> Get(OnSub(r, src, kind, m.issi, groups, now).subs, issi) == Get(r.subs, issi);
    case UnknownKind => UnknownRule(r, src, m.issi, groups, now);
  }

  lemma SubLinks(r: Table, src: ClientId, m: Msg, now: u64)
    requires m.SubMsg?
    ensures OnSub(r, src, m.kind, m.issi, m.groups, now).links == r.links
  {
  }

  lemma {:induction false} AllReceived(r: Table, src: ClientId, ms: seq<Msg>, times: seq<u64>, issi: Issi)
    requires |ms| == |times| && src !in r.links
    requires forall m :: m in ms ==> !IsSub(m, Deregister, issi)
    ensures var r' := Received(r, src, ms, times);
      && r'.links == r.links && r'.clock >= r.clock
      && ((exists m :: m in ms && IsSub(m, Register, issi)) && r'.clock < U64_MAX ==> NewerThan(r', src, issi, r.clock))
    decreases |ms|
  {
    hide OnSub;
    if ms != [] {
      var (m, last) := (ms[|ms| - 1], |ms| - 1);
      var r1 := Received(r, src, ms[..last], times[..last]);
      AllReceived(r, src, ms[..last], times[..last], issi);
      if m.SubMsg? { OneReceived(r1, src, m, times[last], issi, r.clock); }
      if exists x :: x in ms && IsSub(x, Register, issi) {
        var x :| x in ms && IsSub(x, Register, issi);
        assert x == m || x in ms[..last];
      }
    }
  }

  /** What the peer is told of a change of the registration. */
  lemma ToldOfChange(t: Table, e: Event, l: ClientId, issi: Issi)
    requires TableOk(t) && Enabled(t, e) && IsPeer(t, l) && IsPeer(Next(t, e), l) && l !in t.links && l in t.sent
    requires NotOwner(t, l, issi) && NotOwner(Next(t, e), l, issi)
    requires Renewed(Get(t.subs, issi), Get(Next(t, e).subs, issi))
    ensures var t' := Next(t, e);
      && l in t'.sent && t.sent[l] <= t'.sent[l]
      && var ms := t'.sent[l][|t.sent[l]|..];
      && (exists m :: m in ms && IsSub(m, Register, issi))
      && forall m :: m in ms ==> !IsSub(m, Deregister, issi)
  {
    hide EntryOk, Next, About, LegacyUpdates, Parts;
    var t' := Next(t, e);
    NextTellsDifference(t, e, l, issi);
    SentGrows(t, e, l);
    var ms := t'.sent[l][|t.sent[l]|..];
    assert t'.sent[l] == t.sent[l] + ms;
    AboutConcat(t.sent[l], ms, issi);
    var (prev, now) := (Get(t.subs, issi), Get(t'.subs, issi));
    assert About(t'.sent[l], issi)[|About(t.sent[l], issi)|..] == About(ms, issi) == Delta(t, t', l, issi);
    LegacyShape(issi, prev, now, l);
    NotTheSame(prev, now);
    RegistersOnly(About(ms, issi), issi, prev, now, l);
    forall m | m in ms ensures !IsSub(m, Deregister, issi) { AboutMember(ms, m); }
    var m :| m in About(ms, issi) && IsSub(m, Register, issi);
    AboutMember(ms, m);
  }

  lemma NotTheSame(prev: Option<Subscriber>, now: Option<Subscriber>)
    requires Renewed(prev, now)
    ensures !Same(prev, now)
  {
  }

  lemma RegistersOnly(ms: seq<Msg>, issi: Issi, prev: Option<Subscriber>, now: Option<Subscriber>, l: ClientId)
    requires Renewed(prev, now)
    requires var (had, has) := (if prev.Some? then prev.value.groups else {}, now.value.groups);
      ms == Parts(issi, true, has, had - has, false)
    ensures exists m :: m in ms && IsSub(m, Register, issi)
    ensures forall m :: m in ms ==> !IsSub(m, Deregister, issi)
  {
    hide Sorted;
    assert ms[0] == SubMsg(Register, issi, []) && ms[0] in ms;
  }

  /** In every run, below saturation: each time the registration of an ISSI the
      peer does not own changes here, what the peer is sent makes it the peer's
      newest entry, later than its clock and its entry before. */
  lemma NewsReaches(selfId: ServerId, es: seq<Event>, latest: nat, l: ClientId, issi: Issi,
                    r: Table, src: ClientId, times: seq<u64>)
    requires ValidRun(selfId, es) && TimelyRun(es, latest) && es != []
    requires var (t, t') := (Run(selfId, es[..|es| - 1]), Run(selfId, es));
      && IsPeer(t, l) && IsPeer(t', l) && l !in t.links && NotOwner(t, l, issi) && NotOwner(t', l, issi)
      && issi in t'.subs && (issi in t.subs ==> t.subs[issi].route.reg != t'.subs[issi].route.reg)
    requires src !in r.links && EntryOk(r, issi)
    ensures var (t, t') := (Run(selfId, es[..|es| - 1]), Run(selfId, es));
      && l in t.sent && l in t'.sent && t.sent[l] <= t'.sent[l]
      && var ms := t'.sent[l][|t.sent[l]|..];
      && (|times| == |ms| && Received(r, src, ms, times).clock < U64_MAX ==>
            var r' := Received(r, src, ms, times);
            && issi in r'.subs && r'.subs[issi].client == src && r'.subs[issi].route.reg > r.clock
            && (issi in r.subs ==> r'.subs[issi].route.reg > r.subs[issi].route.reg))
  {
    hide EntryOk, Next, Received;
    var (init, e) := (es[..|es| - 1], es[|es| - 1]);
    var t := Run(selfId, init);
    AlwaysFixpoint(selfId, init, latest) by { TimelyInit(es, latest); }
    ToldOfChange(t, e, l, issi);
    var ms := Run(selfId, es).sent[l][|t.sent[l]|..];
    if |times| == |ms| { AllReceived(r, src, ms, times, issi); }
    if issi in r.subs { EntryMeaning(r, issi); }
  }

  lemma TimelyInit(es: seq<Event>, latest: nat)
    requires TimelyRun(es, latest) && es != []
    ensures TimelyRun(es[..|es| - 1], latest)
  {
  }
}
