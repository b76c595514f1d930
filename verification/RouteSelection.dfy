/** Choosing the effective route of one ISSI (`fedroute::select`). */
module RouteSelection {
  import opened FedTypes

  type Offers = map<ClientId, Advert>

  datatype Choice = Local | Remote(link: ClientId) | Unreachable

  function Origin(a: Advert): ServerId
    requires a.path != []
  {
    a.path[|a.path| - 1]
  }

  /** Registration order: the newer clock wins, a tie goes to the higher server id. */
  predicate Older(reg: u64, origin: ServerId, reg': u64, origin': ServerId) {
    reg < reg' || (reg == reg' && origin < origin')
  }

  /** `l` carries the newest registration on offer. */
  ghost predicate IsNewest(cands: Offers, l: ClientId) {
    && l in cands && cands[l].path != []
    && forall k :: k in cands && cands[k].path != [] ==>
         !Older(cands[l].reg, Origin(cands[l]), cands[k].reg, Origin(cands[k]))
  }

  function NeighbourOf(links: map<ClientId, ServerId>, l: ClientId): ServerId {
    if l in links then links[l] else U64_MAX
  }

  /** Shorter path, then lower neighbour id, then lower link. */
  predicate Closer(links: map<ClientId, ServerId>, cands: Offers, a: ClientId, b: ClientId)
    requires a in cands && b in cands
  {
    var (la, lb) := (|cands[a].path|, |cands[b].path|);
    var (na, nb) := (NeighbourOf(links, a), NeighbourOf(links, b));
    la < lb || (la == lb && (na < nb || (na == nb && a < b)))
  }

  predicate FromOrigin(cands: Offers, l: ClientId, origin: ServerId) {
    l in cands && cands[l].path != [] && Origin(cands[l]) == origin
  }

  ghost predicate IsClosest(links: map<ClientId, ServerId>, cands: Offers, l: ClientId, origin: ServerId) {
    && FromOrigin(cands, l, origin)
    && forall k :: FromOrigin(cands, k, origin) ==> !Closer(links, cands, k, l)
  }

  ghost predicate LocalWins(selfId: ServerId, local: Option<u64>, cands: Offers) {
    local.Some? && forall k :: k in cands && cands[k].path != [] ==>
      !Older(local.value, selfId, cands[k].reg, Origin(cands[k]))
  }

  /** What `select` promises, stated without an algorithm. */
  ghost predicate IsChoice(selfId: ServerId, local: Option<u64>, links: map<ClientId, ServerId>, cands: Offers,
                           c: Choice) {
    match c
    case Local => LocalWins(selfId, local, cands)
    case Remote(l) =>
      && !LocalWins(selfId, local, cands)
      && exists w :: IsNewest(cands, w) && IsClosest(links, cands, l, Origin(cands[w]))
    case Unreachable =>
      local.None? && forall k :: k in cands ==> cands[k].path == []
  }

  /** The rule decides every case in exactly one way. */
  lemma ChoiceUnique(selfId: ServerId, local: Option<u64>, links: map<ClientId, ServerId>, cands: Offers, c: Choice,
                     d: Choice)
    requires IsChoice(selfId, local, links, cands, c) && IsChoice(selfId, local, links, cands, d)
    ensures c == d
  {
    if c.Remote? && d.Remote? {
      var w :| IsNewest(cands, w) && IsClosest(links, cands, c.link, Origin(cands[w]));
      var v :| IsNewest(cands, v) && IsClosest(links, cands, d.link, Origin(cands[v]));
      assert Origin(cands[w]) == Origin(cands[v]);
      assert !Closer(links, cands, c.link, d.link) && !Closer(links, cands, d.link, c.link);
    }
  }

  /** The algorithm: one pass for the newest origin, one for the closest offer from it. */
  method PickRoute(selfId: ServerId, local: Option<u64>, links: map<ClientId, ServerId>,
                   cands: Offers) returns (c: Choice)
    ensures IsChoice(selfId, local, links, cands, c)
  {
    var todo := cands.Keys;
    var newest: Option<ClientId> := None;
    while todo != {}
      invariant todo <= cands.Keys
      invariant newest.Some? ==> newest.value in cands && cands[newest.value].path != []
      invariant newest.None? ==> forall k :: k in cands.Keys - todo ==> cands[k].path == []
      invariant newest.Some? ==> forall k :: k in cands.Keys - todo && cands[k].path != [] ==>
        !Older(cands[newest.value].reg, Origin(cands[newest.value]), cands[k].reg, Origin(cands[k]))
    {
      var k :| k in todo;
      todo := todo - {k};
      if cands[k].path != [] {
        if newest.None? || Older(cands[newest.value].reg, Origin(cands[newest.value]), cands[k].reg, Origin(cands[k])) {
          newest := Some(k);
        }
      }
    }
    if newest.None? {
      return if local.Some? then Local else Unreachable;
    }
    var w := newest.value;
    var origin := Origin(cands[w]);
    if local.Some? && !Older(local.value, selfId, cands[w].reg, origin) {
      return Local;
    }
    assert IsNewest(cands, w);
    todo := cands.Keys;
    var best := w;
    while todo != {}
      invariant todo <= cands.Keys
      invariant FromOrigin(cands, best, origin)
      invariant forall k :: k in cands.Keys - todo && FromOrigin(cands, k, origin) ==> !Closer(links, cands, k, best)
    {
      var k :| k in todo;
      todo := todo - {k};
      if FromOrigin(cands, k, origin) && Closer(links, cands, k, best) {
        best := k;
      }
    }
    assert IsClosest(links, cands, best, origin);
    c := Remote(best);
  }

  lemma NewestExists(cands: Offers) returns (w: ClientId)
    requires exists k :: k in cands && cands[k].path != []
    ensures IsNewest(cands, w)
  {
    var k :| k in cands && cands[k].path != [];
    var rest := cands - {k};
    if j :| j in rest && rest[j].path != [] {
      w := NewestExists(rest);
      if Older(cands[w].reg, Origin(cands[w]), cands[k].reg, Origin(cands[k])) {
        w := k;
      }
      assert forall j :: j in cands ==> j == k || (j in rest && rest[j] == cands[j]);
    } else {
      w := k;
      assert forall j :: j in cands ==> j == k || (j in rest && rest[j] == cands[j]);
    }
  }

  lemma ClosestExists(links: map<ClientId, ServerId>, cands: Offers, origin: ServerId) returns (l: ClientId)
    requires exists k :: FromOrigin(cands, k, origin)
    ensures IsClosest(links, cands, l, origin)
  {
    var k :| FromOrigin(cands, k, origin);
    var rest := cands - {k};
    if j :| FromOrigin(rest, j, origin) {
      l := ClosestExists(links, rest, origin);
      if Closer(links, cands, k, l) {
        l := k;
      }
      forall j | FromOrigin(cands, j, origin)
        ensures !Closer(links, cands, j, l)
      {
        if j != k {
          assert FromOrigin(rest, j, origin);
        }
      }
    } else {
      l := k;
      assert forall j :: FromOrigin(cands, j, origin) ==> j == k || FromOrigin(rest, j, origin);
    }
  }

  lemma ChoiceExists(selfId: ServerId, local: Option<u64>, links: map<ClientId, ServerId>, cands: Offers)
    ensures exists c :: IsChoice(selfId, local, links, cands, c)
  {
    if LocalWins(selfId, local, cands) {
      assert IsChoice(selfId, local, links, cands, Local);
    } else if k :| k in cands && cands[k].path != [] {
      var w := NewestExists(cands);
      assert FromOrigin(cands, w, Origin(cands[w]));
      var l := ClosestExists(links, cands, Origin(cands[w]));
      assert IsChoice(selfId, local, links, cands, Remote(l));
    } else {
      assert IsChoice(selfId, local, links, cands, Unreachable);
    }
  }

  /** The choice as a function, for use in specifications. */
  ghost function Select(selfId: ServerId, local: Option<u64>, links: map<ClientId, ServerId>,
                        cands: Offers): (c: Choice)
    ensures IsChoice(selfId, local, links, cands, c)
  {
    ChoiceExists(selfId, local, links, cands);
    var c :| IsChoice(selfId, local, links, cands, c);
    c
  }

  /** No re-registration moves the next hop: offers of one origin compete by
      length only, whatever their clocks. */
  lemma NextHopIgnoresClock(selfId: ServerId, local: Option<u64>, links: map<ClientId, ServerId>, cands: Offers,
                            l: ClientId)
    requires Select(selfId, local, links, cands) == Remote(l)
    ensures forall k :: FromOrigin(cands, k, Origin(cands[l])) ==> |cands[l].path| <= |cands[k].path|
  {
    var w :| IsNewest(cands, w) && IsClosest(links, cands, l, Origin(cands[w]));
    forall k | FromOrigin(cands, k, Origin(cands[l]))
      ensures |cands[l].path| <= |cands[k].path|
    {
      assert !Closer(links, cands, k, l);
    }
  }
}
