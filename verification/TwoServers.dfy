/** The smallest federation at work: a run of two servers that ends quiet, with
    a radio of the one routed at the other. The claims of `Agreement` speak of
    such runs. */
module TwoServers {
  import opened FedTypes
  import opened RouteSelection
  import opened RouteTable
  import opened TableInvariant
  import opened Federation
  import opened Agreement

  /** What server 2 hears of ISSI 7, registered at server 1 at time 5. */
  const Heard := Advert(5, [1], [])

  /** Server 1 once linked to server 2, and with a Basestation. */
  const Linked1 := Table(1, 0, map[10 := Peer], map[10 := 2], map[], map[], map[10 := []])
  const Based1 := Linked1.(clients := map[10 := Peer, 11 := Basestation], sent := map[10 := [], 11 := []])
  const Serving1 := Based1.(clock := 5, subs := map[7 := Subscriber(11, {}, Basestation, Route(5, []))],
                            sent := map[10 := [FedRoute(7, Heard)], 11 := []])

  const Linked2 := Table(2, 0, map[20 := Peer], map[20 := 1], map[], map[], map[20 := []])
  const Serving2 := Linked2.(clock := 5, subs := map[7 := FromAdvert(20, Heard)], rib := map[7 := map[20 := Heard]],
                             sent := map[20 := [FedWithdraw(7)]])

  const End1 := End(1, 10)
  const End2 := End(2, 20)

  function NetOf(t1: Table, t2: Table, wires: map<End, Wire>): Net {
    Net(map[1 := t1, 2 := t2], wires)
  }

  function Wires(taken1: nat, taken2: nat): map<End, Wire> {
    map[End1 := Wire(2, 20, taken1), End2 := Wire(1, 10, taken2)]
  }

  const Agreed: Net := NetOf(Serving1, Serving2, Wires(1, 1))

  lemma LinkUps()
    ensures Attach(Initial(1), 10, Peer, Some(2)) == Linked1
    ensures Attach(Initial(2), 20, Peer, Some(1)) == Linked2
    ensures Attach(Linked1, 11, Basestation, None) == Based1
  {
    var t1 := Attach(Initial(1), 10, Peer, Some(2));
    var t2 := Attach(Initial(2), 20, Peer, Some(1));
    assert t1.subs.Keys == {} && t2.subs.Keys == {};
    assert Sorted({}) == [];
    assert t1.sent == map[10 := []] && t2.sent == map[20 := []];
  }

  lemma Registers()
    ensures OnSub(Based1, 11, Register, 7, [], 5) == Serving1
  {
    var t := OnSub(Based1, 11, Register, 7, [], 5);
    assert Sorted({}) == [];
    var s := Some(Subscriber(11, {}, Basestation, Route(5, [])));
    assert [1] + [] == [1];
    assert OfferFor(1, 10, 2, s) == Some(Heard);
    assert UpdatesTo(1, Based1.links, 10, 7, None, s) == [FedRoute(7, Heard)];
    assert t.sent[10] == [] + [FedRoute(7, Heard)] == [FedRoute(7, Heard)] && t.sent[11] == [];
    assert t.sent == Serving1.sent;
  }

  /** Server 2 with the offer in hand, before it selects. */
  const Offered2 := Linked2.(clock := 5, rib := map[7 := map[20 := Heard]])

  lemma Selects()
    ensures Rerouted(Offered2, 7) == Serving2.(sent := Linked2.sent)
  {
    var cands := OffersOf(Offered2.rib, 7);
    assert IsNewest(cands, 20) && IsClosest(Offered2.links, cands, 20, 1);
    assert IsChoice(2, None, Offered2.links, cands, Remote(20));
    ChoiceUnique(2, None, Offered2.links, cands, Remote(20), Chosen(Offered2, 7));
    assert Rerouted(Offered2, 7).subs == Serving2.subs;
  }

  lemma Learns()
    ensures OnRoute(Linked2, 20, 7, Heard, 5) == Serving2
  {
    hide Rerouted;
    Selects();
    var (t, r) := (TakeOffer(Linked2, 20, 7, Heard, 5), Serving2.(sent := Linked2.sent));
    assert t == Offered2;
    assert UpdatesTo(2, r.links, 20, 7, None, Get(r.subs, 7)) == [FedWithdraw(7)];
    assert Published(r, 7, None).sent[20] == [] + [FedWithdraw(7)] == [FedWithdraw(7)];
    assert Published(r, 7, None).sent == Serving2.sent;
  }

  lemma Ignores()
    ensures OnWithdraw(Serving1, 10, 7) == Serving1
  {
  }

  lemma QuietAgreed()
    ensures Quiet(Agreed)
  {
    forall s, l | s in Agreed.servers && l in Agreed.servers[s].links ensures QuietEnd(Agreed, s, l) {
      assert End(s, l) == End1 || End(s, l) == End2;
    }
  }

  /** Both links come up and are joined. */
  lemma JoinSteps()
    ensures NetStep(Isolated({1, 2}), AtServer(1, LinkUp(10, Peer, Some(2))), NetOf(Linked1, Initial(2), map[]))
    ensures NetStep(NetOf(Linked1, Initial(2), map[]), AtServer(2, LinkUp(20, Peer, Some(1))),
                    NetOf(Linked1, Linked2, map[]))
    ensures NetStep(NetOf(Linked1, Linked2, map[]), Connect(End1, End2),
                    NetOf(Linked1, Linked2, map[End1 := Wire(2, 20, 0)]))
    ensures NetStep(NetOf(Linked1, Linked2, map[End1 := Wire(2, 20, 0)]), Connect(End2, End1),
                    NetOf(Linked1, Linked2, Wires(0, 0)))
  {
    hide Attach;
    LinkUps();
    assert Isolated({1, 2}).servers == map[1 := Initial(1), 2 := Initial(2)];
  }

  lemma RegisterSteps()
    ensures NetStep(NetOf(Linked1, Linked2, Wires(0, 0)), AtServer(1, LinkUp(11, Basestation, None)),
                    NetOf(Based1, Linked2, Wires(0, 0)))
    ensures NetStep(NetOf(Based1, Linked2, Wires(0, 0)), AtServer(1, SubIn(11, Register, 7, [], 5)),
                    NetOf(Serving1, Linked2, Wires(0, 0)))
  {
    hide Attach, OnSub;
    LinkUps();
    Registers();
  }

  lemma LearnStep()
    ensures NetStep(NetOf(Serving1, Linked2, Wires(0, 0)), Deliver(End2, 5), NetOf(Serving1, Serving2, Wires(0, 1)))
  {
    hide OnRoute;
    Learns();
  }

  lemma AnswerStep()
    ensures NetStep(NetOf(Serving1, Serving2, Wires(0, 1)), Deliver(End1, 5), Agreed)
  {
    hide OnWithdraw;
    Ignores();
  }

  lemma EndRoutes()
    ensures EntryAt(Agreed, 1, 7) == Get(Serving1.subs, 7) && EntryAt(Agreed, 2, 7) == Some(FromAdvert(20, Heard))
  {
  }

  lemma EightSteps(ids: set<ServerId>, nets: seq<Net>, es: seq<NetEvent>)
    requires |nets| == 9 && |es| == 8 && nets[0] == Isolated(ids)
    requires NetStep(nets[0], es[0], nets[1]) && NetStep(nets[1], es[1], nets[2]) && NetStep(nets[2], es[2], nets[3])
    requires NetStep(nets[3], es[3], nets[4]) && NetStep(nets[4], es[4], nets[5]) && NetStep(nets[5], es[5], nets[6])
    requires NetStep(nets[6], es[6], nets[7]) && NetStep(nets[7], es[7], nets[8])
    ensures NetRun(ids, nets, es)
  {
    hide NetStep, Isolated;
  }

  lemma EightNets() returns (nets: seq<Net>, es: seq<NetEvent>)
    ensures NetRun({1, 2}, nets, es) && |es| == 8 && |nets| == 9 && nets[8] == Agreed
  {
    hide NetStep, NetRun, Isolated, NetOf, Wires, Initial;
    JoinSteps();
    RegisterSteps();
    LearnStep();
    AnswerStep();
    es := [AtServer(1, LinkUp(10, Peer, Some(2))), AtServer(2, LinkUp(20, Peer, Some(1))),
           Connect(End1, End2), Connect(End2, End1),
           AtServer(1, LinkUp(11, Basestation, None)), AtServer(1, SubIn(11, Register, 7, [], 5)),
           Deliver(End2, 5), Deliver(End1, 5)];
    nets := [Isolated({1, 2}), NetOf(Linked1, Initial(2), map[]), NetOf(Linked1, Linked2, map[]),
             NetOf(Linked1, Linked2, map[End1 := Wire(2, 20, 0)]), NetOf(Linked1, Linked2, Wires(0, 0)),
             NetOf(Based1, Linked2, Wires(0, 0)), NetOf(Serving1, Linked2, Wires(0, 0)),
             NetOf(Serving1, Serving2, Wires(0, 1)), Agreed];
    EightSteps({1, 2}, nets, es);
  }

  /** There is a run that ends quiet with the registration of server 1 routed at
      server 2 over one hop. */
  lemma TwoServersAgree()
    ensures exists nets: seq<Net>, es: seq<NetEvent> ::
      NetRun({1, 2}, nets, es) && Quiet(nets[|es|])
      && EntryAt(nets[|es|], 1, 7) == Get(Serving1.subs, 7) && EntryAt(nets[|es|], 2, 7) == Some(FromAdvert(20, Heard))
  {
    hide NetStep, Isolated, Quiet, NetOf, EntryAt, Get, FromAdvert;
    var nets, es := EightNets();
    QuietAgreed();
    EndRoutes();
  }
}
