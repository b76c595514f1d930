/** The routing protocol over its real bytes: in every reachable network,
    whatever is on a link is parsed at the far end as it was meant. */
module WireFormat {
  import opened FedTypes
  import opened Federation
  import Codec = FedCodec

  function Written(m: Msg): Codec.FedMessage
    requires !m.SubMsg?
  {
    match m
    case FedRoute(issi, advert) => Codec.RouteTo(issi, advert)
    case FedWithdraw(issi) => Codec.Withdraw(issi)
  }

  /** Nothing a server ever queued for a neighbour is refused by its parser or
      holds its id, and the message it reads is the one that was sent. */
  lemma SentIsRead(ids: set<ServerId>, nets: seq<Net>, es: seq<NetEvent>, k: nat, end: End, m: Msg)
    requires NetRun(ids, nets, es) && k <= |es| && end in nets[k].wires
    requires var w := nets[k].wires[end];
      w.from in nets[k].servers && w.link in nets[k].servers[w.from].sent && m in nets[k].servers[w.from].sent[w.link]
    ensures !m.SubMsg?
    ensures Codec.Parse(Codec.Build(Written(m)), nets[k].wires[end].from) == Codec.Ok(Written(m))
    ensures m.FedRoute? ==> end.server !in m.advert.path
  {
    hide Codec.Parse, Codec.Build, ServerOk, NetStep;
    NetAlwaysOk(ids, nets, es, k);
    assert WireOk(nets[k], end);
    Codec.SurvivesIff(Written(m), nets[k].wires[end].from);
  }
}
