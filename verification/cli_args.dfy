/** `get_cli_args`: the argument vector a node process is started with. */
module CliArgs {
  import opened Wrappers

  /** A peer: node identity and the network address it is reachable at. */
  datatype NodeAddr = NodeAddr(id: string, address: string)

  /** The serializer that turns the peer list into one argument
      (`config::encode_with_serializer` with a JSON serializer); it is a
      parameter of the model, since its definition is not part of it. */
  type PeerEncoder = seq<NodeAddr> -> string

  /** The matching deserializer a node applies to that argument. */
  type PeerDecoder = string -> Option<seq<NodeAddr>>

  const GossipStaticOutboundFlag: string := "--add-gossip-static-outbound"

  /** A seed node gets no arguments at all; any other node gets the flag
      followed by the encoded peer list, in input order. */
  function GetCliArgs(peers: seq<NodeAddr>, encode: PeerEncoder): (args: seq<string>)
    ensures |args| == 0 <==> |peers| == 0
    ensures |peers| > 0 ==> |args| == 2
    ensures |peers| > 0 ==> args[0] == GossipStaticOutboundFlag && args[1] == encode(peers)
  {
    if |peers| == 0 then [] else [GossipStaticOutboundFlag, encode(peers)]
  }

  /** The node side: an empty vector means "no peers"; the flag and one
      payload mean the decoded list; anything else is rejected. */
  function ParseCliArgs(args: seq<string>, decode: PeerDecoder): (r: Option<seq<NodeAddr>>)
    ensures r.Some? && |args| > 0 ==> args[0] == GossipStaticOutboundFlag
  {
    if |args| == 0 then Some([])
    else if |args| == 2 && args[0] == GossipStaticOutboundFlag then decode(args[1])
    else None
  }

  /** The decoder inverts the encoder on every non-empty peer list. */
  ghost predicate RoundTrips(encode: PeerEncoder, decode: PeerDecoder)
  {
    forall ps :: |ps| > 0 ==> decode(encode(ps)) == Some(ps)
  }

  /** Whenever the serializer round-trips, a node recovers exactly the peer
      list, in order, from the arguments it was started with. */
  lemma CliArgsRoundTrip(peers: seq<NodeAddr>, encode: PeerEncoder, decode: PeerDecoder)
    requires RoundTrips(encode, decode)
    ensures ParseCliArgs(GetCliArgs(peers, encode), decode) == Some(peers)
  {
  }

  /** Distinct peer lists give distinct argument vectors under a
      round-tripping serializer, so the peer order is preserved. */
  lemma CliArgsInjective(p: seq<NodeAddr>, q: seq<NodeAddr>, encode: PeerEncoder, decode: PeerDecoder)
    requires RoundTrips(encode, decode)
    ensures GetCliArgs(p, encode) == GetCliArgs(q, encode) <==> p == q
  {
  }
}
