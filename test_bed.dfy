/**
 * The state the ACL test case keeps between calls: its packet-generator
 * interfaces, which interface sends to which (`flows`), and the hosts created
 * behind each interface (`hosts_by_pg_idx`); with `create_hosts`, which appends
 * hosts to those lists, and `create_stream`, which builds a packet for every
 * (destination host, source host) pair of a flow.
 */
module TestBed {
  import opened AclRules
  import opened Hosts
  import opened Traffic

  /** The host lists of the given interfaces, in their order. */
  function HostLists(m: map<nat, seq<Host>>, ifs: seq<nat>): (ls: seq<seq<Host>>)
    requires forall t :: 0 <= t < |ifs| ==> ifs[t] in m
    ensures |ls| == |ifs| && forall t :: 0 <= t < |ifs| ==> ls[t] == m[ifs[t]]
  {
    seq(|ifs|, t requires 0 <= t < |ifs| => m[ifs[t]])
  }

  /** Packet n goes from the src of pair n to its dst and fits the stream's arguments. */
  ghost predicate StreamFits(pkts: seq<Packet>, pairs: seq<(Host, Host)>,
                             trafficType: int, ipv6: int, proto: int, ports: int)
  {
    |pkts| == |pairs| &&
    forall n :: 0 <= n < |pkts| ==>
      pkts[n].dst == pairs[n].0 && pkts[n].src == pairs[n].1 &&
      StreamPacket(pkts[n], trafficType, ipv6, proto, ports)
  }

  class AclPluginTest {
    /** sw_if_index of each packet-generator interface, in creation order. */
    var pgInterfaces: seq<nat>
    var flows: map<nat, seq<nat>>
    var hostsByPgIdx: map<nat, seq<Host>>

    ghost predicate Valid()
      reads this
    {
      && (forall a, b :: 0 <= a < b < |pgInterfaces| ==> pgInterfaces[a] != pgInterfaces[b])
      && KnownInterfaces(pgInterfaces)
      && (forall s :: s in flows ==> s in hostsByPgIdx && KnownInterfaces(flows[s]))
    }

    predicate KnownInterfaces(ifs: seq<nat>)
      reads this
    {
      forall t :: 0 <= t < |ifs| ==> ifs[t] in hostsByPgIdx
    }

    /** `setUpClass`: two interfaces, pg0 sending to pg1, no hosts yet. */
    constructor (pg0: nat, pg1: nat)
      requires pg0 != pg1
      ensures Valid()
      ensures pgInterfaces == [pg0, pg1] && flows == map[pg0 := [pg1]]
      ensures hostsByPgIdx == map[pg0 := [], pg1 := []]
    {
      pgInterfaces := [pg0, pg1];
      flows := map[pg0 := [pg1]];
      hostsByPgIdx := map[pg0 := [], pg1 := []];
    }

    /**
     * `create_hosts`: appends to interface k's list the hosts numbered from
     * `BlockStart` to `BlockEnd` of k; the other lists and the fixture are unchanged.
     */
    method CreateHosts(count: nat, start: int := 0)
      requires Valid() && |pgInterfaces| > 0
      modifies this
      ensures Valid()
      ensures pgInterfaces == old(pgInterfaces) && flows == old(flows)
      ensures hostsByPgIdx.Keys == old(hostsByPgIdx.Keys)
      ensures forall k :: 0 <= k < |pgInterfaces| ==>
        hostsByPgIdx[pgInterfaces[k]] == old(hostsByPgIdx[pgInterfaces[k]]) +
          HostBlock(pgInterfaces[k], BlockStart(count, start, |pgInterfaces|, k),
                    BlockEnd(count, start, |pgInterfaces|, k))
      ensures forall sw :: sw in hostsByPgIdx && sw !in pgInterfaces ==>
        hostsByPgIdx[sw] == old(hostsByPgIdx[sw])
    {
      var nInt := |pgInterfaces|;
      var macsPerIf := count / nInt;
      ghost var before := hostsByPgIdx;
      var i := 0;
      while i < nInt
        invariant 0 <= i <= nInt
        invariant pgInterfaces == old(pgInterfaces) && flows == old(flows)
        invariant hostsByPgIdx.Keys == before.Keys
        invariant forall k :: 0 <= k < i ==>
          hostsByPgIdx[pgInterfaces[k]] == before[pgInterfaces[k]] +
            HostBlock(pgInterfaces[k], BlockStart(count, start, nInt, k), BlockEnd(count, start, nInt, k))
        invariant forall k :: i <= k < nInt ==> hostsByPgIdx[pgInterfaces[k]] == before[pgInterfaces[k]]
        invariant forall sw :: sw in before && sw !in pgInterfaces ==> hostsByPgIdx[sw] == before[sw]
      {
        var sw := pgInterfaces[i];
        var startNr := macsPerIf * i + start;
        var endNr := if i == nInt - 1 then count + start else macsPerIf * (i + 1) + start;
        BlockShape(count, start, nInt, i);
        ghost var mid := hostsByPgIdx;
        var j := startNr;
        while j < endNr
          invariant startNr <= j <= endNr
          invariant pgInterfaces == old(pgInterfaces) && flows == old(flows)
          invariant hostsByPgIdx.Keys == before.Keys
          invariant hostsByPgIdx[sw] == mid[sw] + HostBlock(sw, startNr, j)
          invariant forall other :: other in mid && other != sw ==> hostsByPgIdx[other] == mid[other]
        {
          assert HostBlock(sw, startNr, j + 1) == HostBlock(sw, startNr, j) + [Host(sw, j)];
          hostsByPgIdx := hostsByPgIdx[sw := hostsByPgIdx[sw] + [Host(sw, j)]];
          j := j + 1;
        }
        i := i + 1;
      }
    }

    /**
     * `create_stream` for a source interface: for each destination interface of
     * its flow in order, one packet per iteration i of |dst| * |src|, from source
     * host i % |src| to destination host i / |src|, with headers as the other
     * arguments say. An interface with no flow gets no packets.
     */
    method CreateStream(srcIf: nat, trafficType: int := TrafficIp, ipv6: int := 0,
                        proto: int := ProtoNone, ports: int := 0)
      returns (pkts: seq<Packet>)
      requires Valid()
      requires trafficType == TrafficIcmp || proto == ProtoNone || InProtoMap(proto)
      ensures srcIf !in flows ==> pkts == []
      ensures srcIf in flows ==>
        StreamFits(pkts, StreamPairs(hostsByPgIdx[srcIf], HostLists(hostsByPgIdx, flows[srcIf])),
                   trafficType, ipv6, proto, ports)
    {
      pkts := [];
      if srcIf in flows {
        var srcHosts := hostsByPgIdx[srcIf];
        var dstIfs := flows[srcIf];
        ghost var dsts := HostLists(hostsByPgIdx, dstIfs);
        ghost var pairs: seq<(Host, Host)> := [];
        var t := 0;
        while t < |dstIfs|
          invariant 0 <= t <= |dstIfs|
          invariant pairs == StreamPairs(srcHosts, dsts[..t])
          invariant StreamFits(pkts, pairs, trafficType, ipv6, proto, ports)
        {
          var dstHosts := hostsByPgIdx[dstIfs[t]];
          var nInt := |dstHosts| * |srcHosts|;
          ghost var done := pairs;
          var i := 0;
          while i < nInt
            invariant 0 <= i <= nInt
            invariant pairs == done + PairsFor(dstHosts, srcHosts)[..i]
            invariant StreamFits(pkts, pairs, trafficType, ipv6, proto, ports)
          {
            PairIndexInBounds(|dstHosts|, |srcHosts|, i);
            var dstHost := dstHosts[i / |srcHosts|];
            var srcHost := srcHosts[i % |srcHosts|];
            var ip: IpVersion;
            if ipv6 == 1 {
              ip := IPv6;
            } else if ipv6 == 0 {
              ip := IPv4;
            } else {
              ip :| ip in {IPv4, IPv6};
            }
            var pktProto: int;
            if proto == ProtoNone {
              pktProto :| pktProto in {ProtoTcp, ProtoUdp};
            } else {
              pktProto := proto;
            }
            var l4: Transport;
            if trafficType == TrafficIcmp {
              l4 := IcmpEchoFor(ip);
            } else {
              l4 := CreateUpperLayer(pktProto, ports);
            }
            assert PairsFor(dstHosts, srcHosts)[..i + 1] == PairsFor(dstHosts, srcHosts)[..i] + [(dstHost, srcHost)];
            pkts := pkts + [Packet(srcHost, dstHost, ip, l4)];
            pairs := pairs + [(dstHost, srcHost)];
            i := i + 1;
          }
          assert PairsFor(dstHosts, srcHosts)[..nInt] == PairsFor(dstHosts, srcHosts);
          assert dsts[..t + 1][..t] == dsts[..t];
          t := t + 1;
        }
        assert dsts[..|dstIfs|] == dsts;
      }
    }
  }
}
