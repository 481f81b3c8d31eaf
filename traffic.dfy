/**
 * The packets `create_stream` generates, the transport header
 * `create_upper_layer` puts on them, and the index arithmetic that pairs
 * destination and source hosts. Calls into `random` are nondeterministic
 * choices within the range the source draws from.
 */
module Traffic {
  import opened AclRules
  import opened Classifier
  import opened Hosts

  /** `traffic_type` values: plain IP traffic, or ICMP echo requests. */
  const TrafficIp := 0
  const TrafficIcmp := 1

  /** The header above the IP layer. `NoTransport` is the empty layer for ICMP protocols in IP traffic. */
  datatype Transport =
    | Udp(sport: int, dport: int)
    | Tcp(sport: int, dport: int)
    | IcmpEcho(icmpType: int, code: int)
    | NoTransport

  /** A generated packet: its hosts, its address family and its transport header. */
  datatype Packet = Packet(src: Host, dst: Host, ip: IpVersion, l4: Transport)

  /** `proto_map`: the layer name the suite builds for each protocol number it sends. */
  const ProtoMap: map<int, string> :=
    map[ProtoIcmp := "ICMP", ProtoIcmp6 := "ICMPv6EchoRequest", ProtoTcp := "TCP", ProtoUdp := "UDP"]

  /** The protocols `proto_map` names. */
  predicate InProtoMap(proto: int) {
    proto in ProtoMap
  }

  /** `random.randint(lo, hi)`: some value of the closed range. */
  method RandInt(lo: int, hi: int) returns (x: int)
    requires lo <= hi
    ensures lo <= x <= hi
  {
    x :| lo <= x <= hi;
  }

  /** What `create_upper_layer` may return for a protocol and port selector. */
  predicate UpperLayerFits(t: Transport, proto: int, ports: int) {
    if proto == ProtoUdp then
      if ports == 0 then t.Udp? && UdpSportFrom <= t.sport <= UdpSportTo && UdpDportFrom <= t.dport <= UdpDportTo
      else t == Udp(ports, ports)
    else if proto == ProtoTcp then
      if ports == 0 then t.Tcp? && TcpSportFrom <= t.sport <= TcpSportTo && TcpDportFrom <= t.dport <= TcpDportTo
      else t == Tcp(ports, ports)
    else t == NoTransport
  }

  /**
   * `create_upper_layer`: a UDP or TCP header whose ports are drawn from the
   * traffic windows when `ports` is 0 and are both `ports` otherwise; nothing for
   * the ICMP protocols. A protocol outside `proto_map` is a lookup error there.
   */
  method CreateUpperLayer(proto: int, ports: int := 0) returns (t: Transport)
    requires InProtoMap(proto)
    ensures UpperLayerFits(t, proto, ports)
    ensures t.Udp? <==> proto == ProtoUdp
    ensures t.Tcp? <==> proto == ProtoTcp
  {
    var layer := ProtoMap[proto];
    if layer == "UDP" {
      if ports == 0 {
        var s := RandInt(UdpSportFrom, UdpSportTo);
        var d := RandInt(UdpDportFrom, UdpDportTo);
        t := Udp(s, d);
      } else {
        t := Udp(ports, ports);
      }
    } else if layer == "TCP" {
      if ports == 0 {
        var s := RandInt(TcpSportFrom, TcpSportTo);
        var d := RandInt(TcpDportFrom, TcpDportTo);
        t := Tcp(s, d);
      } else {
        t := Tcp(ports, ports);
      }
    } else {
      t := NoTransport;
    }
  }

  /** The ICMP echo request `create_stream` sends in ICMP traffic of a family. */
  function IcmpEchoFor(ip: IpVersion): Transport {
    if ip == IPv6 then IcmpEcho(Icmp6Type, Icmp6Code) else IcmpEcho(Icmp4Type, Icmp4Code)
  }

  /**
   * What `create_stream` may put in one packet above the IP layer, given its
   * arguments: the family is fixed by `ipv6` when it is 0 or 1 and chosen
   * otherwise; ICMP traffic carries the echo request of the family; other
   * traffic carries the upper layer for `proto`, or for TCP or UDP when
   * `proto` is -1.
   */
  predicate StreamPacket(p: Packet, trafficType: int, ipv6: int, proto: int, ports: int) {
    && (ipv6 == 1 ==> p.ip == IPv6)
    && (ipv6 == 0 ==> p.ip == IPv4)
    && (trafficType == TrafficIcmp ==> p.l4 == IcmpEchoFor(p.ip))
    && (trafficType != TrafficIcmp && proto == ProtoNone ==>
          UpperLayerFits(p.l4, ProtoTcp, ports) || UpperLayerFits(p.l4, ProtoUdp, ports))
    && (trafficType != TrafficIcmp && proto != ProtoNone ==> UpperLayerFits(p.l4, proto, ports))
  }

  /**
   * The packet key the plugin parses from a packet: the family, the protocol
   * number the header above IP implies and its two fields. The addresses are
   * not constrained: the suite's host addresses are left out of the model.
   */
  predicate Describes(k: PacketKey, p: Packet) {
    && k.ip == p.ip
    && match p.l4
       case Udp(s, d) => k.proto == ProtoUdp && k.srcportOrIcmptype == s && k.dstportOrIcmpcode == d
       case Tcp(s, d) => k.proto == ProtoTcp && k.srcportOrIcmptype == s && k.dstportOrIcmpcode == d
       case IcmpEcho(t, c) => k.proto == IcmpProto(p.ip) && k.srcportOrIcmptype == t && k.dstportOrIcmpcode == c
       case NoTransport => true
  }

  lemma MulAtLeast(d: int, n: nat)
    ensures d >= 1 ==> d * n >= n
    ensures d <= -1 ==> d * n + n <= 0
  {
  }

  /** Quotient and remainder are determined by x = q * n + r with 0 <= r < n. */
  lemma DivModUnique(x: int, n: nat, q: int, r: int)
    requires n > 0 && 0 <= r < n && x == q * n + r
    ensures x / n == q && x % n == r
  {
    var q', r' := x / n, x % n;
    assert (q - q') * n == r' - r;
    MulAtLeast(q - q', n);
  }

  /** Index i of the nd*ns iterations lands on dst i / ns and src i % ns, both in bounds. */
  lemma PairIndexInBounds(nd: nat, ns: nat, i: int)
    requires 0 <= i < nd * ns
    ensures ns > 0 && 0 <= i / ns < nd && 0 <= i % ns < ns
    ensures (i / ns) * ns + i % ns == i
  {
    var q := i / ns;
    assert q * ns <= i;
    MulAtLeast(q - nd + 1, ns);
    assert (q - nd + 1) * ns == q * ns - nd * ns + ns;
  }

  /** Each (dst a, src b) pair is produced by exactly one index: a * ns + b. */
  lemma PairProducedOnce(nd: nat, ns: nat, a: int, b: int, i: int)
    requires 0 <= a < nd && 0 <= b < ns && 0 <= i < nd * ns
    ensures 0 <= a * ns + b < nd * ns
    ensures (i / ns == a && i % ns == b) <==> i == a * ns + b
  {
    PairIndexInBounds(nd, ns, i);
    MulAtLeast(nd - a, ns);
    assert (nd - a) * ns == nd * ns - a * ns;
    DivModUnique(a * ns + b, ns, a, b);
  }

  /** The (dst, src) hosts of iteration i. */
  function PairAt(dst: seq<Host>, src: seq<Host>, i: int): (Host, Host)
    requires 0 <= i < |dst| * |src|
  {
    PairIndexInBounds(|dst|, |src|, i);
    (dst[i / |src|], src[i % |src|])
  }

  /** The (dst, src) hosts of all iterations for one destination interface. */
  function PairsFor(dst: seq<Host>, src: seq<Host>): (ps: seq<(Host, Host)>)
    ensures |ps| == |dst| * |src|
  {
    seq(|dst| * |src|, i requires 0 <= i < |dst| * |src| => PairAt(dst, src, i))
  }

  /** Every (dst, src) combination occurs in `PairsFor` at the index that produces it. */
  lemma EveryPairProduced(dst: seq<Host>, src: seq<Host>, a: int, b: int)
    requires 0 <= a < |dst| && 0 <= b < |src|
    ensures 0 <= a * |src| + b < |PairsFor(dst, src)|
    ensures PairsFor(dst, src)[a * |src| + b] == (dst[a], src[b])
  {
    var i := a * |src| + b;
    PairProducedOnce(|dst|, |src|, a, b, 0);
    PairProducedOnce(|dst|, |src|, a, b, i);
    assert PairsFor(dst, src)[i] == PairAt(dst, src, i);
  }

  /** The pairs for a list of destination interfaces, one after another. */
  function StreamPairs(src: seq<Host>, dsts: seq<seq<Host>>): seq<(Host, Host)>
  {
    if dsts == [] then [] else StreamPairs(src, dsts[..|dsts| - 1]) + PairsFor(dsts[|dsts| - 1], src)
  }
}
