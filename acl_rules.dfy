/**
 * The ACL rule record the test suite submits to the ACL plugin, the constants it
 * uses, and the rule builder `create_rule` of test/test_acl_plugin.py.
 */
module AclRules {
  import opened Wrappers

  /** IP protocol numbers the suite works with; `ProtoAny` is the rule wildcard. */
  const ProtoAny := 0
  const ProtoIcmp := 1
  const ProtoTcp := 6
  const ProtoUdp := 17
  const ProtoIcmp6 := 58
  /** The default `proto` argument of the rule builder: no rule at all. */
  const ProtoNone := -1

  /** Port selectors of the rule builder; any other value selects one port. */
  const PortsAll := -1
  const PortsRange := 0

  /** The port windows used for generated UDP and TCP traffic. */
  const UdpSportFrom := 10
  const UdpSportTo := UdpSportFrom + 5
  const UdpDportFrom := 20000
  const UdpDportTo := UdpDportFrom + 5000
  const TcpSportFrom := 30
  const TcpSportTo := TcpSportFrom + 5
  const TcpDportFrom := 40000
  const TcpDportTo := TcpDportFrom + 5000

  /** ICMP echo request type and the code the suite puts beside it. */
  const Icmp4Type := 8
  const Icmp4Code := 3
  const Icmp6Type := 128
  const Icmp6Code := 3

  const MaxPort := 65535
  const MaxIcmpField := 255

  newtype byte = b: int | 0 <= b < 256

  /** `is_ipv6`: 0 is IPv4, 1 is IPv6. */
  datatype IpVersion = IPv4 | IPv6

  /** `is_permit`: 0 is deny, 1 is permit. */
  datatype Action = Deny | Permit

  /**
   * One rule in the wire layout of the plugin's API: action, address family,
   * protocol, then for each side the inclusive range of ports (or, for ICMP,
   * types on the source side and codes on the destination side), the prefix
   * length and the address bytes.
   */
  datatype Rule = Rule(
    isPermit: Action,
    isIpv6: IpVersion,
    proto: int,
    srcportOrIcmptypeFirst: int,
    srcportOrIcmptypeLast: int,
    srcIpPrefixLen: int,
    srcIpAddr: seq<byte>,
    dstportOrIcmpcodeFirst: int,
    dstportOrIcmpcodeLast: int,
    dstIpPrefixLen: int,
    dstIpAddr: seq<byte>)

  predicate IsIcmp(proto: int) {
    proto == ProtoIcmp || proto == ProtoIcmp6
  }

  /** The ICMP protocol number of an address family. */
  function IcmpProto(ip: IpVersion): int {
    if ip == IPv6 then ProtoIcmp6 else ProtoIcmp
  }

  /** Both ranges of a rule are non-empty. */
  predicate RangesOrdered(r: Rule) {
    r.srcportOrIcmptypeFirst <= r.srcportOrIcmptypeLast &&
    r.dstportOrIcmpcodeFirst <= r.dstportOrIcmpcodeLast
  }

  /** Both ranges of a rule lie in what a 16-bit port field can hold. */
  predicate RangesInPortSpace(r: Rule) {
    0 <= r.srcportOrIcmptypeFirst && r.srcportOrIcmptypeLast <= MaxPort &&
    0 <= r.dstportOrIcmpcodeFirst && r.dstportOrIcmpcodeLast <= MaxPort
  }

  /** The protocols `PortsRange` has a window for. */
  predicate HasRangeWindow(proto: int) {
    proto == ProtoIcmp || proto == ProtoIcmp6 || proto == ProtoTcp || proto == ProtoUdp
  }

  /** The all-zero IPv4 address the builder uses by default, on both sides. */
  const AnyAddr: seq<byte> := [0, 0, 0, 0]

  /**
   * `create_rule`: builds the rule record for (address family, action, port
   * selector, protocol) with the given prefixes. The protocol -1 gives no rule.
   * With `PortsRange` the source chooses the window by protocol and leaves the
   * ranges unbound for a protocol it has no window for, so that case is excluded.
   */
  function CreateRule(ip: IpVersion, permitDeny: Action, ports: int, proto: int,
                      sPrefix: int := 0, sIp: seq<byte> := AnyAddr,
                      dPrefix: int := 0, dIp: seq<byte> := AnyAddr): (r: Option<Rule>)
    requires proto == ProtoNone || ports != PortsRange || HasRangeWindow(proto)
    ensures r.None? <==> proto == ProtoNone
    ensures r.Some? ==> r.value.isPermit == permitDeny && r.value.isIpv6 == ip && r.value.proto == proto
    ensures r.Some? ==> r.value.srcIpPrefixLen == sPrefix && r.value.srcIpAddr == sIp
    ensures r.Some? ==> r.value.dstIpPrefixLen == dPrefix && r.value.dstIpAddr == dIp
    ensures r.Some? ==> RangesOrdered(r.value)
    ensures r.Some? && PortsAll <= ports <= MaxPort ==> RangesInPortSpace(r.value)
  {
    if proto == ProtoNone then None
    else
      var (sportFrom, sportTo, dportFrom, dportTo) :=
        if ports == PortsAll then
          var last := if proto != ProtoIcmp && proto != ProtoIcmp6 then MaxPort else MaxIcmpField;
          (0, last, 0, last)
        else if ports == PortsRange then
          if proto == ProtoIcmp then (Icmp4Type, Icmp4Type, Icmp4Code, Icmp4Code)
          else if proto == ProtoIcmp6 then (Icmp6Type, Icmp6Type, Icmp6Code, Icmp6Code)
          else if proto == ProtoTcp then (TcpSportFrom, TcpSportTo, TcpDportFrom, TcpDportTo)
          else (UdpSportFrom, UdpSportTo, UdpDportFrom, UdpDportTo)
        else (ports, ports, ports, ports);
      Some(Rule(permitDeny, ip, proto, sportFrom, sportTo, sPrefix, sIp,
                dportFrom, dportTo, dPrefix, dIp))
  }

  /** `PortsAll` opens both ranges fully: [0,255] for ICMP and ICMPv6, [0,65535] otherwise, protocol 0 included. */
  lemma PortsAllIsFullRange(ip: IpVersion, a: Action, proto: int)
    requires proto != ProtoNone
    ensures var r := CreateRule(ip, a, PortsAll, proto).value;
      var last := if IsIcmp(proto) then MaxIcmpField else MaxPort;
      r.srcportOrIcmptypeFirst == 0 && r.srcportOrIcmptypeLast == last &&
      r.dstportOrIcmpcodeFirst == 0 && r.dstportOrIcmpcodeLast == last
  {
  }

  /**
   * `PortsRange` pins ICMP rules to the echo-request type and code 3 of their
   * family, and gives TCP and UDP the windows of the generated traffic.
   */
  lemma PortsRangeWindows(ip: IpVersion, a: Action, proto: int)
    requires HasRangeWindow(proto)
    ensures var r := CreateRule(ip, a, PortsRange, proto).value;
      (proto == ProtoIcmp ==> r.srcportOrIcmptypeFirst == r.srcportOrIcmptypeLast == Icmp4Type &&
                              r.dstportOrIcmpcodeFirst == r.dstportOrIcmpcodeLast == Icmp4Code) &&
      (proto == ProtoIcmp6 ==> r.srcportOrIcmptypeFirst == r.srcportOrIcmptypeLast == Icmp6Type &&
                               r.dstportOrIcmpcodeFirst == r.dstportOrIcmpcodeLast == Icmp6Code) &&
      (proto == ProtoTcp ==> r.srcportOrIcmptypeFirst == TcpSportFrom && r.srcportOrIcmptypeLast == TcpSportTo &&
                             r.dstportOrIcmpcodeFirst == TcpDportFrom && r.dstportOrIcmpcodeLast == TcpDportTo) &&
      (proto == ProtoUdp ==> r.srcportOrIcmptypeFirst == UdpSportFrom && r.srcportOrIcmptypeLast == UdpSportTo &&
                             r.dstportOrIcmpcodeFirst == UdpDportFrom && r.dstportOrIcmpcodeLast == UdpDportTo)
  {
  }

  /** Any other selector value p pins both ranges to the single value p. */
  lemma SinglePortSelector(ip: IpVersion, a: Action, p: int, proto: int)
    requires proto != ProtoNone && p != PortsAll && p != PortsRange
    ensures var r := CreateRule(ip, a, p, proto).value;
      r.srcportOrIcmptypeFirst == r.srcportOrIcmptypeLast == p &&
      r.dstportOrIcmpcodeFirst == r.dstportOrIcmpcodeLast == p
  {
  }
}
