/**
 * The test cases test_0001 .. test_0020 of test/test_acl_plugin.py, stated over
 * the model: the ACL each test builds, the traffic it sends, and the outcome it
 * asserts (packets forwarded or none arriving).
 */
module Scenarios {
  import opened Wrappers
  import opened AclRules
  import opened Classifier
  import opened AclTables
  import opened Hosts
  import opened Traffic
  import opened TestBed

  /** The `ip` arguments of the suite: IPv4, IPv6, or a random family per packet. */
  const IpRandom := -1

  function IpFlag(ip: IpVersion): int {
    if ip == IPv6 then 1 else 0
  }

  /** The rule the builder gives for the arguments (all of them yield a rule). */
  function RuleFor(ip: IpVersion, a: Action, ports: int, proto: int): Rule
    requires proto != ProtoNone && (ports != PortsRange || HasRangeWindow(proto))
  {
    CreateRule(ip, a, ports, proto).value
  }

  // ----- Generated traffic against the rules built for it -----

  /**
   * IP traffic for TCP or UDP falls inside the rule built with the same family,
   * protocol and port selector: the windows `create_upper_layer` draws from when
   * the selector is 0 are the ranges `create_rule` uses, and any other selector
   * p gives packets with both ports p and a rule pinned to [p, p].
   */
  lemma StreamPacketMatchesOwnRule(ip: IpVersion, a: Action, ports: int, proto: int, p: Packet, k: PacketKey)
    requires proto == ProtoTcp || proto == ProtoUdp
    requires ports != PortsAll
    requires StreamPacket(p, TrafficIp, IpFlag(ip), proto, ports) && Describes(k, p)
    ensures Matches(RuleFor(ip, a, ports, proto), k)
  {
    ZeroPrefixMatchesAll(AnyAddr, k.srcAddr);
    ZeroPrefixMatchesAll(AnyAddr, k.dstAddr);
  }

  /** ICMP traffic carries the type and code the `PortsRange` ICMP rule of its family pins. */
  lemma IcmpStreamPacketMatchesRangeRule(ip: IpVersion, a: Action, proto: int, ports: int, p: Packet, k: PacketKey)
    requires StreamPacket(p, TrafficIcmp, IpFlag(ip), proto, ports) && Describes(k, p)
    ensures Matches(RuleFor(ip, a, PortsRange, IcmpProto(ip)), k)
  {
    ZeroPrefixMatchesAll(AnyAddr, k.srcAddr);
    ZeroPrefixMatchesAll(AnyAddr, k.dstAddr);
  }

  /** A `PortsAll` rule with protocol 0 matches every packet of its family. */
  lemma AnyRuleMatchesFamily(ip: IpVersion, a: Action, k: PacketKey)
    requires k.ip == ip
    ensures Matches(RuleFor(ip, a, PortsAll, ProtoAny), k)
  {
    ZeroPrefixMatchesAll(AnyAddr, k.srcAddr);
    ZeroPrefixMatchesAll(AnyAddr, k.dstAddr);
  }

  /** A `PortsAll` rule for TCP or UDP matches every packet of its family and protocol with 16-bit ports. */
  lemma PortsAllRuleMatchesProtocol(ip: IpVersion, a: Action, proto: int, k: PacketKey)
    requires (proto == ProtoTcp || proto == ProtoUdp) && k.ip == ip && k.proto == proto
    requires 0 <= k.srcportOrIcmptype <= MaxPort && 0 <= k.dstportOrIcmpcode <= MaxPort
    ensures Matches(RuleFor(ip, a, PortsAll, proto), k)
  {
    ZeroPrefixMatchesAll(AnyAddr, k.srcAddr);
    ZeroPrefixMatchesAll(AnyAddr, k.dstAddr);
  }

  // ----- The rule lists of the tests and what the tests assert about them -----

  /** test_0002: permit the UDP and the TCP windows. */
  function PermitPerFlowRules(): seq<Rule> {
    [RuleFor(IPv4, Permit, PortsRange, ProtoUdp), RuleFor(IPv4, Permit, PortsRange, ProtoTcp)]
  }

  /** test_0002: random TCP or UDP IPv4 traffic in the windows still passes. */
  lemma PermitPerFlowApply(p: Packet, k: PacketKey)
    requires StreamPacket(p, TrafficIp, IpFlag(IPv4), ProtoNone, 0) && Describes(k, p)
    ensures FirstMatch(PermitPerFlowRules(), k) == Some(Permit)
  {
    var rules := PermitPerFlowRules();
    if p.l4.Udp? {
      StreamPacketMatchesOwnRule(IPv4, Permit, PortsRange, ProtoUdp, p, k);
      FirstMatchAt(rules, k, 0);
    } else {
      StreamPacketMatchesOwnRule(IPv4, Permit, PortsRange, ProtoTcp, p, k);
      FirstMatchAt(rules, k, 1);
    }
  }

  /** test_0003: deny all UDP, then permit everything. */
  function DenyUdpRules(): seq<Rule> {
    [RuleFor(IPv4, Deny, PortsAll, ProtoUdp), RuleFor(IPv4, Permit, PortsAll, ProtoAny)]
  }

  /** test_0003: the UDP traffic is dropped, while any other IPv4 packet would be let through. */
  lemma DenyUdpApply(p: Packet, k: PacketKey, other: PacketKey)
    requires StreamPacket(p, TrafficIp, IpFlag(IPv4), ProtoUdp, 0) && Describes(k, p)
    requires other.ip == IPv4 && other.proto != ProtoUdp
    ensures FirstMatch(DenyUdpRules(), k) == Some(Deny)
    ensures FirstMatch(DenyUdpRules(), other) == Some(Permit)
  {
    PortsAllRuleMatchesProtocol(IPv4, Deny, ProtoUdp, k);
    FirstMatchAt(DenyUdpRules(), k, 0);
    AnyRuleMatchesFamily(IPv4, Permit, other);
    FirstMatchAt(DenyUdpRules(), other, 1);
  }

  /** test_0004 / test_0005: permit the echo request of the family, then deny everything. */
  function PermitIcmpRules(ip: IpVersion): seq<Rule> {
    [RuleFor(ip, Permit, PortsRange, IcmpProto(ip)), RuleFor(ip, Deny, PortsAll, ProtoAny)]
  }

  /** test_0004 / test_0005: the ICMP echo requests pass. */
  lemma PermitIcmpApply(ip: IpVersion, p: Packet, k: PacketKey)
    requires StreamPacket(p, TrafficIcmp, IpFlag(ip), IcmpProto(ip), 0) && Describes(k, p)
    ensures FirstMatch(PermitIcmpRules(ip), k) == Some(Permit)
  {
    IcmpStreamPacketMatchesRangeRule(ip, Permit, IcmpProto(ip), 0, p, k);
    FirstMatchAt(PermitIcmpRules(ip), k, 0);
  }

  /** test_0006 / test_0007: deny the echo request of the family, then permit everything. */
  function DenyIcmpRules(ip: IpVersion): seq<Rule> {
    [RuleFor(ip, Deny, PortsRange, IcmpProto(ip)), RuleFor(ip, Permit, PortsAll, ProtoAny)]
  }

  /** test_0006 / test_0007: the ICMP echo requests are dropped although the last rule permits all. */
  lemma DenyIcmpApply(ip: IpVersion, p: Packet, k: PacketKey)
    requires StreamPacket(p, TrafficIcmp, IpFlag(ip), ProtoAny, 0) && Describes(k, p)
    ensures FirstMatch(DenyIcmpRules(ip), k) == Some(Deny)
  {
    IcmpStreamPacketMatchesRangeRule(ip, Deny, ProtoAny, 0, p, k);
    FirstMatchAt(DenyIcmpRules(ip), k, 0);
  }

  /** test_0008 .. test_0011 with port 0, test_0015 .. test_0018 with a single port: permit it, deny the rest. */
  function PermitPortsRules(ip: IpVersion, proto: int, ports: int): seq<Rule>
    requires proto == ProtoTcp || proto == ProtoUdp
  {
    [RuleFor(ip, Permit, ports, proto), RuleFor(ip, Deny, PortsAll, ProtoAny)]
  }

  /**
   * test_0008 .. test_0011 and test_0015 .. test_0018: the traffic passes. The
   * random port of test_0015 .. test_0018 may be 0, which the builder reads as
   * `PortsRange`; the traffic then uses the windows and still passes.
   */
  lemma PermitPortsApply(ip: IpVersion, proto: int, port: int, p: Packet, k: PacketKey)
    requires proto == ProtoTcp || proto == ProtoUdp
    requires 0 <= port <= MaxPort
    requires StreamPacket(p, TrafficIp, IpFlag(ip), proto, port) && Describes(k, p)
    ensures FirstMatch(PermitPortsRules(ip, proto, port), k) == Some(Permit)
  {
    StreamPacketMatchesOwnRule(ip, Permit, port, proto, p, k);
    FirstMatchAt(PermitPortsRules(ip, proto, port), k, 0);
  }

  /** test_0008 .. test_0011: the windowed TCP or UDP traffic of either family passes its `PortsRange` rule. */
  lemma PermitRangeApply(ip: IpVersion, proto: int, p: Packet, k: PacketKey)
    requires proto == ProtoTcp || proto == ProtoUdp
    requires StreamPacket(p, TrafficIp, IpFlag(ip), proto, 0) && Describes(k, p)
    ensures FirstMatch([RuleFor(ip, Permit, PortsRange, proto), RuleFor(ip, Deny, PortsAll, ProtoAny)], k) == Some(Permit)
  {
    PermitPortsApply(ip, proto, PortsRange, p, k);
  }

  /** test_0012 / test_0013 with port 0, test_0019 / test_0020 with a single port: deny it in both families, permit the rest. */
  function DenyPortsBothRules(proto: int, ports: int): seq<Rule>
    requires proto == ProtoTcp || proto == ProtoUdp
  {
    [RuleFor(IPv4, Deny, ports, proto), RuleFor(IPv6, Deny, ports, proto),
     RuleFor(IPv4, Permit, PortsAll, ProtoAny), RuleFor(IPv6, Permit, PortsAll, ProtoAny)]
  }

  /** test_0012, test_0013, test_0019, test_0020: traffic of either family is dropped. */
  lemma DenyPortsBothApply(proto: int, port: int, p: Packet, k: PacketKey)
    requires proto == ProtoTcp || proto == ProtoUdp
    requires 0 <= port <= MaxPort
    requires StreamPacket(p, TrafficIp, IpRandom, proto, port) && Describes(k, p)
    ensures FirstMatch(DenyPortsBothRules(proto, port), k) == Some(Deny)
  {
    var rules := DenyPortsBothRules(proto, port);
    StreamPacketMatchesOwnRule(p.ip, Deny, port, proto, p, k);
    if p.ip == IPv4 {
      FirstMatchAt(rules, k, 0);
    } else {
      assert !Matches(rules[0], k);
      FirstMatchAt(rules, k, 1);
    }
  }

  /** test_0012 / test_0013: windowed traffic of a random family is dropped by the two `PortsRange` deny rules. */
  lemma DenyRangeBothApply(proto: int, p: Packet, k: PacketKey)
    requires proto == ProtoTcp || proto == ProtoUdp
    requires StreamPacket(p, TrafficIp, IpRandom, proto, 0) && Describes(k, p)
    ensures FirstMatch([RuleFor(IPv4, Deny, PortsRange, proto), RuleFor(IPv6, Deny, PortsRange, proto),
                        RuleFor(IPv4, Permit, PortsAll, ProtoAny), RuleFor(IPv6, Permit, PortsAll, ProtoAny)], k) == Some(Deny)
  {
    DenyPortsBothApply(proto, PortsRange, p, k);
  }

  // ----- test_0014: what a dump shows -----

  /** One row of the test_0014 table: family, action, port selector, protocol. */
  datatype DumpRow = DumpRow(ip: IpVersion, a: Action, ports: int, proto: int)

  /** The assertions test_0014 makes about the dumped rule of a row. */
  predicate DumpAsserts(row: DumpRow, dr: Rule) {
    && dr.isIpv6 == row.ip && dr.isPermit == row.a && dr.proto == row.proto
    && (row.ports > 0 ==> dr.srcportOrIcmptypeFirst == row.ports)
    && (row.ports < 0 ==> dr.srcportOrIcmptypeFirst == 0 && dr.srcportOrIcmptypeLast == MaxPort)
    && (row.ports == 0 && dr.proto == ProtoTcp ==>
          TcpSportFrom <= dr.srcportOrIcmptypeFirst <= TcpSportTo &&
          TcpDportFrom <= dr.dstportOrIcmpcodeLast <= TcpDportTo)
    && (row.ports == 0 && dr.proto == ProtoUdp ==>
          UdpSportFrom <= dr.srcportOrIcmptypeFirst <= UdpSportTo &&
          UdpDportFrom <= dr.dstportOrIcmpcodeLast <= UdpDportTo)
  }

  /**
   * The rows the test_0014 table may hold: a selector of -1 or more, `PortsAll`
   * only for non-ICMP protocols, port 0 only for a windowed one.
   */
  predicate DumpableRow(row: DumpRow) {
    row.proto != ProtoNone && row.ports >= PortsAll &&
    (row.ports == PortsRange ==> HasRangeWindow(row.proto)) &&
    (row.ports == PortsAll ==> !IsIcmp(row.proto))
  }

  function RowRule(row: DumpRow): Rule
    requires DumpableRow(row)
  {
    RuleFor(row.ip, row.a, row.ports, row.proto)
  }

  /** Every such row passes the checks test_0014 makes on the built rule. */
  lemma RowRulePassesDumpAsserts(row: DumpRow)
    requires DumpableRow(row)
    ensures DumpAsserts(row, RowRule(row))
  {
    if row.ports == PortsRange {
      PortsRangeWindows(row.ip, row.a, row.proto);
    } else if row.ports == PortsAll {
      PortsAllIsFullRange(row.ip, row.a, row.proto);
    } else {
      SinglePortSelector(row.ip, row.a, row.ports, row.proto);
    }
  }

  /** The check at `PortsAll` holds only because the table uses it with protocol 0: an ICMP row would fail it. */
  lemma PortsAllIcmpRowFailsDumpAsserts()
    ensures !DumpAsserts(DumpRow(IPv4, Deny, PortsAll, ProtoIcmp), RuleFor(IPv4, Deny, PortsAll, ProtoIcmp))
  {
    PortsAllIsFullRange(IPv4, Deny, ProtoIcmp);
  }

  /** The eighteen rows of test_0014. */
  const Test0014Rows: seq<DumpRow> := [
    DumpRow(IPv4, Permit, 1234, ProtoTcp), DumpRow(IPv4, Permit, 2345, ProtoUdp),
    DumpRow(IPv4, Permit, 0, ProtoTcp), DumpRow(IPv4, Permit, 0, ProtoUdp),
    DumpRow(IPv4, Permit, 5, ProtoIcmp), DumpRow(IPv6, Permit, 4321, ProtoTcp),
    DumpRow(IPv6, Permit, 5432, ProtoUdp), DumpRow(IPv6, Permit, 0, ProtoTcp),
    DumpRow(IPv6, Permit, 0, ProtoUdp), DumpRow(IPv6, Permit, 6, ProtoIcmp6),
    DumpRow(IPv4, Deny, PortsAll, ProtoAny), DumpRow(IPv4, Deny, 1234, ProtoTcp),
    DumpRow(IPv4, Deny, 2345, ProtoUdp), DumpRow(IPv4, Deny, 5, ProtoIcmp),
    DumpRow(IPv6, Deny, 4321, ProtoTcp), DumpRow(IPv6, Deny, 5432, ProtoUdp),
    DumpRow(IPv6, Deny, 6, ProtoIcmp6), DumpRow(IPv6, Deny, PortsAll, ProtoAny)]

  /**
   * test_0014, on a plugin earlier tests may have filled: builds a rule per row,
   * submits them as one new ACL and dumps it; the dump holds one ACL with a rule
   * per row, each passing the row's checks.
   */
  method AclDumpScenario(table: AclTable) returns (result: seq<AclDetails>)
    requires table.Valid() && table.nextIndex < CreateNew
    modifies table
    ensures |result| == 1 && |result[0].r| == |Test0014Rows|
    ensures forall i :: 0 <= i < |Test0014Rows| ==> DumpAsserts(Test0014Rows[i], result[0].r[i])
  {
    var rules: seq<Rule> := [];
    var i := 0;
    while i < |Test0014Rows|
      modifies {}
      invariant 0 <= i <= |Test0014Rows|
      invariant |rules| == i
      invariant forall t :: 0 <= t < i ==> DumpAsserts(Test0014Rows[t], rules[t])
    {
      var row := Test0014Rows[i];
      assert DumpableRow(row);
      RowRulePassesDumpAsserts(row);
      rules := rules + [RowRule(row)];
      i := i + 1;
    }
    var reply := table.AddReplace(CreateNew, rules);
    result := table.Dump(reply.aclIndex);
  }

  // ----- test_0001: handles, dump and a failed replace -----

  /**
   * test_0001 on a fresh plugin: the first new ACL gets handle 0 and dumps back
   * as one ACL with the submitted rules, the second gets handle 1, and replacing
   * the nonexistent handle 432 fails with -1 and echoes 432.
   */
  method AclCreateScenario(r: seq<Rule>, rDeny: seq<Rule>)
    returns (first: Reply, dumped: seq<AclDetails>, second: Reply, missing: Reply)
    ensures first == Reply(RetvalOk, 0)
    ensures |dumped| == 1 && dumped[0].aclIndex == 0 && dumped[0].r == r && |dumped[0].r| == |r|
    ensures second == Reply(RetvalOk, 1)
    ensures missing == Reply(RetvalFailed, 432)
  {
    var table := new AclTable();
    first := table.AddReplace(CreateNew, r, "permit 1234");
    dumped := table.Dump(first.aclIndex);
    second := table.AddReplace(CreateNew, rDeny, "deny 1234;permit all");
    missing := table.AddReplace(432, r, "FFFF:FFFF");
  }

  // ----- test_0000 then test_0002 or test_0003, end to end -----

  /**
   * The fixture after the warm-up has created `count` hosts (16 in test_0000):
   * the IPv4 stream a test sends from pg0 to pg1 for `proto` (-1 for a random
   * choice of TCP or UDP) holds one packet per pair of a host behind pg1 and a
   * host behind pg0, each with the upper layer `proto` asks for.
   */
  method WarmedUpStream(pg0: nat, pg1: nat, count: nat, proto: int) returns (pkts: seq<Packet>)
    requires pg0 != pg1
    requires proto == ProtoNone || InProtoMap(proto)
    ensures |pkts| == (count - count / 2) * (count / 2)
    ensures forall n :: 0 <= n < |pkts| ==> StreamPacket(pkts[n], TrafficIp, IpFlag(IPv4), proto, 0)
  {
    var bed := new AclPluginTest(pg0, pg1);
    bed.CreateHosts(count);
    assert bed.pgInterfaces[0] == pg0 && bed.pgInterfaces[1] == pg1;
    TwoInterfaceBlocks(count, 0);
    var srcHosts, dstHosts := bed.hostsByPgIdx[pg0], bed.hostsByPgIdx[pg1];
    assert |srcHosts| == count / 2 && |dstHosts| == count - count / 2;
    pkts := bed.CreateStream(pg0, TrafficIp, 0, proto, 0);
    assert HostLists(bed.hostsByPgIdx, bed.flows[pg0]) == [dstHosts];
    assert StreamPairs(srcHosts, [dstHosts]) == StreamPairs(srcHosts, []) + PairsFor(dstHosts, srcHosts);
  }

  /**
   * test_0002 after the warm-up, on a plugin earlier tests may have filled:
   * with its rules applied to both interfaces, every packet of the random
   * TCP/UDP stream is permitted on pg0's input and on pg1's output, so all of
   * them reach pg1.
   */
  method PermitPerFlowEndToEnd(table: AclTable, pg0: nat, pg1: nat, count: nat) returns (pkts: seq<Packet>)
    requires pg0 != pg1
    requires table.Valid() && table.nextIndex < CreateNew
    modifies table
    ensures table.Valid()
    ensures |pkts| == (count - count / 2) * (count / 2)
    ensures forall n, k :: 0 <= n < |pkts| && Describes(k, pkts[n]) ==>
      table.Decision(pg0, Input, k) == Permit && table.Decision(pg1, Output, k) == Permit
  {
    pkts := WarmedUpStream(pg0, pg1, count, ProtoNone);
    var aclIndex := ApplyRules(table, [pg0, pg1], PermitPerFlowRules(), "permit per-flow");
    forall n, k | 0 <= n < |pkts| && Describes(k, pkts[n])
      ensures table.Decision(pg0, Input, k) == Permit
    {
      PermitPerFlowApply(pkts[n], k);
    }
  }

  /**
   * test_0003 after the warm-up, on a plugin earlier tests may have filled:
   * with its rules applied to both interfaces, every packet of the UDP stream
   * is dropped on pg0's input, so none reaches pg1.
   */
  method DenyUdpEndToEnd(table: AclTable, pg0: nat, pg1: nat, count: nat) returns (pkts: seq<Packet>)
    requires pg0 != pg1
    requires table.Valid() && table.nextIndex < CreateNew
    modifies table
    ensures table.Valid()
    ensures |pkts| == (count - count / 2) * (count / 2)
    ensures forall n, k :: 0 <= n < |pkts| && Describes(k, pkts[n]) ==> table.Decision(pg0, Input, k) == Deny
  {
    pkts := WarmedUpStream(pg0, pg1, count, ProtoUdp);
    var aclIndex := ApplyRules(table, [pg0, pg1], DenyUdpRules(), "deny per-flow;permit all");
    forall n, k | 0 <= n < |pkts| && Describes(k, pkts[n])
      ensures table.Decision(pg0, Input, k) == Deny
    {
      DenyUdpApply(pkts[n], k, PacketKey(IPv4, ProtoTcp, [], [], 0, 0));
    }
  }
}
