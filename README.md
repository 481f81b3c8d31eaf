# ACL plugin test suite: a verified model

This project models the test driver of VPP's ACL plugin (`test/test_acl_plugin.py`) and the plugin behaviour that driver relies on. It proves what each test asserts.

The driver sets up two packet-generator interfaces, pg0 and pg1, in one bridge domain. Traffic flows from pg0 to pg1. The driver:

- spreads test hosts over the interfaces;
- builds ACL rules from a compact description (family, action, port selector, protocol);
- installs them as one new ACL bound on input to every interface;
- sends a generated stream and checks that every packet arrives, or that none does.

The modules follow that structure:

- `Wrappers`: the `Option` type.
- `AclRules`: the suite's constants and the `create_rule` builder, a pure function.
- `Classifier`: the match oracle the tests rely on:
  - a rule matches a packet key when the address family agrees;
  - the rule's protocol is 0 (any) or the packet's protocol;
  - both address prefixes match bit by bit;
  - unless the protocol is 0, both the source port/ICMP type and the destination port/ICMP code lie in the rule's ranges.
  - Rules are tried in order and the first match decides. The bound ACLs are tried in binding order.
  - A non-empty bound list in which nothing matches denies.
  - An interface and direction with no binding, or with an empty list, forwards. `apply_rules` leaves every output list empty, so the suite's packets always leave pg1.
  - A test's outcome is the verdict on pg0's input together with the verdict on pg1's output.
- `AclTables`: the plugin's ACL table as a class:
  - a handle counter, the ACLs by handle, and per-interface input and output bindings;
  - `acl_add_replace`, `acl_dump`, `acl_interface_set_acl_list`;
  - the driver's `apply_rules`.
- `Hosts`: the block arithmetic of `create_hosts`, with Python 2 floor division on the host count.
- `Traffic`: packets, `create_upper_layer`, and the index pairing of `create_stream`.
- `TestBed`: the fixture as a class, holding the interfaces, the flow map and `hosts_by_pg_idx`. `create_hosts` appends to the host lists in place. `create_stream` builds the stream with the source's nested loops.
- `Scenarios`: the rule list of each test case and the outcome the test asserts, as lemmas over the classifier. Also the two API tests (0001, 0014) and one end-to-end run: warm-up hosts, then test_0002's stream forwarded to pg1, or test_0003's stream dropped at pg0.

Random choices (`random.randint`, `random.choice`) are nondeterministic choices (`:|`) inside methods. Every contract therefore holds for every value the source could draw.

## Model

| member | source | states |
|---|---|---|
| AclRules.CreateRule | test/test_acl_plugin.py:150-196 | No rule exactly when proto is -1. Otherwise action, family, protocol, prefixes and addresses are copied unchanged. Both ranges are non-empty, and they lie in 0..65535 whenever the selector is -1 or a port number. |
| AclRules.PortsAllIsFullRange | test/test_acl_plugin.py:155-159 | Selector -1 gives [0,255] on both sides for ICMP and ICMPv6, and [0,65535] for any other protocol, 0 included. |
| AclRules.PortsRangeWindows | test/test_acl_plugin.py:160-180 | Selector 0 gives ICMP type 8 / code 3 and ICMPv6 type 128 / code 3, pinned. For TCP it gives source [30,35] and destination [40000,45000]; for UDP, [10,15] and [20000,25000]. |
| AclRules.SinglePortSelector | test/test_acl_plugin.py:181-185 | Any other selector p pins both ranges to [p,p]. |
| Classifier.Matches | test/test_acl_plugin.py:566-584 | The match predicate the tests rely on. The family must agree and the protocol must be 0 or equal. Both prefixes must match. Unless the protocol is 0, the port/type and port/code fields must lie in the rule's ranges. test_0003's UDP rule matches UDP packets only, and its protocol-0 rule matches every IPv4 packet. |
| Classifier.FirstMatch | test/test_acl_plugin.py:587-667 | Trying the rules in order, the action of the first that matches, or none. In test_0004..0007 the echo-request rule decides before the catch-all. Its meaning is proved in FirstMatchAt and FirstMatchSound. |
| Classifier.ZeroPrefixMatchesAll | test/test_acl_plugin.py:150-152 | A zero prefix length, the builder's default, matches every address. |
| Classifier.FirstMatchAt | test/test_acl_plugin.py:566-584 | If rule i matches and no earlier rule does, the decision is rule i's action. |
| Classifier.FirstMatchSound | test/test_acl_plugin.py:566-584 | Conversely, a decision comes from a matching rule with no matching rule before it. There is no decision exactly when no rule matches. |
| Classifier.FirstMatchAppend | test/test_acl_plugin.py:452-459 | Trying one rule list and then another is the same as trying their concatenation. |
| Classifier.ClassifyAcls | test/test_acl_plugin.py:452-459 | Walking the bound ACLs one by one gives the first match over all their rules laid end to end in binding order. |
| Classifier.Classify | test/test_acl_plugin.py:198-209 | No binding, or an empty ACL list, forwards. A non-empty list takes the first match over its ACLs' rules, and denies when nothing matches. |
| AclTables.AclTable.constructor | test/test_acl_plugin.py:495-498 | A fresh plugin: no ACLs, no bindings, the first new ACL gets handle 0. |
| AclTables.AclTable.AddReplace | test/test_acl_plugin.py:435-450 | Handle 4294967295 stores the rules under the next handle and returns (0, that handle). An existing handle is replaced in place and echoed with 0. A missing handle returns (-1, the handle) and changes nothing. Bindings are never touched. |
| AclTables.AclTable.Dump | test/test_acl_plugin.py:461-464 | One entry with the ACL's handle, tag and rules for a known handle; none for an unknown one. Nothing changes. |
| AclTables.AclTable.SetAclList | test/test_acl_plugin.py:452-459 | If every handle names an ACL, returns 0 and binds the first n_input handles as input and the rest as output on that interface only. Otherwise returns -1 and changes nothing. |
| AclTables.AclTable.Decision | test/test_acl_plugin.py:198-209 | The verdict on an interface and direction. It forwards when nothing, or an empty list, is bound. Otherwise the first match over the bound ACLs decides, and it denies when none matches. |
| AclTables.ApplyRules | test/test_acl_plugin.py:198-209 | Creates one ACL from the rules. On every listed interface it binds that ACL as the only input ACL, with an empty output list. The input and output lists of other interfaces are unchanged. On each listed interface the input verdict for any key is the first match over the rules, deny by default, and the output verdict is forward. |
| Hosts.Interval | test/test_acl_plugin.py:143 | `range(lo, hi)`: max(hi - lo, 0) numbers, element i being lo + i. |
| Hosts.HostBlock | test/test_acl_plugin.py:143-148 | One host per number of the range on that interface, in order. |
| Hosts.BlockShape | test/test_acl_plugin.py:134-141 | Each interface's block is a well-formed range. The first starts at start and the last ends at count + start. Block k ends where block k+1 starts, and every block but the last holds count / n_int hosts. |
| Hosts.BlocksDisjoint | test/test_acl_plugin.py:139-141 | An earlier interface's block ends no later than a later one's starts. |
| Hosts.BlocksPrefix | test/test_acl_plugin.py:137-148 | The first t blocks laid end to end are the numbers from start up to where block t-1 ends. |
| Hosts.BlocksCover | test/test_acl_plugin.py:126-148 | All blocks together are exactly start .. count + start - 1, each once, in order. |
| Hosts.OwnerOf | test/test_acl_plugin.py:137-148 | The interface whose block holds a host number of the range. |
| Hosts.UniqueOwner | test/test_acl_plugin.py:137-148 | A host number lies in block k if and only if k is its owner. |
| Hosts.TwoInterfaceBlocks | test/test_acl_plugin.py:134-141 | With two interfaces, pg0 gets [start, count/2 + start) and pg1 gets [count/2 + start, count + start). |
| Traffic.RandInt | test/test_acl_plugin.py:215-218 | `random.randint`: a value of the closed range. |
| Traffic.CreateUpperLayer | test/test_acl_plugin.py:211-229 | UDP for 17 and TCP for 6, with both ports in the protocol's windows for selector 0 and both equal to the selector otherwise. No transport header for the ICMP protocols. |
| Traffic.PairIndexInBounds | test/test_acl_plugin.py:247-250 | Iteration i of the nd * ns iterations picks dst host i / ns and src host i % ns, both in bounds. |
| Traffic.PairProducedOnce | test/test_acl_plugin.py:247-250 | Iteration i picks (dst a, src b) if and only if i == a * ns + b. |
| Traffic.PairsFor | test/test_acl_plugin.py:247-250 | One pair per iteration, nd * ns in all, pair i being (dst[i / ns], src[i % ns]). |
| Traffic.EveryPairProduced | test/test_acl_plugin.py:247-250 | Every (dst, src) combination occurs in the stream, at index a * ns + b. |
| TestBed.HostLists | test/test_acl_plugin.py:245-246 | The host lists of the destination interfaces, one per interface in order. |
| TestBed.AclPluginTest.constructor | test/test_acl_plugin.py:73-98 | Two distinct interfaces, pg0 flowing to pg1, each with an empty host list. |
| TestBed.AclPluginTest.CreateHosts | test/test_acl_plugin.py:126-148 | Each interface's host list grows by exactly its block of host numbers on that interface. Nothing else changes. |
| TestBed.AclPluginTest.CreateStream | test/test_acl_plugin.py:231-282 | No packets from an interface without flows. Otherwise one packet per iteration, going from the src host to the dst host of that iteration. Its family is the one asked for, or either when random. For ICMP traffic it carries the family's echo request. For IP traffic it carries the upper layer `create_upper_layer` may build for the protocol asked for, or for TCP or UDP when random. |
| Scenarios.StreamPacketMatchesOwnRule | test/test_acl_plugin.py:211-228 | TCP or UDP traffic for selector 0 or a single port matches the rule built with the same family, protocol and selector. |
| Scenarios.IcmpStreamPacketMatchesRangeRule | test/test_acl_plugin.py:268-274 | ICMP traffic matches the `PortsRange` ICMP rule of its family. |
| Scenarios.AnyRuleMatchesFamily | test/test_acl_plugin.py:597 | A `PortsAll` rule for protocol 0 matches every packet of its family. |
| Scenarios.PortsAllRuleMatchesProtocol | test/test_acl_plugin.py:572-573 | A `PortsAll` rule for TCP or UDP matches every packet of its family and protocol. |
| Scenarios.PermitPerFlowApply | test/test_acl_plugin.py:548-564 | test_0002: all random TCP/UDP IPv4 traffic is permitted. |
| Scenarios.DenyUdpApply | test/test_acl_plugin.py:566-584 | test_0003: the UDP traffic is denied, while any IPv4 packet of another protocol is permitted. |
| Scenarios.PermitIcmpApply | test/test_acl_plugin.py:587-627 | test_0004/0005: echo requests of the family are permitted ahead of the deny-all rule. |
| Scenarios.DenyIcmpApply | test/test_acl_plugin.py:629-667 | test_0006/0007: echo requests of the family are denied ahead of the permit-all rule. |
| Scenarios.PermitRangeApply | test/test_acl_plugin.py:669-747 | test_0008..0011: windowed TCP or UDP traffic of the family is permitted. |
| Scenarios.PermitPortsApply | test/test_acl_plugin.py:871-958 | test_0015..0018: traffic with both ports equal to the chosen port (or windowed, for port 0) is permitted. |
| Scenarios.DenyRangeBothApply | test/test_acl_plugin.py:749-799 | test_0012/0013: windowed TCP or UDP traffic of a random family is denied. |
| Scenarios.DenyPortsBothApply | test/test_acl_plugin.py:960-1012 | test_0019/0020: traffic of a random family on the chosen port is denied. |
| Scenarios.RowRulePassesDumpAsserts | test/test_acl_plugin.py:828-867 | The rule built from a row meets every check test_0014 makes on its dump: family, action, protocol, and the port bounds for each selector. |
| Scenarios.PortsAllIcmpRowFailsDumpAsserts | test/test_acl_plugin.py:845-847 | The [0,65535] check for selector -1 would fail for an ICMP row, whose range stops at 255. |
| Scenarios.AclDumpScenario | test/test_acl_plugin.py:801-869 | test_0014, on any valid table earlier tests may have filled: the dump holds one ACL with one rule per row, each passing that row's checks. |
| Scenarios.AclCreateScenario | test/test_acl_plugin.py:478-546 | test_0001: replies (0, 0) and then (0, 1). The first dump holds one ACL with exactly the submitted rules. Replacing handle 432 replies (-1, 432). |
| Scenarios.WarmedUpStream | test/test_acl_plugin.py:466-470 | After `create_hosts(count)`, the IPv4 stream from pg0 for a protocol (or for a random TCP/UDP choice) has (count - count/2) * (count/2) packets: 64 for the warm-up's 16 hosts. Each has the upper layer the protocol asks for, with ports in the windows. |
| Scenarios.PermitPerFlowEndToEnd | test/test_acl_plugin.py:384-408 | test_0002 after the warm-up, on any valid table: with its rules applied, every packet of the stream is forwarded on pg0's input and on pg1's output, so all of them reach pg1. |
| Scenarios.DenyUdpEndToEnd | test/test_acl_plugin.py:410-433 | test_0003 after the warm-up, on any valid table: with its rules applied, pg0's input verdict is deny for every packet of the stream, so none reaches pg1. |

## Left out

- The VPP test framework is not modelled: bridge domain set-up, admin state, `pg_start`, captures and `verify_capture`, packet-info payload bookkeeping, logging and tear-down. The outcome is stated as the table's verdicts on pg0's input and pg1's output.
- Scapy packet building is not modelled: payloads, the `packet_sizes` argument and `extend_packet`. A packet keeps only its hosts, family and transport header.
- Host MAC and IP strings are not modelled. A host is its interface and number, so `Traffic.Describes` leaves the key's addresses free. Every rule in the suite has prefix length 0, so the proofs need no more.
- test_0000's plugin version check and `run_traffic_no_check`: I/O only.
- The `count` fields of `acl_add_replace` and `acl_interface_set_acl_list` are not modelled. The driver always passes the list length.
- `deleted_hosts_by_pg_idx` is created empty and never used. The model omits it.
- `create_upper_layer`'s `packet_index` argument is not modelled: the source never reads it.
- ACL deletion is not modelled (the suite never deletes), and neither are per-interface ACL list dumps or a dump of all ACLs.
- Concurrency inside the plugin is not modelled. Each API call is one atomic step.
- AclTables.AclTable.AddReplace: requires a free handle below 4294967295 when creating. The plugin's behaviour once handles run out is not modelled.
- TestBed.AclPluginTest.CreateHosts: requires at least one interface, where the source would divide by zero, and a non-negative `count`.
- TestBed.AclPluginTest.CreateStream and Traffic.CreateUpperLayer: require a protocol that `proto_map` names, where the source would raise a lookup error.
- Scenarios.AclCreateScenario: states that the whole dumped rule list equals the submitted one. The source's comparison loop runs over `range(0, len(r) - 1)`, so for the one-rule list it compares no field at all. The model's claim is stronger than what the test checks.
- Scenarios.WarmedUpStream, Scenarios.PermitPerFlowEndToEnd and Scenarios.DenyUdpEndToEnd: stated for any host count; the suite's 16 is one instance. The end-to-end runs are stated for test_0002 and test_0003; the other traffic tests are stated on their rule lists only.
- Classifier.Matches: the driver only observes the plugin's matching, so the rules the suite depends on are stated directly:
  - protocol 0 ignores the port ranges;
  - MSB-first prefix comparison;
  - deny when a non-empty bound list has no match;
  - forward when nothing, or an empty list, is bound.
- Traffic.Describes: for a packet without a transport header, the key's protocol and port fields are left free.
- AclTables.AclTable.Dump: an unknown handle dumps nothing.
