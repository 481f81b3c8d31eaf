/**
 * The decision the ACL plugin makes for a packet, as the test suite observes it:
 * a rule either matches the packet's key or not, the rules of an ACL are tried
 * in order and the first match decides, and the ACLs bound to an interface are
 * tried in the order of the binding.
 */
module Classifier {
  import opened Wrappers
  import opened AclRules

  /**
   * The fields of a parsed packet the rules look at. For ICMP the two transport
   * fields hold the type and the code; for TCP and UDP, the two ports.
   */
  datatype PacketKey = PacketKey(
    ip: IpVersion,
    proto: int,
    srcAddr: seq<byte>,
    dstAddr: seq<byte>,
    srcportOrIcmptype: int,
    dstportOrIcmpcode: int)

  function Pow2(n: nat): (p: nat)
    ensures p >= 1
  {
    if n == 0 then 1 else 2 * Pow2(n - 1)
  }

  /** Bit i of an address, counted from the most significant bit of its first byte. */
  function Bit(addr: seq<byte>, i: nat): (b: int)
    requires i < 8 * |addr|
    ensures b == 0 || b == 1
  {
    (addr[i / 8] as int / Pow2(7 - i % 8)) % 2
  }

  /** The top `len` bits of the rule's address and the packet's address agree. */
  predicate PrefixMatch(ruleAddr: seq<byte>, len: int, addr: seq<byte>) {
    0 <= len && len <= 8 * |ruleAddr| && len <= 8 * |addr| &&
    forall i: nat :: i < len ==> Bit(ruleAddr, i) == Bit(addr, i)
  }

  predicate InRange(x: int, first: int, last: int) {
    first <= x <= last
  }

  /**
   * The match predicate: same address family, the rule's protocol is the wildcard
   * or the packet's, both prefixes match, and unless the protocol is the wildcard
   * both transport fields lie in the rule's ranges.
   */
  predicate Matches(r: Rule, k: PacketKey) {
    && k.ip == r.isIpv6
    && (r.proto == ProtoAny || r.proto == k.proto)
    && PrefixMatch(r.srcIpAddr, r.srcIpPrefixLen, k.srcAddr)
    && PrefixMatch(r.dstIpAddr, r.dstIpPrefixLen, k.dstAddr)
    && (r.proto == ProtoAny ||
        (InRange(k.srcportOrIcmptype, r.srcportOrIcmptypeFirst, r.srcportOrIcmptypeLast) &&
         InRange(k.dstportOrIcmpcode, r.dstportOrIcmpcodeFirst, r.dstportOrIcmpcodeLast)))
  }

  /** A prefix length of 0 matches every address. */
  lemma ZeroPrefixMatchesAll(ruleAddr: seq<byte>, addr: seq<byte>)
    ensures PrefixMatch(ruleAddr, 0, addr)
  {
  }

  /** The action of the first rule that matches, if any does. */
  function FirstMatch(rules: seq<Rule>, k: PacketKey): Option<Action>
  {
    if rules == [] then None
    else if Matches(rules[0], k) then Some(rules[0].isPermit)
    else FirstMatch(rules[1..], k)
  }

  predicate NoneMatchBefore(rules: seq<Rule>, k: PacketKey, i: int)
    requires i <= |rules|
  {
    forall j :: 0 <= j < i ==> !Matches(rules[j], k)
  }

  /** First match wins: the rule at i matches and none before it does, so its action decides. */
  lemma {:induction false} FirstMatchAt(rules: seq<Rule>, k: PacketKey, i: int)
    requires 0 <= i < |rules| && Matches(rules[i], k) && NoneMatchBefore(rules, k, i)
    ensures FirstMatch(rules, k) == Some(rules[i].isPermit)
  {
    if i > 0 {
      assert !Matches(rules[0], k);
      FirstMatchAt(rules[1..], k, i - 1);
    }
  }

  /** Conversely, a decision comes from some matching rule with no matching rule before it. */
  lemma {:induction false} FirstMatchSound(rules: seq<Rule>, k: PacketKey)
    ensures FirstMatch(rules, k).Some? ==>
      exists i :: 0 <= i < |rules| && Matches(rules[i], k) && NoneMatchBefore(rules, k, i) &&
                  FirstMatch(rules, k).value == rules[i].isPermit
    ensures FirstMatch(rules, k).None? <==> NoneMatchBefore(rules, k, |rules|)
  {
    if rules != [] && !Matches(rules[0], k) {
      FirstMatchSound(rules[1..], k);
      if FirstMatch(rules, k).Some? {
        var i :| 0 <= i < |rules[1..]| && Matches(rules[1..][i], k) && NoneMatchBefore(rules[1..], k, i) &&
                 FirstMatch(rules[1..], k).value == rules[1..][i].isPermit;
        assert Matches(rules[i + 1], k) && NoneMatchBefore(rules, k, i + 1);
      }
      if NoneMatchBefore(rules[1..], k, |rules| - 1) {
        forall j | 0 <= j < |rules| ensures !Matches(rules[j], k) {
          if j > 0 { assert rules[j] == rules[1..][j - 1]; }
        }
      }
    }
  }

  /** Trying `a` and then `b` is trying `a + b`. */
  lemma {:induction false} FirstMatchAppend(a: seq<Rule>, b: seq<Rule>, k: PacketKey)
    ensures FirstMatch(a + b, k) == if FirstMatch(a, k).Some? then FirstMatch(a, k) else FirstMatch(b, k)
  {
    if a != [] {
      assert (a + b)[0] == a[0];
      assert (a + b)[1..] == a[1..] + b;
      FirstMatchAppend(a[1..], b, k);
    } else {
      assert a + b == b;
    }
  }

  /** An ACL as the table keeps it: its tag and its ordered rules. */
  datatype Acl = Acl(tag: string, rules: seq<Rule>)

  /** A handle in the binding that names no ACL contributes no rules. */
  function RulesOf(acls: map<nat, Acl>, h: nat): seq<Rule> {
    if h in acls then acls[h].rules else []
  }

  /** The rules of the bound ACLs, laid end to end in binding order. */
  function BoundRules(acls: map<nat, Acl>, handles: seq<nat>): seq<Rule>
  {
    if handles == [] then [] else RulesOf(acls, handles[0]) + BoundRules(acls, handles[1..])
  }

  /** The walk the plugin makes: each bound ACL in turn, the first ACL with a match decides. */
  function ClassifyAcls(acls: map<nat, Acl>, handles: seq<nat>, k: PacketKey): (d: Option<Action>)
    ensures d == FirstMatch(BoundRules(acls, handles), k)
  {
    if handles == [] then None
    else
      var here := FirstMatch(RulesOf(acls, handles[0]), k);
      FirstMatchAppend(RulesOf(acls, handles[0]), BoundRules(acls, handles[1..]), k);
      if here.Some? then here else ClassifyAcls(acls, handles[1..], k)
  }

  /**
   * The decision for a packet on an interface and direction: with no binding, or
   * an empty list of ACLs, the packet is permitted; with a non-empty list the
   * first matching rule decides, and a packet no rule matches is denied.
   */
  function Classify(acls: map<nat, Acl>, binding: Option<seq<nat>>, k: PacketKey): (d: Action)
    ensures binding.None? || binding.value == [] ==> d == Permit
    ensures binding.Some? && binding.value != [] ==> d == FirstMatch(BoundRules(acls, binding.value), k).GetOr(Deny)
  {
    match binding
    case None => Permit
    case Some(handles) => if handles == [] then Permit else ClassifyAcls(acls, handles, k).GetOr(Deny)
  }
}
