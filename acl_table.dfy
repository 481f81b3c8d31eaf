/**
 * The ACL plugin's control plane as the test suite drives it: add or replace
 * an ACL (handle 4294967295 asks for a new one), dump an ACL, and set the list
 * of ACLs applied to an interface. Handles are given out 0, 1, ... in order.
 */
module AclTables {
  import opened Wrappers
  import opened AclRules
  import opened Classifier

  /** `acl_index` is a 32-bit field. */
  type u32 = x: int | 0 <= x <= 0xFFFF_FFFF

  /** The all-ones `acl_index`: create a new ACL. */
  const CreateNew: u32 := 0xFFFF_FFFF

  const RetvalOk := 0
  const RetvalFailed := -1

  /** The reply to add/replace: status and the handle (the requested one echoed on failure). */
  datatype Reply = Reply(retval: int, aclIndex: nat)

  /** One dumped ACL: its handle, its tag and its rules `r`. */
  datatype AclDetails = AclDetails(aclIndex: nat, tag: string, r: seq<Rule>)

  datatype Direction = Input | Output

  class AclTable {
    /** The handle the next created ACL gets. */
    var nextIndex: nat
    var acls: map<nat, Acl>
    /** Per sw_if_index, the ACL handles applied on input and on output, in order. */
    var inputAcls: map<nat, seq<nat>>
    var outputAcls: map<nat, seq<nat>>

    /** Every handle below the counter names an ACL, no other does, and bindings name only ACLs. */
    ghost predicate Valid()
      reads this
    {
      && nextIndex <= CreateNew
      && (forall h: nat :: h in acls <==> h < nextIndex)
      && (forall sw :: sw in inputAcls ==> AllExist(inputAcls[sw]))
      && (forall sw :: sw in outputAcls ==> AllExist(outputAcls[sw]))
    }

    predicate AllExist(handles: seq<nat>)
      reads this
    {
      forall i :: 0 <= i < |handles| ==> handles[i] in acls
    }

    constructor ()
      ensures Valid()
      ensures nextIndex == 0 && acls == map[] && inputAcls == map[] && outputAcls == map[]
    {
      nextIndex := 0;
      acls := map[];
      inputAcls := map[];
      outputAcls := map[];
    }

    /**
     * `acl_add_replace`: with `CreateNew` the rules become a new ACL under the next
     * handle; with the handle of an existing ACL its tag and rules are replaced and
     * the handle kept; any other handle fails with -1 and is echoed back, and
     * nothing changes. Bindings are never touched, so interfaces bound to a
     * replaced ACL see its new rules.
     */
    method AddReplace(aclIndex: u32, r: seq<Rule>, tag: string := "") returns (reply: Reply)
      requires Valid()
      requires aclIndex == CreateNew ==> nextIndex < CreateNew
      modifies this
      ensures Valid()
      ensures inputAcls == old(inputAcls) && outputAcls == old(outputAcls)
      ensures aclIndex == CreateNew ==>
        reply == Reply(RetvalOk, old(nextIndex)) && nextIndex == old(nextIndex) + 1 &&
        acls == old(acls)[old(nextIndex) := Acl(tag, r)]
      ensures aclIndex != CreateNew && aclIndex in old(acls) ==>
        reply == Reply(RetvalOk, aclIndex) && nextIndex == old(nextIndex) &&
        acls == old(acls)[aclIndex := Acl(tag, r)]
      ensures aclIndex != CreateNew && aclIndex !in old(acls) ==>
        reply == Reply(RetvalFailed, aclIndex) && nextIndex == old(nextIndex) && acls == old(acls)
    {
      if aclIndex == CreateNew {
        reply := Reply(RetvalOk, nextIndex);
        acls := acls[nextIndex := Acl(tag, r)];
        nextIndex := nextIndex + 1;
      } else if aclIndex in acls {
        acls := acls[aclIndex := Acl(tag, r)];
        reply := Reply(RetvalOk, aclIndex);
      } else {
        reply := Reply(RetvalFailed, aclIndex);
      }
    }

    /** `acl_dump` of one handle: that ACL's details, or nothing for an unknown handle. */
    method Dump(aclIndex: nat) returns (details: seq<AclDetails>)
      requires Valid()
      ensures aclIndex in acls ==> details == [AclDetails(aclIndex, acls[aclIndex].tag, acls[aclIndex].rules)]
      ensures aclIndex !in acls ==> details == []
    {
      if aclIndex in acls {
        details := [AclDetails(aclIndex, acls[aclIndex].tag, acls[aclIndex].rules)];
      } else {
        details := [];
      }
    }

    /**
     * `acl_interface_set_acl_list`: the first `nInput` handles become the
     * interface's input list and the rest its output list, replacing both; a
     * handle that names no ACL fails the call with -1 and changes nothing.
     */
    method SetAclList(swIfIndex: nat, nInput: nat, handles: seq<nat>) returns (retval: int)
      requires Valid() && nInput <= |handles|
      modifies this
      ensures Valid()
      ensures acls == old(acls) && nextIndex == old(nextIndex)
      ensures retval == RetvalOk <==> old(AllExist(handles))
      ensures retval == RetvalOk ==>
        inputAcls == old(inputAcls)[swIfIndex := handles[..nInput]] &&
        outputAcls == old(outputAcls)[swIfIndex := handles[nInput..]]
      ensures retval != RetvalOk ==>
        retval == RetvalFailed && inputAcls == old(inputAcls) && outputAcls == old(outputAcls)
    {
      if AllExist(handles) {
        inputAcls := inputAcls[swIfIndex := handles[..nInput]];
        outputAcls := outputAcls[swIfIndex := handles[nInput..]];
        retval := RetvalOk;
      } else {
        retval := RetvalFailed;
      }
    }

    function Binding(swIfIndex: nat, dir: Direction): Option<seq<nat>>
      reads this
    {
      var lists := if dir == Input then inputAcls else outputAcls;
      if swIfIndex in lists then Some(lists[swIfIndex]) else None
    }

    /**
     * The plugin's decision for a packet crossing an interface in a direction:
     * permit when no list, or an empty one, is set there; otherwise the first
     * matching rule of the bound ACLs taken in list order, and deny when none matches.
     */
    function Decision(swIfIndex: nat, dir: Direction, k: PacketKey): (d: Action)
      reads this
      ensures Binding(swIfIndex, dir).None? || Binding(swIfIndex, dir).value == [] ==> d == Permit
      ensures Binding(swIfIndex, dir).Some? && Binding(swIfIndex, dir).value != [] ==>
        d == FirstMatch(BoundRules(acls, Binding(swIfIndex, dir).value), k).GetOr(Deny)
    {
      Classify(acls, Binding(swIfIndex, dir), k)
    }
  }

  /**
   * `apply_rules`: creates a new ACL from the rules and sets it as the only input
   * ACL of every given interface, with an empty output list; afterwards each of
   * them decides every incoming packet by the first of those rules that matches,
   * and lets every outgoing packet pass.
   */
  method ApplyRules(table: AclTable, interfaces: seq<nat>, rules: seq<Rule>, tag: string := "")
    returns (aclIndex: nat)
    requires table.Valid() && table.nextIndex < CreateNew
    modifies table
    ensures table.Valid()
    ensures aclIndex == old(table.nextIndex)
    ensures table.acls == old(table.acls)[aclIndex := Acl(tag, rules)]
    ensures forall sw :: sw in interfaces ==>
      sw in table.inputAcls && table.inputAcls[sw] == [aclIndex] &&
      sw in table.outputAcls && table.outputAcls[sw] == []
    ensures forall sw :: sw !in interfaces ==>
      (sw in table.inputAcls <==> sw in old(table.inputAcls)) &&
      (sw in table.inputAcls ==> table.inputAcls[sw] == old(table.inputAcls)[sw])
    ensures forall sw :: sw !in interfaces ==>
      (sw in table.outputAcls <==> sw in old(table.outputAcls)) &&
      (sw in table.outputAcls ==> table.outputAcls[sw] == old(table.outputAcls)[sw])
    ensures forall sw, k :: sw in interfaces ==> table.Decision(sw, Input, k) == FirstMatch(rules, k).GetOr(Deny)
    ensures forall sw, k :: sw in interfaces ==> table.Decision(sw, Output, k) == Permit
  {
    var reply := table.AddReplace(CreateNew, rules, tag);
    aclIndex := reply.aclIndex;
    var i := 0;
    while i < |interfaces|
      invariant 0 <= i <= |interfaces|
      invariant table.Valid()
      invariant table.acls == old(table.acls)[aclIndex := Acl(tag, rules)] && aclIndex in table.acls
      invariant forall t :: 0 <= t < i ==>
        interfaces[t] in table.inputAcls && table.inputAcls[interfaces[t]] == [aclIndex] &&
        interfaces[t] in table.outputAcls && table.outputAcls[interfaces[t]] == []
      invariant forall sw :: sw !in interfaces[..i] ==>
        (sw in table.inputAcls <==> sw in old(table.inputAcls)) &&
        (sw in table.inputAcls ==> table.inputAcls[sw] == old(table.inputAcls)[sw])
      invariant forall sw :: sw !in interfaces[..i] ==>
        (sw in table.outputAcls <==> sw in old(table.outputAcls)) &&
        (sw in table.outputAcls ==> table.outputAcls[sw] == old(table.outputAcls)[sw])
    {
      var retval := table.SetAclList(interfaces[i], 1, [aclIndex]);
      assert [aclIndex][..1] == [aclIndex] && [aclIndex][1..] == [];
      assert interfaces[..i + 1] == interfaces[..i] + [interfaces[i]];
      i := i + 1;
    }
    assert interfaces[..i] == interfaces;
    forall sw, k | sw in interfaces
      ensures table.Decision(sw, Input, k) == FirstMatch(rules, k).GetOr(Deny)
    {
      assert BoundRules(table.acls, [aclIndex]) == rules + [];
      assert rules + [] == rules;
    }
  }
}
