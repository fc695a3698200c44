/**
 * The in-memory contract service the test suite installs in place of the
 * real one: one store for bilateral contracts and one for ecosystem
 * contracts. Each store holds a single current contract (the empty object
 * `{}` until the first POST), an availability flag, and the arrays of its
 * base contract. A POST that does not bring its own array reuses the base
 * array by reference, so what one contract's later requests push into it
 * shows up in every contract POSTed afterwards.
 */
module ContractFixture {
  import opened Common
  import opened ContractFixtureLogic

  /** 200 with the contract, or 500 "Internal Server Error". */
  datatype Reply = Ok | ServerError

  const BilateralContractId: string := "50726f6d6574686575732d59"
  const EcosystemContractId: string := "50726f6d6574686575732d58"

  /** A JavaScript array of bilateral policies, shared by reference. */
  class PolicyList {
    var items: seq<Rule>

    constructor (items: seq<Rule>)
      ensures this.items == items
    {
      this.items := items;
    }
  }

  /** A JavaScript array of role entries, shared by reference. */
  class RoleList {
    var entries: seq<RoleEntry>

    constructor (entries: seq<RoleEntry>)
      ensures this.entries == entries
    {
      this.entries := entries;
    }
  }

  /** A JavaScript array of contract members, shared by reference. */
  class MemberList {
    var members: seq<ContractMember>

    constructor (members: seq<ContractMember>)
      ensures this.members == members
    {
      this.members := members;
    }
  }

  /** The fields of a POSTed bilateral `contract` the later handlers read; `None` when the body leaves one out. */
  datatype BilateralDraft = BilateralDraft(status: Option<string>, policy: Option<seq<Rule>>, signatures: Option<seq<Signature>>)

  /** The fields of a POSTed ecosystem `contract` the later handlers read; `None` when the body leaves one out. */
  datatype EcosystemDraft = EcosystemDraft(status: Option<string>, rolesAndObligations: Option<seq<RoleEntry>>, members: Option<seq<ContractMember>>)

  /**
   * The bilateral contract store. Before the first POST the contract is `{}`:
   * no id, no status, no policy array and no signatures.
   */
  class BilateralStore {
    var unavailable: bool
    /** The `policy` array of the base contract. */
    const basePolicy: PolicyList
    var id: Option<string>
    var status: Option<string>
    var policy: PolicyList?
    var signatures: Option<seq<Signature>>

    constructor ()
      ensures !unavailable && fresh(basePolicy) && basePolicy.items == []
      ensures id.None? && status.None? && policy == null && signatures.None?
    {
      unavailable := false;
      basePolicy := new PolicyList([]);
      id, status, policy, signatures := None, None, null, None;
    }

    /** `setBilateralAvailability`: the store fails every request while it is unavailable. */
    method SetAvailability(availability: bool)
      modifies this`unavailable
      ensures unavailable == !availability
    {
      unavailable := !availability;
    }

    /**
     * POST: the new contract is the base contract overlaid with the request's
     * fields and the fixed id. A body without a `contract` object fails.
     */
    method Post(draft: Option<BilateralDraft>) returns (reply: Reply)
      modifies this`id, this`status, this`policy, this`signatures
      ensures unavailable || draft.None? ==>
        reply == ServerError && id == old(id) && status == old(status) && policy == old(policy) && signatures == old(signatures)
      ensures !unavailable && draft.Some? ==>
        && reply == Ok
        && id == Some(BilateralContractId)
        && status == (if draft.value.status.Some? then draft.value.status else Some("pending"))
        && signatures == draft.value.signatures
      ensures !unavailable && draft.Some? && draft.value.policy.None? ==> policy == basePolicy
      ensures !unavailable && draft.Some? && draft.value.policy.Some? ==>
        policy != null && fresh(policy) && policy.items == draft.value.policy.value
    {
      if unavailable || draft.None? {
        return ServerError;
      }
      var d := draft.value;
      id := Some(BilateralContractId);
      status := if d.status.Some? then d.status else Some("pending");
      if d.policy.Some? {
        policy := new PolicyList(d.policy.value);
      } else {
        policy := basePolicy;
      }
      signatures := d.signatures;
      reply := Ok;
    }

    /**
     * PUT policies: one mock rule is pushed per injected `ruleId`, in order.
     * On the empty contract there is no array to push to, so any injection fails.
     */
    method InjectPolicies(ruleIds: seq<string>) returns (reply: Reply)
      modifies policy
      ensures unavailable ==> reply == ServerError && (policy != null ==> policy.items == old(policy.items))
      ensures !unavailable && policy == null ==> reply == if ruleIds == [] then Ok else ServerError
      ensures !unavailable && policy != null ==>
        reply == Ok && policy.items == old(policy.items) + MockRules(ruleIds)
    {
      if unavailable {
        return ServerError;
      }
      if policy == null {
        reply := if ruleIds == [] then Ok else ServerError;
        return;
      }
      var i := 0;
      while i < |ruleIds|
        invariant 0 <= i <= |ruleIds|
        invariant policy.items == old(policy.items) + MockRules(ruleIds[..i])
      {
        policy.items := policy.items + [MockRule(ruleIds[i])];
        assert ruleIds[..i + 1][..i] == ruleIds[..i];
        i := i + 1;
      }
      assert ruleIds[..i] == ruleIds;
      reply := Ok;
    }

    /**
     * PUT sign: the party's signature is upserted (a missing signature list
     * starts out empty), and exactly two signatures mark the contract signed.
     */
    method Sign(x: Signature) returns (reply: Reply)
      modifies this`signatures, this`status
      ensures unavailable ==> reply == ServerError && signatures == old(signatures) && status == old(status)
      ensures !unavailable ==>
        var before := if old(signatures).Some? then old(signatures).value else [];
        && reply == Ok
        && signatures == Some(UpsertSignature(before, x))
        && status == if |UpsertSignature(before, x)| == 2 then Some("signed") else old(status)
    {
      if unavailable {
        return ServerError;
      }
      var sigs := if signatures.Some? then signatures.value else [];
      var existing := FindFirst(sigs, PartyIs(x.party));
      if existing.Some? {
        sigs := sigs[existing.value := sigs[existing.value].(value := x.value)];
      } else {
        sigs := sigs + [x];
      }
      signatures := Some(sigs);
      if |sigs| == 2 {
        status := Some("signed");
      }
      reply := Ok;
    }
  }

  /**
   * The ecosystem contract store. Before the first POST the contract is `{}`:
   * no id, no status, no role entries and no members.
   */
  class EcosystemContractStore {
    var unavailable: bool
    /** The `rolesAndObligations` array of the base contract. */
    const baseRoles: RoleList
    /** The `members` array of the base contract. */
    const baseMembers: MemberList
    var id: Option<string>
    var status: Option<string>
    var roles: RoleList?
    var members: MemberList?

    constructor ()
      ensures !unavailable && fresh(baseRoles) && fresh(baseMembers)
      ensures baseRoles.entries == [] && baseMembers.members == []
      ensures id.None? && status.None? && roles == null && members == null
    {
      unavailable := false;
      baseRoles := new RoleList([]);
      baseMembers := new MemberList([]);
      id, status, roles, members := None, None, null, null;
    }

    /** `setContractAvailability`: the store fails every request while it is unavailable. */
    method SetAvailability(availability: bool)
      modifies this`unavailable
      ensures unavailable == !availability
    {
      unavailable := !availability;
    }

    /**
     * POST: the new contract is the base contract overlaid with the request's
     * fields and the fixed id. A body without a `contract` object fails.
     */
    method Post(draft: Option<EcosystemDraft>) returns (reply: Reply)
      modifies this`id, this`status, this`roles, this`members
      ensures unavailable || draft.None? ==>
        reply == ServerError && id == old(id) && status == old(status) && roles == old(roles) && members == old(members)
      ensures !unavailable && draft.Some? ==>
        && reply == Ok
        && id == Some(EcosystemContractId)
        && status == (if draft.value.status.Some? then draft.value.status else Some("pending"))
      ensures !unavailable && draft.Some? && draft.value.rolesAndObligations.None? ==> roles == baseRoles
      ensures !unavailable && draft.Some? && draft.value.rolesAndObligations.Some? ==>
        roles != null && fresh(roles) && roles.entries == draft.value.rolesAndObligations.value
      ensures !unavailable && draft.Some? && draft.value.members.None? ==> members == baseMembers
      ensures !unavailable && draft.Some? && draft.value.members.Some? ==>
        members != null && fresh(members) && members.members == draft.value.members.value
    {
      if unavailable || draft.None? {
        return ServerError;
      }
      var d := draft.value;
      id := Some(EcosystemContractId);
      status := if d.status.Some? then d.status else Some("pending");
      if d.rolesAndObligations.Some? {
        roles := new RoleList(d.rolesAndObligations.value);
      } else {
        roles := baseRoles;
      }
      if d.members.Some? {
        members := new MemberList(d.members.value);
      } else {
        members := baseMembers;
      }
      reply := Ok;
    }

    /**
     * PUT policies: for each injected role, in order, the role's entry is
     * found or created and gets one mock policy. On the empty contract there
     * is no array to search, so any injection fails.
     */
    method InjectPolicies(roleNames: seq<string>) returns (reply: Reply)
      modifies roles
      ensures unavailable ==> reply == ServerError && (roles != null ==> roles.entries == old(roles.entries))
      ensures !unavailable && roles == null ==> reply == if roleNames == [] then Ok else ServerError
      ensures !unavailable && roles != null ==>
        reply == Ok && roles.entries == InjectRoles(old(roles.entries), roleNames)
    {
      if unavailable {
        return ServerError;
      }
      if roles == null {
        reply := if roleNames == [] then Ok else ServerError;
        return;
      }
      var i := 0;
      while i < |roleNames|
        invariant 0 <= i <= |roleNames|
        invariant roles.entries == InjectRoles(old(roles.entries), roleNames[..i])
      {
        var role := roleNames[i];
        var before := roles.entries;
        var entries := before;
        var found := FindFirst(entries, RoleIs(role));
        var index: nat;
        if found.None? {
          entries := entries + [RoleEntry(role, [])];
          index := |entries| - 1;
        } else {
          index := found.value;
        }
        var entry := entries[index];
        entries := entries[index := entry.(policies := entry.policies + [MockObligation])];
        if found.None? {
          assert entry.policies + [MockObligation] == [MockObligation];
          assert entries == before + [RoleEntry(role, [MockObligation])];
        }
        assert entries == InjectRole(before, role);
        roles.entries := entries;
        assert roleNames[..i + 1][..i] == roleNames[..i];
        i := i + 1;
      }
      assert roleNames[..i] == roleNames;
      reply := Ok;
    }

    /**
     * PUT sign: the participant's member entry takes the signature, or a
     * member without a role is appended; the contract becomes signed when
     * `ReadyToSign` holds. On the empty contract there are no members to search.
     */
    method Sign(participant: string, signature: Option<string>) returns (reply: Reply)
      modifies this`status, members
      ensures unavailable || members == null ==>
        reply == ServerError && status == old(status) && (members != null ==> members.members == old(members.members))
      ensures !unavailable && members != null ==>
        && reply == Ok
        && members.members == UpsertMember(old(members.members), participant, signature)
        && status == if ReadyToSign(members.members) then Some("signed") else old(status)
    {
      if unavailable || members == null {
        return ServerError;
      }
      var existing := FindFirst(members.members, ParticipantIs(participant));
      if existing.Some? {
        members.members := members.members[existing.value := members.members[existing.value].(signature := signature)];
      } else {
        members.members := members.members + [ContractMember(participant, None, signature)];
      }
      var orchestrator := FindFirst(members.members, IsOrchestrator());
      if |members.members| >= 2 && orchestrator.Some? && Truthy(members.members[orchestrator.value].signature) {
        status := Some("signed");
      }
      reply := Ok;
    }
  }

  /** Rules injected into one bilateral contract show up in the next contract POSTed without a policy. */
  method PolicySharedAcrossContracts() returns (second: seq<Rule>)
    ensures second == [MockRule("rule-1")]
  {
    var store := new BilateralStore();
    var reply := store.Post(Some(BilateralDraft(None, None, None)));
    reply := store.InjectPolicies(["rule-1"]);
    reply := store.Post(Some(BilateralDraft(None, None, None)));
    second := store.policy.items;
  }

  /** Before any POST, a bilateral policy injection fails while a signature succeeds. */
  method BilateralRequestsBeforePost() returns (injected: Reply, signed: Reply, sigs: Option<seq<Signature>>)
    ensures injected == ServerError
    ensures signed == Ok && sigs == Some([Signature("party-a", "sig-a")])
  {
    var store := new BilateralStore();
    injected := store.InjectPolicies(["rule-1"]);
    signed := store.Sign(Signature("party-a", "sig-a"));
    assert UpsertSignature([], Signature("party-a", "sig-a")) == [Signature("party-a", "sig-a")];
    sigs := store.signatures;
  }

  /** Two distinct parties signing mark a bilateral contract signed; the same party twice does not. */
  method BilateralSignedByTwoParties() returns (twoParties: Option<string>, oneParty: Option<string>)
    ensures twoParties == Some("signed")
    ensures oneParty == Some("pending")
  {
    var store := new BilateralStore();
    var reply := store.Post(Some(BilateralDraft(None, None, None)));
    reply := store.Sign(Signature("party-a", "sig-a"));
    reply := store.Sign(Signature("party-a", "sig-a2"));
    oneParty := store.status;
    reply := store.Sign(Signature("party-b", "sig-b"));
    twoParties := store.status;
  }

  /** Role policies injected into one ecosystem contract show up in the next one POSTed without roles. */
  method RolesSharedAcrossContracts() returns (second: seq<RoleEntry>)
    ensures second == [RoleEntry("provider", [MockObligation, MockObligation])]
  {
    var store := new EcosystemContractStore();
    var reply := store.Post(Some(EcosystemDraft(None, None, None)));
    reply := store.InjectPolicies(["provider", "provider"]);
    var once := [RoleEntry("provider", [MockObligation])];
    assert ["provider", "provider"][..1] == ["provider"];
    assert InjectRole([], "provider") == once;
    assert InjectRoles([], ["provider"]) == once;
    assert IsFirst(once, 0, RoleIs("provider"));
    assert [MockObligation] + [MockObligation] == [MockObligation, MockObligation];
    assert InjectRole(once, "provider") == [RoleEntry("provider", [MockObligation, MockObligation])];
    assert InjectRoles([], ["provider", "provider"]) == InjectRole(InjectRoles([], ["provider"]), "provider");
    reply := store.Post(Some(EcosystemDraft(None, None, None)));
    second := store.roles.entries;
  }

  /** Members who signed one ecosystem contract are members of the next one POSTed without members. */
  method MembersSharedAcrossContracts() returns (second: seq<ContractMember>)
    ensures second == [ContractMember("participant-1", None, Some("sig-1"))]
  {
    var store := new EcosystemContractStore();
    var reply := store.Post(Some(EcosystemDraft(None, None, None)));
    reply := store.Sign("participant-1", Some("sig-1"));
    reply := store.Post(Some(EcosystemDraft(None, None, None)));
    second := store.members.members;
  }

  /**
   * Signatures alone never complete an ecosystem contract POSTed without
   * members: appended members carry no role, so no orchestrator is found.
   */
  method SignaturesAloneLeavePending() returns (status: Option<string>)
    ensures status == Some("pending")
  {
    var store := new EcosystemContractStore();
    var reply := store.Post(Some(EcosystemDraft(None, None, None)));
    reply := store.Sign("orchestrator-1", Some("sig-o"));
    reply := store.Sign("participant-1", Some("sig-p"));
    status := store.status;
  }

  /** A contract POSTed with an orchestrator member becomes signed once that member and one more have signed. */
  method OrchestratorAndParticipantSign() returns (status: Option<string>)
    ensures status == Some("signed")
  {
    var store := new EcosystemContractStore();
    var orchestrator := ContractMember("orchestrator-1", Some("orchestrator"), None);
    var reply := store.Post(Some(EcosystemDraft(None, None, Some([orchestrator]))));
    reply := store.Sign("participant-1", Some("sig-p"));
    reply := store.Sign("orchestrator-1", Some("sig-o"));
    status := store.status;
  }
}
