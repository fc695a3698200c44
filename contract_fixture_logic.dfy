/**
 * The pure parts of the in-memory contract-service simulator the test suite
 * installs: the policy a bilateral injection records, how a signature is
 * upserted by party, how an ecosystem role injection finds or creates its
 * role entry, how a member signature is upserted by participant, and when an
 * ecosystem contract counts as signed.
 */
module ContractFixtureLogic {
  import opened Common

  // ---------------------------------------------------------------------
  // Bilateral contracts

  datatype Rule = Rule(ruleId: string, description: string, permission: seq<string>, prohibition: seq<string>)

  /** The policy recorded for one injected `ruleId`. */
  function MockRule(ruleId: string): Rule {
    Rule(ruleId, "mock-rule", [], [])
  }

  /** The policies recorded for a batch of injections, in input order. */
  function MockRules(ruleIds: seq<string>): (r: seq<Rule>)
    ensures |r| == |ruleIds|
    ensures forall i :: 0 <= i < |ruleIds| ==> r[i] == MockRule(ruleIds[i])
  {
    if ruleIds == [] then [] else MockRules(ruleIds[..|ruleIds| - 1]) + [MockRule(ruleIds[|ruleIds| - 1])]
  }

  datatype Signature = Signature(party: string, value: string)

  function PartyIs(party: string): Signature -> bool {
    (s: Signature) => s.party == party
  }

  /** The signatures after `x` signed: the first signature of `x.party` takes `x.value`, or `x` is appended. */
  function UpsertSignature(sigs: seq<Signature>, x: Signature): (r: seq<Signature>)
    ensures HasMatch(sigs, PartyIs(x.party)) ==>
      && |r| == |sigs|
      && forall i :: 0 <= i < |sigs| ==> r[i] == if IsFirst(sigs, i, PartyIs(x.party)) then x else sigs[i]
    ensures !HasMatch(sigs, PartyIs(x.party)) ==> r == sigs + [x]
  {
    match FindFirst(sigs, PartyIs(x.party))
    case Some(k) => sigs[k := sigs[k].(value := x.value)]
    case None => sigs + [x]
  }

  /** Signing again as the same party replaces the earlier value: the last signature wins. */
  lemma {:induction false} ResignReplaces(sigs: seq<Signature>, x: Signature, y: Signature)
    requires x.party == y.party
    ensures UpsertSignature(UpsertSignature(sigs, x), y) == UpsertSignature(sigs, y)
  {
    var once := UpsertSignature(sigs, x);
    var p := PartyIs(x.party);
    match FindFirst(sigs, p) {
      case Some(k) =>
        assert IsFirst(once, k, p);
        FirstIsUnique(sigs, k, k, p);
        assert FindFirst(once, p) == Some(k) by {
          var f := FindFirst(once, p);
          FirstIsUnique(once, f.value, k, p);
        }
      case None =>
        assert IsFirst(once, |sigs|, p);
        assert FindFirst(once, p) == Some(|sigs|) by {
          var f := FindFirst(once, p);
          FirstIsUnique(once, f.value, |sigs|, p);
        }
    }
  }

  ghost predicate DistinctParties(sigs: seq<Signature>) {
    forall i, j :: 0 <= i < j < |sigs| ==> sigs[i].party != sigs[j].party
  }

  /** Signing never gives one party two entries. */
  lemma UpsertSignatureKeepsPartiesDistinct(sigs: seq<Signature>, x: Signature)
    requires DistinctParties(sigs)
    ensures DistinctParties(UpsertSignature(sigs, x))
  {
  }

  // ---------------------------------------------------------------------
  // Ecosystem contracts: roles and obligations

  datatype Obligation = Obligation(description: string, permission: seq<string>, prohibition: seq<string>)

  /** The policy recorded for one injected role. */
  const MockObligation := Obligation("mock-description", [], [])

  datatype RoleEntry = RoleEntry(role: string, policies: seq<Obligation>)

  function RoleIs(role: string): RoleEntry -> bool {
    (e: RoleEntry) => e.role == role
  }

  /**
   * One iteration of the injection loop: the first entry for `role` gets one
   * more policy, or an entry for `role` holding that one policy is appended.
   */
  function InjectRole(entries: seq<RoleEntry>, role: string): (r: seq<RoleEntry>)
    ensures HasMatch(entries, RoleIs(role)) ==>
      && |r| == |entries|
      && forall i :: 0 <= i < |entries| ==>
           r[i] == if IsFirst(entries, i, RoleIs(role))
                   then entries[i].(policies := entries[i].policies + [MockObligation])
                   else entries[i]
    ensures !HasMatch(entries, RoleIs(role)) ==> r == entries + [RoleEntry(role, [MockObligation])]
  {
    match FindFirst(entries, RoleIs(role))
    case Some(k) => entries[k := entries[k].(policies := entries[k].policies + [MockObligation])]
    case None => entries + [RoleEntry(role, [MockObligation])]
  }

  /**
   * The entries after the loop has run over `roles` in order: the earlier
   * entries keep their places and roles, and each injection adds one entry at most.
   */
  function InjectRoles(entries: seq<RoleEntry>, roles: seq<string>): (r: seq<RoleEntry>)
    ensures |entries| <= |r| <= |entries| + |roles|
    decreases |roles|
  {
    if roles == [] then entries
    else InjectRole(InjectRoles(entries, roles[..|roles| - 1]), roles[|roles| - 1])
  }

  /** The loop never moves an entry nor changes its role. */
  lemma {:induction false} InjectRolesKeepsEntryRoles(entries: seq<RoleEntry>, roles: seq<string>, i: int)
    requires 0 <= i < |entries|
    ensures InjectRoles(entries, roles)[i].role == entries[i].role
    decreases |roles|
  {
    if roles != [] {
      InjectRolesKeepsEntryRoles(entries, roles[..|roles| - 1], i);
    }
  }

  /** The number of policies held by the entry a lookup of `role` finds (0 when there is none). */
  function PolicyCount(entries: seq<RoleEntry>, role: string): nat {
    match FindFirst(entries, RoleIs(role))
    case Some(k) => |entries[k].policies|
    case None => 0
  }

  function RoleNames(entries: seq<RoleEntry>): set<string> {
    set e | e in entries :: e.role
  }

  ghost predicate DistinctRoles(entries: seq<RoleEntry>) {
    forall i, j :: 0 <= i < j < |entries| ==> entries[i].role != entries[j].role
  }

  /** Entry `k` is where a lookup of `role` stops, before and after one injection. */
  lemma InjectRoleKeepsFirst(entries: seq<RoleEntry>, injected: string, role: string, k: int)
    requires IsFirst(entries, k, RoleIs(role))
    ensures IsFirst(InjectRole(entries, injected), k, RoleIs(role))
  {
  }

  /** One injection adds one policy to the injected role's entry and none to any other role's. */
  lemma InjectRolePolicyCount(entries: seq<RoleEntry>, injected: string, role: string)
    ensures PolicyCount(InjectRole(entries, injected), role) ==
            PolicyCount(entries, role) + if injected == role then 1 else 0
  {
    var after := InjectRole(entries, injected);
    var p := RoleIs(role);
    var f := FindFirst(entries, p);
    var g := FindFirst(after, p);
    if f.Some? {
      InjectRoleKeepsFirst(entries, injected, role, f.value);
      FirstIsUnique(after, g.value, f.value, p);
    } else if injected == role {
      assert IsFirst(after, |entries|, p);
      FirstIsUnique(after, g.value, |entries|, p);
    }
  }

  /** After the whole loop, each role's entry holds one more policy per occurrence of the role in `roles`. */
  lemma {:induction false} InjectRolesPolicyCount(entries: seq<RoleEntry>, roles: seq<string>, role: string)
    ensures PolicyCount(InjectRoles(entries, roles), role) == PolicyCount(entries, role) + multiset(roles)[role]
    decreases |roles|
  {
    if roles != [] {
      var last := |roles| - 1;
      InjectRolesPolicyCount(entries, roles[..last], role);
      InjectRolePolicyCount(InjectRoles(entries, roles[..last]), roles[last], role);
      assert roles == roles[..last] + [roles[last]];
      assert multiset(roles) == multiset(roles[..last]) + multiset{roles[last]};
    }
  }

  /** Find-or-create never creates a second entry for a role. */
  lemma {:induction false} InjectRolesKeepsRolesDistinct(entries: seq<RoleEntry>, roles: seq<string>)
    requires DistinctRoles(entries)
    ensures DistinctRoles(InjectRoles(entries, roles))
    decreases |roles|
  {
    if roles != [] {
      var last := |roles| - 1;
      var before := InjectRoles(entries, roles[..last]);
      InjectRolesKeepsRolesDistinct(entries, roles[..last]);
      if !HasMatch(before, RoleIs(roles[last])) {
        forall i | 0 <= i < |before|
          ensures before[i].role != roles[last]
        {
          assert !RoleIs(roles[last])(before[i]);
        }
      }
    }
  }

  /** One injection adds the injected role to the roles with an entry. */
  lemma InjectRoleRoleNames(entries: seq<RoleEntry>, role: string)
    ensures RoleNames(InjectRole(entries, role)) == RoleNames(entries) + {role}
  {
  }

  /** The roles with an entry after the loop are those before it plus the injected ones. */
  lemma {:induction false} InjectRolesRoleNames(entries: seq<RoleEntry>, roles: seq<string>)
    ensures forall n :: n in RoleNames(InjectRoles(entries, roles)) <==> n in RoleNames(entries) || n in roles
    decreases |roles|
  {
    if roles != [] {
      var last := |roles| - 1;
      var before := InjectRoles(entries, roles[..last]);
      InjectRolesRoleNames(entries, roles[..last]);
      InjectRoleRoleNames(before, roles[last]);
      assert InjectRoles(entries, roles) == InjectRole(before, roles[last]);
      forall n
        ensures n in roles <==> n in roles[..last] || n == roles[last]
      {
        assert roles == roles[..last] + [roles[last]];
      }
    }
  }

  // ---------------------------------------------------------------------
  // Ecosystem contracts: members and signatures

  datatype ContractMember = ContractMember(participant: string, role: Option<string>, signature: Option<string>)

  function ParticipantIs(participant: string): ContractMember -> bool {
    (m: ContractMember) => m.participant == participant
  }

  function IsOrchestrator(): ContractMember -> bool {
    (m: ContractMember) => m.role == Some("orchestrator")
  }

  /** JavaScript truthiness of a signature field. */
  predicate Truthy(signature: Option<string>) {
    signature.Some? && signature.value != ""
  }

  /**
   * The members after `participant` signed: the first member entry of that
   * participant takes the signature, or a member without a role is appended.
   */
  function UpsertMember(ms: seq<ContractMember>, participant: string, signature: Option<string>): (r: seq<ContractMember>)
    ensures HasMatch(ms, ParticipantIs(participant)) ==>
      && |r| == |ms|
      && forall i :: 0 <= i < |ms| ==>
           r[i] == if IsFirst(ms, i, ParticipantIs(participant)) then ms[i].(signature := signature) else ms[i]
    ensures !HasMatch(ms, ParticipantIs(participant)) ==> r == ms + [ContractMember(participant, None, signature)]
  {
    match FindFirst(ms, ParticipantIs(participant))
    case Some(k) => ms[k := ms[k].(signature := signature)]
    case None => ms + [ContractMember(participant, None, signature)]
  }

  /** The test that ends a signature: two members or more, and the first orchestrator member has signed. */
  predicate ReadyToSign(ms: seq<ContractMember>): (r: bool)
    ensures r <==> |ms| >= 2 && exists k :: IsFirst(ms, k, IsOrchestrator()) && Truthy(ms[k].signature)
  {
    |ms| >= 2 &&
    match FindFirst(ms, IsOrchestrator())
    case Some(k) => Truthy(ms[k].signature)
    case None => false
  }

  /** A signature can complete the contract only if an orchestrator member was already there. */
  lemma SignatureNeedsExistingOrchestrator(ms: seq<ContractMember>, participant: string, signature: Option<string>)
    requires ReadyToSign(UpsertMember(ms, participant, signature))
    ensures HasMatch(ms, IsOrchestrator())
  {
  }

  /** The members after each `(participant, signature)` of `signers` signed, in order. */
  function SignAll(ms: seq<ContractMember>, signers: seq<(string, Option<string>)>): seq<ContractMember>
    decreases |signers|
  {
    if signers == [] then ms
    else var (p, s) := signers[|signers| - 1]; UpsertMember(SignAll(ms, signers[..|signers| - 1]), p, s)
  }

  /** Without an orchestrator member to begin with, no sequence of signatures completes the contract. */
  lemma {:induction false} NoOrchestratorNeverSigned(ms: seq<ContractMember>, signers: seq<(string, Option<string>)>)
    requires !HasMatch(ms, IsOrchestrator())
    ensures !HasMatch(SignAll(ms, signers), IsOrchestrator())
    ensures !ReadyToSign(SignAll(ms, signers))
    decreases |signers|
  {
    if signers != [] {
      var last := |signers| - 1;
      var before := SignAll(ms, signers[..last]);
      NoOrchestratorNeverSigned(ms, signers[..last]);
      var (p, s) := signers[last];
      var after := UpsertMember(before, p, s);
      assert forall i :: 0 <= i < |before| ==> after[i].role == before[i].role;
    }
  }
}
