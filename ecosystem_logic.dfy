/**
 * The ecosystem aggregate handled by the private ecosystem controller, as a
 * value, and the pure parts of its handlers: the status filters of
 * getInvitations and getJoinRequests, the `participantRoles` loop and the
 * `$set` of updateEcosystemById, and what applyParticipantSignature and
 * configureParticipantEcosystemOfferings do to the lists of one ecosystem.
 */
module EcosystemLogic {
  import opened Common

  datatype Status = Pending | Authorized | Rejected | Signed

  /** An entry of `participants`: an organisation that has joined. */
  datatype Member = Member(participant: Id, roles: seq<string>, offerings: seq<Id>)

  /** An entry of `invitations` or of `joinRequests`; `id` is the entry's own sub-document id. */
  datatype Request = Request(id: Id, participant: Id, roles: seq<string>, offerings: seq<Id>, status: Status)

  /** One element of a `rolesAndObligations` array, passed through to the contract service. */
  datatype RoleObligation = RoleObligation(role: string, policies: seq<string>)

  /** One element of the `participantRoles` array of an update. */
  datatype RoleAssignment = RoleAssignment(participantId: Id, roles: seq<string>)

  /** A value of a descriptive field of the stored document, or of a request body field. */
  datatype Value = Reference(id: Id) | Null | Text(text: string) | Obligations(items: seq<RoleObligation>)

  /**
   * The stored ecosystem. `details` holds the descriptive fields (name,
   * description, logo, rolesAndObligations, ...) by name.
   */
  datatype Ecosystem = Ecosystem(
    orchestrator: Id,
    administrator: Id,
    contract: Option<Id>,
    participants: seq<Member>,
    invitations: seq<Request>,
    joinRequests: seq<Request>,
    details: map<string, Value>)

  function RequestOf(who: Id): Request -> bool {
    (r: Request) => r.participant == who
  }

  function RequestOfWithStatus(who: Id, s: Status): Request -> bool {
    (r: Request) => r.participant == who && r.status == s
  }

  function MemberOf(who: Id): Member -> bool {
    (m: Member) => m.participant == who
  }

  // ---------------------------------------------------------------------
  // getInvitations and getJoinRequests

  /** `rs.filter(r => r.status === s)`. */
  function WithStatus(rs: seq<Request>, s: Status): (r: seq<Request>)
    ensures |r| <= |rs|
    ensures forall x :: x in r <==> x in rs && x.status == s
  {
    if rs == [] then []
    else (if rs[0].status == s then [rs[0]] else []) + WithStatus(rs[1..], s)
  }

  /** Filtering keeps the order of the list: it distributes over concatenation. */
  lemma {:induction false} WithStatusDistributes(a: seq<Request>, b: seq<Request>, s: Status)
    ensures WithStatus(a + b, s) == WithStatus(a, s) + WithStatus(b, s)
  {
    if a == [] {
      assert a + b == b;
    } else {
      assert (a + b)[0] == a[0];
      assert (a + b)[1..] == a[1..] + b;
      WithStatusDistributes(a[1..], b, s);
    }
  }

  /** The statuses getJoinRequests accepts as a filter; every other query value selects no status, and the handler then returns every join request. */
  function StatusFilter(filter: Option<string>): (r: Option<Status>)
    ensures r.Some? <==> filter in {Some("Pending"), Some("Authorized"), Some("Rejected")}
    ensures r == Some(Pending) <==> filter == Some("Pending")
    ensures r == Some(Authorized) <==> filter == Some("Authorized")
    ensures r == Some(Rejected) <==> filter == Some("Rejected")
    ensures r != Some(Signed)
  {
    if filter == Some("Pending") then Some(Pending)
    else if filter == Some("Authorized") then Some(Authorized)
    else if filter == Some("Rejected") then Some(Rejected)
    else None
  }

  // ---------------------------------------------------------------------
  // updateEcosystemById: the participantRoles loop

  /**
   * One iteration of the `participantRoles.forEach` body applied to one list:
   * every entry whose participant is NOT `p.participantId` gets `p.roles`.
   */
  function Reassign(rs: seq<Request>, p: RoleAssignment): (r: seq<Request>)
    ensures |r| == |rs|
    ensures forall i :: 0 <= i < |rs| && rs[i].participant == p.participantId ==> r[i] == rs[i]
    ensures forall i :: 0 <= i < |rs| && rs[i].participant != p.participantId ==> r[i] == rs[i].(roles := p.roles)
  {
    seq(|rs|, i requires 0 <= i < |rs| =>
      if rs[i].participant == p.participantId then rs[i] else rs[i].(roles := p.roles))
  }

  /** The list after the loop has run over `ps` in order. */
  function AssignRoles(rs: seq<Request>, ps: seq<RoleAssignment>): (r: seq<Request>)
    ensures |r| == |rs|
    ensures forall i :: 0 <= i < |rs| ==> r[i] == rs[i].(roles := r[i].roles)
    decreases |ps|
  {
    if ps == [] then rs
    else Reassign(AssignRoles(rs, ps[..|ps| - 1]), ps[|ps| - 1])
  }

  /**
   * An entry ends with the roles of the LAST assignment whose id differs
   * from the entry's own participant.
   */
  lemma {:induction false} AssignRolesTakesLastOther(rs: seq<Request>, ps: seq<RoleAssignment>, i: int, k: int)
    requires 0 <= i < |rs| && 0 <= k < |ps|
    requires ps[k].participantId != rs[i].participant
    requires forall j :: k < j < |ps| ==> ps[j].participantId == rs[i].participant
    ensures AssignRoles(rs, ps)[i] == rs[i].(roles := ps[k].roles)
    decreases |ps|
  {
    var last := |ps| - 1;
    var before := AssignRoles(rs, ps[..last]);
    assert AssignRoles(rs, ps) == Reassign(before, ps[last]);
    if k < last {
      AssignRolesTakesLastOther(rs, ps[..last], i, k);
    }
  }

  /** An entry named by every assignment of the loop keeps its roles. */
  lemma {:induction false} AssignRolesSkipsNamedEntry(rs: seq<Request>, ps: seq<RoleAssignment>, i: int)
    requires 0 <= i < |rs|
    requires forall j :: 0 <= j < |ps| ==> ps[j].participantId == rs[i].participant
    ensures AssignRoles(rs, ps)[i] == rs[i]
    decreases |ps|
  {
    if ps != [] {
      var last := |ps| - 1;
      AssignRolesSkipsNamedEntry(rs, ps[..last], i);
      assert AssignRoles(rs, ps) == Reassign(AssignRoles(rs, ps[..last]), ps[last]);
    }
  }

  // ---------------------------------------------------------------------
  // updateEcosystemById: the `$set` document

  const AllowedKeys: set<string> := {
    "name", "description", "location", "country_or_region", "target_audience",
    "main_functionalities_needed", "logo", "useCases", "searchedServices",
    "searchedData", "provides", "businessLogic", "contract", "rolesAndObligations",
    "buildingBlocks"
  }

  /**
   * The body of an update: the two arrays the handler reads by name (absent
   * when `None`) and every other key of the body with its value.
   */
  datatype UpdateRequest = UpdateRequest(
    participantRoles: Option<seq<RoleAssignment>>,
    rolesAndObligations: Option<seq<RoleObligation>>,
    fields: map<string, Value>)

  function BodyKeys(req: UpdateRequest): set<string> {
    (req.fields.Keys - {"participantRoles", "rolesAndObligations"})
    + (if req.participantRoles.Some? then {"participantRoles"} else {})
    + (if req.rolesAndObligations.Some? then {"rolesAndObligations"} else {})
  }

  function Assignments(req: UpdateRequest): seq<RoleAssignment> {
    if req.participantRoles.Some? then req.participantRoles.value else []
  }

  /** `Object.fromEntries(Object.entries(req.body).filter(([key]) => allowedKeys.includes(key)))`. */
  function UpdateFields(req: UpdateRequest): (r: map<string, Value>)
    ensures r.Keys == BodyKeys(req) * AllowedKeys
    ensures "participantRoles" !in r
    ensures forall k :: k in r && k != "rolesAndObligations" ==> k in req.fields && r[k] == req.fields[k]
    ensures req.rolesAndObligations.Some? ==> r["rolesAndObligations"] == Obligations(req.rolesAndObligations.value)
  {
    var copied := map k | k in req.fields && k in AllowedKeys && k != "rolesAndObligations" :: req.fields[k];
    if req.rolesAndObligations.Some? then copied["rolesAndObligations" := Obligations(req.rolesAndObligations.value)]
    else copied
  }

  /** How the `contract` path casts a `$set` value; `None` is a cast error. */
  function ContractCast(v: Value): Option<Option<Id>> {
    match v
    case Reference(i) => Some(Some(i))
    case Null => Some(None)
    case _ => None
  }

  /** `findByIdAndUpdate(id, { $set: fields })`; `None` when the cast fails and nothing is written. */
  function ApplySet(e: Ecosystem, fields: map<string, Value>): (r: Option<Ecosystem>)
    ensures r.None? <==> "contract" in fields && ContractCast(fields["contract"]).None?
    ensures r.Some? ==> r.value == e.(contract := r.value.contract, details := r.value.details)
    ensures r.Some? ==> r.value.contract == if "contract" in fields then ContractCast(fields["contract"]).value else e.contract
    ensures r.Some? ==> forall k :: k in fields && k != "contract" ==> k in r.value.details && r.value.details[k] == fields[k]
    ensures r.Some? ==> forall k :: k in e.details && k !in fields.Keys - {"contract"} ==> k in r.value.details && r.value.details[k] == e.details[k]
    ensures r.Some? ==> r.value.details.Keys == e.details.Keys + (fields.Keys - {"contract"})
  {
    if "contract" in fields then
      match ContractCast(fields["contract"])
      case None => None
      case Some(c) => Some(e.(contract := c, details := e.details + (fields - {"contract"})))
    else Some(e.(details := e.details + fields))
  }

  // ---------------------------------------------------------------------
  // applyParticipantSignature

  function MarkSigned(rs: seq<Request>, k: Option<nat>): seq<Request> {
    if k.Some? && k.value < |rs| then rs[k.value := rs[k.value].(status := Signed)] else rs
  }

  /** `rs'` is `rs` with the first `Authorized` entry of `who`, if any, now `Signed`. */
  ghost predicate FirstAuthorizedSigned(rs: seq<Request>, rs': seq<Request>, who: Id) {
    && |rs'| == |rs|
    && forall i :: 0 <= i < |rs| ==>
         rs'[i] == if IsFirst(rs, i, RequestOfWithStatus(who, Authorized)) then rs[i].(status := Signed) else rs[i]
  }

  /**
   * The ecosystem after the contract service accepted `who`'s signature, or
   * `None` when `who` holds neither an `Authorized` invitation nor an
   * `Authorized` join request (the handler then fails reading `inInvite.roles`).
   */
  function AfterParticipantSignature(e: Ecosystem, who: Id): (r: Option<Ecosystem>)
    ensures r.None? <==>
      !HasMatch(e.invitations, RequestOfWithStatus(who, Authorized)) &&
      !HasMatch(e.joinRequests, RequestOfWithStatus(who, Authorized))
    ensures r.Some? ==>
      && r.value == e.(participants := r.value.participants, invitations := r.value.invitations,
                       joinRequests := r.value.joinRequests)
      && FirstAuthorizedSigned(e.invitations, r.value.invitations, who)
      && FirstAuthorizedSigned(e.joinRequests, r.value.joinRequests, who)
      && |r.value.participants| == |e.participants| + 1
      && r.value.participants[..|e.participants|] == e.participants
      && r.value.participants[|e.participants|].participant == who
    ensures r.Some? ==> forall k :: IsFirst(e.joinRequests, k, RequestOfWithStatus(who, Authorized)) ==>
      r.value.participants[|e.participants|] == Member(who, e.joinRequests[k].roles, e.joinRequests[k].offerings)
    ensures r.Some? && !HasMatch(e.joinRequests, RequestOfWithStatus(who, Authorized)) ==>
      forall k :: IsFirst(e.invitations, k, RequestOfWithStatus(who, Authorized)) ==>
        r.value.participants[|e.participants|] == Member(who, e.invitations[k].roles, e.invitations[k].offerings)
  {
    var inInvite := FindFirst(e.invitations, RequestOfWithStatus(who, Authorized));
    var inJoinReq := FindFirst(e.joinRequests, RequestOfWithStatus(who, Authorized));
    if inInvite.None? && inJoinReq.None? then None
    else
      var from := if inJoinReq.Some? then e.joinRequests[inJoinReq.value] else e.invitations[inInvite.value];
      Some(e.(invitations := MarkSigned(e.invitations, inInvite),
              joinRequests := MarkSigned(e.joinRequests, inJoinReq),
              participants := e.participants + [Member(who, from.roles, from.offerings)]))
  }

  /** `who` holds at most one `Authorized` entry in `rs`. */
  ghost predicate AtMostOneAuthorized(rs: seq<Request>, who: Id) {
    forall i, j ::
      0 <= i < |rs| && 0 <= j < |rs| && RequestOfWithStatus(who, Authorized)(rs[i]) && RequestOfWithStatus(who, Authorized)(rs[j])
      ==> i == j
  }

  /** Signing marks the first `Authorized` entry; with no second one left, nothing of `who` is `Authorized` any more. */
  lemma NoAuthorizedLeft(rs: seq<Request>, rs': seq<Request>, who: Id)
    requires AtMostOneAuthorized(rs, who)
    requires FirstAuthorizedSigned(rs, rs', who)
    ensures !HasMatch(rs', RequestOfWithStatus(who, Authorized))
  {
  }

  /**
   * A participant with one `Authorized` invitation or join request at most in
   * each list cannot sign twice: the second signature finds nothing to mark
   * and the handler fails before anything is saved.
   */
  lemma SecondSignatureFindsNothing(e: Ecosystem, who: Id)
    requires AtMostOneAuthorized(e.invitations, who) && AtMostOneAuthorized(e.joinRequests, who)
    requires AfterParticipantSignature(e, who).Some?
    ensures AfterParticipantSignature(AfterParticipantSignature(e, who).value, who).None?
  {
  }

  // ---------------------------------------------------------------------
  // configureParticipantEcosystemOfferings

  function SetRequestOfferings(rs: seq<Request>, k: Option<nat>, offerings: seq<Id>): seq<Request> {
    if k.Some? && k.value < |rs| then rs[k.value := rs[k.value].(offerings := offerings)] else rs
  }

  function SetMemberOfferings(ms: seq<Member>, k: Option<nat>, offerings: seq<Id>): seq<Member> {
    if k.Some? && k.value < |ms| then ms[k.value := ms[k.value].(offerings := offerings)] else ms
  }

  /** `rs'` is `rs` with the first entry of `who`, whatever its status, carrying `offerings`. */
  ghost predicate FirstRequestOfferingsSet(rs: seq<Request>, rs': seq<Request>, who: Id, offerings: seq<Id>) {
    && |rs'| == |rs|
    && forall i :: 0 <= i < |rs| ==>
         rs'[i] == if IsFirst(rs, i, RequestOf(who)) then rs[i].(offerings := offerings) else rs[i]
  }

  /** `ms'` is `ms` with the first member entry of `who` carrying `offerings`. */
  ghost predicate FirstMemberOfferingsSet(ms: seq<Member>, ms': seq<Member>, who: Id, offerings: seq<Id>) {
    && |ms'| == |ms|
    && forall i :: 0 <= i < |ms| ==>
         ms'[i] == if IsFirst(ms, i, MemberOf(who)) then ms[i].(offerings := offerings) else ms[i]
  }

  /** The ecosystem after `who` configured `offerings`. */
  function WithOfferings(e: Ecosystem, who: Id, offerings: seq<Id>): (r: Ecosystem)
    ensures r == e.(joinRequests := r.joinRequests, invitations := r.invitations, participants := r.participants)
    ensures FirstRequestOfferingsSet(e.joinRequests, r.joinRequests, who, offerings)
    ensures FirstRequestOfferingsSet(e.invitations, r.invitations, who, offerings)
    ensures FirstMemberOfferingsSet(e.participants, r.participants, who, offerings)
  {
    var joinRequest := FindFirst(e.joinRequests, RequestOf(who));
    var invitation := FindFirst(e.invitations, RequestOf(who));
    var participant := FindFirst(e.participants, MemberOf(who));
    e.(joinRequests := SetRequestOfferings(e.joinRequests, joinRequest, offerings),
       invitations := SetRequestOfferings(e.invitations, invitation, offerings),
       participants := SetMemberOfferings(e.participants, participant, offerings))
  }

  /**
   * The invitation path end to end: an invitee whose first invitation is
   * `Authorized`, who has no join request and is not yet a member, configures
   * `offerings` and then signs; it joins with the invitation's roles and
   * those offerings, and the invitation is `Signed`.
   */
  lemma {:induction false} OfferingsCarryIntoMembership(e: Ecosystem, who: Id, offerings: seq<Id>, k: int)
    requires !HasMatch(e.joinRequests, RequestOf(who))
    requires !HasMatch(e.participants, MemberOf(who))
    requires IsFirst(e.invitations, k, RequestOf(who)) && e.invitations[k].status == Authorized
    ensures AfterParticipantSignature(WithOfferings(e, who, offerings), who).Some?
    ensures var after := AfterParticipantSignature(WithOfferings(e, who, offerings), who).value;
      && after.participants == e.participants + [Member(who, e.invitations[k].roles, offerings)]
      && after.invitations[k] == e.invitations[k].(offerings := offerings, status := Signed)
  {
  }
}
