/**
 * The handlers of the private ecosystem controller. A handler loads the
 * stored ecosystem into a document object, checks its guards, changes the
 * document in place and saves it; the HTTP reply is reduced to an outcome
 * tag. What the contract service answers is a parameter of the handler, and
 * what the handler asks of it (or of the Ecosystem model's own methods) is a
 * result.
 */
module EcosystemsController {
  import opened Common
  import opened EcosystemLogic

  /** The reply status: 200, 201, 404, 400 with its `errorMsg`, 424, or 500 through `next(err)`. */
  datatype Outcome = Ok | Created | NotFound | BadRequest(errorMsg: string) | FailedDependency | ServerError

  /** What one contract-service call gave back: a contract (with its `_id`, if any) or a thrown error. */
  datatype GatewayReply = Answered(contractId: Option<Id>) | Unavailable

  /**
   * The contract id a handler stores from the service's answer
   * (`contract?._id || null`): a missing or empty id is stored as no contract.
   */
  function StoredContractId(answered: Option<Id>): (r: Option<Id>)
    ensures r.Some? ==> r.value != "" && r == answered
    ensures answered.Some? && answered.value != "" ==> r == answered
  {
    if answered.Some? && answered.value != "" then answered else None
  }

  /** Arguments of `generateEcosystemContract`. */
  datatype GenerateCall = GenerateCall(ecosystem: Id, orchestrator: Id)

  /** Arguments of `signContract`. */
  datatype SignCall = SignCall(contractId: Id, participant: Id, signature: string, role: string)

  /** Arguments of `batchInjectRoleAndObligations`. */
  datatype InjectCall = InjectCall(contractId: Option<Id>, rolesAndObligations: seq<RoleObligation>)

  /** A call to one of the Ecosystem model's own methods, whose bodies are not part of this model. */
  datatype ModelCall =
    | Invite(participant: Id, roles: seq<string>)
    | AcceptInvitation(participant: Id, offerings: seq<Id>)
    | RequestToJoin(participant: Id, roles: seq<string>, offerings: seq<Id>)
    | AcceptJoinRequest(joinRequestId: Id, overrideRoles: seq<string>)

  /** The ecosystems collection: what has been saved, by id. */
  class Database {
    var ecosystems: map<Id, Ecosystem>

    constructor ()
      ensures ecosystems == map[]
    {
      ecosystems := map[];
    }

    /** `doc.save()`: the whole document is written at once. */
    method Save(doc: EcosystemDocument)
      modifies this
      ensures ecosystems == old(ecosystems)[doc.id := doc.Snapshot()]
    {
      ecosystems := ecosystems[doc.id := doc.Snapshot()];
    }
  }

  /** A loaded ecosystem document, changed in place by a handler until it is saved. */
  class EcosystemDocument {
    const id: Id
    var orchestrator: Id
    var administrator: Id
    var contract: Option<Id>
    var participants: seq<Member>
    var invitations: seq<Request>
    var joinRequests: seq<Request>
    var details: map<string, Value>

    function Snapshot(): Ecosystem
      reads this
    {
      Ecosystem(orchestrator, administrator, contract, participants, invitations, joinRequests, details)
    }

    constructor Load(id: Id, e: Ecosystem)
      ensures this.id == id && Snapshot() == e
    {
      this.id := id;
      orchestrator := e.orchestrator;
      administrator := e.administrator;
      contract := e.contract;
      participants := e.participants;
      invitations := e.invitations;
      joinRequests := e.joinRequests;
      details := e.details;
    }
  }

  /**
   * createEcosystem: the ecosystem is stored first, with the caller as
   * orchestrator, administrator and only participant; the contract id is
   * saved only when the contract service answered.
   */
  method CreateEcosystem(db: Database, newId: Id, caller: Id, details: map<string, Value>, generated: GatewayReply)
    returns (out: Outcome, sent: GenerateCall)
    requires newId !in db.ecosystems
    modifies db
    ensures newId in db.ecosystems && db.ecosystems == old(db.ecosystems)[newId := db.ecosystems[newId]]
    ensures var e := db.ecosystems[newId];
      && e.orchestrator == caller && e.administrator == caller
      && e.participants == [Member(caller, ["Orchestrator"], [])]
      && e.invitations == [] && e.joinRequests == [] && e.details == details
      && e.contract == (if generated.Answered? then StoredContractId(generated.contractId) else None)
    ensures sent == GenerateCall(newId, caller)
    ensures out == if generated.Answered? then Created else FailedDependency
  {
    var founded := Ecosystem(caller, caller, None, [Member(caller, ["Orchestrator"], [])], [], [], details);
    var doc := new EcosystemDocument.Load(newId, founded);
    db.Save(doc);
    sent := GenerateCall(newId, caller);
    match generated {
      case Unavailable =>
        return FailedDependency, sent;
      case Answered(contractId) =>
        doc.contract := StoredContractId(contractId);
        db.Save(doc);
    }
    out := Created;
  }

  /**
   * updateEcosystemById: the `participantRoles` loop and the role injection
   * change the loaded document, which is saved only when the injection did
   * not fail; then the allowed body fields are written with `$set`.
   */
  method UpdateEcosystemById(db: Database, id: Id, req: UpdateRequest, injected: GatewayReply)
    returns (out: Outcome, sent: Option<InjectCall>)
    modifies db
    ensures id !in old(db.ecosystems) ==> out == NotFound && sent == None && db.ecosystems == old(db.ecosystems)
    ensures id in old(db.ecosystems) ==>
      var e := old(db.ecosystems)[id];
      var injects := req.rolesAndObligations.Some? && |req.rolesAndObligations.value| > 0;
      sent == (if injects then Some(InjectCall(e.contract, req.rolesAndObligations.value)) else None)
    ensures id in old(db.ecosystems) && req.rolesAndObligations.Some? && |req.rolesAndObligations.value| > 0 &&
            injected.Unavailable? ==>
      out == FailedDependency && db.ecosystems == old(db.ecosystems)
    ensures id in old(db.ecosystems) && !(req.rolesAndObligations.Some? && |req.rolesAndObligations.value| > 0 &&
                                          injected.Unavailable?) ==>
      var e := old(db.ecosystems)[id];
      var roled := e.(invitations := AssignRoles(e.invitations, Assignments(req)),
                      joinRequests := AssignRoles(e.joinRequests, Assignments(req)));
      match ApplySet(roled, UpdateFields(req))
      case None => out == ServerError && db.ecosystems == old(db.ecosystems)[id := roled]
      case Some(updated) => out == Ok && db.ecosystems == old(db.ecosystems)[id := updated]
  {
    sent := None;
    if req.rolesAndObligations.Some? || req.participantRoles.Some? {
      if id !in db.ecosystems {
        return NotFound, None;
      }
      var e := db.ecosystems[id];
      var doc := new EcosystemDocument.Load(id, e);
      if req.participantRoles.Some? && |req.participantRoles.value| > 0 {
        var ps := req.participantRoles.value;
        var i := 0;
        while i < |ps|
          invariant 0 <= i <= |ps|
          invariant db.ecosystems == old(db.ecosystems)
          invariant doc.Snapshot() == e.(invitations := AssignRoles(e.invitations, ps[..i]),
                                         joinRequests := AssignRoles(e.joinRequests, ps[..i]))
        {
          assert ps[..i + 1][..i] == ps[..i];
          doc.invitations := Reassign(doc.invitations, ps[i]);
          doc.joinRequests := Reassign(doc.joinRequests, ps[i]);
          i := i + 1;
        }
        assert ps[..|ps|] == ps;
      }
      if req.rolesAndObligations.Some? && |req.rolesAndObligations.value| > 0 {
        sent := Some(InjectCall(doc.contract, req.rolesAndObligations.value));
        if injected.Unavailable? {
          return FailedDependency, sent;
        }
      }
      db.Save(doc);
    }
    if id !in db.ecosystems {
      return NotFound, sent;
    }
    var stored := db.ecosystems[id];
    assert db.ecosystems == old(db.ecosystems)[id := stored];
    match ApplySet(stored, UpdateFields(req)) {
      case None =>
        out := ServerError;
      case Some(updated) =>
        db.ecosystems := db.ecosystems[id := updated];
        out := Ok;
    }
  }

  /**
   * createJoinRequest: an existing participant is refused; a caller with a
   * pending invitation accepts it instead; anyone else asks to join.
   */
  method CreateJoinRequest(db: Database, id: Id, caller: Id, roles: seq<string>, requestSucceeded: bool)
    returns (out: Outcome, call: Option<ModelCall>)
    ensures id !in db.ecosystems ==> out == NotFound && call == None
    ensures id in db.ecosystems && HasMatch(db.ecosystems[id].participants, MemberOf(caller)) ==>
      out == BadRequest("existing participant") && call == None
    ensures id in db.ecosystems && !HasMatch(db.ecosystems[id].participants, MemberOf(caller)) &&
            HasMatch(db.ecosystems[id].invitations, RequestOfWithStatus(caller, Pending)) ==>
      out == Ok && call == Some(AcceptInvitation(caller, []))
    ensures id in db.ecosystems && !HasMatch(db.ecosystems[id].participants, MemberOf(caller)) &&
            !HasMatch(db.ecosystems[id].invitations, RequestOfWithStatus(caller, Pending)) ==>
      call == Some(RequestToJoin(caller, roles, [])) &&
      out == if requestSucceeded then Created else BadRequest("ecosystem join request failed")
  {
    if id !in db.ecosystems {
      return NotFound, None;
    }
    var e := db.ecosystems[id];
    var isParticipant := FindFirst(e.participants, MemberOf(caller));
    if isParticipant.Some? {
      return BadRequest("existing participant"), None;
    }
    var existingInvitation := FindFirst(e.invitations, RequestOfWithStatus(caller, Pending));
    if existingInvitation.Some? {
      return Ok, Some(AcceptInvitation(caller, []));
    }
    call := Some(RequestToJoin(caller, roles, []));
    out := if requestSucceeded then Created else BadRequest("ecosystem join request failed");
  }

  /** getInvitations: the pending invitations, in order. */
  method GetInvitations(db: Database, id: Id) returns (out: Outcome, pending: seq<Request>)
    ensures id !in db.ecosystems ==> out == NotFound && pending == []
    ensures id in db.ecosystems ==> out == Ok && pending == WithStatus(db.ecosystems[id].invitations, Pending)
  {
    if id !in db.ecosystems {
      return NotFound, [];
    }
    out, pending := Ok, WithStatus(db.ecosystems[id].invitations, Pending);
  }

  /**
   * createInvitation: a pending join request keyed by the CALLER's id (not
   * the invitee's) is accepted with the given roles; otherwise the invitee
   * is invited.
   */
  method CreateInvitation(db: Database, id: Id, caller: Id, invitee: Id, roles: seq<string>)
    returns (out: Outcome, call: Option<ModelCall>)
    ensures id !in db.ecosystems ==> out == NotFound && call == None
    ensures id in db.ecosystems ==> out == Ok
    ensures id in db.ecosystems ==> var jrs := db.ecosystems[id].joinRequests;
      forall k :: IsFirst(jrs, k, RequestOfWithStatus(caller, Pending)) ==>
        call == Some(AcceptJoinRequest(jrs[k].id, roles))
    ensures id in db.ecosystems && !HasMatch(db.ecosystems[id].joinRequests, RequestOfWithStatus(caller, Pending)) ==>
      call == Some(Invite(invitee, roles))
  {
    if id !in db.ecosystems {
      return NotFound, None;
    }
    var jrs := db.ecosystems[id].joinRequests;
    var existingJoinRequest := FindFirst(jrs, RequestOfWithStatus(caller, Pending));
    if existingJoinRequest.Some? {
      var k := existingJoinRequest.value;
      forall j | IsFirst(jrs, j, RequestOfWithStatus(caller, Pending))
        ensures j == k
      {
        FirstIsUnique(jrs, j, k, RequestOfWithStatus(caller, Pending));
      }
      return Ok, Some(AcceptJoinRequest(jrs[k].id, roles));
    }
    out, call := Ok, Some(Invite(invitee, roles));
  }

  /**
   * getJoinRequests: filtered by status only for "Pending", "Authorized" and
   * "Rejected"; any other filter, "Signed" included, gives the whole list.
   */
  method GetJoinRequests(db: Database, id: Id, filter: Option<string>) returns (out: Outcome, result: seq<Request>)
    ensures id !in db.ecosystems ==> out == NotFound && result == []
    ensures id in db.ecosystems ==> out == Ok
    ensures id in db.ecosystems && filter == Some("Pending") ==>
      result == WithStatus(db.ecosystems[id].joinRequests, Pending)
    ensures id in db.ecosystems && filter == Some("Authorized") ==>
      result == WithStatus(db.ecosystems[id].joinRequests, Authorized)
    ensures id in db.ecosystems && filter == Some("Rejected") ==>
      result == WithStatus(db.ecosystems[id].joinRequests, Rejected)
    ensures id in db.ecosystems && filter !in {Some("Pending"), Some("Authorized"), Some("Rejected")} ==>
      result == db.ecosystems[id].joinRequests
  {
    if id !in db.ecosystems {
      return NotFound, [];
    }
    var jrs := db.ecosystems[id].joinRequests;
    match StatusFilter(filter) {
      case Some(s) => result := WithStatus(jrs, s);
      case None => result := jrs;
    }
    out := Ok;
  }

  /**
   * createEcosystemContract: asks for a contract again, for whoever calls,
   * and saves its id only when the contract service answered.
   */
  method CreateEcosystemContract(db: Database, id: Id, caller: Id, generated: GatewayReply)
    returns (out: Outcome, sent: Option<GenerateCall>)
    modifies db
    ensures id !in old(db.ecosystems) ==> out == NotFound && sent == None && db.ecosystems == old(db.ecosystems)
    ensures id in old(db.ecosystems) ==> sent == Some(GenerateCall(id, caller))
    ensures id in old(db.ecosystems) && generated.Unavailable? ==>
      out == FailedDependency && db.ecosystems == old(db.ecosystems)
    ensures id in old(db.ecosystems) && generated.Answered? ==>
      out == Ok && db.ecosystems == old(db.ecosystems)[id := old(db.ecosystems)[id].(contract := StoredContractId(generated.contractId))]
  {
    if id !in db.ecosystems {
      return NotFound, None;
    }
    var doc := new EcosystemDocument.Load(id, db.ecosystems[id]);
    sent := Some(GenerateCall(id, caller));
    if generated.Unavailable? {
      return FailedDependency, sent;
    }
    doc.contract := StoredContractId(generated.contractId);
    db.Save(doc);
    out := Ok;
  }

  /**
   * applyOrchestratorSignature: needs a contract, forwards the signature
   * with role "orchestrator", and has no way to change the stored ecosystem
   * (it has no `modifies` clause).
   */
  method ApplyOrchestratorSignature(db: Database, id: Id, caller: Id, signature: string, signed: GatewayReply)
    returns (out: Outcome, sent: Option<SignCall>)
    ensures id !in db.ecosystems ==> out == NotFound && sent == None
    ensures id in db.ecosystems && db.ecosystems[id].contract.None? ==>
      out == BadRequest("Contract does not exist") && sent == None
    ensures id in db.ecosystems && db.ecosystems[id].contract.Some? ==>
      && sent == Some(SignCall(db.ecosystems[id].contract.value, caller, signature, "orchestrator"))
      && out == if signed.Answered? then Ok else FailedDependency
  {
    if id !in db.ecosystems {
      return NotFound, None;
    }
    var e := db.ecosystems[id];
    if e.contract.None? {
      return BadRequest("Contract does not exist"), None;
    }
    sent := Some(SignCall(e.contract.value, caller, signature, "orchestrator"));
    out := if signed.Answered? then Ok else FailedDependency;
  }

  /**
   * applyParticipantSignature: after the contract service accepted the
   * signature, the caller's first `Authorized` join request and invitation
   * become `Signed` and the caller joins `participants`. The "unauthorized
   * participant" reply can never be given.
   */
  method ApplyParticipantSignature(db: Database, id: Id, caller: Id, signature: string, signed: GatewayReply)
    returns (out: Outcome, sent: Option<SignCall>)
    modifies db
    ensures out != BadRequest("unauthorized participant in ecosystem")
    ensures id !in old(db.ecosystems) ==> out == NotFound && sent == None && db.ecosystems == old(db.ecosystems)
    ensures id in old(db.ecosystems) && old(db.ecosystems)[id].contract.None? ==>
      out == BadRequest("Contract does not exist") && sent == None && db.ecosystems == old(db.ecosystems)
    ensures id in old(db.ecosystems) && old(db.ecosystems)[id].contract.Some? ==>
      sent == Some(SignCall(old(db.ecosystems)[id].contract.value, caller, signature, "participant"))
    ensures id in old(db.ecosystems) && old(db.ecosystems)[id].contract.Some? && signed.Unavailable? ==>
      out == FailedDependency && db.ecosystems == old(db.ecosystems)
    ensures id in old(db.ecosystems) && old(db.ecosystems)[id].contract.Some? && signed.Answered? ==>
      match AfterParticipantSignature(old(db.ecosystems)[id], caller)
      case None => out == FailedDependency && db.ecosystems == old(db.ecosystems)
      case Some(joined) => out == Ok && db.ecosystems == old(db.ecosystems)[id := joined]
  {
    if id !in db.ecosystems {
      return NotFound, None;
    }
    var doc := new EcosystemDocument.Load(id, db.ecosystems[id]);
    if doc.contract.None? {
      return BadRequest("Contract does not exist"), None;
    }
    var inInvite := FindFirst(doc.invitations, RequestOfWithStatus(caller, Authorized));
    var inJoinReq := FindFirst(doc.joinRequests, RequestOfWithStatus(caller, Authorized));
    if inInvite.None? && inJoinReq.None? {
      // The guard re-tests the contract, which is known to be present here.
      if doc.contract.None? {
        return BadRequest("unauthorized participant in ecosystem"), None;
      }
    }
    sent := Some(SignCall(doc.contract.value, caller, signature, "participant"));
    if signed.Unavailable? {
      return FailedDependency, sent;
    }
    if inJoinReq.Some? {
      doc.joinRequests := doc.joinRequests[inJoinReq.value := doc.joinRequests[inJoinReq.value].(status := Signed)];
    }
    if inInvite.Some? {
      doc.invitations := doc.invitations[inInvite.value := doc.invitations[inInvite.value].(status := Signed)];
    }
    if inJoinReq.None? && inInvite.None? {
      // Reading the roles of the missing invitation throws; the catch replies 424 and nothing is saved.
      return FailedDependency, sent;
    }
    var from := if inJoinReq.Some? then doc.joinRequests[inJoinReq.value] else doc.invitations[inInvite.value];
    doc.participants := doc.participants + [Member(caller, from.roles, from.offerings)];
    db.Save(doc);
    out := Ok;
  }

  /**
   * configureParticipantEcosystemOfferings: sets `offerings` on the caller's
   * first entry in each of the three lists, whatever its status, and saves.
   */
  method ConfigureParticipantEcosystemOfferings(db: Database, id: Id, caller: Id, offerings: seq<Id>)
    returns (out: Outcome)
    modifies db
    ensures id !in old(db.ecosystems) ==> out == NotFound && db.ecosystems == old(db.ecosystems)
    ensures id in old(db.ecosystems) ==>
      out == Ok && db.ecosystems == old(db.ecosystems)[id := WithOfferings(old(db.ecosystems)[id], caller, offerings)]
  {
    if id !in db.ecosystems {
      return NotFound;
    }
    var doc := new EcosystemDocument.Load(id, db.ecosystems[id]);
    var joinRequest := FindFirst(doc.joinRequests, RequestOf(caller));
    var invitation := FindFirst(doc.invitations, RequestOf(caller));
    var participant := FindFirst(doc.participants, MemberOf(caller));
    if joinRequest.Some? {
      doc.joinRequests := doc.joinRequests[joinRequest.value := doc.joinRequests[joinRequest.value].(offerings := offerings)];
    }
    if invitation.Some? {
      doc.invitations := doc.invitations[invitation.value := doc.invitations[invitation.value].(offerings := offerings)];
    }
    if participant.Some? {
      doc.participants := doc.participants[participant.value := doc.participants[participant.value].(offerings := offerings)];
    }
    db.Save(doc);
    out := Ok;
  }
}
