# Ecosystem controller and contract-service simulator

This project models two parts of the catalog service.

The first part is the private ecosystem controller. An ecosystem has:

- an orchestrator and an administrator;
- an optional contract id;
- a list of `participants`;
- a list of `invitations` and a list of `joinRequests`, each entry with a status `Pending`, `Authorized`, `Rejected` or `Signed`;
- descriptive fields.

The model covers the handlers that create an ecosystem and update it, create join requests and invitations, list them, create the ecosystem contract, apply the orchestrator's and a participant's signature, and configure a participant's offerings.

The second part is the in-memory contract service the test suite installs in place of the real one. It has one store for bilateral contracts and one for ecosystem contracts. Each store keeps a single current contract and an availability switch. Each answers POST, "inject policies" and "sign" requests.

## Layout

- `common.dfy` (`Common`): `Option`, identifiers, and `FindFirst`, the first-match search behind `find`, `findIndex` and `some`.
- `ecosystem_logic.dfy` (`EcosystemLogic`): the ecosystem as a value, and the pure parts of the handlers.
  - The pure parts are the status filter, the `participantRoles` loop, the `$set` document, the result of a participant signature and the result of an offerings update.
  - The lemmas about them are here too.
- `ecosystems_controller.dfy` (`EcosystemsController`): the handlers.
  - The collection is a `Database` class whose map holds what has been saved.
  - A handler loads an `EcosystemDocument` object, changes it in place and calls `Save`. Anything a handler did not save is not persisted.
  - A handler that only reads has no `modifies` clause.
  - What the contract service answered is a `GatewayReply` parameter.
  - What the handler sent to the service, or asked of the Ecosystem model's own methods, is a result.
- `contract_fixture_logic.dfy` (`ContractFixtureLogic`): the simulator's pure parts and their lemmas. These are signature upsert, role-entry find-or-create, member upsert and the "signed" test.
- `contract_fixture.dfy` (`ContractFixture`): the two stores as classes.
  - The base contract's arrays are objects (`PolicyList`, `RoleList`, `MemberList`) that a POSTed contract shares by reference, as the JavaScript spread does.
  - Scenario methods show the consequences of that sharing.

## Behaviour modelled as the code does it

In these places the code does something other than the usual description of the system. The model follows the code.

- The `participantRoles` loop of `updateEcosystemById` gives the roles to every entry whose participant does NOT match the given id. The entry that does match is left alone (`AssignRoles`, `AssignRolesTakesLastOther`, `AssignRolesSkipsNamedEntry`).
- `createInvitation` auto-accepts a pending join request of the CALLER, not of the invitee. When the orchestrator invites someone who already asked to join, the handler does not accept that person's join request itself. It calls `invite` for them, and that call's effect is outside this model.
- In `applyParticipantSignature`, the "unauthorized participant in ecosystem" reply can never be sent. It is guarded by a second test of the contract, which is already known to exist there. A caller with no `Authorized` entry still gets its signature sent to the contract service. Then reading the roles of the missing invitation throws, and the handler replies 424 without saving anything.
- `applyOrchestratorSignature` never changes the ecosystem.
- If the role injection in an update fails, the handler replies 424 and saves nothing. Neither the role changes nor the `$set` of the other fields are written: the whole update is aborted, not only the injection.
- `createEcosystem` stores the ecosystem before it asks for a contract. If that request fails, the reply is 424 and the ecosystem stays stored without a contract.
- `createEcosystemContract` asks for a new contract on behalf of whoever calls it. It does not check that the caller is the orchestrator.
- In the simulator, a POST spreads the `rolesAndObligations` array it builds from `role`, `permission` and `prohibition` into the contract object. That creates a key `"0"`, so the role never reaches `rolesAndObligations`. Members added by a signature carry no role. So an ecosystem contract POSTed without members never becomes "signed" (`NoOrchestratorNeverSigned`, `SignaturesAloneLeavePending`).
- In the simulator, every contract POSTed without its own array shares the base contract's `policy`, `rolesAndObligations` and `members` arrays. What one contract pushes into them is seen by every later contract.

## Model

| member | source | states |
|---|---|---|
| Common.FindFirst | tests/fixtures/fixture.contract.ts:166-168 | `findIndex` returns the first index whose element satisfies the predicate, or none exactly when no element does |
| EcosystemLogic.WithStatus | src/controllers/private/v1/ecosystems.private.controller.ts:361-363 | the filtered list holds exactly the entries with the given status and is no longer than the input |
| EcosystemLogic.WithStatusDistributes | src/controllers/private/v1/ecosystems.private.controller.ts:361-363 | filtering keeps the list's order: filtering a concatenation concatenates the filtered parts |
| EcosystemLogic.Reassign | src/controllers/private/v1/ecosystems.private.controller.ts:157-171 | one iteration of the role loop: an entry whose participant is the given id is unchanged, and every other entry takes the given roles; the list keeps its length |
| EcosystemLogic.AssignRoles | src/controllers/private/v1/ecosystems.private.controller.ts:154-173 | the role loop keeps every entry in place and changes nothing but entries' roles |
| EcosystemLogic.AssignRolesTakesLastOther | src/controllers/private/v1/ecosystems.private.controller.ts:155-173 | an entry ends with the roles of the last assignment whose id differs from the entry's participant |
| EcosystemLogic.AssignRolesSkipsNamedEntry | src/controllers/private/v1/ecosystems.private.controller.ts:159-160 | an entry whose participant every assignment names keeps its roles |
| EcosystemLogic.StatusFilter | src/controllers/private/v1/ecosystems.private.controller.ts:520-524 | exactly the filters "Pending", "Authorized" and "Rejected" select a status, each its own; no filter selects `Signed` |
| EcosystemLogic.UpdateFields | src/controllers/private/v1/ecosystems.private.controller.ts:127-194 | the `$set` document holds exactly the body keys that are among the fifteen allowed keys, with their values, and never `participantRoles` |
| EcosystemLogic.ApplySet | src/controllers/private/v1/ecosystems.private.controller.ts:196-202 | the update fails exactly when `contract` does not cast to an id or null; otherwise it sets the contract and the given fields, keeps the other fields, adds no other field, and never touches members, invitations or join requests |
| EcosystemLogic.AfterParticipantSignature | src/controllers/private/v1/ecosystems.private.controller.ts:756-794 | fails exactly when the caller has no `Authorized` entry in either list; otherwise the first `Authorized` entry in each list becomes `Signed`, and the caller is appended once to `participants`, with roles and offerings from the join request if there is one, else from the invitation |
| EcosystemLogic.NoAuthorizedLeft | src/controllers/private/v1/ecosystems.private.controller.ts:781-782 | marking the only `Authorized` entry `Signed` leaves the caller no `Authorized` entry |
| EcosystemLogic.SecondSignatureFindsNothing | src/controllers/private/v1/ecosystems.private.controller.ts:756-794 | with at most one `Authorized` entry per list, signing a second time finds nothing to mark and fails, so nobody joins twice |
| EcosystemLogic.WithOfferings | src/controllers/private/v1/ecosystems.private.controller.ts:838-850 | the caller's first join request, first invitation and first participant entry, whatever their status, take the offerings; nothing else changes |
| EcosystemLogic.OfferingsCarryIntoMembership | src/controllers/private/v1/ecosystems.private.controller.ts:781-792 | an invitee with an `Authorized` invitation who configures offerings and then signs joins with the invitation's roles and those offerings, and the invitation becomes `Signed` |
| EcosystemsController.StoredContractId | src/controllers/private/v1/ecosystems.private.controller.ts:98 | the stored contract id is the answered id when that is present and non-empty, and no contract otherwise |
| EcosystemsController.CreateEcosystem | src/controllers/private/v1/ecosystems.private.controller.ts:72-112 | stores the ecosystem with the caller as orchestrator, administrator and only participant; asks for a contract for it; stores the contract id and replies 201 when answered, else replies 424 with the ecosystem still stored |
| EcosystemsController.UpdateEcosystemById | src/controllers/private/v1/ecosystems.private.controller.ts:145-208 | 404 for an unknown id; a failed role injection gives 424 with nothing saved; otherwise the role loop is saved, then the `$set` is applied (500 on a cast error, the role loop's changes kept) |
| EcosystemsController.CreateJoinRequest | src/controllers/private/v1/ecosystems.private.controller.ts:255-304 | refuses an existing participant; accepts the caller's pending invitation instead of a request; otherwise asks to join with the roles and no offerings, 201 or 400 as the request went |
| EcosystemsController.GetInvitations | src/controllers/private/v1/ecosystems.private.controller.ts:353-365 | replies with exactly the pending invitations, in order |
| EcosystemsController.CreateInvitation | src/controllers/private/v1/ecosystems.private.controller.ts:387-416 | accepts the first pending join request of the caller, with the given roles overriding; otherwise invites the invitee |
| EcosystemsController.GetJoinRequests | src/controllers/private/v1/ecosystems.private.controller.ts:515-526 | filters by status for "Pending", "Authorized" and "Rejected"; any other filter gives the whole list |
| EcosystemsController.CreateEcosystemContract | src/controllers/private/v1/ecosystems.private.controller.ts:605-632 | asks for a contract for the ecosystem and the caller; saves its id when answered, else 424 with nothing saved |
| EcosystemsController.ApplyOrchestratorSignature | src/controllers/private/v1/ecosystems.private.controller.ts:682-719 | refuses when there is no contract; otherwise sends the signature with role "orchestrator"; 200 or 424, and the ecosystem is never changed |
| EcosystemsController.ApplyParticipantSignature | src/controllers/private/v1/ecosystems.private.controller.ts:737-808 | refuses when there is no contract; otherwise sends the signature with role "participant"; on an answer stores `AfterParticipantSignature`, or replies 424 with nothing saved; never replies "unauthorized participant" |
| EcosystemsController.ConfigureParticipantEcosystemOfferings | src/controllers/private/v1/ecosystems.private.controller.ts:825-854 | stores `WithOfferings` for the caller |
| ContractFixtureLogic.MockRules | tests/fixtures/fixture.contract.ts:50-58 | one mock rule per injected rule id, in input order |
| ContractFixtureLogic.UpsertSignature | tests/fixtures/fixture.contract.ts:75-82 | the party's first signature takes the new value and the length is unchanged; a new party is appended |
| ContractFixtureLogic.ResignReplaces | tests/fixtures/fixture.contract.ts:75-82 | signing twice as the same party is the same as signing once with the last value |
| ContractFixtureLogic.UpsertSignatureKeepsPartiesDistinct | tests/fixtures/fixture.contract.ts:75-82 | signing never gives a party a second signature entry |
| ContractFixtureLogic.InjectRole | tests/fixtures/fixture.contract.ts:165-181 | the role's first entry gets one more mock policy; a role without an entry gets a new entry holding one mock policy |
| ContractFixtureLogic.InjectRoles | tests/fixtures/fixture.contract.ts:164-182 | the loop over a batch adds at most one entry per injected role; `InjectRolesKeepsEntryRoles`, `InjectRolesPolicyCount`, `InjectRolesKeepsRolesDistinct` and `InjectRolesRoleNames` state what it does to each entry |
| ContractFixtureLogic.InjectRolesKeepsEntryRoles | tests/fixtures/fixture.contract.ts:164-182 | the loop never moves an existing entry or changes its role |
| ContractFixtureLogic.InjectRoleKeepsFirst | tests/fixtures/fixture.contract.ts:166-181 | an injection does not move the entry a lookup of a role stops at |
| ContractFixtureLogic.InjectRolePolicyCount | tests/fixtures/fixture.contract.ts:166-181 | one injection adds one policy to the injected role and none to any other role |
| ContractFixtureLogic.InjectRolesPolicyCount | tests/fixtures/fixture.contract.ts:164-182 | after a batch, each role has one more policy per occurrence in the batch |
| ContractFixtureLogic.InjectRolesKeepsRolesDistinct | tests/fixtures/fixture.contract.ts:166-175 | find-or-create never gives a role a second entry |
| ContractFixtureLogic.InjectRoleRoleNames | tests/fixtures/fixture.contract.ts:169-175 | one injection adds the injected role to the roles with an entry |
| ContractFixtureLogic.InjectRolesRoleNames | tests/fixtures/fixture.contract.ts:164-182 | after a batch, the roles with an entry are the earlier ones plus the injected ones |
| ContractFixtureLogic.UpsertMember | tests/fixtures/fixture.contract.ts:197-207 | the participant's first member entry takes the signature; a new participant is appended without a role |
| ContractFixtureLogic.ReadyToSign | tests/fixtures/fixture.contract.ts:208-217 | holds exactly when there are two members or more and the first member with role "orchestrator" has a non-empty signature |
| ContractFixtureLogic.SignatureNeedsExistingOrchestrator | tests/fixtures/fixture.contract.ts:197-217 | a signature can complete the contract only if a member with role "orchestrator" was already there |
| ContractFixtureLogic.NoOrchestratorNeverSigned | tests/fixtures/fixture.contract.ts:197-217 | without an orchestrator member, no sequence of signatures adds one or makes the contract signed |
| ContractFixture.BilateralStore.constructor | tests/fixtures/fixture.contract.ts:4-20 | the store starts available, with an empty base policy array and the empty contract |
| ContractFixture.BilateralStore.SetAvailability | tests/fixtures/fixture.contract.ts:4-7 | the store is unavailable exactly when availability is false |
| ContractFixture.BilateralStore.Post | tests/fixtures/fixture.contract.ts:25-42 | 500 when unavailable or without a contract; otherwise the new contract has the fixed id, the given or "pending" status, and its own policy array or else the base one |
| ContractFixture.BilateralStore.InjectPolicies | tests/fixtures/fixture.contract.ts:44-64 | appends one mock rule per rule id to the current policy array; 500 when unavailable, or on the empty contract for a non-empty batch |
| ContractFixture.BilateralStore.Sign | tests/fixtures/fixture.contract.ts:66-91 | upserts the signature, starting from an empty list when there is none; exactly two signatures make the status "signed" |
| ContractFixture.EcosystemContractStore.constructor | tests/fixtures/fixture.contract.ts:8-120 | the store starts available, as the flag's initialiser at line 8 sets it, with empty base role and member arrays and the empty contract |
| ContractFixture.EcosystemContractStore.SetAvailability | tests/fixtures/fixture.contract.ts:8-11 | the store is unavailable exactly when availability is false |
| ContractFixture.EcosystemContractStore.Post | tests/fixtures/fixture.contract.ts:125-156 | 500 when unavailable or without a contract; otherwise the fixed id, the given or "pending" status, and the request's arrays or else the base ones |
| ContractFixture.EcosystemContractStore.InjectPolicies | tests/fixtures/fixture.contract.ts:158-188 | the role entries become `InjectRoles` of the batch; 500 when unavailable, or on the empty contract for a non-empty batch |
| ContractFixture.EcosystemContractStore.Sign | tests/fixtures/fixture.contract.ts:190-223 | the members become `UpsertMember` of the signature, and the status becomes "signed" exactly when `ReadyToSign` holds; 500 when unavailable or on the empty contract |
| ContractFixture.PolicySharedAcrossContracts | tests/fixtures/fixture.contract.ts:31-57 | a rule injected into one bilateral contract is in the next contract POSTed without a policy |
| ContractFixture.BilateralRequestsBeforePost | tests/fixtures/fixture.contract.ts:44-91 | before any POST, a policy injection fails while a signature succeeds |
| ContractFixture.BilateralSignedByTwoParties | tests/fixtures/fixture.contract.ts:75-85 | the same party signing twice leaves the contract pending; a second party makes it signed |
| ContractFixture.RolesSharedAcrossContracts | tests/fixtures/fixture.contract.ts:145-182 | role policies injected into one ecosystem contract are in the next contract POSTed without roles |
| ContractFixture.MembersSharedAcrossContracts | tests/fixtures/fixture.contract.ts:145-207 | a member who signed one ecosystem contract is a member of the next contract POSTed without members |
| ContractFixture.SignaturesAloneLeavePending | tests/fixtures/fixture.contract.ts:197-217 | two signatures on a contract POSTed without members leave it pending |
| ContractFixture.OrchestratorAndParticipantSign | tests/fixtures/fixture.contract.ts:197-217 | a contract POSTed with an orchestrator member is signed once that member and one more have signed |

## Left out

- Persistence, HTTP and authentication are reduced to what the handlers read and write. Mongoose documents, population, `lean`, response bodies and the `next(err)` path for database errors are not modelled. The database never fails.
- New ecosystem ids are a parameter of `CreateEcosystem`, not generated.
- EcosystemsController.CreateEcosystem: the descriptive fields are stored as given. The defaults (`""`, `[]`, the default logo) are not applied.
- The Ecosystem model's own methods (`invite`, `acceptInvitation`, `requestToJoin`, `acceptJoinRequest`) are not part of this model. A handler returns the call it makes as a `ModelCall`. Their effect on the stored ecosystem and their errors are not modelled, except `requestToJoin`'s success flag.
- The contract service as the controller sees it is an answer parameter. The HTTP client, timeouts and upstream error details are not modelled.
- `getMyEcosystems`, `deleteEcosystemById`, `getAllInvitations`, `acceptInvitation`, `denyInvitation`, `authorizeJoinRequest`, `rejectJoinRequest` and `getEcosystemContract` are not part of this model.
- A `contract` value given to an update's `$set` is never the empty string. The handlers' `!ecosystem.contract` test would treat a stored empty id as no contract; the model stores an empty id only through `$set`.
- `populate` turns participant references into documents, and `getDocumentId` turns them back into ids. Both are identity on ids here.
- The simulator's GET and DELETE handlers, its reply bodies, the dates and the fields no handler reads (`serviceOfferings`, `purpose`, `revokedMembers`) are not modelled.
- ContractFixture.EcosystemContractStore.Post: the key `"0"` that the array spread adds, and the `role`, `permission` and `prohibition` of the request, are not recorded.
- Requests whose JSON does not parse, or whose bodies have the wrong shape (an injection list that is not an array, a non-array `policy`), are not modelled. Extra fields of a signature request are not modelled either. The bilateral store keeps them when a party signs for the first time, and neither store reads them.
- Each handler is modelled as one atomic step. The `await`s on the contract service and the database are points where other requests can run; interleaving at those points is not modelled.
- The axios mock adapter and the module-level state of the simulator are not modelled. Each store is an object created fresh.
