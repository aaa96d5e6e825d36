/** Grants, policy decisions, authorizations, external proofs, and the settlements that rest on them. */
module Settlement {
  import opened Text
  import opened JsonValues
  import opened Artifacts
  import opened Capabilities

  // ---- the artifacts ----

  datatype Capability = Capability(capability: string, scope: string, createdAt: string)

  datatype Grant = Grant(capabilityId: string, terms: Terms, grantedBy: string, grantedAt: string, revokedAt: string)

  /** The copy of a grant the capability resolver reads; older ledgers hold only these. */
  datatype CreGrant = CreGrant(terms: Terms, revokedAt: string)

  datatype Revocation = Revocation(grantId: string, reason: string, revokedAt: string, revokedBy: string)

  datatype Authorization = Authorization(
    status: string, canExecute: bool, entity: string, proofKey: string, capabilityId: string,
    capability: string, scope: string, intentApprovalId: string, intentId: string, policyDecisionId: string,
    matchedGrants: seq<string>, decision: string, reasonCodes: seq<string>, inputHash: string,
    authorizedAt: string, expiresAt: string)

  datatype PolicyEvaluation = PolicyEvaluation(
    intentType: string, facts: Json, factsHash: string, inputHash: string, policyVersion: string, evaluatedAt: string)

  datatype PolicyDecision = PolicyDecision(
    evaluationId: string, decision: string, reasonCodes: seq<string>, decidedAt: string)

  datatype VerificationPath = VerificationPath(sourceDomain: string, proofType: string, verifier: string,
    verifiedAt: string)

  datatype FinalityClaim = FinalityClaim(sourceDomain: string, referenceId: string, finality: string, claimedAt: string)

  datatype Fact = Fact(sourceDomain: string, factType: string, referenceId: string, payload: Json, observedAt: string)

  datatype ExternalProof = ExternalProof(
    sourceDomain: string, proofType: string, reference: Json, pathId: string, finalityId: string, factId: string,
    replayKey: string, status: string, observedAt: string, proofHash: string)

  datatype Transaction = Transaction(
    kind: string, authorizationId: string, proofId: string, decisionId: string, payload: Json, executedAt: string)

  datatype Operation = Operation(transactionId: string, kind: string, idempotencyKey: string, appliedAt: string)

  datatype Lineage = Lineage(
    facts: seq<string>, evaluationId: string, decisionId: string, capabilityIds: seq<string>,
    grantIds: seq<string>, authorizationId: string, transactionId: string, operationId: string)

  datatype SettlementProof = SettlementProof(
    operationId: string, transactionId: string, lineage: Lineage, proofHash: string, issuedAt: string)

  /** The stores of the ledger that settlement reads and writes. */
  datatype Market = Market(
    capabilities: Store<Capability>, controlGrants: Store<Grant>, capabilityGrants: Store<CreGrant>,
    revocations: Store<Revocation>, authorizations: Store<Authorization>,
    evaluations: Store<PolicyEvaluation>, decisions: Store<PolicyDecision>,
    paths: Store<VerificationPath>, finalities: Store<FinalityClaim>, facts: Store<Fact>,
    externalProofs: Store<ExternalProof>, replayKeys: seq<string>,
    transactions: Store<Transaction>, operations: Store<Operation>,
    settlementProofs: Store<SettlementProof>, settledKeys: seq<string>)

  const EMPTY_MARKET := Market([], [], [], [], [], [], [], [], [], [], [], [], [], [], [], [])

  // ---- what the operations are given; an empty text is a field left out ----

  datatype CapabilityInput = CapabilityInput(id: string, capability: string, scope: string, createdAt: string)

  datatype GrantInput = GrantInput(
    id: string, entity: string, key: string, capability: string, scope: string, status: string, policy: string,
    capabilityId: string, grantedBy: string, grantedAt: string, expiresAt: string, revokedAt: string)

  datatype RevokeInput = RevokeInput(
    grantId: string, revocationId: string, reason: string, revokedAt: string, revokedBy: string)

  datatype PolicyInput = PolicyInput(
    intentType: string, facts: Json, intent: Json, context: Json, policyVersion: string, evaluatedAt: string,
    evaluationId: string, decisionId: string, decidedAt: string)

  /** What the policy engine answered, with the reason codes read off it. */
  datatype PolicyResult = PolicyResult(
    decision: string, isOk: bool, wantsEvidence: bool, wantsAuthorization: bool, reasonCodes: seq<string>)

  /** What the check of the intent approval said. */
  datatype Binding = Binding(isOk: bool, reasonCodes: seq<string>)

  datatype AuthorizationInput = AuthorizationInput(
    id: string, entity: string, proofKey: string, capability: string, scope: string, policyDecisionId: string,
    intentApprovalId: string, intentId: string, authorizedAt: string, expiresAt: string, approval: Binding)

  datatype ProofInput = ProofInput(
    id: string, sourceDomain: string, proofType: string, reference: Fields, referenceId: string, observedAt: string,
    allowDuplicate: bool, pathId: string, verifier: string, verifiedAt: string, finalityId: string, finality: string,
    claimedAt: string, factId: string, factType: string, normalizedPayload: Json, payload: Json, proofPayload: Json,
    status: string)

  datatype SettleInput = SettleInput(
    authorizationId: string, externalProofId: string, idempotencyKey: string, purchaseIntentId: Json,
    transactionId: string, transactionType: string, payload: Json, executedAt: string, operationId: string,
    operationType: string, appliedAt: string, settlementProofId: string, issuedAt: string)

  datatype Settled = Settled(
    transaction: Item<Transaction>, operation: Item<Operation>, proof: Item<SettlementProof>)

  // ---- capabilities and grants ----

  const NEEDS_CAPABILITY := "capability and scope are required"
  const NO_WILDCARDS := "wildcard capabilities are not part of Authority Runtime v1"
  const BAD_ENTITY := "entity_l1_address must be an sl1e_ v1 entity address"
  const BAD_KEY := "proof_key_l1_address must be an sl1_ v1 key address"

  function CapabilityFault(capability: string, scope: string): Option<string> {
    if capability == "" || scope == "" then Some(NEEDS_CAPABILITY)
    else if '*' in capability || '*' in scope then Some(NO_WILDCARDS)
    else None
  }

  function CapabilityId(env: Env, capability: string, scope: string): string {
    ArtifactId(env.h, "cap", Obj(map["capability" := Str(capability), "scope" := Str(scope)]), 20)
  }

  function BuildCapability(env: Env, input: CapabilityInput, now: int): Result<Item<Capability>, string> {
    match CapabilityFault(input.capability, input.scope)
    case Some(message) => Failure(message)
    case None =>
      Success(Item(OrElse(input.id, CapabilityId(env, input.capability, input.scope)),
                    Capability(input.capability, input.scope, OrElse(input.createdAt, env.iso(now)))))
  }

  function RegisterCapability(env: Env, m: Market, input: CapabilityInput, now: int)
    : (r: (Market, Result<Item<Capability>, string>))
    ensures r.0.(capabilities := m.capabilities) == m
    ensures r.1.Failure? ==> r.0 == m
  {
    var built := BuildCapability(env, input, now);
    (if built.Success? then m.(capabilities := UpsertById(m.capabilities, built.value)) else m, built)
  }

  /** The message of the first check a grant fails. */
  function GrantFault(input: GrantInput): Option<string> {
    var status, policy := Lower(OrElse(input.status, "active")), Lower(OrElse(input.policy, "allow"));
    var fault := CapabilityFault(input.capability, input.scope);
    if fault.Some? then fault
    else if NormalizeEntity(input.entity) == "" then Some(BAD_ENTITY)
    else if input.key != "" && NormalizeKey(input.key) == "" then Some(BAD_KEY)
    else if status !in ["active", "revoked", "expired"] then Some("Unsupported grant status")
    else if policy !in ["deny", "require_quorum", "require_approval", "allow"] then Some("Unsupported grant policy")
    else if input.grantedBy != "" && NormalizeEntity(input.grantedBy) == "" then Some(BAD_ENTITY)
    else None
  }

  function GrantTerms(input: GrantInput): Terms {
    Terms(NormalizeEntity(input.entity), NormalizeKey(input.key), input.capability, input.scope,
          Lower(OrElse(input.policy, "allow")), Lower(OrElse(input.status, "active")), input.expiresAt)
  }

  function GrantBasis(env: Env, input: GrantInput, now: int): Json {
    var t := GrantTerms(input);
    Obj(map["entity_l1_address" := Str(t.entity), "key_l1_address" := TextOrNone(t.key),
            "capability" := Str(t.capability), "scope" := Str(t.scope), "policy" := Str(t.policy),
            "granted_by_entity_l1_address" := TextOrNone(input.grantedBy),
            "granted_at" := Str(OrElse(input.grantedAt, env.iso(now)))])
  }

  function BuildControlGrant(env: Env, input: GrantInput, now: int): (r: Result<Item<Grant>, string>)
    ensures r.Success? ==> r.value.id != "" && r.value.body.capabilityId != ""
    ensures r.Success? ==> CapabilityFault(r.value.body.terms.capability, r.value.body.terms.scope).None?
  {
    match GrantFault(input)
    case Some(message) => Failure(message)
    case None =>
      Success(Item(
        OrElse(input.id, ArtifactId(env.h, "grant", GrantBasis(env, input, now), 24)),
        Grant(OrElse(input.capabilityId, CapabilityId(env, input.capability, input.scope)), GrantTerms(input),
              NormalizeEntity(input.grantedBy), OrElse(input.grantedAt, env.iso(now)), input.revokedAt)))
  }

  function GrantStored(env: Env, m: Market, grant: Item<Grant>, now: int): Market {
    var g := grant.body;
    var createdAt := OrElse(g.grantedAt, env.iso(now));
    var capability := Item(g.capabilityId, Capability(g.terms.capability, g.terms.scope, createdAt));
    m.(capabilities := UpsertById(m.capabilities, capability),
       controlGrants := UpsertById(m.controlGrants, grant),
       capabilityGrants := UpsertById(m.capabilityGrants, Item(grant.id, CreGrant(g.terms, ""))))
  }

  function CreateControlGrant(env: Env, m: Market, input: GrantInput, now: int)
    : (r: (Market, Result<Item<Grant>, string>))
    ensures r.0.(capabilities := m.capabilities, controlGrants := m.controlGrants,
              capabilityGrants := m.capabilityGrants) == m
    ensures r.1.Failure? ==> r.0 == m
  {
    var built := BuildControlGrant(env, input, now);
    (if built.Success? then GrantStored(env, m, built.value, now) else m, built)
  }

  function GrantRevoked(store: Store<Grant>, id: string, revokedAt: string): Store<Grant> {
    match FindItem(store, id)
    case None => store
    case Some(g) => UpsertById(store, Item(id, g.(terms := g.terms.(status := "revoked"), revokedAt := revokedAt)))
  }

  function CreGrantRevoked(store: Store<CreGrant>, id: string, revokedAt: string): Store<CreGrant> {
    match FindItem(store, id)
    case None => store
    case Some(g) => UpsertById(store, Item(id, CreGrant(g.terms.(status := "revoked"), revokedAt)))
  }

  /** Both copies of the grant are marked, and the revocation is recorded. */
  function RevokeControlGrant(env: Env, m: Market, input: RevokeInput, now: int)
    : (r: (Market, Result<Item<Revocation>, string>))
    ensures r.0.(controlGrants := m.controlGrants, capabilityGrants := m.capabilityGrants,
              revocations := m.revocations) == m
    ensures r.1.Failure? ==> r.0 == m
  {
    var id, revokedAt := input.grantId, OrElse(input.revokedAt, env.iso(now));
    var basis := Obj(map["grant_id" := Str(id), "revoked_at" := Str(revokedAt)]);
    var revocation := Item(
      OrElse(input.revocationId, ArtifactId(env.h, "revoke", basis, 20)),
      Revocation(id, OrElse(input.reason, "revoked"), revokedAt, NormalizeEntity(input.revokedBy)));
    if id == "" then (m, Failure("grant_id is required"))
    else if !Has(m.controlGrants, id) && !Has(m.capabilityGrants, id) then (m, Failure("ControlGrant not found"))
    else if input.revokedBy != "" && NormalizeEntity(input.revokedBy) == "" then (m, Failure(BAD_ENTITY))
    else
      (m.(controlGrants := GrantRevoked(m.controlGrants, id, revokedAt),
          capabilityGrants := CreGrantRevoked(m.capabilityGrants, id, revokedAt),
          revocations := UpsertById(m.revocations, revocation)),
       Success(revocation))
  }

  // ---- policy ----

  function NormalizePolicyDecision(result: PolicyResult): string {
    if result.decision != "" then Lower(result.decision)
    else if result.isOk then "allow"
    else if result.wantsEvidence then "require_more_evidence"
    else if result.wantsAuthorization then "require_more_authorization"
    else "deny"
  }

  function BuildEvaluation(env: Env, input: PolicyInput, now: int): Item<PolicyEvaluation> {
    var none := Obj(map[]);
    var facts := Or(input.facts, Obj(map["intent" := Or(input.intent, none), "context" := Or(input.context, none)]));
    var version := OrElse(input.policyVersion, "runtime-policy-v1");
    var at := OrElse(input.evaluatedAt, env.iso(now));
    var factsHash := HashObject(env.h, facts);
    var basis := Obj(map["intent_type" := Str(input.intentType), "facts_hash" := Str(factsHash),
                         "policy_version" := Str(version), "evaluated_at" := Str(at)]);
    var inputHash := HashObject(env.h, Obj(map["intent_type" := Str(input.intentType), "facts" := facts]));
    Item(OrElse(input.evaluationId, ArtifactId(env.h, "peval", basis, 24)),
          PolicyEvaluation(input.intentType, facts, factsHash, inputHash, version, at))
  }

  function BuildDecision(env: Env, input: PolicyInput, result: PolicyResult, evaluation: Item<PolicyEvaluation>)
    : Item<PolicyDecision>
  {
    var decision := NormalizePolicyDecision(result);
    var basis := Obj(map["policy_evaluation_id" := Str(evaluation.id), "decision" := Str(decision),
                         "reason_codes" := Strings(result.reasonCodes)]);
    Item(OrElse(input.decisionId, ArtifactId(env.h, "pdec", basis, 24)),
          PolicyDecision(evaluation.id, decision, result.reasonCodes,
                         OrElse(input.decidedAt, evaluation.body.evaluatedAt)))
  }

  function RecordPolicyArtifacts(env: Env, m: Market, input: PolicyInput, result: PolicyResult, now: int)
    : (r: (Market, Result<Item<PolicyDecision>, string>))
    ensures r.0.(evaluations := m.evaluations, decisions := m.decisions) == m
    ensures r.1.Failure? ==> r.0 == m
  {
    var evaluation := BuildEvaluation(env, input, now);
    var decision := BuildDecision(env, input, result, evaluation);
    if input.intentType == "" then (m, Failure("intent_type is required"))
    else
      (m.(evaluations := UpsertById(m.evaluations, evaluation), decisions := UpsertById(m.decisions, decision)),
       Success(decision))
  }

  // ---- authorization ----

  function ControlTerms(store: Store<Grant>): Store<Terms> {
    seq(|store|, i requires 0 <= i < |store| => Item(store[i].id, store[i].body.terms))
  }

  /** The resolver's copies whose id no control grant has. */
  function LegacyTerms(control: Store<Grant>, store: Store<CreGrant>): Store<Terms> {
    if store == [] then []
    else
      var rest := LegacyTerms(control, store[1..]);
      if Has(control, store[0].id) then rest else [Item(store[0].id, store[0].body.terms)] + rest
  }

  function ActiveControlGrants(m: Market): Store<Terms> {
    ControlTerms(m.controlGrants) + LegacyTerms(m.controlGrants, m.capabilityGrants)
  }

  predicate PolicyDecisionAllows(m: Market, id: string) {
    id != "" && FindItem(m.decisions, id).Some? && FindItem(m.decisions, id).value.decision == "allow"
  }

  function AuthorizationFault(input: AuthorizationInput): Option<string> {
    if NormalizeEntity(input.entity) == "" then Some(BAD_ENTITY)
    else if input.proofKey != "" && NormalizeKey(input.proofKey) == "" then Some(BAD_KEY)
    else CapabilityFault(input.capability, input.scope)
  }

  function RequestOf(input: AuthorizationInput): Request {
    Request(NormalizeEntity(input.entity), NormalizeKey(input.proofKey), input.capability, input.scope)
  }

  function AuthorizationReasons(m: Market, input: AuthorizationInput, decided: Decision): seq<string> {
    decided.reasonCodes
    + (if input.policyDecisionId == "" then ["POLICY_DECISION_REQUIRED"] else [])
    + (if PolicyDecisionAllows(m, input.policyDecisionId) then [] else ["POLICY_DECISION_NOT_ALLOW"])
    + input.approval.reasonCodes
  }

  predicate MayExecute(m: Market, input: AuthorizationInput, decided: Decision) {
    decided.decision == "allow" && PolicyDecisionAllows(m, input.policyDecisionId) && input.approval.isOk
  }

  const FIVE_MINUTES := 5 * 60 * 1000

  function AuthorizationFor(env: Env, m: Market, input: AuthorizationInput, now: int): Item<Authorization> {
    var request := RequestOf(input);
    var decided := DecideCapability(env, ActiveControlGrants(m), request, now);
    var isAllow := MayExecute(m, input, decided);
    var authorizedAt := OrElse(input.authorizedAt, env.iso(now));
    var basis := Obj(map[
      "entity_l1_address" := Str(request.entity), "proof_key_l1_address" := TextOrNone(request.key),
      "capability" := Str(input.capability), "scope" := Str(input.scope),
      "intent_approval_id" := TextOrNone(input.intentApprovalId), "intent_id" := TextOrNone(input.intentId),
      "policy_decision_id" := TextOrNone(input.policyDecisionId),
      "matched_grants" := Strings(decided.matchedGrants), "authorized_at" := Str(authorizedAt)]);
    Item(OrElse(input.id, ArtifactId(env.h, "authz", basis, 24)),
          Authorization(if isAllow then "authorized" else "denied", isAllow, request.entity, request.key,
                        CapabilityId(env, input.capability, input.scope), input.capability, input.scope,
                        input.intentApprovalId, input.intentId, input.policyDecisionId, decided.matchedGrants,
                        decided.decision, AuthorizationReasons(m, input, decided), HashObject(env.h, basis),
                        authorizedAt, OrElse(input.expiresAt, env.iso(now + FIVE_MINUTES))))
  }

  /** Denials are stored as well. */
  function BuildAuthorization(env: Env, m: Market, input: AuthorizationInput, now: int)
    : (r: (Market, Result<Item<Authorization>, string>))
    ensures r.0.(authorizations := m.authorizations) == m
    ensures r.1.Failure? ==> r.0 == m
  {
    match AuthorizationFault(input)
    case Some(message) => (m, Failure(message))
    case None =>
      var authorization := AuthorizationFor(env, m, input, now);
      (m.(authorizations := UpsertById(m.authorizations, authorization)), Success(authorization))
  }

  predicate Executable(a: Authorization) {
    a.status == "authorized" && a.canExecute
  }

  /** An expiry that is no date never passes. */
  predicate Expired(env: Env, a: Authorization, now: int) {
    a.expiresAt != "" && env.time(a.expiresAt).Some? && env.time(a.expiresAt).value <= now
  }

  /** The status of the grant with this id: the control grant's, or else that of the resolver's copy. */
  function GrantStatus(m: Market, id: string): Option<string> {
    match FindItem(m.controlGrants, id)
    case Some(g) => Some(g.terms.status)
    case None =>
      match FindItem(m.capabilityGrants, id)
      case Some(g) => Some(g.terms.status)
      case None => None
  }

  predicate GrantActive(m: Market, id: string) {
    GrantStatus(m, id) == Some("active")
  }

  predicate AllActive(m: Market, ids: seq<string>) {
    forall i :: 0 <= i < |ids| ==> GrantActive(m, ids[i])
  }

  function VerifyAuthorization(env: Env, m: Market, id: string, now: int): Result<Authorization, seq<string>> {
    var found := if id == "" then None else FindItem(m.authorizations, id);
    if found.None? then Failure(["AUTHORIZATION_NOT_FOUND"])
    else
      var a := found.value;
      if !Executable(a) then Failure(["AUTHORIZATION_NOT_EXECUTABLE"])
      else if Expired(env, a, now) then Failure(["AUTHORIZATION_EXPIRED"])
      else if !AllActive(m, a.matchedGrants) then Failure(["AUTHORIZATION_GRANT_NOT_ACTIVE"])
      else Success(a)
  }

  // ---- external proofs ----

  function ReferenceId(input: ProofInput): string {
    ToText(Or(Field(input.reference, "id"), Str(input.referenceId)))
  }

  function ReplayBasis(input: ProofInput): Json {
    Obj(map["source_domain" := Str(input.sourceDomain), "proof_type" := Str(input.proofType),
            "external_reference_id" := Str(ReferenceId(input))])
  }

  function ReplayKey(env: Env, input: ProofInput): string {
    HashObject(env.h, ReplayBasis(input))
  }

  datatype ProofParts = ProofParts(
    path: Item<VerificationPath>, finality: Item<FinalityClaim>, fact: Item<Fact>, proof: Item<ExternalProof>)

  function BuildExternalProof(env: Env, input: ProofInput, now: int): ProofParts {
    var none := Obj(map[]);
    var domain, kind, referenceId := Str(input.sourceDomain), Str(input.proofType), ReferenceId(input);
    var reference := Obj(input.reference["id" := Str(referenceId)]);
    var at := OrElse(input.observedAt, env.iso(now));
    var payload := Or(Or(input.normalizedPayload, input.payload), none);
    var pathBasis := Obj(map["sourceDomain" := domain, "proofType" := kind,
                             "externalReference" := reference, "observedAt" := Str(at)]);
    var finalityBasis := Obj(map["sourceDomain" := domain, "externalReference" := reference, "observedAt" := Str(at)]);
    var factBasis := Obj(map["sourceDomain" := domain, "proofType" := kind,
                             "externalReference" := reference, "payload" := payload]);
    var proofBasis := Obj(map["sourceDomain" := domain, "proofType" := kind,
                              "externalReference" := reference, "replayKey" := Str(ReplayKey(env, input))]);
    var path := Item(OrElse(input.pathId, ArtifactId(env.h, "vpath", pathBasis, 20)),
                      VerificationPath(input.sourceDomain, input.proofType, OrElse(input.verifier, "dev-adapter"),
                                       OrElse(input.verifiedAt, at)));
    var finality := Item(OrElse(input.finalityId, ArtifactId(env.h, "finality", finalityBasis, 20)),
                          FinalityClaim(input.sourceDomain, referenceId, OrElse(input.finality, "accepted"),
                                        OrElse(input.claimedAt, at)));
    var fact := Item(OrElse(input.factId, ArtifactId(env.h, "fact", factBasis, 24)),
                      Fact(input.sourceDomain, OrElse(input.factType, input.proofType), referenceId, payload, at));
    var proofHash := HashObject(env.h, Or(Or(input.proofPayload, input.payload), reference));
    ProofParts(path, finality, fact,
               Item(OrElse(input.id, ArtifactId(env.h, "xproof", proofBasis, 24)),
                     ExternalProof(input.sourceDomain, input.proofType, reference, path.id, finality.id, fact.id,
                                   ReplayKey(env, input), OrElse(input.status, "verified"), at, proofHash)))
  }

  /** The message of the first check an external proof fails. */
  function ProofFault(env: Env, m: Market, input: ProofInput): Option<string> {
    if input.sourceDomain == "" || input.proofType == "" || ReferenceId(input) == ""
    then Some("source_domain, proof_type and external_reference.id are required")
    else if ReplayKey(env, input) in m.replayKeys && !input.allowDuplicate then Some("ExternalProof replay detected")
    else None
  }

  function ProofStored(m: Market, parts: ProofParts, replayKey: string): Market {
    m.(paths := UpsertById(m.paths, parts.path), finalities := UpsertById(m.finalities, parts.finality),
       facts := UpsertById(m.facts, parts.fact), externalProofs := UpsertById(m.externalProofs, parts.proof),
       replayKeys := m.replayKeys + [replayKey])
  }

  function CreateExternalProof(env: Env, m: Market, input: ProofInput, now: int)
    : (r: (Market, Result<Item<ExternalProof>, string>))
    ensures r.0.(paths := m.paths, finalities := m.finalities, facts := m.facts,
              externalProofs := m.externalProofs, replayKeys := m.replayKeys) == m
    ensures r.1.Failure? ==> r.0 == m
  {
    match ProofFault(env, m, input)
    case Some(message) => (m, Failure(message))
    case None =>
      var parts := BuildExternalProof(env, input, now);
      (ProofStored(m, parts, parts.proof.body.replayKey), Success(parts.proof))
  }

  function VerifyExternalProof(m: Market, id: string): Result<ExternalProof, seq<string>> {
    var found := if id == "" then None else FindItem(m.externalProofs, id);
    if found.None? then Failure(["EXTERNAL_PROOF_NOT_FOUND"])
    else
      var p := found.value;
      if p.status != "verified" then Failure(["EXTERNAL_PROOF_NOT_VERIFIED"])
      else if !Has(m.facts, p.factId) || !Has(m.paths, p.pathId) || !Has(m.finalities, p.finalityId)
      then Failure(["EXTERNAL_PROOF_LINEAGE_INCOMPLETE"])
      else Success(p)
  }

  // ---- settlement ----

  function LineageJson(l: Lineage): Json {
    Obj(map["facts" := Strings(l.facts), "policy_evaluation_id" := Str(l.evaluationId),
            "policy_decision_id" := Str(l.decisionId), "capability_ids" := Strings(l.capabilityIds),
            "control_grant_ids" := Strings(l.grantIds), "authorization_id" := Str(l.authorizationId),
            "transaction_id" := Str(l.transactionId), "settlement_operation_id" := Str(l.operationId)])
  }

  function KeyBasis(input: SettleInput): Json {
    Obj(map["purchase_intent_id" := input.purchaseIntentId, "external_proof_id" := Str(input.externalProofId),
            "authorization_id" := Str(input.authorizationId)])
  }

  function SettlementKey(env: Env, input: SettleInput): string {
    OrElse(input.idempotencyKey, HashObject(env.h, KeyBasis(input)))
  }

  function OperationBasis(key: string, transactionId: string): Json {
    Obj(map["idempotencyKey" := Str(key), "transaction_id" := Str(transactionId)])
  }

  /** The proof's lineage names the transaction and the operation built with it. */
  function BuildSettlement(env: Env, input: SettleInput, a: Authorization, p: ExternalProof, d: PolicyDecision,
    now: int)
    : (r: Settled)
    ensures r.operation.body.idempotencyKey == SettlementKey(env, input)
    ensures r.transaction.id != "" && r.operation.id != ""
    ensures r.operation.body.transactionId == r.transaction.id && r.transaction.body.proofId == input.externalProofId
    ensures input.operationId != "" ==> r.operation.id == input.operationId
    ensures input.operationId == "" ==>
      r.operation.id == ArtifactId(env.h, "settle", OperationBasis(r.operation.body.idempotencyKey, r.transaction.id),
        24)
    ensures r.proof.body.lineage
         == Lineage([p.factId], d.evaluationId, a.policyDecisionId,
                    if a.capabilityId != "" then [a.capabilityId] else [], a.matchedGrants,
                    input.authorizationId, r.transaction.id, r.operation.id)
  {
    var key, stamp := SettlementKey(env, input), env.iso(now);
    var transactionBasis := Obj(map["idempotencyKey" := Str(key), "authorization_id" := Str(input.authorizationId)]);
    var transaction := Item(
      OrElse(input.transactionId, ArtifactId(env.h, "tx", transactionBasis, 24)),
      Transaction(OrElse(input.transactionType, "marketplace.fulfill_order"), input.authorizationId,
                  input.externalProofId, a.policyDecisionId, Or(input.payload, Obj(map[])),
                  OrElse(input.executedAt, stamp)));
    var operation := Item(
      OrElse(input.operationId, ArtifactId(env.h, "settle", OperationBasis(key, transaction.id), 24)),
      Operation(transaction.id, OrElse(input.operationType, "marketplace.fulfillment_recorded"), key,
                OrElse(input.appliedAt, stamp)));
    var lineage := Lineage([p.factId], d.evaluationId, a.policyDecisionId,
                           if a.capabilityId != "" then [a.capabilityId] else [], a.matchedGrants,
                           input.authorizationId, transaction.id, operation.id);
    var proof := Item(
      OrElse(input.settlementProofId, ArtifactId(env.h, "sproof", LineageJson(lineage), 24)),
      SettlementProof(operation.id, transaction.id, lineage, HashObject(env.h, LineageJson(lineage)),
                      OrElse(input.issuedAt, stamp)));
    Settled(transaction, operation, proof)
  }

  /** What the settlement comes to, before anything is stored. */
  function SettlementOutcome(env: Env, m: Market, input: SettleInput, now: int): Result<Settled, seq<string>> {
    var authorization := VerifyAuthorization(env, m, input.authorizationId, now);
    if authorization.Failure? then Failure(authorization.error)
    else
      var proof := VerifyExternalProof(m, input.externalProofId);
      if proof.Failure? then Failure(proof.error)
      else
        var decision := FindItem(m.decisions, authorization.value.policyDecisionId);
        if decision.None? || decision.value.decision != "allow" then Failure(["POLICY_DECISION_NOT_ALLOW"])
        else if SettlementKey(env, input) in m.settledKeys then Failure(["SETTLEMENT_REPLAY_DETECTED"])
        else Success(BuildSettlement(env, input, authorization.value, proof.value, decision.value, now))
  }

  function SettlementStored(m: Market, s: Settled): Market {
    m.(transactions := UpsertById(m.transactions, s.transaction),
       operations := UpsertById(m.operations, s.operation),
       settlementProofs := UpsertById(m.settlementProofs, s.proof),
       settledKeys := m.settledKeys + [s.operation.body.idempotencyKey])
  }

  function ExecuteMarketplaceSettlement(env: Env, m: Market, input: SettleInput, now: int)
    : (r: (Market, Result<Settled, seq<string>>))
    ensures r.0.(transactions := m.transactions, operations := m.operations, settlementProofs := m.settlementProofs,
              settledKeys := m.settledKeys) == m
    ensures r.1.Failure? ==> r.0 == m
  {
    var outcome := SettlementOutcome(env, m, input, now);
    (if outcome.Success? then SettlementStored(m, outcome.value) else m, outcome)
  }

  predicate Complete(l: Lineage) {
    l.facts != [] && l.evaluationId != "" && l.decisionId != "" && l.capabilityIds != []
    && l.grantIds != [] && l.authorizationId != "" && l.transactionId != "" && l.operationId != ""
  }

  function ExplainSettlement(m: Market, id: string): Result<Lineage, seq<string>> {
    match FindItem(m.settlementProofs, id)
    case None => Failure(["SETTLEMENT_PROOF_NOT_FOUND"])
    case Some(p) => if Complete(p.lineage) then Success(p.lineage) else Failure(["LINEAGE_INCOMPLETE"])
  }
}
