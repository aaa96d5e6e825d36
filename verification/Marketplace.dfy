/** The ledger object the settlement operations change store by store. */
module Marketplace {
  import opened Text
  import opened JsonValues
  import opened Artifacts
  import opened Capabilities
  import opened Settlement

  class MarketLedger {
    var capabilities: Store<Capability>
    var controlGrants: Store<Grant>
    var capabilityGrants: Store<CreGrant>
    var revocations: Store<Revocation>
    var authorizations: Store<Authorization>
    var evaluations: Store<PolicyEvaluation>
    var decisions: Store<PolicyDecision>
    var paths: Store<VerificationPath>
    var finalities: Store<FinalityClaim>
    var facts: Store<Fact>
    var externalProofs: Store<ExternalProof>
    var replayKeys: seq<string>
    var transactions: Store<Transaction>
    var operations: Store<Operation>
    var settlementProofs: Store<SettlementProof>
    var settledKeys: seq<string>

    constructor ()
      ensures Value() == EMPTY_MARKET
    {
      capabilities, controlGrants, capabilityGrants, revocations, authorizations := [], [], [], [], [];
      evaluations, decisions, paths, finalities, facts, externalProofs := [], [], [], [], [], [];
      replayKeys, transactions, operations, settlementProofs, settledKeys := [], [], [], [], [];
    }

    function Value(): Market
      reads this
    {
      Market(capabilities, controlGrants, capabilityGrants, revocations, authorizations, evaluations, decisions,
             paths, finalities, facts, externalProofs, replayKeys, transactions, operations, settlementProofs,
             settledKeys)
    }

    method Register(env: Env, input: CapabilityInput, now: int) returns (r: Result<Item<Capability>, string>)
      modifies this`capabilities
      ensures (Value(), r) == RegisterCapability(env, old(Value()), input, now)
    {
      r := BuildCapability(env, input, now);
      if r.Success? {
        capabilities := UpsertById(capabilities, r.value);
      }
    }

    method CreateGrant(env: Env, input: GrantInput, now: int) returns (r: Result<Item<Grant>, string>)
      modifies this`capabilities, this`controlGrants, this`capabilityGrants
      ensures (Value(), r) == CreateControlGrant(env, old(Value()), input, now)
    {
      hide BuildControlGrant, CapabilityFault, UpsertById;
      r := BuildControlGrant(env, input, now);
      if r.Success? {
        var grant := r.value;
        var terms := grant.body.terms;
        var registered := Register(
          env, CapabilityInput(grant.body.capabilityId, terms.capability, terms.scope, grant.body.grantedAt), now);
        controlGrants := UpsertById(controlGrants, grant);
        capabilityGrants := UpsertById(capabilityGrants, Item(grant.id, CreGrant(terms, "")));
      }
    }

    method RevokeGrant(env: Env, input: RevokeInput, now: int) returns (r: Result<Item<Revocation>, string>)
      modifies this`controlGrants, this`capabilityGrants, this`revocations
      ensures (Value(), r) == RevokeControlGrant(env, old(Value()), input, now)
    {
      hide GrantRevoked, CreGrantRevoked, UpsertById, ArtifactId, NormalizeEntity, OrElse;
      var id := input.grantId;
      if id == "" {
        return Failure("grant_id is required");
      }
      if !Has(controlGrants, id) && !Has(capabilityGrants, id) {
        return Failure("ControlGrant not found");
      }
      if input.revokedBy != "" && NormalizeEntity(input.revokedBy) == "" {
        return Failure(BAD_ENTITY);
      }
      var revokedAt := OrElse(input.revokedAt, env.iso(now));
      var basis := Obj(map["grant_id" := Str(id), "revoked_at" := Str(revokedAt)]);
      var revocation := Item(
        OrElse(input.revocationId, ArtifactId(env.h, "revoke", basis, 20)),
        Revocation(id, OrElse(input.reason, "revoked"), revokedAt, NormalizeEntity(input.revokedBy)));
      controlGrants := GrantRevoked(controlGrants, id, revokedAt);
      capabilityGrants := CreGrantRevoked(capabilityGrants, id, revokedAt);
      revocations := UpsertById(revocations, revocation);
      r := Success(revocation);
    }

    method RecordPolicy(env: Env, input: PolicyInput, result: PolicyResult, now: int)
      returns (r: Result<Item<PolicyDecision>, string>)
      modifies this`evaluations, this`decisions
      ensures (Value(), r) == RecordPolicyArtifacts(env, old(Value()), input, result, now)
    {
      hide BuildEvaluation, BuildDecision, UpsertById, IndexOf;
      if input.intentType == "" {
        return Failure("intent_type is required");
      }
      var evaluation := BuildEvaluation(env, input, now);
      var decision := BuildDecision(env, input, result, evaluation);
      evaluations := UpsertById(evaluations, evaluation);
      decisions := UpsertById(decisions, decision);
      r := Success(decision);
    }

    method Authorize(env: Env, input: AuthorizationInput, now: int) returns (r: Result<Item<Authorization>, string>)
      modifies this`authorizations
      ensures (Value(), r) == BuildAuthorization(env, old(Value()), input, now)
    {
      var fault := AuthorizationFault(input);
      if fault.Some? {
        return Failure(fault.value);
      }
      var authorization := AuthorizationFor(env, Value(), input, now);
      authorizations := UpsertById(authorizations, authorization);
      r := Success(authorization);
    }

    method StoreProof(parts: ProofParts, key: string)
      modifies this`paths, this`finalities, this`facts, this`externalProofs, this`replayKeys
      ensures Value() == ProofStored(old(Value()), parts, key)
    {
      hide UpsertById, IndexOf;
      paths, finalities := UpsertById(paths, parts.path), UpsertById(finalities, parts.finality);
      facts, externalProofs := UpsertById(facts, parts.fact), UpsertById(externalProofs, parts.proof);
      replayKeys := replayKeys + [key];
    }

    method CreateProof(env: Env, input: ProofInput, now: int) returns (r: Result<Item<ExternalProof>, string>)
      modifies this`paths, this`finalities, this`facts, this`externalProofs, this`replayKeys
      ensures (Value(), r) == CreateExternalProof(env, old(Value()), input, now)
    {
      hide BuildExternalProof, ProofFault, ProofStored;
      var fault := ProofFault(env, Value(), input);
      if fault.Some? {
        return Failure(fault.value);
      }
      var parts := BuildExternalProof(env, input, now);
      StoreProof(parts, parts.proof.body.replayKey);
      r := Success(parts.proof);
    }

    method StoreSettlement(built: Settled, key: string)
      requires key == built.operation.body.idempotencyKey
      modifies this`transactions, this`operations, this`settlementProofs, this`settledKeys
      ensures Value() == SettlementStored(old(Value()), built)
    {
      hide UpsertById, IndexOf;
      transactions := UpsertById(transactions, built.transaction);
      operations := UpsertById(operations, built.operation);
      settlementProofs := UpsertById(settlementProofs, built.proof);
      settledKeys := settledKeys + [key];
    }

    method Settle(env: Env, input: SettleInput, now: int) returns (r: Result<Settled, seq<string>>)
      modifies this`transactions, this`operations, this`settlementProofs, this`settledKeys
      ensures (Value(), r) == ExecuteMarketplaceSettlement(env, old(Value()), input, now)
    {
      hide VerifyAuthorization, VerifyExternalProof, BuildSettlement, SettlementKey, SettlementStored, FindItem;
      var authorization := VerifyAuthorization(env, Value(), input.authorizationId, now);
      if authorization.Failure? {
        return Failure(authorization.error);
      }
      var proof := VerifyExternalProof(Value(), input.externalProofId);
      if proof.Failure? {
        return Failure(proof.error);
      }
      var decision := FindItem(decisions, authorization.value.policyDecisionId);
      if decision.None? || decision.value.decision != "allow" {
        return Failure(["POLICY_DECISION_NOT_ALLOW"]);
      }
      var key := SettlementKey(env, input);
      if key in settledKeys {
        return Failure(["SETTLEMENT_REPLAY_DETECTED"]);
      }
      var built := BuildSettlement(env, input, authorization.value, proof.value, decision.value, now);
      StoreSettlement(built, key);
      r := Success(built);
    }
  }
}
