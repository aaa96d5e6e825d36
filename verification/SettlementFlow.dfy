/** The whole way from a first grant to a settlement, with every field that has a default left out. */
module SettlementFlow {
  import opened Text
  import opened JsonValues
  import opened Artifacts
  import opened Capabilities
  import opened Settlement

  // ---- normal forms are left alone ----

  predicate LowerText(s: string) {
    forall i :: 0 <= i < |s| ==> !('A' <= s[i] <= 'Z')
  }

  lemma LowerLeavesAlone(s: string)
    requires LowerText(s)
    ensures Lower(s) == s
  {
  }

  lemma LowerIsLower(s: string)
    ensures LowerText(Lower(s))
  {
  }

  lemma EntityIsLower(address: string)
    ensures Lower(NormalizeEntity(address)) == NormalizeEntity(address)
  {
    hide AddressText, Lower;
    LowerIsLower(Trim(address));
    LowerLeavesAlone(NormalizeEntity(address));
  }

  lemma KeyIsNormal(address: string)
    ensures NormalizeKey(Lower(NormalizeKey(address))) == NormalizeKey(address)
  {
    hide Lower;
    var key := NormalizeKey(address);
    LowerIsLower(Trim(address));
    LowerLeavesAlone(key);
    if key != "" {
      assert key[0] == "sl1_"[0] by { assert key[..4][0] == key[0]; }
      assert '0' <= key[|key| - 1] <= '9' || 'a' <= key[|key| - 1] <= 'f';
      assert Trim(key) == key;
    }
  }

  // ---- the steps ----

  predicate FirstGrant(m: Market, g: GrantInput) {
    m.controlGrants == [] && m.capabilityGrants == []
    && GrantFault(g).None? && g.status == "" && g.policy == "" && g.expiresAt == ""
  }

  lemma GrantStands(env: Env, m: Market, g: GrantInput, now: int)
    requires FirstGrant(m, g)
    ensures BuildControlGrant(env, g, now).Success?
    ensures var next, grant := CreateControlGrant(env, m, g, now).0, BuildControlGrant(env, g, now).value;
      && ActiveControlGrants(next) == [Item(grant.id, GrantTerms(g))] && grant.id != ""
      && GrantStatus(next, grant.id) == Some(GrantTerms(g).status)
  {
    hide GrantTerms, GrantBasis, ArtifactId, GrantFault, CapabilityId, NormalizeEntity;
    var next, grant := CreateControlGrant(env, m, g, now).0, BuildControlGrant(env, g, now).value;
    assert next.controlGrants == [grant];
    assert ControlTerms(next.controlGrants) == [Item(grant.id, GrantTerms(g))];
    assert next.capabilityGrants == [Item(grant.id, CreGrant(GrantTerms(g), ""))];
    assert LegacyTerms(next.controlGrants, next.capabilityGrants) == [] by {
      assert next.capabilityGrants[1..] == [];
      assert Has(next.controlGrants, grant.id);
    }
  }

  /** The request is for what the grant gives, with the grant's key if it has one. */
  predicate AsksFor(a: AuthorizationInput, g: GrantInput) {
    AuthorizationFault(a).None? && NormalizeEntity(a.entity) == NormalizeEntity(g.entity)
    && a.capability == g.capability && a.scope == g.scope
    && (g.key == "" || NormalizeKey(a.proofKey) == NormalizeKey(g.key))
  }

  lemma DefaultTerms(g: GrantInput)
    requires g.status == "" && g.policy == "" && g.expiresAt == ""
    ensures GrantTerms(g)
      == Terms(NormalizeEntity(g.entity), NormalizeKey(g.key), g.capability, g.scope, "allow", "active", "")
    ensures NormalizeGrant(GrantTerms(g)).policy == "allow" && NormalizeGrant(GrantTerms(g)).status == "active"
  {
    LowerLeavesAlone("allow");
    LowerLeavesAlone("active");
    hide Lower, NormalizeEntity, NormalizeKey;
  }

  lemma GrantSpeaks(env: Env, g: GrantInput, a: AuthorizationInput, id: string, now: int)
    requires g.status == "" && g.policy == "" && g.expiresAt == "" && AsksFor(a, g)
    ensures forall policy :: Speaks(env, Item(id, GrantTerms(g)), RequestOf(a), now, policy) <==> policy == "allow"
  {
    DefaultTerms(g);
    EntityIsLower(g.entity);
    KeyIsNormal(g.key);
    assert NormalizeKey("") == "";
    hide Lower, NormalizeEntity, NormalizeKey, GrantTerms, AuthorizationFault;
  }

  lemma OnlyGrantDecides(env: Env, m: Market, g: GrantInput, a: AuthorizationInput, id: string, now: int)
    requires g.status == "" && g.policy == "" && g.expiresAt == "" && AsksFor(a, g) && id != ""
    requires ActiveControlGrants(m) == [Item(id, GrantTerms(g))]
    ensures var decided := DecideCapability(env, ActiveControlGrants(m), RequestOf(a), now);
      decided.decision == "allow" && decided.matchedGrants != [] && forall x :: x in decided.matchedGrants ==> x == id
  {
    hide DecideCapability, ActiveControlGrants, RequestOf, GrantTerms, Speaks, AsksFor;
    var only := Item(id, GrantTerms(g));
    GrantSpeaks(env, g, a, id, now);
    AllowedMeans(env, ActiveControlGrants(m), RequestOf(a), now);
    assert only in ActiveControlGrants(m) && Speaks(env, only, RequestOf(a), now, "allow");
    assert id in DecideCapability(env, ActiveControlGrants(m), RequestOf(a), now).matchedGrants;
  }

  /** An engine that says no more than "ok" is recorded as a decision that allows. */
  lemma OkIsAllow(env: Env, m: Market, p: PolicyInput, r: PolicyResult, now: int)
    requires p.intentType != "" && r.decision == "" && r.isOk
    ensures RecordPolicyArtifacts(env, m, p, r, now).1.Success?
    ensures var (next, decision) := RecordPolicyArtifacts(env, m, p, r, now);
      && FindItem(next.decisions, decision.value.id) == Some(decision.value.body) && decision.value.id != ""
      && decision.value.body.decision == "allow"
  {
    hide BuildEvaluation, UpsertById, FindItem, ArtifactId, Strings;
    var evaluation := BuildEvaluation(env, p, now);
    var decision := BuildDecision(env, p, r, evaluation);
    FindAfterUpsert(m.decisions, decision, decision.id);
  }

  /** The clock reads its own stamps, and five minutes have not passed at once. */
  predicate ClockReads(env: Env, now: int) {
    env.time(env.iso(now + FIVE_MINUTES)) == Some(now + FIVE_MINUTES)
  }

  lemma AuthorizationStands(env: Env, m: Market, g: GrantInput, a: AuthorizationInput, id: string, now: int)
    requires g.status == "" && g.policy == "" && g.expiresAt == "" && AsksFor(a, g) && id != ""
    requires ActiveControlGrants(m) == [Item(id, GrantTerms(g))] && GrantStatus(m, id) == Some(GrantTerms(g).status)
    requires PolicyDecisionAllows(m, a.policyDecisionId) && a.approval.isOk && a.expiresAt == "" && ClockReads(env, now)
    ensures BuildAuthorization(env, m, a, now).1.Success?
    ensures var (next, authorization) := BuildAuthorization(env, m, a, now);
      && authorization.value.id != "" && authorization.value.body.policyDecisionId == a.policyDecisionId
      && VerifyAuthorization(env, next, authorization.value.id, now) == Success(authorization.value.body)
      && id in authorization.value.body.matchedGrants
  {
    OnlyGrantDecides(env, m, g, a, id, now);
    DefaultTerms(g);
    hide DecideCapability, ActiveControlGrants, RequestOf, GrantTerms, PolicyDecisionAllows, UpsertById, FindItem,
      IndexOf, AuthorizationReasons, ArtifactId, HashObject, Strings, CapabilityId, AuthorizationFault;
    var authorization := AuthorizationFor(env, m, a, now);
    FindAfterUpsert(m.authorizations, authorization, authorization.id);
    var matched := authorization.body.matchedGrants;
    assert matched[0] in matched;
    forall i | 0 <= i < |matched| ensures GrantActive(BuildAuthorization(env, m, a, now).0, matched[i]) {
      assert matched[i] in matched;
    }
  }

  lemma ProofStands(env: Env, m: Market, x: ProofInput, now: int)
    requires ProofFault(env, m, x).None? && x.status == ""
    ensures CreateExternalProof(env, m, x, now).1.Success?
    ensures var (next, proof) := CreateExternalProof(env, m, x, now);
      proof.value.id != "" && VerifyExternalProof(next, proof.value.id) == Success(proof.value.body)
  {
    hide ProofFault, UpsertById, FindItem, IndexOf, ArtifactId, HashObject, ReplayKey, ReferenceId, Or;
    var parts := BuildExternalProof(env, x, now);
    UpsertKeeps(m.paths, parts.path);
    UpsertKeeps(m.finalities, parts.finality);
    UpsertKeeps(m.facts, parts.fact);
    FindAfterUpsert(m.externalProofs, parts.proof, parts.proof.id);
  }

  /** In a ledger without other grants, one grant, one favourable decision, one authorization and one new proof are
      enough for a settlement, which cites that grant, unless its key was used before. */
  lemma FlowSettles(env: Env, m: Market, g: GrantInput, p: PolicyInput, r: PolicyResult, a: AuthorizationInput,
                    x: ProofInput, s: SettleInput, now: int)
    requires FirstGrant(m, g) && AsksFor(a, g) && ClockReads(env, now)
    requires p.intentType != "" && r.decision == "" && r.isOk
    requires a.approval.isOk && a.expiresAt == "" && ProofFault(env, m, x).None? && x.status == ""
    ensures var (m1, grant) := CreateControlGrant(env, m, g, now);
      var (m2, decision) := RecordPolicyArtifacts(env, m1, p, r, now);
      grant.Success? && decision.Success? &&
      (a.policyDecisionId == decision.value.id ==>
        var (m3, authorization) := BuildAuthorization(env, m2, a, now);
        var (m4, proof) := CreateExternalProof(env, m3, x, now);
        authorization.Success? && proof.Success? &&
        (s.authorizationId == authorization.value.id && s.externalProofId == proof.value.id ==>
          var outcome := SettlementOutcome(env, m4, s, now);
          (outcome.Success? <==> SettlementKey(env, s) !in m.settledKeys)
          && (outcome.Success? ==> grant.value.id in outcome.value.proof.body.lineage.grantIds)))
  {
    hide CreateControlGrant, RecordPolicyArtifacts, BuildAuthorization, CreateExternalProof, AsksFor, ProofFault,
         BuildSettlement, SettlementKey, VerifyAuthorization, VerifyExternalProof, ActiveControlGrants, GrantTerms,
         GrantStatus, FindItem;
    var (m1, grant) := CreateControlGrant(env, m, g, now);
    GrantStands(env, m, g, now);
    GrantBuilt(env, m, g, now);
    var (m2, decision) := RecordPolicyArtifacts(env, m1, p, r, now);
    OkIsAllow(env, m1, p, r, now);
    if a.policyDecisionId == decision.value.id {
      SameGrants(m1, m2, grant.value.id);
      AuthorizationStands(env, m2, g, a, grant.value.id, now);
      var (m3, authorization) := BuildAuthorization(env, m2, a, now);
      SameReplayKeys(env, m, m3, x);
      ProofStands(env, m3, x, now);
      var (m4, proof) := CreateExternalProof(env, m3, x, now);
      SameVerdict(env, m3, m4, authorization.value.id, now);
    }
  }

  lemma GrantBuilt(env: Env, m: Market, g: GrantInput, now: int)
    requires FirstGrant(m, g)
    ensures CreateControlGrant(env, m, g, now).1 == BuildControlGrant(env, g, now)
    ensures g.status == "" && g.policy == "" && g.expiresAt == ""
  {
    hide BuildControlGrant, GrantStored;
  }

  lemma SameGrants(m: Market, next: Market, id: string)
    requires next.controlGrants == m.controlGrants && next.capabilityGrants == m.capabilityGrants
    ensures ActiveControlGrants(next) == ActiveControlGrants(m) && GrantStatus(next, id) == GrantStatus(m, id)
  {
  }

  lemma SameReplayKeys(env: Env, m: Market, next: Market, x: ProofInput)
    requires next.replayKeys == m.replayKeys
    ensures ProofFault(env, next, x) == ProofFault(env, m, x)
  {
    hide ReplayKey, ReferenceId;
  }

  lemma SameVerdict(env: Env, m: Market, next: Market, id: string, now: int)
    requires next.authorizations == m.authorizations
    requires next.controlGrants == m.controlGrants && next.capabilityGrants == m.capabilityGrants
    ensures VerifyAuthorization(env, next, id, now) == VerifyAuthorization(env, m, id, now)
  {
    hide FindItem;
    assert forall x :: GrantActive(next, x) == GrantActive(m, x);
  }
}
