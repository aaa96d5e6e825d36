/** Every stored settlement proof is complete, and what it refers to stays in the ledger. */
module SettlementGrounds {
  import opened Text
  import opened JsonValues
  import opened Artifacts
  import opened Capabilities
  import opened Settlement
  import opened SettlementLineage

  // ---- the invariant ----

  ghost predicate DecisionsLinked(m: Market) {
    forall e :: e in m.decisions ==> e.body.evaluationId != "" && Has(m.evaluations, e.body.evaluationId)
  }

  predicate Grounded(a: Authorization) {
    Executable(a) ==> a.matchedGrants != [] && a.policyDecisionId != "" && a.capabilityId != ""
  }

  ghost predicate ExecutablesGrounded(m: Market) {
    forall e :: e in m.authorizations ==> Grounded(e.body)
  }

  predicate GrantKnown(m: Market, id: string) {
    Has(m.controlGrants, id) || Has(m.capabilityGrants, id)
  }

  /** Every reference of a lineage but the capability's is answered by its store. */
  predicate Resolves(m: Market, l: Lineage) {
    (forall i :: 0 <= i < |l.facts| ==> Has(m.facts, l.facts[i]))
    && Has(m.evaluations, l.evaluationId) && Has(m.decisions, l.decisionId)
    && (forall i :: 0 <= i < |l.grantIds| ==> GrantKnown(m, l.grantIds[i]))
    && Has(m.authorizations, l.authorizationId)
    && Has(m.transactions, l.transactionId) && Has(m.operations, l.operationId)
  }

  ghost predicate ProofsGrounded(m: Market) {
    forall e :: e in m.settlementProofs ==> Complete(e.body.lineage) && Resolves(m, e.body.lineage)
  }

  ghost predicate GrantsNamed(m: Market) {
    (forall e :: e in m.controlGrants ==> e.id != "") && (forall e :: e in m.capabilityGrants ==> e.id != "")
  }

  ghost predicate MarketSound(m: Market) {
    GrantsNamed(m) && DecisionsLinked(m) && ExecutablesGrounded(m) && ProofsGrounded(m)
  }

  // ---- stores only grow ----

  ghost predicate Grows(m: Market, next: Market) {
    Kept(m.capabilities, next.capabilities) && Kept(m.controlGrants, next.controlGrants)
    && Kept(m.capabilityGrants, next.capabilityGrants) && Kept(m.authorizations, next.authorizations)
    && Kept(m.evaluations, next.evaluations) && Kept(m.decisions, next.decisions) && Kept(m.facts, next.facts)
    && Kept(m.transactions, next.transactions) && Kept(m.operations, next.operations)
  }

  lemma ResolvesStill(m: Market, next: Market, l: Lineage)
    requires Resolves(m, l) && Grows(m, next)
    ensures Resolves(next, l)
  {
    hide Has;
  }

  lemma RevokedStores(m: Market, id: string, at: string)
    ensures Kept(m.controlGrants, GrantRevoked(m.controlGrants, id, at))
    ensures Kept(m.capabilityGrants, CreGrantRevoked(m.capabilityGrants, id, at))
    ensures GrantsNamed(m) ==> GrantsNamed(m.(controlGrants := GrantRevoked(m.controlGrants, id, at),
                                              capabilityGrants := CreGrantRevoked(m.capabilityGrants, id, at)))
  {
    hide UpsertById, Has, IndexOf, Kept, FindItem;
    KeptSelf(m.controlGrants);
    KeptSelf(m.capabilityGrants);
    if FindItem(m.controlGrants, id).Some? {
      var g := FindItem(m.controlGrants, id).value;
      var e := Item(id, g.(terms := g.terms.(status := "revoked"), revokedAt := at));
      UpsertKeeps(m.controlGrants, e);
      UpsertAddsOnly(m.controlGrants, e);
      FindIsItem(m.controlGrants, id);
    }
    if FindItem(m.capabilityGrants, id).Some? {
      var g := FindItem(m.capabilityGrants, id).value;
      var e := Item(id, CreGrant(g.terms.(status := "revoked"), at));
      UpsertKeeps(m.capabilityGrants, e);
      UpsertAddsOnly(m.capabilityGrants, e);
      FindIsItem(m.capabilityGrants, id);
    }
  }

  lemma KeptSelf<A>(store: Store<A>)
    ensures Kept(store, store)
  {
  }

  // ---- each operation keeps it ----

  lemma CapabilityKeeps(env: Env, m: Market, input: CapabilityInput, now: int)
    requires MarketSound(m)
    ensures MarketSound(RegisterCapability(env, m, input, now).0) && Grows(m, RegisterCapability(env, m, input, now).0)
  {
    hide BuildCapability, UpsertById, Kept, Has, Resolves, Complete, Grounded;
    var next := RegisterCapability(env, m, input, now).0;
    StoresKept(m);
    if BuildCapability(env, input, now).Success? {
      UpsertKeeps(m.capabilities, BuildCapability(env, input, now).value);
    }
    ProofsStay(m, next);
  }

  /** Every store of `m` keeps its own ids. */
  lemma StoresKept(m: Market)
    ensures Grows(m, m)
  {
  }

  lemma ProofsStay(m: Market, next: Market)
    requires ProofsGrounded(m) && Grows(m, next) && next.settlementProofs == m.settlementProofs
    ensures ProofsGrounded(next)
  {
    hide Resolves, Grows, Complete;
    forall e | e in next.settlementProofs ensures Complete(e.body.lineage) && Resolves(next, e.body.lineage) {
      ResolvesStill(m, next, e.body.lineage);
    }
  }

  lemma GrantKeeps(env: Env, m: Market, input: GrantInput, now: int)
    requires MarketSound(m)
    ensures MarketSound(CreateControlGrant(env, m, input, now).0) && Grows(m, CreateControlGrant(env, m, input, now).0)
  {
    hide BuildControlGrant, UpsertById, Kept, Has, Resolves, Complete, Grounded;
    var next := CreateControlGrant(env, m, input, now).0;
    StoresKept(m);
    if BuildControlGrant(env, input, now).Success? {
      var grant := BuildControlGrant(env, input, now).value;
      var g := grant.body;
      var capability := Item(g.capabilityId,
        Capability(g.terms.capability, g.terms.scope, OrElse(g.grantedAt, env.iso(now))));
      var copy := Item(grant.id, CreGrant(g.terms, ""));
      UpsertKeeps(m.capabilities, capability);
      UpsertKeeps(m.controlGrants, grant);
      UpsertKeeps(m.capabilityGrants, copy);
      UpsertAddsOnly(m.controlGrants, grant);
      UpsertAddsOnly(m.capabilityGrants, copy);
    }
    ProofsStay(m, next);
  }

  lemma RevokeKeeps(env: Env, m: Market, input: RevokeInput, now: int)
    requires MarketSound(m)
    ensures MarketSound(RevokeControlGrant(env, m, input, now).0) && Grows(m, RevokeControlGrant(env, m, input, now).0)
  {
    hide GrantRevoked, CreGrantRevoked, UpsertById, Kept, Has, Resolves, Complete, Grounded, ArtifactId,
      NormalizeEntity;
    var next := RevokeControlGrant(env, m, input, now).0;
    StoresKept(m);
    RevokedStores(m, input.grantId, OrElse(input.revokedAt, env.iso(now)));
    ProofsStay(m, next);
  }

  lemma PolicyKeeps(env: Env, m: Market, input: PolicyInput, result: PolicyResult, now: int)
    requires MarketSound(m)
    ensures MarketSound(RecordPolicyArtifacts(env, m, input, result, now).0)
    ensures Grows(m, RecordPolicyArtifacts(env, m, input, result, now).0)
  {
    hide UpsertById, Kept, Has, Resolves, Complete, Grounded, BuildEvaluation, BuildDecision;
    var next := RecordPolicyArtifacts(env, m, input, result, now).0;
    var evaluation := BuildEvaluation(env, input, now);
    var decision := BuildDecision(env, input, result, evaluation);
    StoresKept(m);
    UpsertKeeps(m.evaluations, evaluation);
    UpsertKeeps(m.decisions, decision);
    UpsertAddsOnly(m.decisions, decision);
    ProofsStay(m, next);
    DecisionNamesEvaluation(env, input, result, now);
    LinkedStill(m, evaluation, decision);
  }

  lemma DecisionNamesEvaluation(env: Env, input: PolicyInput, result: PolicyResult, now: int)
    ensures BuildEvaluation(env, input, now).id != ""
    ensures var evaluation := BuildEvaluation(env, input, now);
            BuildDecision(env, input, result, evaluation).body.evaluationId == evaluation.id
  {
    hide ArtifactId, HashObject, Or, NormalizePolicyDecision;
  }

  lemma LinkedStill(m: Market, evaluation: Item<PolicyEvaluation>, decision: Item<PolicyDecision>)
    requires DecisionsLinked(m) && evaluation.id != "" && decision.body.evaluationId == evaluation.id
    ensures DecisionsLinked(m.(evaluations := UpsertById(m.evaluations, evaluation),
                               decisions := UpsertById(m.decisions, decision)))
  {
    hide UpsertById, Has;
    UpsertKeeps(m.evaluations, evaluation);
    UpsertAddsOnly(m.decisions, decision);
  }

  lemma ProofKeeps(env: Env, m: Market, input: ProofInput, now: int)
    requires MarketSound(m)
    ensures MarketSound(CreateExternalProof(env, m, input, now).0)
      && Grows(m, CreateExternalProof(env, m, input, now).0)
  {
    hide BuildExternalProof, UpsertById, Kept, Has, Resolves, Complete, Grounded, ProofFault;
    var next := CreateExternalProof(env, m, input, now).0;
    StoresKept(m);
    UpsertKeeps(m.facts, BuildExternalProof(env, input, now).fact);
    ProofsStay(m, next);
  }

  // ---- authorizing ----

  /** What the resolver is shown comes from one of the two grant stores. */
  lemma {:induction false} LegacyComesFromStore(control: Store<Grant>, store: Store<CreGrant>)
    ensures forall g :: g in LegacyTerms(control, store) ==>
      exists e :: e in store && e.id == g.id && e.body.terms == g.body
  {
    hide Has;
    if store != [] {
      LegacyComesFromStore(control, store[1..]);
      forall g | g in LegacyTerms(control, store)
        ensures exists e :: e in store && e.id == g.id && e.body.terms == g.body {
        if g in LegacyTerms(control, store[1..]) {
          var e :| e in store[1..] && e.id == g.id && e.body.terms == g.body;
          assert e in store;
        } else {
          assert store[0] in store && g == Item(store[0].id, store[0].body.terms);
        }
      }
    }
  }

  lemma ShownGrant(m: Market, g: Item<Terms>)
    requires g in ActiveControlGrants(m)
    ensures (exists e :: e in m.controlGrants && e.id == g.id && e.body.terms == g.body)
         || (exists e :: e in m.capabilityGrants && e.id == g.id && e.body.terms == g.body)
  {
    LegacyComesFromStore(m.controlGrants, m.capabilityGrants);
    if g in ControlTerms(m.controlGrants) {
      var i :| 0 <= i < |m.controlGrants| && g == ControlTerms(m.controlGrants)[i];
      assert m.controlGrants[i] in m.controlGrants;
    }
  }

  lemma AllowNamesGrants(env: Env, m: Market, request: Request, now: int)
    requires GrantsNamed(m)
    ensures var decided := DecideCapability(env, ActiveControlGrants(m), request, now);
            decided.decision == "allow" ==> decided.matchedGrants != []
  {
    hide DecideCapability, ActiveControlGrants, Speaks;
    var grants := ActiveControlGrants(m);
    AllowedMeans(env, grants, request, now);
    if DecideCapability(env, grants, request, now).decision == "allow" {
      var g :| g in grants && Speaks(env, g, request, now, "allow");
      ShownGrant(m, g);
      assert g.id in DecideCapability(env, grants, request, now).matchedGrants;
    }
  }

  lemma NewAuthorizationGrounded(env: Env, m: Market, input: AuthorizationInput, now: int)
    requires GrantsNamed(m)
    ensures Grounded(AuthorizationFor(env, m, input, now).body)
  {
    hide DecideCapability, ActiveControlGrants, GrantsNamed, AuthorizationReasons, HashObject, Strings, RequestOf,
      FindItem;
    AllowNamesGrants(env, m, RequestOf(input), now);
  }

  lemma AuthorizeKeeps(env: Env, m: Market, input: AuthorizationInput, now: int)
    requires MarketSound(m)
    ensures MarketSound(BuildAuthorization(env, m, input, now).0) && Grows(m, BuildAuthorization(env, m, input, now).0)
  {
    hide AuthorizationFor, AuthorizationFault, UpsertById, Kept, Has, Resolves, Complete, Grounded;
    var next := BuildAuthorization(env, m, input, now).0;
    StoresKept(m);
    NewAuthorizationGrounded(env, m, input, now);
    UpsertKeeps(m.authorizations, AuthorizationFor(env, m, input, now));
    UpsertAddsOnly(m.authorizations, AuthorizationFor(env, m, input, now));
    ProofsStay(m, next);
  }

  // ---- settling ----

  lemma VerifiedAuthorization(env: Env, m: Market, id: string, now: int)
    requires VerifyAuthorization(env, m, id, now).Success?
    ensures var a := VerifyAuthorization(env, m, id, now).value;
            id != "" && Item(id, a) in m.authorizations && Has(m.authorizations, id) && Executable(a)
            && !Expired(env, a, now) && AllActive(m, a.matchedGrants)
  {
    hide AllActive, IndexOf;
    FindIsItem(m.authorizations, id);
  }

  lemma ActiveIsKnown(m: Market, id: string)
    requires GrantActive(m, id)
    ensures GrantKnown(m, id)
  {
    hide IndexOf;
  }

  lemma SaleParts(env: Env, m: Market, call: Call) returns (a: Authorization, p: ExternalProof, d: PolicyDecision)
    requires Sale(env, m, call).Some?
    ensures call.command.Settle?
    ensures VerifyAuthorization(env, m, call.command.settlement.authorizationId, call.now) == Success(a)
    ensures VerifyExternalProof(m, call.command.settlement.externalProofId) == Success(p)
    ensures FindItem(m.decisions, a.policyDecisionId) == Some(d) && d.decision == "allow"
    ensures Sale(env, m, call).value == BuildSettlement(env, call.command.settlement, a, p, d, call.now)
  {
    hide VerifyAuthorization, VerifyExternalProof, BuildSettlement, SettlementKey, FindItem;
    var input := call.command.settlement;
    a := VerifyAuthorization(env, m, input.authorizationId, call.now).value;
    p := VerifyExternalProof(m, input.externalProofId).value;
    d := FindItem(m.decisions, a.policyDecisionId).value;
  }

  lemma SaleGrounded(env: Env, m: Market, call: Call)
    requires MarketSound(m) && Sale(env, m, call).Some?
    ensures var s := Sale(env, m, call).value;
            Complete(s.proof.body.lineage) && Resolves(SettlementStored(m, s), s.proof.body.lineage)
    ensures Grows(m, SettlementStored(m, Sale(env, m, call).value))
  {
    hide Sale, VerifyAuthorization, IndexOf, UpsertById, Expired, SettlementKey, GrantStatus, Kept, Has,
      BuildSettlement, ProofsGrounded, GrantsNamed, GrantKnown, ArtifactId, OperationBasis;
    var a, p, d := SaleParts(env, m, call);
    var s := Sale(env, m, call).value;
    var id := call.command.settlement.authorizationId;
    VerifiedAuthorization(env, m, id, call.now);
    assert Grounded(Item(id, a).body);
    StoresKept(m);
    UpsertKeeps(m.transactions, s.transaction);
    UpsertKeeps(m.operations, s.operation);
    FoundIsThere(m.decisions, a.policyDecisionId);
    FindIsItem(m.decisions, a.policyDecisionId);
    assert Item(a.policyDecisionId, d) in m.decisions;
    VerifiedFact(m, call.command.settlement.externalProofId);
    var next := SettlementStored(m, s);
    assert s.proof.body.lineage == Lineage([p.factId], d.evaluationId, a.policyDecisionId, [a.capabilityId],
                                           a.matchedGrants, id, s.transaction.id, s.operation.id);
    forall i | 0 <= i < |a.matchedGrants| ensures GrantKnown(next, a.matchedGrants[i]) {
      ActiveIsKnown(m, a.matchedGrants[i]);
      KnownStill(m, next, a.matchedGrants[i]);
    }
  }

  lemma KnownStill(m: Market, next: Market, id: string)
    requires GrantKnown(m, id)
    requires next.controlGrants == m.controlGrants && next.capabilityGrants == m.capabilityGrants
    ensures GrantKnown(next, id)
  {
  }

  lemma FoundIsThere<A>(store: Store<A>, id: string)
    requires FindItem(store, id).Some?
    ensures Has(store, id)
  {
  }

  lemma VerifiedFact(m: Market, id: string)
    requires VerifyExternalProof(m, id).Success?
    ensures Has(m.facts, VerifyExternalProof(m, id).value.factId)
  {
    hide IndexOf;
  }

  lemma SettleKeeps(env: Env, m: Market, call: Call)
    requires MarketSound(m) && Sale(env, m, call).Some?
    ensures MarketSound(AfterCall(env, m, call)) && Grows(m, AfterCall(env, m, call))
  {
    hide AfterCall, Sale, UpsertById, Kept, Has, Resolves, Complete, Grounded, Grows;
    SaleIsStored(env, m, call);
    SaleGrounded(env, m, call);
    var s, next := Sale(env, m, call).value, AfterCall(env, m, call);
    UpsertAddsOnly(m.settlementProofs, s.proof);
    forall e | e in next.settlementProofs ensures Complete(e.body.lineage) && Resolves(next, e.body.lineage) {
      if e in m.settlementProofs {
        ResolvesStill(m, next, e.body.lineage);
      }
    }
  }

  // ---- over whole runs ----

  lemma StepKeeps(env: Env, m: Market, call: Call)
    requires MarketSound(m)
    ensures MarketSound(AfterCall(env, m, call)) && Grows(m, AfterCall(env, m, call))
  {
    hide MarketSound, Grows, RegisterCapability, CreateControlGrant, RevokeControlGrant, RecordPolicyArtifacts,
         BuildAuthorization, CreateExternalProof, SettlementOutcome, SettlementStored;
    match call.command
    case AddCapability(input) => CapabilityKeeps(env, m, input, call.now);
    case GiveGrant(input) => GrantKeeps(env, m, input, call.now);
    case TakeGrant(input) => RevokeKeeps(env, m, input, call.now);
    case Judge(input, result) => PolicyKeeps(env, m, input, result, call.now);
    case Authorize(input) => AuthorizeKeeps(env, m, input, call.now);
    case Prove(input) => ProofKeeps(env, m, input, call.now);
    case Settle(input) =>
      if Sale(env, m, call).Some? {
        SettleKeeps(env, m, call);
      } else {
        StoresKept(m);
      }
  }

  lemma {:induction false} RunKeeps(env: Env, start: Market, calls: seq<Call>)
    requires MarketSound(start)
    ensures MarketSound(RunCalls(env, start, calls))
  {
    hide AfterCall, MarketSound;
    if calls != [] {
      RunKeeps(env, start, calls[..|calls| - 1]);
      StepKeeps(env, RunCalls(env, start, calls[..|calls| - 1]), calls[|calls| - 1]);
    }
  }

  /**
    * In every ledger a run leads to, each stored settlement proof is explained, and its fact, evaluation,
    * decision, grants, authorization, transaction and operation are all still found, whatever was revoked,
    * judged again or overwritten since.
    */
  lemma EveryProofExplained(env: Env, start: Market, calls: seq<Call>, id: string)
    requires MarketSound(start) && Has(RunCalls(env, start, calls).settlementProofs, id)
    ensures ExplainSettlement(RunCalls(env, start, calls), id).Success?
    ensures Resolves(RunCalls(env, start, calls), ExplainSettlement(RunCalls(env, start, calls), id).value)
  {
    hide RunCalls, Resolves, Complete, IndexOf, GrantsNamed, DecisionsLinked, ExecutablesGrounded;
    RunKeeps(env, start, calls);
    var m := RunCalls(env, start, calls);
    FindIsItem(m.settlementProofs, id);
  }

  lemma EmptyIsSound()
    ensures MarketSound(EMPTY_MARKET)
  {
  }

  /** In particular so from the empty ledger, whatever the calls. */
  lemma EveryRunExplained(env: Env, calls: seq<Call>)
    ensures forall id :: Has(RunCalls(env, EMPTY_MARKET, calls).settlementProofs, id) ==>
      ExplainSettlement(RunCalls(env, EMPTY_MARKET, calls), id).Success?
      && Resolves(RunCalls(env, EMPTY_MARKET, calls), ExplainSettlement(RunCalls(env, EMPTY_MARKET, calls), id).value)
  {
    hide RunCalls, Resolves, Complete, IndexOf, MarketSound;
    EmptyIsSound();
    forall id | Has(RunCalls(env, EMPTY_MARKET, calls).settlementProofs, id)
      ensures ExplainSettlement(RunCalls(env, EMPTY_MARKET, calls), id).Success?
      ensures Resolves(RunCalls(env, EMPTY_MARKET, calls),
        ExplainSettlement(RunCalls(env, EMPTY_MARKET, calls), id).value)
    {
      EveryProofExplained(env, EMPTY_MARKET, calls, id);
    }
  }
}
