/** What every settlement goes back to: the latest authorization, decision and external proof under the ids it names. */
module SettlementOrigins {
  import opened Text
  import opened JsonValues
  import opened JsonParser
  import opened History
  import opened Artifacts
  import opened Capabilities
  import opened Settlement
  import opened SettlementLineage
  import opened SettlementGrounds
  import opened GrantRevocation

  // ---- what a call stores ----

  function Judged(env: Env, m: Market, call: Call): Option<Item<PolicyDecision>> {
    match call.command
    case Judge(input, result) => Stored(RecordPolicyArtifacts(env, m, input, result, call.now).1)
    case _ => None
  }

  function Authorized(env: Env, m: Market, call: Call): Option<Item<Authorization>> {
    match call.command
    case Authorize(input) => Stored(BuildAuthorization(env, m, input, call.now).1)
    case _ => None
  }

  function Proved(env: Env, m: Market, call: Call): Option<Item<ExternalProof>> {
    match call.command
    case Prove(input) => Stored(CreateExternalProof(env, m, input, call.now).1)
    case _ => None
  }

  function Stored<A>(r: Result<Item<A>, string>): Option<Item<A>> {
    match r
    case Success(e) => Some(e)
    case Failure(_) => None
  }

  predicate IsUnder<A>(e: Option<Item<A>>, id: string) {
    e.Some? && e.value.id == id
  }

  lemma DecisionsAfter(env: Env, m: Market, call: Call, id: string)
    ensures AfterCall(env, m, call).decisions
         == if Judged(env, m, call).Some? then UpsertById(m.decisions, Judged(env, m, call).value) else m.decisions
    ensures FindItem(AfterCall(env, m, call).decisions, id)
         == if IsUnder(Judged(env, m, call), id)
           then Some(Judged(env, m, call).value.body) else FindItem(m.decisions, id)
  {
    hide UpsertById, FindItem, RegisterCapability, CreateControlGrant, RevokeControlGrant, BuildEvaluation,
      BuildDecision, BuildAuthorization, CreateExternalProof, ExecuteMarketplaceSettlement;
    if Judged(env, m, call).Some? {
      FindAfterUpsert(m.decisions, Judged(env, m, call).value, id);
    }
  }

  lemma AuthorizationsAfter(env: Env, m: Market, call: Call, id: string)
    ensures AfterCall(env, m, call).authorizations
         == if Authorized(env, m, call).Some?
           then UpsertById(m.authorizations, Authorized(env, m, call).value) else m.authorizations
    ensures FindItem(AfterCall(env, m, call).authorizations, id)
         == if IsUnder(Authorized(env, m, call), id) then Some(Authorized(env, m, call).value.body)
            else FindItem(m.authorizations, id)
  {
    hide UpsertById, FindItem, RegisterCapability, CreateControlGrant, RevokeControlGrant, RecordPolicyArtifacts,
         AuthorizationFor, AuthorizationFault, CreateExternalProof, ExecuteMarketplaceSettlement;
    if Authorized(env, m, call).Some? {
      FindAfterUpsert(m.authorizations, Authorized(env, m, call).value, id);
    }
  }

  lemma ProofsAfter(env: Env, m: Market, call: Call, id: string)
    ensures AfterCall(env, m, call).externalProofs
         == if Proved(env, m, call).Some?
           then UpsertById(m.externalProofs, Proved(env, m, call).value) else m.externalProofs
    ensures FindItem(AfterCall(env, m, call).externalProofs, id)
         == if IsUnder(Proved(env, m, call), id) then Some(Proved(env, m, call).value.body)
            else FindItem(m.externalProofs, id)
  {
    hide UpsertById, FindItem, RegisterCapability, CreateControlGrant, RevokeControlGrant, RecordPolicyArtifacts,
         BuildAuthorization, BuildExternalProof, ProofFault, ExecuteMarketplaceSettlement;
    if Proved(env, m, call).Some? {
      FindAfterUpsert(m.externalProofs, Proved(env, m, call).value, id);
    }
  }

  // ---- the latest call that stored under an id ----

  /** Call `j` judged under `id`, and no call from then to `i` did. */
  ghost predicate LatestJudgement(env: Env, start: Market, calls: seq<Call>, j: nat, i: nat, id: string) {
    j < i <= |calls| && IsUnder(Judged(env, At(env, start, calls, j), calls[j]), id)
    && forall k :: j < k < i ==> !IsUnder(Judged(env, At(env, start, calls, k), calls[k]), id)
  }

  ghost predicate LatestAuthorization(env: Env, start: Market, calls: seq<Call>, j: nat, i: nat, id: string) {
    j < i <= |calls| && IsUnder(Authorized(env, At(env, start, calls, j), calls[j]), id)
    && forall k :: j < k < i ==> !IsUnder(Authorized(env, At(env, start, calls, k), calls[k]), id)
  }

  ghost predicate LatestProof(env: Env, start: Market, calls: seq<Call>, j: nat, i: nat, id: string) {
    j < i <= |calls| && IsUnder(Proved(env, At(env, start, calls, j), calls[j]), id)
    && forall k :: j < k < i ==> !IsUnder(Proved(env, At(env, start, calls, k), calls[k]), id)
  }

  lemma NothingFound<A>(store: Store<A>, id: string)
    ensures store == [] ==> FindItem(store, id).None?
  {
  }

  lemma {:induction false} DecisionOrigin(env: Env, start: Market, calls: seq<Call>, i: nat, id: string)
    returns (j: nat)
    requires start.decisions == [] && i <= |calls| && FindItem(At(env, start, calls, i).decisions, id).Some?
    ensures LatestJudgement(env, start, calls, j, i, id)
    ensures Judged(env, At(env, start, calls, j), calls[j]).value.body
      == FindItem(At(env, start, calls, i).decisions, id).value
    decreases i
  {
    hide AfterCall, Judged, UpsertById, FindItem;
    NothingFound(start.decisions, id);
    if i > 0 {
      AtNext(env, start, calls, i - 1);
      DecisionsAfter(env, At(env, start, calls, i - 1), calls[i - 1], id);
      if IsUnder(Judged(env, At(env, start, calls, i - 1), calls[i - 1]), id) {
        j := i - 1;
      } else {
        j := DecisionOrigin(env, start, calls, i - 1, id);
      }
    }
  }

  lemma {:induction false} AuthorizationOrigin(env: Env, start: Market, calls: seq<Call>, i: nat, id: string)
    returns (j: nat)
    requires start.authorizations == [] && i <= |calls| && FindItem(At(env, start, calls, i).authorizations, id).Some?
    ensures LatestAuthorization(env, start, calls, j, i, id)
    ensures Authorized(env, At(env, start, calls, j), calls[j]).value.body
         == FindItem(At(env, start, calls, i).authorizations, id).value
    decreases i
  {
    hide AfterCall, Authorized, UpsertById, FindItem;
    NothingFound(start.authorizations, id);
    if i > 0 {
      AtNext(env, start, calls, i - 1);
      AuthorizationsAfter(env, At(env, start, calls, i - 1), calls[i - 1], id);
      if IsUnder(Authorized(env, At(env, start, calls, i - 1), calls[i - 1]), id) {
        j := i - 1;
      } else {
        j := AuthorizationOrigin(env, start, calls, i - 1, id);
      }
    }
  }

  lemma {:induction false} ProofOrigin(env: Env, start: Market, calls: seq<Call>, i: nat, id: string) returns (j: nat)
    requires start.externalProofs == [] && i <= |calls| && FindItem(At(env, start, calls, i).externalProofs, id).Some?
    ensures LatestProof(env, start, calls, j, i, id)
    ensures Proved(env, At(env, start, calls, j), calls[j]).value.body
         == FindItem(At(env, start, calls, i).externalProofs, id).value
    decreases i
  {
    hide AfterCall, Proved, UpsertById, FindItem;
    NothingFound(start.externalProofs, id);
    if i > 0 {
      AtNext(env, start, calls, i - 1);
      ProofsAfter(env, At(env, start, calls, i - 1), calls[i - 1], id);
      if IsUnder(Proved(env, At(env, start, calls, i - 1), calls[i - 1]), id) {
        j := i - 1;
      } else {
        j := ProofOrigin(env, start, calls, i - 1, id);
      }
    }
  }

  // ---- a fair authorization ----

  /** What a request needs: an allowing grant, nothing stricter, a favourable decision and its approval. */
  ghost predicate FairlyAuthorized(env: Env, m: Market, input: AuthorizationInput, now: int) {
    var grants, request := ActiveControlGrants(m), RequestOf(input);
    Spoken(env, grants, request, now, "allow") && !Spoken(env, grants, request, now, "deny")
    && !Spoken(env, grants, request, now, "require_quorum") && !Spoken(env, grants, request, now, "require_approval")
    && PolicyDecisionAllows(m, input.policyDecisionId) && input.approval.isOk
  }

  /** An authorization is executable exactly when the request has all of that. */
  lemma AuthorizedMeans(env: Env, m: Market, input: AuthorizationInput, now: int)
    ensures Executable(AuthorizationFor(env, m, input, now).body) <==> FairlyAuthorized(env, m, input, now)
  {
    hide DecideCapability, ActiveControlGrants, AuthorizationReasons, HashObject, Strings, PolicyDecisionAllows,
         RequestOf, Spoken, ArtifactId, CapabilityId;
    AllowedMeans(env, ActiveControlGrants(m), RequestOf(input), now);
  }

  lemma MatchedGrantSpoke(env: Env, m: Market, input: AuthorizationInput, now: int, id: string)
    requires Executable(AuthorizationFor(env, m, input, now).body)
    requires id in AuthorizationFor(env, m, input, now).body.matchedGrants
    ensures exists g :: g in ActiveControlGrants(m) && g.id == id && Speaks(env, g, RequestOf(input), now, "allow")
  {
    hide DecideCapability, ActiveControlGrants, AuthorizationReasons, HashObject, Strings, PolicyDecisionAllows,
         RequestOf, Spoken, Speaks, ArtifactId, CapabilityId;
    AllowedMeans(env, ActiveControlGrants(m), RequestOf(input), now);
  }

  /** Grant `id` allowed the request that call `j` authorized. */
  ghost predicate AllowedAt(env: Env, start: Market, calls: seq<Call>, j: nat, id: string)
    requires j < |calls| && calls[j].command.Authorize?
  {
    exists g :: g in ActiveControlGrants(At(env, start, calls, j)) && g.id == id
                && Speaks(env, g, RequestOf(calls[j].command.authorization), calls[j].now, "allow")
  }

  /** The derived id of the capability a request is for. */
  function CapabilityIdOf(env: Env, input: AuthorizationInput): string {
    CapabilityId(env, input.capability, input.scope)
  }

  lemma AuthorizationNamesCapability(env: Env, m: Market, input: AuthorizationInput, now: int)
    ensures AuthorizationFor(env, m, input, now).body.capabilityId == CapabilityIdOf(env, input) != ""
  {
    hide DecideCapability, ActiveControlGrants, AuthorizationReasons, HashObject, Strings, PolicyDecisionAllows;
  }

  /** * Every settlement rests on the latest authorization under the id it names, which was fair when it was given: *
      each grant it cites allowed the request then, and is active still. It names the derived capability of that
      request. */
  lemma SaleAuthorization(env: Env, start: Market, calls: seq<Call>, i: nat) returns (j: nat)
    requires start.authorizations == [] && i < |calls| && SaleAt(env, start, calls, i).Some?
    ensures var l := SaleAt(env, start, calls, i).value.proof.body.lineage;
      && LatestAuthorization(env, start, calls, j, i, l.authorizationId) && calls[j].command.Authorize?
      && FairlyAuthorized(env, At(env, start, calls, j), calls[j].command.authorization, calls[j].now)
      && !Expired(env, Authorized(env, At(env, start, calls, j), calls[j]).value.body, calls[i].now)
      && (forall id :: id in l.grantIds ==> AllowedAt(env, start, calls, j, id))
      && AllActive(At(env, start, calls, i), l.grantIds)
      && l.capabilityIds == [CapabilityIdOf(env, calls[j].command.authorization)]
  {
    hide Sale, At, VerifyAuthorization, BuildSettlement, AuthorizationFor, FairlyAuthorized, Speaks,
      ActiveControlGrants, AllActive, Executable, Expired, FindItem, RequestOf, AuthorizationFault,
      LatestAuthorization, CapabilityIdOf;
    var m := At(env, start, calls, i);
    var a, p, d := SaleParts(env, m, calls[i]);
    var id := calls[i].command.settlement.authorizationId;
    VerifiedAuthorization(env, m, id, calls[i].now);
    VerifiedIsFound(env, m, id, calls[i].now);
    j := AuthorizationOrigin(env, start, calls, i, id);
    LatestIsAuthorize(env, start, calls, j, i, id);
    var earlier, input, now := At(env, start, calls, j), calls[j].command.authorization, calls[j].now;
    AuthorizedMeans(env, earlier, input, now);
    AuthorizationNamesCapability(env, earlier, input, now);
    SaleCitesActive(env, m, calls[i]);
    forall g | g in a.matchedGrants ensures AllowedAt(env, start, calls, j, g) {
      MatchedGrantSpoke(env, earlier, input, now, g);
    }
  }

  lemma VerifiedIsFound(env: Env, m: Market, id: string, now: int)
    requires VerifyAuthorization(env, m, id, now).Success?
    ensures FindItem(m.authorizations, id) == Some(VerifyAuthorization(env, m, id, now).value)
  {
    hide AllActive, IndexOf, Expired;
  }

  lemma LatestIsAuthorize(env: Env, start: Market, calls: seq<Call>, j: nat, i: nat, id: string)
    requires LatestAuthorization(env, start, calls, j, i, id)
    ensures j < i <= |calls| && calls[j].command.Authorize?
    ensures var m, input := At(env, start, calls, j), calls[j].command.authorization;
            Authorized(env, m, calls[j]) == Some(AuthorizationFor(env, m, input, calls[j].now))
  {
    hide At, AuthorizationFor, AuthorizationFault;
  }

  /** What a settlement needs of the ledger at the moment it is asked for. */
  ghost predicate MaySettle(env: Env, m: Market, input: SettleInput, now: int) {
    exists a, p, d ::
      && Item(input.authorizationId, a) in m.authorizations && Item(input.externalProofId, p) in m.externalProofs
      && Item(a.policyDecisionId, d) in m.decisions
      && input.authorizationId != "" && Executable(a) && !Expired(env, a, now) && AllActive(m, a.matchedGrants)
      && input.externalProofId != "" && p.status == "verified"
      && Has(m.facts, p.factId) && Has(m.paths, p.pathId) && Has(m.finalities, p.finalityId)
      && d.decision == "allow" && SettlementKey(env, input) !in m.settledKeys
  }

  predicate DistinctIds<A>(store: Store<A>) {
    forall i, j :: 0 <= i < j < |store| ==> store[i].id != store[j].id
  }

  lemma UpsertKeepsDistinct<A>(store: Store<A>, artifact: Item<A>)
    requires DistinctIds(store)
    ensures DistinctIds(UpsertById(store, artifact))
  {
    HasIffListed(store, artifact.id);
  }

  ghost predicate ToldApart(m: Market) {
    DistinctIds(m.authorizations) && DistinctIds(m.externalProofs) && DistinctIds(m.decisions)
  }

  /** No run stores two authorizations, proofs or decisions under one id. */
  lemma {:induction false} IdsStayDistinct(env: Env, start: Market, calls: seq<Call>)
    requires ToldApart(start)
    ensures ToldApart(RunCalls(env, start, calls))
  {
    hide AfterCall, UpsertById, DistinctIds, Judged, Authorized, Proved;
    if calls != [] {
      var n := |calls| - 1;
      var m, call := RunCalls(env, start, calls[..n]), calls[n];
      IdsStayDistinct(env, start, calls[..n]);
      DecisionsAfter(env, m, call, "");
      AuthorizationsAfter(env, m, call, "");
      ProofsAfter(env, m, call, "");
      if Judged(env, m, call).Some? { UpsertKeepsDistinct(m.decisions, Judged(env, m, call).value); }
      if Authorized(env, m, call).Some? { UpsertKeepsDistinct(m.authorizations, Authorized(env, m, call).value); }
      if Proved(env, m, call).Some? { UpsertKeepsDistinct(m.externalProofs, Proved(env, m, call).value); }
    }
  }

  lemma ListedIsFound<A>(store: Store<A>, e: Item<A>)
    requires DistinctIds(store) && e in store
    ensures FindItem(store, e.id) == Some(e.body)
  {
    var i :| 0 <= i < |store| && store[i] == e;
    var at := IndexOf(store, e.id);
    HasIffListed(store, e.id);
    assert store[at].id == store[i].id;
  }

  /** In a ledger whose ids are told apart, a settlement succeeds exactly when the ledger holds all it needs. */
  lemma SettlesExactlyWhen(env: Env, m: Market, input: SettleInput, now: int)
    requires ToldApart(m)
    ensures SettlementOutcome(env, m, input, now).Success? <==> MaySettle(env, m, input, now)
  {
    hide BuildSettlement, SettlementKey, Executable, Expired, AllActive, Has, IndexOf, DistinctIds, FindItem;
    if SettlementOutcome(env, m, input, now).Success? {
      var a := VerifyAuthorization(env, m, input.authorizationId, now).value;
      FindIsItem(m.authorizations, input.authorizationId);
      FindIsItem(m.externalProofs, input.externalProofId);
      FindIsItem(m.decisions, a.policyDecisionId);
    }
    if MaySettle(env, m, input, now) {
      var a, p, d :|
        && Item(input.authorizationId, a) in m.authorizations && Item(input.externalProofId, p) in m.externalProofs
        && Item(a.policyDecisionId, d) in m.decisions
        && input.authorizationId != "" && Executable(a) && !Expired(env, a, now) && AllActive(m, a.matchedGrants)
        && input.externalProofId != "" && p.status == "verified"
        && Has(m.facts, p.factId) && Has(m.paths, p.pathId) && Has(m.finalities, p.finalityId)
        && d.decision == "allow" && SettlementKey(env, input) !in m.settledKeys;
      ListedIsFound(m.authorizations, Item(input.authorizationId, a));
      ListedIsFound(m.externalProofs, Item(input.externalProofId, p));
      ListedIsFound(m.decisions, Item(a.policyDecisionId, d));
    }
  }

  /** Every settlement rests on the latest decision under the id it names, and that decision allows it. */
  lemma SaleDecision(env: Env, start: Market, calls: seq<Call>, i: nat) returns (j: nat)
    requires start.decisions == [] && i < |calls| && SaleAt(env, start, calls, i).Some?
    ensures var l := SaleAt(env, start, calls, i).value.proof.body.lineage;
      && LatestJudgement(env, start, calls, j, i, l.decisionId)
      && Judged(env, At(env, start, calls, j), calls[j]).value.body.decision == "allow"
      && Judged(env, At(env, start, calls, j), calls[j]).value.body.evaluationId == l.evaluationId
  {
    hide Sale, At, VerifyAuthorization, VerifyExternalProof, BuildSettlement, FindItem, Judged, LatestJudgement;
    var a, p, d := SaleParts(env, At(env, start, calls, i), calls[i]);
    j := DecisionOrigin(env, start, calls, i, a.policyDecisionId);
  }

  /** Every settlement rests on the latest external proof under the id it names, verified, and on that proof's fact. */
  lemma SaleProof(env: Env, start: Market, calls: seq<Call>, i: nat) returns (j: nat)
    requires start.externalProofs == [] && i < |calls| && SaleAt(env, start, calls, i).Some?
    ensures var s := SaleAt(env, start, calls, i).value;
      && LatestProof(env, start, calls, j, i, s.transaction.body.proofId)
      && Proved(env, At(env, start, calls, j), calls[j]).value.body.status == "verified"
      && s.proof.body.lineage.facts == [Proved(env, At(env, start, calls, j), calls[j]).value.body.factId]
  {
    hide Sale, At, VerifyAuthorization, VerifyExternalProof, BuildSettlement, FindItem, Proved, LatestProof;
    var m := At(env, start, calls, i);
    var a, p, d := SaleParts(env, m, calls[i]);
    VerifiedProof(m, calls[i].command.settlement.externalProofId);
    j := ProofOrigin(env, start, calls, i, calls[i].command.settlement.externalProofId);
  }

  lemma VerifiedProof(m: Market, id: string)
    requires VerifyExternalProof(m, id).Success?
    ensures FindItem(m.externalProofs, id) == Some(VerifyExternalProof(m, id).value)
    ensures VerifyExternalProof(m, id).value.status == "verified"
  {
    hide IndexOf;
  }

  // ---- one proof for one outside reference ----

  lemma ReplayKeysAfter(env: Env, m: Market, call: Call)
    ensures AfterCall(env, m, call).replayKeys
         == if Proved(env, m, call).Some? then m.replayKeys + [Proved(env, m, call).value.body.replayKey]
            else m.replayKeys
    ensures Proved(env, m, call).Some? ==>
      Proved(env, m, call).value.body.replayKey !in m.replayKeys || call.command.proof.allowDuplicate
  {
    hide UpsertById, RegisterCapability, CreateControlGrant, RevokeControlGrant, RecordPolicyArtifacts,
         BuildAuthorization, BuildExternalProof, ReplayKey, ReferenceId, ExecuteMarketplaceSettlement;
    if call.command.Prove? {
      BuiltUnderKey(env, call.command.proof, call.now);
    }
  }

  lemma BuiltUnderKey(env: Env, input: ProofInput, now: int)
    ensures BuildExternalProof(env, input, now).proof.body.replayKey == ReplayKey(env, input)
  {
    hide ReplayKey, ArtifactId, HashObject, Or, OrElse;
  }

  lemma {:induction false} ReplayKeysGrow(env: Env, start: Market, calls: seq<Call>, i: nat, j: nat)
    requires i <= j <= |calls|
    ensures forall k :: k in At(env, start, calls, i).replayKeys ==> k in At(env, start, calls, j).replayKeys
    decreases j
  {
    hide AfterCall, Proved;
    if i < j {
      ReplayKeysGrow(env, start, calls, i, j - 1);
      AtNext(env, start, calls, j - 1);
      ReplayKeysAfter(env, At(env, start, calls, j - 1), calls[j - 1]);
    }
  }

  /** One outside reference is proved once, except by calls that allow duplicates. */
  lemma OnceUnlessAllowed(env: Env, start: Market, calls: seq<Call>, i: nat, j: nat)
    requires i < j < |calls|
    requires Proved(env, At(env, start, calls, i), calls[i]).Some?
    requires Proved(env, At(env, start, calls, j), calls[j]).Some?
    requires Proved(env, At(env, start, calls, i), calls[i]).value.body.replayKey
          == Proved(env, At(env, start, calls, j), calls[j]).value.body.replayKey
    ensures calls[j].command.Prove? && calls[j].command.proof.allowDuplicate
  {
    hide AfterCall, At, CreateExternalProof;
    ReplayKeysAfter(env, At(env, start, calls, i), calls[i]);
    ReplayKeysAfter(env, At(env, start, calls, j), calls[j]);
    AtNext(env, start, calls, i);
    ReplayKeysGrow(env, start, calls, i + 1, j);
  }

  const DOMAIN := "source_domain"
  const TYPE := "proof_type"
  const REFERENCE := "external_reference_id"

  lemma ReplayFields(a: ProofInput)
    ensures ReplayBasis(a).Obj? && Plain(ReplayBasis(a))
    ensures ReplayBasis(a).fields
         == map[DOMAIN := Str(a.sourceDomain), TYPE := Str(a.proofType), REFERENCE := Str(ReferenceId(a))]
  {
    hide ReferenceId;
  }

  lemma ReplayNamesDiffer()
    ensures DOMAIN != TYPE && DOMAIN != REFERENCE && TYPE != REFERENCE
  {
    assert |DOMAIN| == 13 && |TYPE| == 10 && |REFERENCE| == 21;
  }

  /** Two proofs share a replay key exactly when they are of one type for one reference of one domain. */
  lemma ReplayKeyFixesReference(env: Env, a: ProofInput, b: ProofInput)
    requires CollisionFree(env.h, {Encode(ReplayBasis(a)), Encode(ReplayBasis(b))})
    ensures ReplayKey(env, a) == ReplayKey(env, b)
       <==> a.sourceDomain == b.sourceDomain && a.proofType == b.proofType && ReferenceId(a) == ReferenceId(b)
  {
    hide Encode, ReferenceId, ReplayBasis, Plain, Normal;
    var x, y := ReplayBasis(a), ReplayBasis(b);
    ReplayNamesDiffer();
    ReplayFields(a);
    ReplayFields(b);
    EncodeInjective(x, y);
    PlainIsNormal(x);
    PlainIsNormal(y);
    if x == y {
      assert x.fields[DOMAIN] == y.fields[DOMAIN] && x.fields[TYPE] == y.fields[TYPE];
      assert x.fields[REFERENCE] == y.fields[REFERENCE];
    }
  }
}
