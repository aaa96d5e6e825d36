/** Runs that lose an operation, and that settle on a capability nobody registered. */
module SettlementFailures {
  import opened Text
  import opened JsonValues
  import opened Artifacts
  import opened Capabilities
  import opened Settlement
  import opened SettlementLineage
  import opened SettlementCapabilities
  import opened SettlementOrigins
  import opened SettlementFlow

  // ---- four calls that make a settlement possible ----

  function Noughts(n: nat): (s: string)
    ensures |s| == n && forall i :: 0 <= i < n ==> s[i] == '0'
  {
    if n == 0 then "" else "0" + Noughts(n - 1)
  }

  /** A normal entity address. */
  function Entity(): string {
    "sl1e_" + Noughts(39)
  }

  /** A grant of capability `c` on scope `s` that goes by the given capability id. */
  function FirstGrantInput(capabilityId: string): GrantInput {
    GrantInput("g", Entity(), "", "c", "s", "", "", capabilityId, "", "", "", "")
  }

  const POLICY := PolicyInput("i", Undefined, Undefined, Undefined, "", "", "", "d", "")
  const RESULT := PolicyResult("", true, false, false, [])

  function PlainRequest(): AuthorizationInput {
    AuthorizationInput("a", Entity(), "", "c", "s", "d", "", "", "", "", Binding(true, []))
  }

  const PROOF_INPUT := ProofInput("x", "domain", "type", map[], "reference", "", false, "", "", "", "", "", "", "", "",
                                  Undefined, Undefined, Undefined, "")

  function Deal(key: string, operationId: string): SettleInput {
    SettleInput("a", "x", key, Undefined, "", "", Undefined, "", operationId, "", "", "", "")
  }

  function Preparation(capabilityId: string, now: int): seq<Call> {
    [Call(GiveGrant(FirstGrantInput(capabilityId)), now), Call(Judge(POLICY, RESULT), now),
     Call(Authorize(PlainRequest()), now), Call(Prove(PROOF_INPUT), now)]
  }

  lemma EntityIsNormal()
    ensures NormalizeEntity(Entity()) == Entity() != ""
  {
    var e := Entity();
    assert e[..5] == "sl1e_" && |e| == 44 && e[43] == '0' && e[0] == 's';
    assert forall i :: 5 <= i < 44 ==> e[i] == Noughts(39)[i - 5];
    hide Entity, Noughts;
    assert LowerText(e) by {
      forall i | 0 <= i < 44 ensures !('A' <= e[i] <= 'Z') {
        if i < 5 { assert e[i] == e[..5][i]; }
      }
    }
    LowerLeavesAlone(e);
    assert Trim(e) == e;
    hide Lower, Trim;
  }

  lemma NoKey()
    ensures NormalizeKey("") == ""
  {
  }

  lemma GrantFits(capabilityId: string)
    ensures FirstGrant(EMPTY_MARKET, FirstGrantInput(capabilityId))
  {
    hide Lower, NormalizeEntity, NormalizeKey, Entity;
    EntityIsNormal();
    LowerLeavesAlone("active");
    LowerLeavesAlone("allow");
  }

  lemma RequestFits(capabilityId: string)
    ensures AsksFor(PlainRequest(), FirstGrantInput(capabilityId))
  {
    hide NormalizeEntity, NormalizeKey, Entity;
    EntityIsNormal();
    NoKey();
  }

  lemma ProofFits(env: Env)
    ensures ProofFault(env, EMPTY_MARKET, PROOF_INPUT).None?
  {
    hide ReplayKey, ReferenceId, PROOF_INPUT;
    ProofInputFields();
  }

  lemma ProofInputFields()
    ensures PROOF_INPUT.sourceDomain != "" && PROOF_INPUT.proofType != "" && ReferenceId(PROOF_INPUT) != ""
    ensures !PROOF_INPUT.allowDuplicate
  {
  }

  lemma GivenIds(env: Env, m: Market, now: int)
    ensures RecordPolicyArtifacts(env, m, POLICY, RESULT, now).1.Success? ==>
      RecordPolicyArtifacts(env, m, POLICY, RESULT, now).1.value.id == "d"
    ensures BuildAuthorization(env, m, PlainRequest(), now).1.Success? ==>
      BuildAuthorization(env, m, PlainRequest(), now).1.value.id == "a"
    ensures CreateExternalProof(env, m, PROOF_INPUT, now).1.Success? ==>
      CreateExternalProof(env, m, PROOF_INPUT, now).1.value.id == "x"
  {
    hide BuildEvaluation, DecideCapability, ActiveControlGrants, HashObject, ArtifactId, ReplayKey, ReferenceId,
         UpsertById, ProofFault, AuthorizationFault;
  }

  lemma FourSteps(env: Env, m: Market, a: Call, b: Call, c: Call, d: Call)
    ensures RunCalls(env, m, [a, b, c, d])
         == AfterCall(env, AfterCall(env, AfterCall(env, AfterCall(env, m, a), b), c), d)
  {
    hide AfterCall;
    assert [a][..0] == [];
    assert RunCalls(env, m, [a]) == AfterCall(env, m, a);
    assert [a, b][..1] == [a];
    assert RunCalls(env, m, [a, b]) == AfterCall(env, RunCalls(env, m, [a]), b);
    assert [a, b, c][..2] == [a, b];
    assert RunCalls(env, m, [a, b, c]) == AfterCall(env, RunCalls(env, m, [a, b]), c);
    assert [a, b, c, d][..3] == [a, b, c];
  }

  /** After them, any settlement of the deal goes through, whatever its key. */
  lemma Prepared(env: Env, capabilityId: string, s: SettleInput, now: int)
    requires ClockReads(env, now) && s.authorizationId == "a" && s.externalProofId == "x"
    ensures SettlementOutcome(env, RunCalls(env, EMPTY_MARKET, Preparation(capabilityId, now)), s, now).Success?
  {
    hide CreateControlGrant, RecordPolicyArtifacts, BuildAuthorization, CreateExternalProof, SettlementOutcome,
         SettlementKey, FirstGrant, AsksFor, ProofFault, ClockReads, RunCalls, FirstGrantInput;
    var g := FirstGrantInput(capabilityId);
    GrantFits(capabilityId);
    RequestFits(capabilityId);
    ProofFits(env);
    var m1 := CreateControlGrant(env, EMPTY_MARKET, g, now).0;
    var m2 := RecordPolicyArtifacts(env, m1, POLICY, RESULT, now).0;
    var m3 := BuildAuthorization(env, m2, PlainRequest(), now).0;
    FourSteps(env, EMPTY_MARKET, Call(GiveGrant(g), now), Call(Judge(POLICY, RESULT), now),
              Call(Authorize(PlainRequest()), now), Call(Prove(PROOF_INPUT), now));
    GivenIds(env, m1, now);
    GivenIds(env, m2, now);
    GivenIds(env, m3, now);
    FlowSettles(env, EMPTY_MARKET, g, POLICY, RESULT, PlainRequest(), PROOF_INPUT, s, now);
  }

  lemma StepWithoutSale(env: Env, m: Market, call: Call)
    requires !call.command.Settle?
    ensures Sale(env, m, call).None?
  {
  }

  /** Nothing is settled yet. */
  lemma PreparedUnsettled(env: Env, capabilityId: string, now: int)
    ensures var m := RunCalls(env, EMPTY_MARKET, Preparation(capabilityId, now));
            m.settledKeys == [] && m.operations == [] && m.settlementProofs == []
  {
    hide AfterCall, Sale, RunCalls;
    var calls := Preparation(capabilityId, now);
    var m1 := AfterCall(env, EMPTY_MARKET, calls[0]);
    var m2 := AfterCall(env, m1, calls[1]);
    var m3 := AfterCall(env, m2, calls[2]);
    FourSteps(env, EMPTY_MARKET, calls[0], calls[1], calls[2], calls[3]);
    assert calls == [calls[0], calls[1], calls[2], calls[3]];
    StepWithoutSale(env, EMPTY_MARKET, calls[0]);
    StepWithoutSale(env, m1, calls[1]);
    StepWithoutSale(env, m2, calls[2]);
    StepWithoutSale(env, m3, calls[3]);
    NoSale(env, EMPTY_MARKET, calls[0]);
    NoSale(env, m1, calls[1]);
    NoSale(env, m2, calls[2]);
    NoSale(env, m3, calls[3]);
  }

  // ---- a lost operation ----

  lemma SaleOfDeal(env: Env, m: Market, key: string, operationId: string, now: int)
    requires SettlementOutcome(env, m, Deal(key, operationId), now).Success? && key != "" && operationId != ""
    ensures var call := Call(Settle(Deal(key, operationId)), now);
      Sale(env, m, call).Some? && Sale(env, m, call).value.operation.id == operationId
        && KeyOf(Sale(env, m, call).value) == key
  {
    hide VerifyAuthorization, VerifyExternalProof, BuildSettlement, FindItem;
  }

  /** Another settlement under an unused key goes through after the first, too. */
  lemma SecondDeal(env: Env, m: Market, s: Settled, input: SettleInput, now: int)
    requires SettlementOutcome(env, m, input, now).Success? && SettlementKey(env, input) != KeyOf(s)
    ensures SettlementOutcome(env, SettlementStored(m, s), input, now).Success?
  {
    hide BuildSettlement, SettlementKey, UpsertById, Expired, IndexOf, GrantStatus, VerifyAuthorization;
    SameVerdict(env, m, SettlementStored(m, s), input.authorizationId, now);
  }

  /** Six calls: two settlements, under different keys, are given the same operation id. The first key is used, and no
      operation serves it any more. */
  lemma SharedOperationIdLoses(env: Env, now: int) returns (calls: seq<Call>)
    requires ClockReads(env, now)
    ensures |calls| == 6 && !OneOperationPerKey(RunCalls(env, EMPTY_MARKET, calls))
    ensures Lost(RunCalls(env, EMPTY_MARKET, calls), "k1")
  {
    hide AfterCall, Sale, RunCalls, Preparation, SettlementOutcome, SettlementKey, ClockReads, Has, UpsertById;
    var prepared := Preparation("", now);
    var first, second := Call(Settle(Deal("k1", "o")), now), Call(Settle(Deal("k2", "o")), now);
    var m := RunCalls(env, EMPTY_MARKET, prepared);
    PreparedUnsettled(env, "", now);
    Prepared(env, "", Deal("k1", "o"), now);
    Prepared(env, "", Deal("k2", "o"), now);
    KeysOfDeals(env);
    SaleOfDeal(env, m, "k1", "o", now);
    SaleIsStored(env, m, first);
    var s, n := Sale(env, m, first).value, AfterCall(env, m, first);
    SecondDeal(env, m, s, Deal("k2", "o"), now);
    SaleOfDeal(env, n, "k2", "o", now);
    SaleIsStored(env, n, second);
    var t, end := Sale(env, n, second).value, AfterCall(env, n, second);
    LastOperation(m, s, t);
    calls := prepared + [first] + [second];
    TwoMore(env, EMPTY_MARKET, prepared, first, second);
    FourPrepared("", now);
    assert Lost(end, "k1");
    LostIsNotOne(end, "k1");
  }

  lemma FourPrepared(capabilityId: string, now: int)
    ensures |Preparation(capabilityId, now)| == 4
  {
  }

  lemma KeysOfDeals(env: Env)
    ensures SettlementKey(env, Deal("k1", "o")) == "k1" && SettlementKey(env, Deal("k2", "o")) == "k2"
    ensures "k1" != "k2"
  {
    assert "k1"[1] != "k2"[1];
  }

  /** Two operations stored under one id into an empty store: the second is left. */
  lemma LastOperation(m: Market, s: Settled, t: Settled)
    requires m.operations == [] && m.settledKeys == [] && s.operation.id == t.operation.id
    ensures SettlementStored(SettlementStored(m, s), t).operations == [t.operation]
    ensures SettlementStored(SettlementStored(m, s), t).settledKeys == [KeyOf(s), KeyOf(t)]
  {
    assert UpsertById(m.operations, s.operation) == [s.operation];
  }

  lemma TwoMore(env: Env, start: Market, calls: seq<Call>, a: Call, b: Call)
    ensures RunCalls(env, start, calls + [a]) == AfterCall(env, RunCalls(env, start, calls), a)
    ensures RunCalls(env, start, calls + [a] + [b])
         == AfterCall(env, AfterCall(env, RunCalls(env, start, calls), a), b)
  {
    hide AfterCall;
    assert (calls + [a])[..|calls|] == calls;
    assert (calls + [a] + [b])[..|calls| + 1] == calls + [a];
  }

  // ---- an unregistered capability ----

  lemma OwnIdIsNotDerived(env: Env)
    ensures CapabilityId(env, "c", "s") != "own"
  {
    assert CapabilityId(env, "c", "s")[0] == 'c' && "own"[0] == 'o';
  }

  lemma OnlyOwnRegistered(env: Env, now: int, s: SettleInput)
    ensures !Registered(env, EMPTY_MARKET, Preparation("own", now) + [Call(Settle(s), now)],
                        CapabilityId(env, "c", "s"))
  {
    var id := CapabilityId(env, "c", "s");
    OwnIdIsNotDerived(env);
    hide CapabilityId, GrantFault, GrantTerms, GrantBasis, ArtifactId;
    var calls := Preparation("own", now) + [Call(Settle(s), now)];
    assert Has(EMPTY_MARKET.capabilities, id) == false;
    forall j | 0 <= j < |calls| ensures !Registers(env, calls[j], id) {
      assert calls[0] == Call(GiveGrant(FirstGrantInput("own")), now);
    }
  }

  /** Five calls: the grant goes by a capability id of its own, and the proof names the derived one, which nothing
      registered. */
  lemma OwnIdLeavesProofUnknown(env: Env, now: int) returns (calls: seq<Call>, proof: Item<SettlementProof>)
    requires ClockReads(env, now)
    ensures |calls| == 5 && proof in RunCalls(env, EMPTY_MARKET, calls).settlementProofs
    ensures !AllKnown(RunCalls(env, EMPTY_MARKET, calls), proof.body.lineage.capabilityIds)
    ensures !ProofsKnown(RunCalls(env, EMPTY_MARKET, calls))
  {
    hide AfterCall, Sale, RunCalls, SettlementOutcome, SettlementKey, ClockReads, Has, UpsertById, CapabilityId,
         Registered, FairlyAuthorized, Expired, Authorized, AllowedAt, AllActive, FirstGrantInput, LatestAuthorization;
    var prepared, input := Preparation("own", now), Deal("k1", "o");
    var last := Call(Settle(input), now);
    calls := prepared + [last];
    var m := RunCalls(env, EMPTY_MARKET, prepared);
    Prepared(env, "own", input, now);
    SaleOfDeal(env, m, "k1", "o", now);
    TwoMore(env, EMPTY_MARKET, prepared, last, last);
    SaleIsStored(env, m, last);
    PreparedUnsettled(env, "own", now);
    var s := Sale(env, m, last).value;
    proof := s.proof;
    UpsertOfNone(m.settlementProofs, proof);
    assert calls[..4] == prepared && calls[4] == last;
    assert SaleAt(env, EMPTY_MARKET, calls, 4) == Some(s);
    var j := SaleAuthorization(env, EMPTY_MARKET, calls, 4);
    assert j == 2 by { LatestIsAuthorize(env, EMPTY_MARKET, calls, j, 4, s.proof.body.lineage.authorizationId); }
    assert calls[2].command.authorization == PlainRequest();
    var id := CapabilityId(env, "c", "s");
    assert proof.body.lineage.capabilityIds == [id];
    OnlyOwnRegistered(env, now, input);
    KnownIffRegistered(env, EMPTY_MARKET, calls, id);
    assert !Has(RunCalls(env, EMPTY_MARKET, calls).capabilities, proof.body.lineage.capabilityIds[0]);
  }

  lemma UpsertOfNone<A>(store: Store<A>, artifact: Item<A>)
    requires store == []
    ensures artifact in UpsertById(store, artifact)
  {
    assert UpsertById(store, artifact) == [artifact];
  }
}
