/** What holds over whole runs of grants, decisions, authorizations, proofs, revocations and settlements. */
module SettlementLineage {
  import opened Text
  import opened JsonValues
  import opened JsonParser
  import opened History
  import opened Artifacts
  import opened Capabilities
  import opened Settlement

  datatype MarketCommand =
    | AddCapability(capability: CapabilityInput)
    | GiveGrant(grant: GrantInput)
    | TakeGrant(revocation: RevokeInput)
    | Judge(policy: PolicyInput, result: PolicyResult)
    | Authorize(authorization: AuthorizationInput)
    | Prove(proof: ProofInput)
    | Settle(settlement: SettleInput)

  datatype Call = Call(command: MarketCommand, now: int)

  function AfterCall(env: Env, m: Market, call: Call): Market {
    match call.command
    case AddCapability(input) => RegisterCapability(env, m, input, call.now).0
    case GiveGrant(input) => CreateControlGrant(env, m, input, call.now).0
    case TakeGrant(input) => RevokeControlGrant(env, m, input, call.now).0
    case Judge(input, result) => RecordPolicyArtifacts(env, m, input, result, call.now).0
    case Authorize(input) => BuildAuthorization(env, m, input, call.now).0
    case Prove(input) => CreateExternalProof(env, m, input, call.now).0
    case Settle(input) => ExecuteMarketplaceSettlement(env, m, input, call.now).0
  }

  function RunCalls(env: Env, start: Market, calls: seq<Call>): Market {
    if calls == [] then start
    else AfterCall(env, RunCalls(env, start, calls[..|calls| - 1]), calls[|calls| - 1])
  }

  /** The ledger before call `i`. */
  function At(env: Env, start: Market, calls: seq<Call>, i: nat): Market
    requires i <= |calls|
  {
    RunCalls(env, start, calls[..i])
  }

  lemma AtNext(env: Env, start: Market, calls: seq<Call>, i: nat)
    requires i < |calls|
    ensures At(env, start, calls, i + 1) == AfterCall(env, At(env, start, calls, i), calls[i])
  {
    hide AfterCall;
    assert calls[..i + 1][..i] == calls[..i];
  }

  /** The settlement a call makes, if it makes one. */
  function Sale(env: Env, m: Market, call: Call): Option<Settled> {
    match call.command
    case Settle(input) =>
      (match SettlementOutcome(env, m, input, call.now)
       case Success(s) => Some(s)
       case Failure(_) => None)
    case _ => None
  }

  function SaleAt(env: Env, start: Market, calls: seq<Call>, i: nat): Option<Settled>
    requires i < |calls|
  {
    Sale(env, At(env, start, calls, i), calls[i])
  }

  // ---- each idempotency key settles at most once ----

  function KeyOf(s: Settled): string {
    s.operation.body.idempotencyKey
  }

  /** A settlement is stored under a key that was not used before. */
  lemma SaleIsStored(env: Env, m: Market, call: Call)
    requires Sale(env, m, call).Some?
    ensures AfterCall(env, m, call) == SettlementStored(m, Sale(env, m, call).value)
    ensures KeyOf(Sale(env, m, call).value) !in m.settledKeys
  {
    hide SettlementStored, VerifyAuthorization, VerifyExternalProof, BuildSettlement, SettlementKey, FindItem;
  }

  /** No other call touches what settlements write. */
  lemma NoSale(env: Env, m: Market, call: Call)
    requires Sale(env, m, call).None?
    ensures AfterCall(env, m, call).settledKeys == m.settledKeys && AfterCall(env, m, call).operations == m.operations
    ensures AfterCall(env, m, call).settlementProofs == m.settlementProofs
    ensures AfterCall(env, m, call).transactions == m.transactions
  {
    hide RegisterCapability, CreateControlGrant, RevokeControlGrant, RecordPolicyArtifacts, BuildAuthorization,
         CreateExternalProof, SettlementOutcome;
  }

  lemma KeysGrow(env: Env, start: Market, calls: seq<Call>, i: nat, j: nat)
    requires i <= j <= |calls|
    ensures forall k :: k in At(env, start, calls, i).settledKeys ==> k in At(env, start, calls, j).settledKeys
    decreases j
  {
    hide AfterCall, Sale;
    if i < j {
      KeysGrow(env, start, calls, i, j - 1);
      AtNext(env, start, calls, j - 1);
      var m := At(env, start, calls, j - 1);
      if Sale(env, m, calls[j - 1]).Some? {
        SaleIsStored(env, m, calls[j - 1]);
      } else {
        NoSale(env, m, calls[j - 1]);
      }
    }
  }

  /** Over any run from any ledger, two settlements never carry the same idempotency key. */
  lemma OncePerKey(env: Env, start: Market, calls: seq<Call>, i: nat, j: nat)
    requires i < j < |calls|
    requires SaleAt(env, start, calls, i).Some? && SaleAt(env, start, calls, j).Some?
    ensures KeyOf(SaleAt(env, start, calls, i).value) != KeyOf(SaleAt(env, start, calls, j).value)
  {
    hide AfterCall, Sale, At, KeyOf;
    SaleIsStored(env, At(env, start, calls, i), calls[i]);
    SaleIsStored(env, At(env, start, calls, j), calls[j]);
    AtNext(env, start, calls, i);
    KeysGrow(env, start, calls, i + 1, j);
    assert KeyOf(SaleAt(env, start, calls, i).value) in At(env, start, calls, i + 1).settledKeys by {
      KeyIsStored(At(env, start, calls, i), SaleAt(env, start, calls, i).value);
    }
  }

  lemma KeyIsStored(m: Market, s: Settled)
    ensures KeyOf(s) in SettlementStored(m, s).settledKeys
  {
    assert SettlementStored(m, s).settledKeys[|m.settledKeys|] == KeyOf(s);
  }

  /** The same purchase intent, proof and authorization, as far as JSON tells. */
  predicate SameDeal(a: SettleInput, b: SettleInput) {
    (a.purchaseIntentId.Undefined? <==> b.purchaseIntentId.Undefined?)
    && Normal(a.purchaseIntentId) == Normal(b.purchaseIntentId)
    && a.externalProofId == b.externalProofId && a.authorizationId == b.authorizationId
  }

  const INTENT := "purchase_intent_id"
  const PROOF := "external_proof_id"
  const AUTHORIZATION := "authorization_id"

  lemma NamesDiffer()
    ensures INTENT != PROOF && INTENT != AUTHORIZATION && PROOF != AUTHORIZATION
  {
    assert |INTENT| == 18 && |PROOF| == 17 && |AUTHORIZATION| == 16;
  }

  lemma KeyBasisParts(a: SettleInput)
    ensures Normal(KeyBasis(a)).Obj?
    ensures var f := Normal(KeyBasis(a)).fields;
      && (forall k :: k in f <==> k == PROOF || k == AUTHORIZATION || (k == INTENT && !a.purchaseIntentId.Undefined?))
      && f[PROOF] == Str(a.externalProofId) && f[AUTHORIZATION] == Str(a.authorizationId)
      && (!a.purchaseIntentId.Undefined? ==> f[INTENT] == Normal(a.purchaseIntentId))
  {
    hide Normal;
    NamesDiffer();
    NormalFields(KeyBasis(a).fields);
    NormalText(a.externalProofId);
    NormalText(a.authorizationId);
    assert KeyBasis(a).fields == map[INTENT := a.purchaseIntentId, PROOF := Str(a.externalProofId),
                                     AUTHORIZATION := Str(a.authorizationId)];
    hide KeyBasis;
  }

  lemma SameBasis(a: SettleInput, b: SettleInput)
    ensures Normal(KeyBasis(a)) == Normal(KeyBasis(b)) <==> SameDeal(a, b)
  {
    hide Normal, KeyBasis;
    NamesDiffer();
    KeyBasisParts(a);
    KeyBasisParts(b);
    var f, g := Normal(KeyBasis(a)).fields, Normal(KeyBasis(b)).fields;
    if SameDeal(a, b) {
      assert forall k :: k in f <==> k in g;
      assert forall k :: k in f ==> f[k] == g[k];
      assert f == g;
    }
    if f == g {
      assert INTENT in f <==> INTENT in g;
      assert f[PROOF] == g[PROOF] && f[AUTHORIZATION] == g[AUTHORIZATION];
    }
  }

  lemma NormalFields(fields: Fields)
    ensures Normal(Obj(fields)).Obj?
    ensures forall k :: k in Normal(Obj(fields)).fields <==> k in fields && fields[k] != Undefined
    ensures forall k :: k in Normal(Obj(fields)).fields ==> Normal(Obj(fields)).fields[k] == Normal(fields[k])
  {
  }

  lemma NormalText(text: string)
    ensures Normal(Str(text)) == Str(text)
  {
  }

  /** Two settlements that leave the key to be derived share one exactly when they are the same deal. */
  lemma DerivedKeyFixesDeal(env: Env, a: SettleInput, b: SettleInput)
    requires a.idempotencyKey == "" && b.idempotencyKey == ""
    requires CollisionFree(env.h, {Encode(KeyBasis(a)), Encode(KeyBasis(b))})
    ensures SettlementKey(env, a) == SettlementKey(env, b) <==> SameDeal(a, b)
  {
    hide Encode, Normal, KeyBasis, SameDeal;
    EncodeInjective(KeyBasis(a), KeyBasis(b));
    SameBasis(a, b);
  }

  lemma SaleKey(env: Env, m: Market, call: Call)
    requires Sale(env, m, call).Some?
    ensures call.command.Settle? && KeyOf(Sale(env, m, call).value) == SettlementKey(env, call.command.settlement)
  {
    hide VerifyAuthorization, VerifyExternalProof, BuildSettlement, SettlementKey, FindItem;
  }

  /** Over any run, one deal is settled at most once without a key of its own, whatever the hash. */
  lemma OncePerDeal(env: Env, start: Market, calls: seq<Call>, i: nat, j: nat)
    requires i < j < |calls| && calls[i].command.Settle? && calls[j].command.Settle?
    requires calls[i].command.settlement.idempotencyKey == "" && calls[j].command.settlement.idempotencyKey == ""
    requires SameDeal(calls[i].command.settlement, calls[j].command.settlement)
    ensures SaleAt(env, start, calls, i).None? || SaleAt(env, start, calls, j).None?
  {
    hide Sale, At, Encode, Normal, KeyBasis, SameDeal;
    var a, b := calls[i].command.settlement, calls[j].command.settlement;
    SameBasis(a, b);
    EncodeInjective(KeyBasis(a), KeyBasis(b));
    if SaleAt(env, start, calls, i).Some? && SaleAt(env, start, calls, j).Some? {
      SaleKey(env, At(env, start, calls, i), calls[i]);
      SaleKey(env, At(env, start, calls, j), calls[j]);
      OncePerKey(env, start, calls, i, j);
    }
  }

  // ---- each settled key has exactly one operation ----

  /** Operation `i` is the only one with the given key. */
  predicate OnlyOperation(operations: Store<Operation>, key: string, i: nat) {
    i < |operations| && operations[i].body.idempotencyKey == key
    && forall j :: 0 <= j < |operations| && operations[j].body.idempotencyKey == key ==> j == i
  }

  ghost predicate OneOperationPerKey(m: Market) {
    (forall k :: k in m.settledKeys ==> exists i :: OnlyOperation(m.operations, k, i))
    && forall i :: 0 <= i < |m.operations| ==> m.operations[i].body.idempotencyKey in m.settledKeys
  }

  /** A settlement leaves every key with one operation exactly when its operation id was not taken. */
  lemma OneOperationUnlessTaken(env: Env, m: Market, call: Call)
    requires OneOperationPerKey(m) && Sale(env, m, call).Some?
    ensures OneOperationPerKey(AfterCall(env, m, call)) <==> !Has(m.operations, Sale(env, m, call).value.operation.id)
  {
    hide AfterCall, Sale;
    SaleIsStored(env, m, call);
    var s, next := Sale(env, m, call).value, AfterCall(env, m, call);
    if Has(m.operations, s.operation.id) {
      var key := OperationLost(m, s);
      LostIsNotOne(next, key);
    } else {
      OperationAdded(m, s);
    }
  }

  lemma OperationAdded(m: Market, s: Settled)
    requires OneOperationPerKey(m) && KeyOf(s) !in m.settledKeys && !Has(m.operations, s.operation.id)
    ensures OneOperationPerKey(SettlementStored(m, s))
  {
    hide Has;
    var next := SettlementStored(m, s);
    var before, after := m.operations, next.operations;
    assert !Has(m.operations, s.operation.id) ==> after == before + [s.operation] by {
      UpsertOfNew(before, s.operation);
    }
    assert forall i :: 0 <= i < |before| ==> after[i] == before[i];
    assert after[|before|] == s.operation;
    forall k | k in next.settledKeys ensures exists i :: OnlyOperation(after, k, i) {
      if k == KeyOf(s) {
        assert OnlyOperation(after, k, |before|);
      } else {
        assert k in m.settledKeys;
        var i :| OnlyOperation(before, k, i);
        assert OnlyOperation(after, k, i);
      }
    }
  }

  lemma UpsertOfNew<A>(store: Store<A>, artifact: Item<A>)
    ensures !Has(store, artifact.id) ==> UpsertById(store, artifact) == store + [artifact]
  {
  }

  /** A used key that has no operation. */
  ghost predicate Lost(m: Market, key: string) {
    key in m.settledKeys && forall i :: 0 <= i < |m.operations| ==> m.operations[i].body.idempotencyKey != key
  }

  lemma LostIsNotOne(m: Market, key: string)
    requires Lost(m, key)
    ensures !OneOperationPerKey(m)
  {
  }

  /** Overwriting an operation leaves the key it served without one. */
  lemma OperationLost(m: Market, s: Settled) returns (key: string)
    requires OneOperationPerKey(m) && KeyOf(s) !in m.settledKeys && Has(m.operations, s.operation.id)
    ensures Lost(SettlementStored(m, s), key)
  {
    var next, at := SettlementStored(m, s), IndexOf(m.operations, s.operation.id);
    key := m.operations[at].body.idempotencyKey;
    assert next.operations == m.operations[at := s.operation];
    assert key in next.settledKeys;
    var i :| OnlyOperation(m.operations, key, i);
    assert i == at;
  }

  /** A lost key stays lost: no later settlement uses it. */
  lemma LostStays(env: Env, m: Market, call: Call, key: string)
    requires Lost(m, key)
    ensures Lost(AfterCall(env, m, call), key)
  {
    hide AfterCall, Sale;
    if Sale(env, m, call).Some? {
      SaleIsStored(env, m, call);
      var s, next := Sale(env, m, call).value, AfterCall(env, m, call);
      UpsertAddsOnly(m.operations, s.operation);
      forall i | 0 <= i < |next.operations| ensures next.operations[i].body.idempotencyKey != key {
        assert next.operations[i] in next.operations;
      }
    } else {
      NoSale(env, m, call);
    }
  }

  /** Call `i` settled although its operation id was taken. */
  predicate FoundTaken(env: Env, start: Market, calls: seq<Call>, i: nat)
    requires i < |calls|
  {
    SaleAt(env, start, calls, i).Some?
    && Has(At(env, start, calls, i).operations, SaleAt(env, start, calls, i).value.operation.id)
  }

  ghost predicate NoneTaken(env: Env, start: Market, calls: seq<Call>) {
    forall i :: 0 <= i < |calls| ==> !FoundTaken(env, start, calls, i)
  }

  /** Over whole runs, every used key has exactly one operation exactly when no settlement found its operation id
      taken; what was lost once is lost for good. */
  lemma {:induction false} OneOperationOverRuns(env: Env, start: Market, calls: seq<Call>)
    requires OneOperationPerKey(start)
    ensures OneOperationPerKey(RunCalls(env, start, calls)) <==> NoneTaken(env, start, calls)
    ensures OneOperationPerKey(RunCalls(env, start, calls)) || exists key :: Lost(RunCalls(env, start, calls), key)
  {
    hide AfterCall, Sale, Has, OneOperationPerKey, Lost;
    if calls != [] {
      var n := |calls| - 1;
      var m, call := RunCalls(env, start, calls[..n]), calls[n];
      OneOperationOverRuns(env, start, calls[..n]);
      NoneTakenStep(env, start, calls);
      if OneOperationPerKey(m) {
        if Sale(env, m, call).None? {
          NoSale(env, m, call);
          SameOperations(m, AfterCall(env, m, call));
        } else {
          SaleIsStored(env, m, call);
          OneOperationUnlessTaken(env, m, call);
          if Has(m.operations, Sale(env, m, call).value.operation.id) {
            var key := OperationLost(m, Sale(env, m, call).value);
          }
        }
      } else {
        var key :| Lost(m, key);
        LostStays(env, m, call, key);
        LostIsNotOne(AfterCall(env, m, call), key);
      }
    }
  }

  lemma NoneTakenStep(env: Env, start: Market, calls: seq<Call>)
    requires calls != []
    ensures var n := |calls| - 1;
      NoneTaken(env, start, calls) <==> (NoneTaken(env, start, calls[..n]) && !FoundTaken(env, start, calls, n))
  {
    hide Sale, Has, RunCalls;
    var n := |calls| - 1;
    forall i | 0 <= i < n ensures FoundTaken(env, start, calls[..n], i) == FoundTaken(env, start, calls, i) {
      assert calls[..n][..i] == calls[..i] && calls[..n][i] == calls[i];
    }
  }

  // ---- with derived operation ids that always holds ----

  predicate LeavesOperationIds(calls: seq<Call>) {
    forall i :: 0 <= i < |calls| && calls[i].command.Settle? ==> calls[i].command.settlement.operationId == ""
  }

  function OperationText(o: Operation): string {
    Encode(OperationBasis(o.idempotencyKey, o.transactionId))
  }

  /** The texts hashed for the operation ids of a run. */
  function OperationTexts(env: Env, start: Market, calls: seq<Call>): set<string> {
    if calls == [] then {}
    else
      var before := OperationTexts(env, start, calls[..|calls| - 1]);
      match SaleAt(env, start, calls, |calls| - 1)
      case Some(s) => before + {OperationText(s.operation.body)}
      case None => before
  }

  /** Every operation id is derived, from one of the given texts. */
  predicate DerivedFrom(env: Env, operations: Store<Operation>, texts: set<string>) {
    forall i :: 0 <= i < |operations| ==>
      operations[i].id == DerivedId(env, operations[i].body) && OperationText(operations[i].body) in texts
  }

  function DerivedId(env: Env, o: Operation): string {
    ArtifactId(env.h, "settle", OperationBasis(o.idempotencyKey, o.transactionId), 24)
  }

  lemma TextFixesKey(a: Operation, b: Operation)
    requires OperationText(a) == OperationText(b)
    ensures a.idempotencyKey == b.idempotencyKey
  {
    hide Encode;
    var x, y := OperationBasis(a.idempotencyKey, a.transactionId), OperationBasis(b.idempotencyKey, b.transactionId);
    EncodeInjective(x, y);
    PlainIsNormal(x);
    PlainIsNormal(y);
    assert x.fields["idempotencyKey"] == y.fields["idempotencyKey"];
  }

  /** A derived operation id is free as long as its key is. */
  lemma DerivedIdIsFree(env: Env, m: Market, o: Operation, texts: set<string>)
    requires OneOperationPerKey(m) && DerivedFrom(env, m.operations, texts)
    requires CutTellsApart(env.h, 24, texts) && OperationText(o) in texts
    requires o.idempotencyKey !in m.settledKeys
    ensures !Has(m.operations, DerivedId(env, o))
  {
    hide Encode, OperationBasis, CutTellsApart;
    var i := IndexOf(m.operations, DerivedId(env, o));
    if i < |m.operations| {
      var other := m.operations[i].body;
      DerivedIdFixesText(env.h, "settle", OperationBasis(o.idempotencyKey, o.transactionId),
                         OperationBasis(other.idempotencyKey, other.transactionId), 24, texts);
      TextFixesKey(o, other);
    }
  }

  lemma DerivedSaleId(env: Env, m: Market, call: Call)
    requires Sale(env, m, call).Some? && call.command.settlement.operationId == ""
    ensures Sale(env, m, call).value.operation.id == DerivedId(env, Sale(env, m, call).value.operation.body)
  {
    hide VerifyAuthorization, VerifyExternalProof, BuildSettlement, SettlementKey, FindItem, ArtifactId, OperationBasis;
  }

  /**
    * Over every run that leaves operation ids to be derived, each settled key has exactly one operation,
    * provided the cut hash tells the operations of that run apart.
    */
  lemma {:induction false} OneOperationWhenDerived(env: Env, start: Market, calls: seq<Call>, texts: set<string>)
    requires start.operations == [] && start.settledKeys == []
    requires LeavesOperationIds(calls)
    requires OperationTexts(env, start, calls) <= texts && CutTellsApart(env.h, 24, texts)
    ensures OneOperationPerKey(RunCalls(env, start, calls))
    ensures DerivedFrom(env, RunCalls(env, start, calls).operations, texts)
  {
    hide AfterCall, Sale, Has, CutTellsApart, DerivedId, OperationText, OneOperationPerKey;
    if calls == [] {
      assert OneOperationPerKey(start) by { NothingSettled(start); }
    } else {
      var n := |calls| - 1;
      var m, call := RunCalls(env, start, calls[..n]), calls[n];
      OneOperationWhenDerived(env, start, calls[..n], texts);
      assert RunCalls(env, start, calls) == AfterCall(env, m, call);
      if Sale(env, m, call).Some? {
        var s := Sale(env, m, call).value;
        SaleIsStored(env, m, call);
        SaleComesFromSettle(env, m, call);
        DerivedSaleId(env, m, call);
        assert SaleAt(env, start, calls, n) == Some(s);
        DerivedIdIsFree(env, m, s.operation.body, texts);
        OneOperationUnlessTaken(env, m, call);
        UpsertOfNew(m.operations, s.operation);
      } else {
        NoSale(env, m, call);
        SameOperations(m, AfterCall(env, m, call));
      }
    }
  }

  lemma NothingSettled(m: Market)
    requires m.operations == [] && m.settledKeys == []
    ensures OneOperationPerKey(m)
  {
  }

  lemma SameOperations(m: Market, next: Market)
    requires OneOperationPerKey(m) && next.operations == m.operations && next.settledKeys == m.settledKeys
    ensures OneOperationPerKey(next)
  {
  }

  lemma SaleComesFromSettle(env: Env, m: Market, call: Call)
    requires Sale(env, m, call).Some?
    ensures call.command.Settle?
  {
    hide SettlementOutcome;
  }
}
