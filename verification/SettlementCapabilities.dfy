/** Where the capability a settlement proof names can be looked up. */
module SettlementCapabilities {
  import opened Text
  import opened Artifacts
  import opened Capabilities
  import opened Settlement
  import opened SettlementLineage
  import opened SettlementGrounds
  import opened SettlementOrigins

  /** A grant that is given makes its capability known exactly when it was known or the grant goes by its id. */
  lemma GrantRegistersCapability(env: Env, m: Market, input: GrantInput, now: int)
    requires BuildControlGrant(env, input, now).Success?
    ensures Has(CreateControlGrant(env, m, input, now).0.capabilities, CapabilityId(env, input.capability, input.scope))
      <==> Has(m.capabilities, CapabilityId(env, input.capability, input.scope))
           || BuildControlGrant(env, input, now).value.body.capabilityId
             == CapabilityId(env, input.capability, input.scope)
  {
    hide BuildControlGrant, UpsertById, IndexOf, Has, CapabilityId;
    var grant := BuildControlGrant(env, input, now).value;
    var g := grant.body;
    var capability := Item(g.capabilityId,
      Capability(g.terms.capability, g.terms.scope, OrElse(g.grantedAt, env.iso(now))));
    HasAfterUpsert(m.capabilities, capability, CapabilityId(env, input.capability, input.scope));
  }

  lemma HasAfterUpsert<A>(store: Store<A>, artifact: Item<A>, id: string)
    ensures Has(UpsertById(store, artifact), id) <==> Has(store, id) || id == artifact.id
  {
    FindAfterUpsert(store, artifact, id);
  }

  predicate Known(env: Env, m: Market, t: Terms) {
    Has(m.capabilities, CapabilityId(env, t.capability, t.scope))
  }

  predicate AllKnown(m: Market, ids: seq<string>) {
    forall i :: 0 <= i < |ids| ==> Has(m.capabilities, ids[i])
  }

  ghost predicate GrantsKnown(env: Env, m: Market) {
    (forall e :: e in m.controlGrants ==> Known(env, m, e.body.terms))
    && forall e :: e in m.capabilityGrants ==> Known(env, m, e.body.terms)
  }

  /** Every capability a grant, an executable authorization or a settlement proof names is registered. */
  ghost predicate CapabilitiesKnown(env: Env, m: Market) {
    GrantsKnown(env, m)
    && (forall e :: e in m.authorizations && Executable(e.body) ==> Has(m.capabilities, e.body.capabilityId))
    && forall e :: e in m.settlementProofs ==> AllKnown(m, e.body.lineage.capabilityIds)
  }

  /** Grants go by the derived capability id. */
  predicate OwnCapability(env: Env, call: Call) {
    call.command.GiveGrant? ==>
      var input := call.command.grant;
      OrElse(input.capabilityId, CapabilityId(env, input.capability, input.scope))
      == CapabilityId(env, input.capability, input.scope)
  }

  lemma StillRegistered(env: Env, m: Market, next: Market)
    requires Kept(m.capabilities, next.capabilities)
    ensures forall t :: Known(env, m, t) ==> Known(env, next, t)
    ensures forall ids :: AllKnown(m, ids) ==> AllKnown(next, ids)
  {
    hide Has, CapabilityId;
  }

  lemma GrantKeepsKnown(env: Env, m: Market, input: GrantInput, now: int)
    requires CapabilitiesKnown(env, m) && OwnCapability(env, Call(GiveGrant(input), now))
    ensures CapabilitiesKnown(env, CreateControlGrant(env, m, input, now).0)
  {
    hide UpsertById, Has, CapabilityId, GrantFault, GrantTerms, AllKnown, IndexOf, ArtifactId, NormalizeEntity;
    var next := CreateControlGrant(env, m, input, now).0;
    if BuildControlGrant(env, input, now).Success? {
      var grant := BuildControlGrant(env, input, now).value;
      var g := grant.body;
      var capability := Item(g.capabilityId,
        Capability(g.terms.capability, g.terms.scope, OrElse(g.grantedAt, env.iso(now))));
      TermsOfGrant(input);
      UpsertKeeps(m.capabilities, capability);
      UpsertAddsOnly(m.controlGrants, grant);
      UpsertAddsOnly(m.capabilityGrants, Item(grant.id, CreGrant(g.terms, "")));
      StillRegistered(env, m, next);
      assert Known(env, next, g.terms);
    }
  }

  lemma TermsOfGrant(input: GrantInput)
    ensures GrantTerms(input).capability == input.capability && GrantTerms(input).scope == input.scope
  {
  }

  lemma RevokeKeepsKnown(env: Env, m: Market, input: RevokeInput, now: int)
    requires CapabilitiesKnown(env, m)
    ensures CapabilitiesKnown(env, RevokeControlGrant(env, m, input, now).0)
  {
    hide UpsertById, Has, CapabilityId, AllKnown, ArtifactId, NormalizeEntity, FindItem, IndexOf;
    var at := OrElse(input.revokedAt, env.iso(now));
    var next := RevokeControlGrant(env, m, input, now).0;
    if FindItem(m.controlGrants, input.grantId).Some? {
      var g := FindItem(m.controlGrants, input.grantId).value;
      FindIsItem(m.controlGrants, input.grantId);
      UpsertAddsOnly(m.controlGrants, Item(input.grantId, g.(terms := g.terms.(status := "revoked"), revokedAt := at)));
    }
    if FindItem(m.capabilityGrants, input.grantId).Some? {
      var g := FindItem(m.capabilityGrants, input.grantId).value;
      FindIsItem(m.capabilityGrants, input.grantId);
      UpsertAddsOnly(m.capabilityGrants, Item(input.grantId, CreGrant(g.terms.(status := "revoked"), at)));
    }
    StillRegistered(env, m, next);
  }

  lemma ShownKnown(env: Env, m: Market, request: Request, now: int)
    requires GrantsKnown(env, m) && Spoken(env, ActiveControlGrants(m), request, now, "allow")
    ensures Has(m.capabilities, CapabilityId(env, request.capability, request.scope))
  {
    hide ActiveControlGrants, Has, CapabilityId, NormalizeKey, InForce, Lower;
    var g :| g in ActiveControlGrants(m) && Speaks(env, g, request, now, "allow");
    ShownGrant(m, g);
    assert Known(env, m, g.body);
  }

  lemma AuthorizeKeepsKnown(env: Env, m: Market, input: AuthorizationInput, now: int)
    requires CapabilitiesKnown(env, m)
    ensures CapabilitiesKnown(env, BuildAuthorization(env, m, input, now).0)
  {
    hide AuthorizationFor, AuthorizationFault, UpsertById, Has, Known, AllKnown, Executable;
    var next, e := BuildAuthorization(env, m, input, now).0, AuthorizationFor(env, m, input, now);
    StillRegistered(env, m, next);
    UpsertAddsOnly(m.authorizations, e);
    NewAuthorizationKnown(env, m, input, now);
  }

  lemma NewAuthorizationKnown(env: Env, m: Market, input: AuthorizationInput, now: int)
    requires GrantsKnown(env, m)
    ensures var a := AuthorizationFor(env, m, input, now).body;
            Executable(a) ==> Has(m.capabilities, a.capabilityId)
  {
    hide DecideCapability, ActiveControlGrants, GrantsKnown, AuthorizationReasons, HashObject, Strings, Has, Spoken,
         ArtifactId, CapabilityId, PolicyDecisionAllows, NormalizeEntity, NormalizeKey;
    AllowedMeans(env, ActiveControlGrants(m), RequestOf(input), now);
    if Executable(AuthorizationFor(env, m, input, now).body) {
      ShownKnown(env, m, RequestOf(input), now);
    }
  }

  lemma SaleKeepsKnown(env: Env, m: Market, call: Call)
    requires CapabilitiesKnown(env, m) && Sale(env, m, call).Some?
    ensures CapabilitiesKnown(env, AfterCall(env, m, call))
  {
    hide AfterCall, Sale, UpsertById, Has, Known, VerifyAuthorization, BuildSettlement, Executable, Expired,
      AllActive, FindItem;
    var s, next := Sale(env, m, call).value, AfterCall(env, m, call);
    SaleIsStored(env, m, call);
    var a, p, d := SaleParts(env, m, call);
    VerifiedAuthorization(env, m, call.command.settlement.authorizationId, call.now);
    StillRegistered(env, m, next);
    UpsertAddsOnly(m.settlementProofs, s.proof);
    assert Item(call.command.settlement.authorizationId, a).body == a;
    assert AllKnown(next, s.proof.body.lineage.capabilityIds);
  }

  /** The calls that leave grants, authorizations and settlements alone. */
  lemma OthersKeepKnown(env: Env, m: Market, call: Call)
    requires CapabilitiesKnown(env, m) && (call.command.AddCapability? || call.command.Judge? || call.command.Prove?)
    ensures CapabilitiesKnown(env, AfterCall(env, m, call))
  {
    hide UpsertById, Has, Known, AllKnown, BuildCapability, RecordPolicyArtifacts, CreateExternalProof, Executable;
    var next := AfterCall(env, m, call);
    if call.command.AddCapability? && BuildCapability(env, call.command.capability, call.now).Success? {
      UpsertKeeps(m.capabilities, BuildCapability(env, call.command.capability, call.now).value);
    }
    StillRegistered(env, m, next);
  }

  /** Where grants go by derived capability ids, the capability of every settlement proof is registered, too. */
  lemma {:induction false} ProofCapabilitiesKnown(env: Env, start: Market, calls: seq<Call>)
    requires CapabilitiesKnown(env, start) && forall i :: 0 <= i < |calls| ==> OwnCapability(env, calls[i])
    ensures CapabilitiesKnown(env, RunCalls(env, start, calls))
  {
    hide CapabilitiesKnown, OwnCapability, RegisterCapability, CreateControlGrant, RevokeControlGrant,
         RecordPolicyArtifacts, BuildAuthorization, CreateExternalProof, SettlementOutcome, SettlementStored;
    if calls != [] {
      var n := |calls| - 1;
      var m, call := RunCalls(env, start, calls[..n]), calls[n];
      ProofCapabilitiesKnown(env, start, calls[..n]);
      match call.command
      case GiveGrant(input) =>
        assert call == Call(GiveGrant(input), call.now);
        GrantKeepsKnown(env, m, input, call.now);
      case TakeGrant(input) => RevokeKeepsKnown(env, m, input, call.now);
      case Authorize(input) => AuthorizeKeepsKnown(env, m, input, call.now);
      case Settle(input) =>
        if Sale(env, m, call).Some? {
          SaleKeepsKnown(env, m, call);
        }
      case _ => OthersKeepKnown(env, m, call);
    }
  }

  // ---- exactly when a capability is registered ----

  /** The call registers a capability under the id: on its own, or with a grant that goes by it. */
  predicate Registers(env: Env, call: Call, id: string) {
    match call.command
    case AddCapability(input) =>
      BuildCapability(env, input, call.now).Success? && BuildCapability(env, input, call.now).value.id == id
    case GiveGrant(input) =>
      BuildControlGrant(env, input, call.now).Success?
      && BuildControlGrant(env, input, call.now).value.body.capabilityId == id
    case _ => false
  }

  lemma StepRegisters(env: Env, m: Market, call: Call, id: string)
    ensures Has(AfterCall(env, m, call).capabilities, id) <==> Has(m.capabilities, id) || Registers(env, call, id)
  {
    hide UpsertById, Has, BuildCapability, BuildControlGrant, RevokeControlGrant, RecordPolicyArtifacts,
         BuildAuthorization, CreateExternalProof, ExecuteMarketplaceSettlement;
    match call.command
    case AddCapability(input) =>
      var built := BuildCapability(env, input, call.now);
      if built.Success? { HasAfterUpsert(m.capabilities, built.value, id); }
    case GiveGrant(input) =>
      var built := BuildControlGrant(env, input, call.now);
      if built.Success? {
        var g := built.value.body;
        var createdAt := OrElse(g.grantedAt, env.iso(call.now));
        HasAfterUpsert(m.capabilities, Item(g.capabilityId, Capability(g.terms.capability, g.terms.scope, createdAt)),
          id);
      }
    case _ =>
  }

  ghost predicate Registered(env: Env, start: Market, calls: seq<Call>, id: string) {
    Has(start.capabilities, id) || exists j :: 0 <= j < |calls| && Registers(env, calls[j], id)
  }

  /** After any run a capability is known under an id exactly when it was before or some call registered it. */
  lemma {:induction false} KnownIffRegistered(env: Env, start: Market, calls: seq<Call>, id: string)
    ensures Has(RunCalls(env, start, calls).capabilities, id) <==> Registered(env, start, calls, id)
  {
    hide AfterCall, Has, Registers;
    if calls != [] {
      var n := |calls| - 1;
      KnownIffRegistered(env, start, calls[..n], id);
      StepRegisters(env, RunCalls(env, start, calls[..n]), calls[n], id);
      assert forall j :: 0 <= j < n ==> calls[..n][j] == calls[j];
      if Registered(env, start, calls[..n], id) && !Has(start.capabilities, id) {
        var j :| 0 <= j < n && Registers(env, calls[..n][j], id);
        assert Registers(env, calls[j], id);
      }
    }
  }

  /** Every capability named by a stored settlement proof is known. */
  ghost predicate ProofsKnown(m: Market) {
    forall e :: e in m.settlementProofs ==> AllKnown(m, e.body.lineage.capabilityIds)
  }

  /** After any run the capabilities that settlement proofs name are known exactly when each of them was registered
      before the run or by one of its calls. */
  lemma ProofsKnownIffRegistered(env: Env, start: Market, calls: seq<Call>)
    ensures ProofsKnown(RunCalls(env, start, calls)) <==>
      forall e, id :: e in RunCalls(env, start, calls).settlementProofs && id in e.body.lineage.capabilityIds ==>
        Registered(env, start, calls, id)
  {
    hide RunCalls, Has, Registered;
    var m := RunCalls(env, start, calls);
    forall id ensures Has(m.capabilities, id) <==> Registered(env, start, calls, id) {
      KnownIffRegistered(env, start, calls, id);
    }
    if ProofsKnown(m) {
      forall e, id | e in m.settlementProofs && id in e.body.lineage.capabilityIds ensures Has(m.capabilities, id) {
        var i :| 0 <= i < |e.body.lineage.capabilityIds| && e.body.lineage.capabilityIds[i] == id;
        assert AllKnown(m, e.body.lineage.capabilityIds);
      }
    }
  }

  /** The settlement of call `i` rests on the authorization that call `j` asked for. */
  ghost predicate RestsOn(env: Env, start: Market, calls: seq<Call>, i: nat, j: nat) {
    j < i < |calls| && calls[j].command.Authorize? && SaleAt(env, start, calls, i).Some?
    && LatestAuthorization(env, start, calls, j, i,
      SaleAt(env, start, calls, i).value.proof.body.lineage.authorizationId)
  }

  /** What the proof of sale `i` names is known after the run. */
  ghost predicate SaleKnown(env: Env, start: Market, calls: seq<Call>, i: nat) {
    i < |calls| && SaleAt(env, start, calls, i).Some? ==>
      AllKnown(RunCalls(env, start, calls), SaleAt(env, start, calls, i).value.proof.body.lineage.capabilityIds)
  }

  /** The derived capability id of the request that sale `i` rests on was registered. */
  ghost predicate RequestRegistered(env: Env, start: Market, calls: seq<Call>, i: nat) {
    forall j: nat :: RestsOn(env, start, calls, i, j) ==>
      Registered(env, start, calls, CapabilityIdOf(env, calls[j].command.authorization))
  }

  lemma SaleRestsOn(env: Env, start: Market, calls: seq<Call>, i: nat) returns (j: nat)
    requires start.authorizations == [] && i < |calls| && SaleAt(env, start, calls, i).Some?
    ensures RestsOn(env, start, calls, i, j)
    ensures SaleAt(env, start, calls, i).value.proof.body.lineage.capabilityIds
         == [CapabilityIdOf(env, calls[j].command.authorization)]
  {
    hide LatestAuthorization, SaleAt, CapabilityIdOf, FairlyAuthorized, Expired, Authorized, AllowedAt, AllActive, At;
    j := SaleAuthorization(env, start, calls, i);
    LatestIsAuthorize(env, start, calls, j, i, SaleAt(env, start, calls, i).value.proof.body.lineage.authorizationId);
  }

  lemma OneLatest(env: Env, start: Market, calls: seq<Call>, j: nat, k: nat, i: nat, id: string)
    requires LatestAuthorization(env, start, calls, j, i, id) && LatestAuthorization(env, start, calls, k, i, id)
    ensures j == k
  {
    hide At, Authorized;
  }

  lemma SaleKnownIffRegistered(env: Env, start: Market, calls: seq<Call>, i: nat)
    requires start.authorizations == []
    ensures SaleKnown(env, start, calls, i) <==> RequestRegistered(env, start, calls, i)
  {
    hide RunCalls, Has, Registered, LatestAuthorization, SaleAt, CapabilityIdOf;
    if i < |calls| && SaleAt(env, start, calls, i).Some? {
      var l := SaleAt(env, start, calls, i).value.proof.body.lineage;
      var j := SaleRestsOn(env, start, calls, i);
      var id := CapabilityIdOf(env, calls[j].command.authorization);
      KnownIffRegistered(env, start, calls, id);
      assert l.capabilityIds[0] == id;
      forall k: nat | RestsOn(env, start, calls, i, k) ensures k == j {
        OneLatest(env, start, calls, j, k, i, l.authorizationId);
      }
    }
  }

  /** In any run from a ledger without authorizations, what the settlements named is known at the end exactly when the
      derived capability id of each request they rest on was registered before the run or by one of its calls. */
  lemma SalesKnownIffRegistered(env: Env, start: Market, calls: seq<Call>)
    requires start.authorizations == []
    ensures (forall i: nat :: SaleKnown(env, start, calls, i))
      <==> forall i: nat :: RequestRegistered(env, start, calls, i)
  {
    hide SaleKnown, RequestRegistered;
    forall i: nat ensures SaleKnown(env, start, calls, i) <==> RequestRegistered(env, start, calls, i) {
      SaleKnownIffRegistered(env, start, calls, i);
    }
  }
}
