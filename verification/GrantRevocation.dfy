/** Revocation blocks settlement until the grant is given out again. */
module GrantRevocation {
  import opened Text
  import opened Artifacts
  import opened Capabilities
  import opened Settlement
  import opened SettlementLineage
  import opened SettlementGrounds

  // ---- the status of a grant ----

  /** The call gives out grant `id` as an active one. */
  predicate GivesActive(env: Env, call: Call, id: string) {
    call.command.GiveGrant?
    && var built := BuildControlGrant(env, call.command.grant, call.now);
       built.Success? && built.value.id == id && built.value.body.terms.status == "active"
  }

  /** The call revokes grant `id`. */
  predicate TakesBack(env: Env, m: Market, call: Call, id: string) {
    call.command.TakeGrant? && call.command.revocation.grantId == id
    && RevokeControlGrant(env, m, call.command.revocation, call.now).1.Success?
  }

  lemma StatusAfterGrant(env: Env, m: Market, grant: Item<Grant>, now: int, id: string)
    ensures GrantStatus(GrantStored(env, m, grant, now), id)
         == if id == grant.id then Some(grant.body.terms.status) else GrantStatus(m, id)
  {
    hide UpsertById, IndexOf, FindItem;
    FindAfterUpsert(m.controlGrants, grant, id);
    FindAfterUpsert(m.capabilityGrants, Item(grant.id, CreGrant(grant.body.terms, "")), id);
  }

  lemma FindAfterRevoke(m: Market, id: string, at: string, other: string)
    ensures other != id ==> FindItem(GrantRevoked(m.controlGrants, id, at), other) == FindItem(m.controlGrants, other)
    ensures other != id ==>
      FindItem(CreGrantRevoked(m.capabilityGrants, id, at), other) == FindItem(m.capabilityGrants, other)
    ensures FindItem(m.controlGrants, id).None? ==> FindItem(GrantRevoked(m.controlGrants, id, at), id).None?
    ensures FindItem(m.controlGrants, id).Some? ==>
      FindItem(GrantRevoked(m.controlGrants, id, at), id).Some?
      && FindItem(GrantRevoked(m.controlGrants, id, at), id).value.terms.status == "revoked"
    ensures FindItem(m.capabilityGrants, id).Some? ==>
      FindItem(CreGrantRevoked(m.capabilityGrants, id, at), id).Some?
      && FindItem(CreGrantRevoked(m.capabilityGrants, id, at), id).value.terms.status == "revoked"
  {
    hide UpsertById, IndexOf, FindItem;
    if FindItem(m.controlGrants, id).Some? {
      var g := FindItem(m.controlGrants, id).value;
      var e := Item(id, g.(terms := g.terms.(status := "revoked"), revokedAt := at));
      FindAfterUpsert(m.controlGrants, e, id);
      FindAfterUpsert(m.controlGrants, e, other);
    }
    if FindItem(m.capabilityGrants, id).Some? {
      var g := FindItem(m.capabilityGrants, id).value;
      var e := Item(id, CreGrant(g.terms.(status := "revoked"), at));
      FindAfterUpsert(m.capabilityGrants, e, id);
      FindAfterUpsert(m.capabilityGrants, e, other);
    }
  }

  /** A revocation changes the status of the grant it names to "revoked", and no other grant's. */
  lemma StatusAfterRevoke(env: Env, m: Market, input: RevokeInput, now: int, id: string)
    requires RevokeControlGrant(env, m, input, now).1.Success?
    ensures GrantStatus(RevokeControlGrant(env, m, input, now).0, id)
         == if id == input.grantId then Some("revoked") else GrantStatus(m, id)
  {
    hide UpsertById, IndexOf, GrantRevoked, CreGrantRevoked, ArtifactId, NormalizeEntity, FindItem;
    FindAfterRevoke(m, input.grantId, OrElse(input.revokedAt, env.iso(now)), id);
    HasIsFound(m, input.grantId);
  }

  lemma HasIsFound(m: Market, id: string)
    ensures Has(m.controlGrants, id) <==> FindItem(m.controlGrants, id).Some?
    ensures Has(m.capabilityGrants, id) <==> FindItem(m.capabilityGrants, id).Some?
  {
  }

  lemma GrantsUntouched(env: Env, m: Market, call: Call)
    requires !call.command.GiveGrant? && !call.command.TakeGrant?
    ensures AfterCall(env, m, call).controlGrants == m.controlGrants
    ensures AfterCall(env, m, call).capabilityGrants == m.capabilityGrants
  {
    hide RegisterCapability, RecordPolicyArtifacts, BuildAuthorization, CreateExternalProof,
      ExecuteMarketplaceSettlement;
  }

  /** A grant that is not active becomes active exactly by being given out again as an active one. */
  lemma OnlyGivingReactivates(env: Env, m: Market, call: Call, id: string)
    requires !GrantActive(m, id)
    ensures GrantActive(AfterCall(env, m, call), id) <==> GivesActive(env, call, id)
  {
    hide BuildControlGrant, GrantStored, FindItem, RevokeControlGrant, RegisterCapability, RecordPolicyArtifacts,
         BuildAuthorization, CreateExternalProof, ExecuteMarketplaceSettlement;
    match call.command
    case GiveGrant(input) =>
      var built := BuildControlGrant(env, input, call.now);
      if built.Success? {
        StatusAfterGrant(env, m, built.value, call.now, id);
      }
    case TakeGrant(input) =>
      if RevokeControlGrant(env, m, input, call.now).1.Success? {
        StatusAfterRevoke(env, m, input, call.now, id);
      }
    case _ =>
      GrantsUntouched(env, m, call);
  }

  lemma {:induction false} StaysInactive(env: Env, start: Market, calls: seq<Call>, k: nat, i: nat, id: string)
    requires k <= i <= |calls| && !GrantActive(At(env, start, calls, k), id)
    requires forall j :: k <= j < i ==> !GivesActive(env, calls[j], id)
    ensures !GrantActive(At(env, start, calls, i), id)
    decreases i
  {
    hide AfterCall, GrantActive, GivesActive, At;
    if k < i {
      StaysInactive(env, start, calls, k, i - 1, id);
      AtNext(env, start, calls, i - 1);
      OnlyGivingReactivates(env, At(env, start, calls, i - 1), calls[i - 1], id);
    }
  }

  /** A settlement cites active grants only. */
  lemma SaleCitesActive(env: Env, m: Market, call: Call)
    requires Sale(env, m, call).Some?
    ensures AllActive(m, Sale(env, m, call).value.proof.body.lineage.grantIds)
  {
    hide Sale, VerifyAuthorization, BuildSettlement, AllActive, FindItem;
    var a, p, d := SaleParts(env, m, call);
    VerifiedAuthorization(env, m, call.command.settlement.authorizationId, call.now);
  }

  /**
    * Once a grant is revoked, no settlement cites it until it has been given out again: neither on an old
    * authorization nor on a new one.
    */
  lemma RevocationBlocks(env: Env, start: Market, calls: seq<Call>, k: nat, i: nat, id: string)
    requires k < i < |calls| && TakesBack(env, At(env, start, calls, k), calls[k], id)
    requires forall j :: k < j < i ==> !GivesActive(env, calls[j], id)
    requires SaleAt(env, start, calls, i).Some?
    ensures id !in SaleAt(env, start, calls, i).value.proof.body.lineage.grantIds
  {
    hide Sale, At, RevokeControlGrant, GrantStatus, GivesActive;
    var m := At(env, start, calls, k);
    AtNext(env, start, calls, k);
    assert !GrantActive(At(env, start, calls, k + 1), id) by {
      StatusAfterRevoke(env, m, calls[k].command.revocation, calls[k].now, id);
    }
    StaysInactive(env, start, calls, k + 1, i, id);
    SaleCitesActive(env, At(env, start, calls, i), calls[i]);
  }
}
