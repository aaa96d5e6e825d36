/** How far a recovery ceremony gets, and what it leaves. */
module CeremonyOutcome {
  import opened Text
  import opened JsonValues
  import opened Registry
  import opened History
  import opened CurrentAuthority
  import opened Validator
  import opened Pipeline
  import opened Runs
  import opened Devices
  import opened Ceremony

  // ---- the stages ----

  /** What a proposal of the ceremony normalises to. */
  function Stage(kind: Kind, plan: Plan, offset: nat, payload: Fields, now: string): Normalized {
    Normalized(Envelope(Name(kind), Trim(plan.signer), Trim(plan.signer), Some(plan.start + offset),
                        Or(plan.timestamp, Str(now)), Null), payload)
  }

  lemma NormalizeStage(kind: Kind, plan: Plan, offset: nat, payload: Fields, now: string)
    requires !kind.Other?
    ensures Normalize(Proposal(kind, plan, offset, payload), now) == Stage(kind, plan, offset, payload, now)
  {
    hide Name, ReadDigits;
    NameTrimmed(kind);
  }

  /** An event that acceptance builds from a stage of the plan. */
  predicate StageEvent(e: RealmEvent, kind: Kind, plan: Plan, offset: nat, payload: Fields, now: string) {
    e.kind == kind && KindOf(e.envelope.kind) == Some(kind) && Content(e) == Stage(kind, plan, offset, payload, now)
  }

  /** One submitted stage: the verdict, and the ledger after it. */
  lemma StageStep(h: Hash, l: LedgerValue, kind: Kind, plan: Plan, offset: nat, payload: Fields, now: string)
    requires Live(h, l) && !kind.Other?
    ensures var verdict := Validate(h, ContextOf(l), Proposal(kind, plan, offset, payload), now);
      && (verdict.Accepted? <==> Reasons(ContextOf(l), Stage(kind, plan, offset, payload, now)) == [])
      && (verdict.Accepted? ==>
            var e, next := verdict.event, Applied(l, Realm(verdict.event));
            && StageEvent(e, kind, plan, offset, payload, now)
            && Live(h, next) && next.authority == ApplyEvent(l.authority, e)
            && Realms(next.log) == Realms(l.log) + [e])
  {
    hide Reasons, Normalize, Proposal, Stage, Admissible, Project, KindOf, Name, EventHash, EventId, ApplyEvent, Legit,
      ContextOf, ContextAt;
    var proposal := Proposal(kind, plan, offset, payload);
    LiveContext(h, l);
    NormalizeStage(kind, plan, offset, payload, now);
    if Validate(h, ContextOf(l), proposal, now).Accepted? {
      var e := Validate(h, ContextOf(l), proposal, now).event;
      AcceptedIsAdmissible(h, Realms(l.log), proposal, now);
      AdmissibleEvent(h, Realms(l.log), e);
      AppendKeepsReplay(h, l, e);
      StageKind(kind, plan, offset, payload, now);
    }
  }

  lemma StageKind(kind: Kind, plan: Plan, offset: nat, payload: Fields, now: string)
    requires !kind.Other?
    ensures KindOf(Stage(kind, plan, offset, payload, now).envelope.kind) == Some(kind)
  {
    KindOfName(kind);
  }

  lemma NextAfter(h: Hash, l: LedgerValue)
    requires Live(h, l)
    ensures NextSequence(ContextOf(l)) == |Realms(l.log)| + 1
  {
    hide Legit, Project;
    LegitHistory(h, Realms(l.log));
  }

  // ---- the three payloads ----

  predicate TextOrNothing(v: Json) {
    v.Str? || v.Null? || v.Undefined?
  }

  predicate ArrayOrNothing(v: Json) {
    v.Arr? || v.Null? || v.Undefined?
  }

  /** The input says everything RECOVERY_EXECUTED needs. */
  predicate Named(plan: Plan, now: string) {
    NonBlank(Or(plan.timestamp, Str(now))) && NamesDevices(plan)
  }

  predicate NamesDevices(plan: Plan) {
    NonBlank(plan.recoveryRef) && NonBlank(Str(plan.oldId)) && NonBlank(Str(plan.newId)) && TextOrNothing(plan.reason)
  }

  /** The input says everything DEVICE_KEY_ISSUED needs besides. */
  predicate Keyed(plan: Plan) {
    NonBlank(plan.publicKey) && ArrayOrNothing(plan.capabilities)
  }

  lemma ExecutedPayloadPasses(plan: Plan)
    ensures ContractReasons(PayloadContract(RecoveryExecuted), ExecutedPayload(plan)) == [] <==> NamesDevices(plan)
  {
    hide ContractReasons, Trim;
    var contract, p := PayloadContract(RecoveryExecuted), ExecutedPayload(plan);
    PayloadPasses(contract, p);
    assert contract.required[0] == "recovery_ref" && contract.fields[0] == ("recovery_ref", StringType);
    assert contract.required[1] == "old_device_id" && contract.required[2] == "new_device_id";
    assert contract.fields[5] == ("reason", StringType);
    ExecutedFields(plan);
  }

  lemma IssuedPayloadPasses(plan: Plan)
    requires NonBlank(Str(plan.newId))
    ensures ContractReasons(PayloadContract(DeviceKeyIssued), IssuedPayload(plan)) == [] <==> Keyed(plan)
  {
    hide ContractReasons, Trim;
    var contract, p := PayloadContract(DeviceKeyIssued), IssuedPayload(plan);
    PayloadPasses(contract, p);
    assert contract.required[1] == "public_key" && contract.fields[1] == ("public_key", StringType);
    assert contract.fields[3] == ("capabilities", ArrayType);
    assert Field(p, "capabilities") == plan.capabilities && Field(p, "public_key") == plan.publicKey;
  }

  lemma RevokedPayloadPasses(plan: Plan)
    requires NonBlank(Str(plan.oldId)) && TextOrNothing(plan.reason)
    ensures ContractReasons(PayloadContract(DeviceKeyRevoked), RevokedPayload(plan)) == []
  {
    hide ContractReasons, Trim;
    PayloadPasses(PayloadContract(DeviceKeyRevoked), RevokedPayload(plan));
    assert NonBlank(Field(RevokedPayload(plan), PayloadContract(DeviceKeyRevoked).oneOf[0]));
  }

  lemma ExecutedFields(plan: Plan)
    ensures var p := ExecutedPayload(plan);
      && Field(p, "recovery_ref") == plan.recoveryRef
      && Field(p, "old_device_id") == Str(plan.oldId) && Field(p, "old_device_ref") == Str(plan.oldRef)
      && Field(p, "new_device_id") == Str(plan.newId) && Field(p, "new_device_authority_ref") == Str(plan.newRef)
  {
  }

  // ---- RECOVERY_EXECUTED ----

  /** The reference RECOVERY_EXECUTED records for the old device. */
  function RecordedRef(plan: Plan): string {
    if plan.oldRef != "" then plan.oldRef else plan.oldId
  }

  predicate HoldsRecovery(s: AuthorityState, plan: Plan) {
    s.lastRecovery.Some? && s.lastRecovery.value.executed
    && s.lastRecovery.value.recoveryRef == plan.recoveryRef
    && s.lastRecovery.value.newDeviceId == Str(plan.newId)
    && s.lastRecovery.value.oldDeviceId == Str(plan.oldId)
    && s.lastRecovery.value.oldDeviceRef == Str(RecordedRef(plan))
  }

  predicate SignerReady(s: AuthorityState, plan: Plan) {
    Trim(plan.signer) != "" && IsActiveRecoveryAuthority(s, Trim(plan.signer))
  }

  /** The first proposal is accepted. */
  predicate CanExecute(c: Context, plan: Plan, now: string) {
    && Named(plan, now) && plan.start == NextSequence(c) && plan.start >= 1 && SignerReady(c.authority, plan)
    && IsActive(Find(c.authority.devices, plan.oldId)) && !IsActive(Find(c.authority.devices, plan.newId))
  }

  lemma ExecutedAccepted(c: Context, plan: Plan, now: string)
    ensures Reasons(c, Stage(RecoveryExecuted, plan, 0, ExecutedPayload(plan), now)) == [] <==> CanExecute(c, plan, now)
  {
    hide PayloadContract, ContractReasons, KindOf, Name, NextSequence, Reasons, Find, ExecutedPayload, Field, Trim;
    ExecutedFields(plan);
    var n := Stage(RecoveryExecuted, plan, 0, ExecutedPayload(plan), now);
    KindOfName(RecoveryExecuted);
    ExecutedPayloadPasses(plan);
    AcceptedMeans(c, n, RecoveryExecuted);
    if NamesDevices(plan) {
      NonBlankIsTruthy(Str(plan.oldId));
      NonBlankIsTruthy(Str(plan.newId));
      assert Key(Or(Field(n.payload, "old_device_id"), Field(n.payload, "old_device_ref"))) == plan.oldId;
      assert Key(Or(Field(n.payload, "new_device_id"), Field(n.payload, "new_device_authority_ref"))) == plan.newId;
    }
  }

  lemma NonBlankIsTruthy(v: Json)
    requires NonBlank(v)
    ensures Truthy(v) && OrNull(v) == v
  {
  }

  lemma ExecutedEffect(s: AuthorityState, e: RealmEvent, plan: Plan, now: string)
    requires NamesDevices(plan) && StageEvent(e, RecoveryExecuted, plan, 0, ExecutedPayload(plan), now)
    ensures var t := ApplyEvent(s, e);
      && t == s.(lastSequence := plan.start, lastRecovery := t.lastRecovery) && HoldsRecovery(t, plan)
  {
    hide KindOf, Name, ExecutedPayload, Field, Stamp, Trim;
    ExecutedFields(plan);
    NonBlankIsTruthy(plan.recoveryRef);
    NonBlankIsTruthy(Str(plan.oldId));
    NonBlankIsTruthy(Str(plan.newId));
  }

  // ---- DEVICE_KEY_ISSUED ----

  /** The reference the replacement is given. */
  function ReplacementRef(plan: Plan): string {
    if plan.newRef != "" then plan.newRef else "device:" + plan.newId
  }

  /** The devices the replacement does not take the place of. */
  function KeptDevices(s: AuthorityState, plan: Plan): seq<Device> {
    Without(s.devices, plan.newId, ReplacementRef(plan))
  }

  lemma PlanIssuedNames(plan: Plan)
    requires NonBlank(Str(plan.newId))
    ensures IssuedDeviceId(IssuedPayload(plan)) == plan.newId
    ensures IssuedDeviceRef(IssuedPayload(plan)) == ReplacementRef(plan)
    ensures NonBlank(plan.publicKey) ==> Field(MigrateIssued(IssuedPayload(plan)), "public_key") == plan.publicKey
  {
    hide Trim;
    NonBlankIsTruthy(Str(plan.newId));
    var p, m := IssuedPayload(plan), MigrateIssued(IssuedPayload(plan));
    assert Field(p, "device_id") == Str(plan.newId) && Field(p, "authority_ref") == Str(plan.newRef);
    assert Field(p, "public_key") == plan.publicKey;
    assert "device" !in p && "publicKey" !in p && "device_authority" !in p;
    assert Field(m, "device_id") == Str(plan.newId) && Field(m, "authority_ref") == Str(plan.newRef);
    assert Field(m, "device_authority") == Undefined && Field(m, "public_key") == plan.publicKey;
    hide MigrateIssued;
  }

  lemma IssuedAccepted(c: Context, plan: Plan, now: string)
    requires Named(plan, now) && plan.start + 1 == NextSequence(c) && plan.start >= 1
    requires SignerReady(c.authority, plan) && HoldsRecovery(c.authority, plan)
    ensures Reasons(c, Stage(DeviceKeyIssued, plan, 1, IssuedPayload(plan), now)) == [] <==> Keyed(plan)
  {
    hide PayloadContract, ContractReasons, KindOf, Name, NextSequence, Reasons, Find, Trim;
    KindOfName(DeviceKeyIssued);
    IssuedPayloadPasses(plan);
    AcceptedMeans(c, Stage(DeviceKeyIssued, plan, 1, IssuedPayload(plan), now), DeviceKeyIssued);
  }

  /** The replacement, as issued. */
  ghost predicate IsReplacement(d: Device, plan: Plan) {
    d.id == plan.newId && d.ref == ReplacementRef(plan) && d.status == Active && d.detail.publicKey == plan.publicKey
  }

  lemma IssuedEffect(s: AuthorityState, e: RealmEvent, plan: Plan, now: string)
    requires NamesDevices(plan) && Keyed(plan) && StageEvent(e, DeviceKeyIssued, plan, 1, IssuedPayload(plan), now)
    ensures ApplyEvent(s, e) == s.(lastSequence := plan.start + 1, devices := KeptDevices(s, plan) + [NewDevice(e)])
    ensures IsReplacement(NewDevice(e), plan)
  {
    hide KindOf, Name, MigrateIssued, IssuedDeviceId, IssuedDeviceRef, Without, Stamp, Trim;
    PlanIssuedNames(plan);
    NonBlankIsTruthy(plan.publicKey);
  }

  // ---- DEVICE_KEY_REVOKED ----

  /** The device found under the old id, once the replacement is in the list, is not revoked yet, and the input names
      it by its own id or by its reference. */
  predicate OldNamed(s: AuthorityState, plan: Plan) {
    match Find(KeptDevices(s, plan), plan.oldId)
    case Some(d) => d.status != Revoked && (d.id == plan.oldId || d.ref == RecordedRef(plan))
    case None =>
      (plan.newId == plan.oldId || ReplacementRef(plan) == plan.oldId)
      && (plan.newId == plan.oldId || ReplacementRef(plan) == RecordedRef(plan))
  }

  lemma {:induction false} FindInLonger<D>(entries: seq<Entry<D>>, e: Entry<D>, key: string)
    ensures Find(entries + [e], key)
         == if Find(entries, key).Some? then Find(entries, key) else if Matches(e, key) then Some(e) else None
  {
    if entries == [] {
      assert (entries + [e])[1..] == [];
    } else if !Matches(entries[0], key) {
      FindInLonger(entries[1..], e, key);
      assert (entries + [e])[1..] == entries[1..] + [e];
    }
  }

  lemma RevokedTarget(env: Envelope, plan: Plan)
    requires NonBlank(Str(plan.oldId))
    ensures TargetDevice(env, RevokedPayload(plan)) == Str(plan.oldId)
    ensures AppliedTarget(env, RevokedPayload(plan)) == plan.oldId
    ensures Field(RevokedPayload(plan), "recovery_ref") == plan.recoveryRef
  {
    assert plan.oldId != "";
    assert Field(MigrateRevoked(RevokedPayload(plan)), "device_id") == Str(plan.oldId);
    hide MigrateRevoked;
  }

  lemma RevokedAccepted(c: Context, plan: Plan, now: string)
    requires Named(plan, now) && plan.start + 2 == NextSequence(c) && plan.start >= 1
    requires SignerReady(c.authority, plan) && HoldsRecovery(c.authority, plan)
    ensures Reasons(c, Stage(DeviceKeyRevoked, plan, 2, RevokedPayload(plan), now)) == []
       <==> match Find(c.authority.devices, plan.oldId)
            case Some(d) => d.status != Revoked && (d.id == plan.oldId || d.ref == RecordedRef(plan))
            case None => false
  {
    hide PayloadContract, ContractReasons, KindOf, Name, NextSequence, Reasons, Find, TargetDevice, RecordedRef,
      RevokedPayload, Field, Trim;
    var n := Stage(DeviceKeyRevoked, plan, 2, RevokedPayload(plan), now);
    KindOfName(DeviceKeyRevoked);
    RevokedPayloadPasses(plan);
    RevokedTarget(n.envelope, plan);
    NonBlankIsTruthy(Str(plan.oldId));
    AcceptedMeans(c, n, DeviceKeyRevoked);
    assert MayRevoke(c.authority, n.envelope, Str(plan.oldId));
  }

  lemma RevokedEffect(s: AuthorityState, e: RealmEvent, plan: Plan, now: string)
    requires NamesDevices(plan) && StageEvent(e, DeviceKeyRevoked, plan, 2, RevokedPayload(plan), now)
    ensures ApplyEvent(s, e)
         == s.(lastSequence := plan.start + 2,
               devices := End(s.devices, plan.oldId, Revoked, Stamp(e.envelope, e.timestamp), e.id))
  {
    hide KindOf, Name, AppliedTarget, End, Stamp, RevokedPayload, Trim;
    RevokedTarget(e.envelope, plan);
  }

  // ---- the whole ceremony ----

  /** The projection a completed ceremony leaves: what the old id matches is revoked, the replacement is in the list,
      and everything else is as it was. */
  ghost predicate Swapped(s: AuthorityState, t: AuthorityState, plan: Plan) {
    var kept := KeptDevices(s, plan);
    && t.root == s.root && t.recoveryAuthorities == s.recoveryAuthorities
    && t.sessions == s.sessions && t.federationTrusts == s.federationTrusts
    && |t.devices| == |kept| + 1
    && (forall i :: 0 <= i < |kept| && !Matches(kept[i], plan.oldId) ==> t.devices[i] == kept[i])
    && (forall i :: 0 <= i < |kept| && Matches(kept[i], plan.oldId) ==>
          t.devices[i].id == kept[i].id && t.devices[i].ref == kept[i].ref && t.devices[i].status == Revoked)
    && var last := t.devices[|kept|];
       && last.id == plan.newId && last.ref == ReplacementRef(plan) && last.detail.publicKey == plan.publicKey
       && last.status == if Matches(last, plan.oldId) then Revoked else Active
  }

  /** How many of the three proposals are accepted, for any input and in any reachable state. */
  function Reached(c: Context, plan: Plan, now: string): nat {
    if !CanExecute(c, plan, now) then 0
    else if !Keyed(plan) then 1
    else if !OldNamed(c.authority, plan) then 2
    else 3
  }

  /** From any reachable state and for any input, the ceremony logs exactly the events `Reached` says, and it succeeds
      exactly when it logs all three; then the old device is replaced. */
  lemma CeremonyReaches(h: Hash, l: LedgerValue, plan: Plan, now: string)
    requires Live(h, l)
    ensures var o := Submit(h, l, [], Proposals(plan), now);
      && |o.accepted| == Reached(ContextOf(l), plan, now)
      && (o.failure.None? <==> Reached(ContextOf(l), plan, now) == 3)
      && (o.failure.None? ==> Swapped(l.authority, o.ledger.authority, plan))
  {
    hide Validate, Reasons, Stage, Proposal, ApplyEvent, Live, Applied, Find, StageEvent, Swapped, NextSequence,
      HoldsRecovery, SignerReady, OldNamed, Keyed, Named, KeptDevices;
    var s, p := l.authority, Proposals(plan);
    NextAfter(h, l);
    ExecutedAccepted(ContextOf(l), plan, now);
    StageStep(h, l, RecoveryExecuted, plan, 0, ExecutedPayload(plan), now);
    if CanExecute(ContextOf(l), plan, now) {
      var e1 := Validate(h, ContextOf(l), p[0], now).event;
      var l1 := Applied(l, Realm(e1));
      NamedDevices(plan, now);
      ExecutedEffect(s, e1, plan, now);
      NextAfter(h, l1);
      SecondAndThird(h, s, l1, plan, now, [e1]);
      assert [] + [e1] == [e1];
      assert Submit(h, l, [], p, now) == Submit(h, l1, [e1], p[1..], now);
    }
  }

  lemma NamedDevices(plan: Plan, now: string)
    requires Named(plan, now)
    ensures NamesDevices(plan)
  {
  }

  lemma SecondAndThird(h: Hash, s: AuthorityState, l1: LedgerValue, plan: Plan, now: string, accepted: seq<RealmEvent>)
    requires Live(h, l1) && Named(plan, now) && plan.start + 1 == NextSequence(ContextOf(l1)) && plan.start >= 1
    requires SignerReady(s, plan) && HoldsRecovery(l1.authority, plan)
    requires l1.authority == s.(lastSequence := plan.start, lastRecovery := l1.authority.lastRecovery)
    ensures var o := Submit(h, l1, accepted, Proposals(plan)[1..], now);
      && |o.accepted| == |accepted| + (if !Keyed(plan) then 0 else if !OldNamed(s, plan) then 1 else 2)
      && (o.failure.None? <==> Keyed(plan) && OldNamed(s, plan))
      && (o.failure.None? ==> Swapped(s, o.ledger.authority, plan))
  {
    hide Validate, Reasons, Stage, Proposal, ApplyEvent, Live, Applied, StageEvent, Swapped, NextSequence,
      HoldsRecovery, SignerReady, RecordedRef, Named, Keyed, Find, Without, ReplacementRef;
    var p := Proposals(plan);
    NextAfter(h, l1);
    SameRecovery(s, l1.authority, plan);
    IssuedAccepted(ContextOf(l1), plan, now);
    StageStep(h, l1, DeviceKeyIssued, plan, 1, IssuedPayload(plan), now);
    if Keyed(plan) {
      var e2 := Validate(h, ContextOf(l1), p[1], now).event;
      var l2 := Applied(l1, Realm(e2));
      NamedDevices(plan, now);
      IssuedEffect(l1.authority, e2, plan, now);
      NextAfter(h, l2);
      SameRecovery(l1.authority, l2.authority, plan);
      FindInLonger(KeptDevices(s, plan), NewDevice(e2), plan.oldId);
      RevokedAccepted(ContextOf(l2), plan, now);
      StageStep(h, l2, DeviceKeyRevoked, plan, 2, RevokedPayload(plan), now);
      assert p[1..][0] == p[1] && p[1..][1..] == [p[2]];
      assert Submit(h, l1, accepted, p[1..], now) == Submit(h, l2, accepted + [e2], [p[2]], now);
      SubmitLast(h, l2, accepted + [e2], p[2], now);
      if Validate(h, ContextOf(l2), p[2], now).Accepted? {
        var e3 := Validate(h, ContextOf(l2), p[2], now).event;
        RevokedEffect(l2.authority, e3, plan, now);
        AfterRevocation(s, l2.authority, NewDevice(e2), e3, plan);
      }
    } else {
      assert p[1..][0] == p[1];
    }
  }

  lemma SubmitLast(h: Hash, l: LedgerValue, accepted: seq<RealmEvent>, proposal: Json, now: string)
    ensures var verdict := Validate(h, ContextOf(l), proposal, now);
      Submit(h, l, accepted, [proposal], now)
      == if verdict.Rejected? then Outcome(l, accepted, Some(verdict.reasons))
         else Outcome(Applied(l, Realm(verdict.event)), accepted + [verdict.event], None)
  {
    hide Validate, Applied, ContextOf;
    assert [proposal][1..] == [];
  }

  lemma SameRecovery(s: AuthorityState, t: AuthorityState, plan: Plan)
    requires t.recoveryAuthorities == s.recoveryAuthorities
    ensures SignerReady(t, plan) == SignerReady(s, plan)
    ensures t.lastRecovery == s.lastRecovery ==> HoldsRecovery(t, plan) == HoldsRecovery(s, plan)
  {
  }

  lemma AfterRevocation(s: AuthorityState, t: AuthorityState, replacement: Device, e: RealmEvent, plan: Plan)
    requires t == s.(lastSequence := t.lastSequence, lastRecovery := t.lastRecovery,
                     devices := KeptDevices(s, plan) + [replacement])
    requires IsReplacement(replacement, plan)
    requires ApplyEvent(t, e) == t.(lastSequence := plan.start + 2,
               devices := End(t.devices, plan.oldId, Revoked, Stamp(e.envelope, e.timestamp), e.id))
    ensures Swapped(s, ApplyEvent(t, e), plan)
  {
    hide ApplyEvent, Stamp, KeptDevices;
  }

  // ---- with a replacement that is new ----

  /** No device is known by the replacement's id or reference. */
  predicate Fresh(s: AuthorityState, plan: Plan) {
    forall d :: d in s.devices ==> !Matches(d, plan.newId) && !Matches(d, ReplacementRef(plan))
  }

  lemma {:induction false} WithoutFresh<D>(entries: seq<Entry<D>>, id: string, ref: string)
    requires forall d :: d in entries ==> d.id != id && d.ref != ref
    ensures Without(entries, id, ref) == entries
  {
    if entries != [] {
      assert entries[0] in entries;
      WithoutFresh(entries[1..], id, ref);
    }
  }

  /** With complete input, an active old device and a replacement known by no device, all three proposals are accepted
      exactly when the trimmed signer is an active recovery authority and the input names the old device by its id or
      its reference; then the old device is revoked, the new one active, and every other device as it was. Otherwise a
      ready signer leaves two events behind, the replacement issued but nothing revoked, and any other signer none. */
  lemma CeremonyCompletes(h: Hash, l: LedgerValue, plan: Plan, now: string, lost: Device)
    requires Live(h, l) && Named(plan, now) && Keyed(plan) && plan.start == NextSequence(ContextOf(l))
    requires Find(l.authority.devices, plan.oldId) == Some(lost) && lost.status == Active
    requires Fresh(l.authority, plan)
    ensures var o := Submit(h, l, [], Proposals(plan), now);
      && (o.failure.None? <==> SignerReady(l.authority, plan)
                               && (lost.id == plan.oldId || lost.ref == RecordedRef(plan)))
      && (o.failure.None? ==> |o.accepted| == 3 && Swapped(l.authority, o.ledger.authority, plan))
      && (o.failure.Some? ==> |o.accepted| == if SignerReady(l.authority, plan) then 2 else 0)
    ensures KeptDevices(l.authority, plan) == l.authority.devices
    ensures plan.newId != plan.oldId && ReplacementRef(plan) != plan.oldId
  {
    hide Validate, Submit, Proposals, Live, Find, Swapped, HoldsRecovery, SignerReady, Named, Keyed, RecordedRef,
      NextSequence;
    NextAfter(h, l);
    CeremonyReaches(h, l, plan, now);
    FindIsMember(l.authority.devices, plan.oldId);
    FindIsMember(l.authority.devices, plan.newId);
    WithoutFresh(l.authority.devices, plan.newId, ReplacementRef(plan));
  }
}
