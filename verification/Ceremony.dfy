/** The recovery ceremony: three proposals that replace a lost device. */
module Ceremony {
  import opened Text
  import opened JsonValues
  import opened Registry
  import opened History
  import opened Validator
  import opened Pipeline
  import opened Runs

  /** The ceremony's input, read the way the source reads it. */
  datatype Plan = Plan(
    signer: string, oldId: string, oldRef: string, newId: string, newRef: string,
    recoveryRef: Json, publicKey: Json, capabilities: Json, start: int, timestamp: Json, reason: Json)

  datatype Thrown = PropertyOfNothing | RecoveryStartSequenceInvalid | CommandTypeRequired

  function AuthorityRefOf(v: Json): string {
    ToText(Or(Or(Or(Get(v, "authorityRef"), Get(v, "authority_ref")), Get(v, "id")), v))
  }

  function DeviceIdOf(v: Json): string {
    ToText(Or(Or(Get(v, "id"), Get(v, "device_id")), v))
  }

  function DeviceRefOf(v: Json): string {
    ToText(Or(Or(Or(Get(v, "authorityRef"), Get(v, "authority_ref")), Get(v, "authority")),
      Str("device:" + DeviceIdOf(v))))
  }

  predicate Nothing(v: Json) {
    v.Undefined? || v.Null?
  }

  function Default(v: Json, fallback: string): Json {
    if v.Undefined? then Str(fallback) else v
  }

  function PlanOf(input: Fields, now: string): Result<Plan, Thrown> {
    var authority, oldDevice, newDevice :=
      Field(input, "recoveryAuthority"), Field(input, "oldDevice"), Field(input, "newDevice");
    var start := Integer(Field(input, "startSequence"));
    if Nothing(authority) || Nothing(oldDevice) || Nothing(newDevice) then Failure(PropertyOfNothing)
    else if start.None? || start.value < 1 then Failure(RecoveryStartSequenceInvalid)
    else
      var capabilities := Get(newDevice, "capabilities");
      Success(Plan(
        AuthorityRefOf(authority), DeviceIdOf(oldDevice), DeviceRefOf(oldDevice),
        DeviceIdOf(newDevice), DeviceRefOf(newDevice), Field(input, "recoveryRef"),
        Or(Get(newDevice, "public_key"), Get(newDevice, "publicKey")),
        if capabilities.Arr? then capabilities else Arr([]), start.value,
        Default(Field(input, "timestamp"), now), Default(Field(input, "reason"), "recovery_ceremony")))
  }

  function Proposal(kind: Kind, plan: Plan, offset: nat, payload: Fields): Json {
    Obj(map[
      "envelope" := Obj(map[
        "type" := Str(Name(kind)),
        "signer" := Str(plan.signer),
        "authority_reference" := Str(plan.signer),
        "sequence" := Num(plan.start + offset),
        "timestamp" := plan.timestamp]),
      "payload" := Obj(payload)])
  }

  function ExecutedPayload(plan: Plan): Fields {
    map["recovery_ref" := plan.recoveryRef,
        "old_device_id" := Str(plan.oldId), "old_device_ref" := Str(plan.oldRef),
        "new_device_id" := Str(plan.newId), "new_device_authority_ref" := Str(plan.newRef),
        "reason" := plan.reason]
  }

  function IssuedPayload(plan: Plan): Fields {
    map["recovery_ref" := plan.recoveryRef, "device_id" := Str(plan.newId), "public_key" := plan.publicKey,
        "authority_ref" := Str(plan.newRef), "capabilities" := plan.capabilities]
  }

  function RevokedPayload(plan: Plan): Fields {
    map["recovery_ref" := plan.recoveryRef, "device_id" := Str(plan.oldId), "authority_ref" := Str(plan.oldRef),
        "reason" := plan.reason]
  }

  /** `createRecoveryCeremonyProposals` */
  function Proposals(plan: Plan): seq<Json> {
    [Proposal(RecoveryExecuted, plan, 0, ExecutedPayload(plan)),
     Proposal(DeviceKeyIssued, plan, 1, IssuedPayload(plan)),
     Proposal(DeviceKeyRevoked, plan, 2, RevokedPayload(plan))]
  }

  datatype Outcome = Outcome(ledger: LedgerValue, accepted: seq<RealmEvent>, failure: Option<seq<Reason>>)

  /** Proposals are submitted in turn until one is rejected. */
  function Submit(h: Hash, l: LedgerValue, accepted: seq<RealmEvent>, proposals: seq<Json>, now: string): Outcome
    decreases |proposals|
  {
    if proposals == [] then Outcome(l, accepted, None)
    else
      match Validate(h, ContextOf(l), proposals[0], now)
      case Rejected(reasons) => Outcome(l, accepted, Some(reasons))
      case Accepted(e) => Submit(h, Applied(l, Realm(e)), accepted + [e], proposals[1..], now)
  }

  method SubmitProposals(h: Hash, ledger: Ledger, proposals: seq<Json>, now: string)
    returns (acceptedEvents: seq<RealmEvent>, failure: Option<seq<Reason>>)
    modifies ledger
    ensures Outcome(ledger.Value(), acceptedEvents, failure) == Submit(h, old(ledger.Value()), [], proposals, now)
  {
    hide Validate, Applied, ContextOf;
    acceptedEvents := [];
    ghost var start := ledger.Value();
    for i := 0 to |proposals|
      invariant Submit(h, ledger.Value(), acceptedEvents, proposals[i..], now) == Submit(h, start, [], proposals, now)
    {
      assert proposals[i..][1..] == proposals[i + 1..];
      ghost var before := ledger.Value();
      var verdict := ledger.AcceptRealmEvent(h, proposals[i], now);
      match verdict {
        case Rejected(reasons) =>
          assert ledger.Value() == before;
          return acceptedEvents, Some(reasons);
        case Accepted(event) =>
          acceptedEvents := acceptedEvents + [event];
      }
    }
    failure := None;
  }

  method ExecuteRecoveryCeremony(h: Hash, ledger: Ledger, input: Fields, now: string)
    returns (r: Result<(seq<RealmEvent>, Option<seq<Reason>>), Thrown>)
    modifies ledger
    ensures r.Failure? <==> PlanOf(input, now).Failure?
    ensures r.Failure? ==> r.error == PlanOf(input, now).error && ledger.Value() == old(ledger.Value())
    ensures r.Success? ==> Outcome(ledger.Value(), r.value.0, r.value.1)
                           == Submit(h, old(ledger.Value()), [], Proposals(PlanOf(input, now).value), now)
  {
    match PlanOf(input, now) {
      case Failure(error) => r := Failure(error);
      case Success(plan) =>
        var events, failure := SubmitProposals(h, ledger, Proposals(plan), now);
        r := Success((events, failure));
    }
  }

  // ---- whatever happens, the log grew by what is returned ----

  function LogOf(events: seq<RealmEvent>): seq<LogEvent> {
    seq(|events|, i requires 0 <= i < |events| => Realm(events[i]))
  }

  lemma {:induction false} GrowsByAccepted(h: Hash, l: LedgerValue, accepted: seq<RealmEvent>, proposals: seq<Json>,
    now: string)
    ensures var o := Submit(h, l, accepted, proposals, now);
      && |accepted| <= |o.accepted| && o.accepted[..|accepted|] == accepted
      && o.ledger.log == l.log + LogOf(o.accepted[|accepted|..])
      && (o.failure.None? <==> |o.accepted| == |accepted| + |proposals|)
    decreases |proposals|
  {
    hide Validate, ContextOf, Projected, ToRealm;
    if proposals != [] {
      match Validate(h, ContextOf(l), proposals[0], now) {
        case Rejected(_) =>
        case Accepted(e) =>
          GrowsByAccepted(h, Applied(l, Realm(e)), accepted + [e], proposals[1..], now);
          var o := Submit(h, l, accepted, proposals, now);
          assert o.accepted[|accepted|..] == [e] + o.accepted[|accepted| + 1..];
      }
    }
  }

  lemma {:induction false} SubmitKeepsReplay(h: Hash, l: LedgerValue, accepted: seq<RealmEvent>, proposals: seq<Json>,
    now: string)
    requires Live(h, l)
    ensures Live(h, Submit(h, l, accepted, proposals, now).ledger)
    decreases |proposals|
  {
    hide Live, Validate, Applied;
    if proposals != [] {
      StepKeepsReplay(h, l, Propose(proposals[0], now));
      var next := AcceptProposal(h, l, proposals[0], now);
      var verdict := Validate(h, ContextOf(l), proposals[0], now);
      var more := if verdict.Accepted? then accepted + [verdict.event] else accepted;
      SubmitKeepsReplay(h, next, more, proposals[1..], now);
    }
  }
}
