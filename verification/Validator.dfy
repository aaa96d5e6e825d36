/** Acceptance of a proposal: normalisation, shape, sequence, previous hash, authority. */
module Validator {
  import opened Text
  import opened JsonValues
  import opened Registry
  import opened History
  import opened CurrentAuthority

  /** What acceptance reads of a ledger: the stored projection and sequence, and the head of the log. */
  datatype Context = Context(authority: AuthorityState, canonicalSequence: int, head: Option<string>)

  datatype Normalized = Normalized(envelope: Envelope, payload: Fields)

  datatype Verdict = Accepted(event: RealmEvent) | Rejected(reasons: seq<Reason>)

  /** `a ?? b` */
  function Coalesce(a: Json, b: Json): Json {
    if a.Undefined? || a.Null? then b else a
  }

  /** A proposal carries an envelope object or the envelope's fields at top level; `now` is the clock. */
  function Normalize(proposal: Json, now: string): Normalized {
    var nested := Get(proposal, "envelope");
    var source := if nested.Obj? || nested.Arr? then nested else proposal;
    Normalized(
      Envelope(
        Trim(Key(Get(source, "type"))),
        Trim(Key(Get(source, "signer"))),
        Trim(Key(Get(source, "authority_reference"))),
        Integer(Get(source, "sequence")),
        Or(Get(source, "timestamp"), Str(now)),
        Coalesce(Coalesce(Get(source, "previous_event_hash"), Get(proposal, "previous_event_hash")), Null)),
      if Get(proposal, "payload").Obj? then Get(proposal, "payload").fields else map[])
  }

  function When(condition: bool, reason: Reason): seq<Reason> {
    if condition then [reason] else []
  }

  function EnvelopeReasons(env: Envelope): seq<Reason> {
    When(env.kind == "", EnvelopeTypeRequired)
    + When(!HasContract(env.kind), UnknownRealmEventType)
    + When(env.signer == "", EnvelopeSignerRequired)
    + When(env.authorityReference == "", EnvelopeAuthorityReferenceRequired)
    + When(env.sequence.None? || env.sequence.value < 1, EnvelopeSequenceInvalid)
    + When(!NonBlank(env.timestamp), EnvelopeTimestampRequired)
  }

  predicate Missing(p: Fields, field: string) {
    var v := Field(p, field);
    !NonBlank(v) && v != Num(0) && !v.Arr?
  }

  predicate IllTyped(p: Fields, field: string, expected: FieldType) {
    var v := Field(p, field);
    !v.Undefined? && !v.Null? && match expected case ArrayType => !v.Arr? case StringType => !v.Str?
  }

  function RequiredReasons(p: Fields, required: seq<string>): seq<Reason> {
    if required == [] then []
    else
      var n := |required| - 1;
      RequiredReasons(p, required[..n]) + When(Missing(p, required[n]), PayloadRequired(required[n]))
  }

  function TypeReasons(p: Fields, fields: seq<(string, FieldType)>): seq<Reason> {
    if fields == [] then []
    else
      var n := |fields| - 1;
      TypeReasons(p, fields[..n]) + When(IllTyped(p, fields[n].0, fields[n].1), PayloadTypeInvalid(fields[n].0))
  }

  predicate HasOneOf(p: Fields, names: seq<string>) {
    exists i :: 0 <= i < |names| && NonBlank(Field(p, names[i]))
  }

  function ContractReasons(contract: Contract, p: Fields): seq<Reason> {
    RequiredReasons(p, contract.required)
    + When(contract.oneOf != [] && !HasOneOf(p, contract.oneOf), PayloadTargetRequired)
    + TypeReasons(p, contract.fields)
  }

  function PayloadReasons(kind: Option<Kind>, p: Fields): seq<Reason> {
    match kind
    case None => [UnknownPayloadSchema]
    case Some(k) => ContractReasons(PayloadContract(k), p)
  }

  method AnyPresent(p: Fields, names: seq<string>) returns (hasOne: bool)
    ensures hasOne == HasOneOf(p, names)
  {
    for i := 0 to |names|
      invariant forall j :: 0 <= j < i ==> !NonBlank(Field(p, names[j]))
    {
      if NonBlank(Field(p, names[i])) {
        return true;
      }
    }
    hasOne := false;
  }

  lemma NoReasonsAtFirst(p: Fields)
    ensures RequiredReasons(p, []) == [] && TypeReasons(p, []) == []
  {
  }

  lemma RequiredStep(p: Fields, required: seq<string>, i: nat)
    requires i < |required|
    ensures RequiredReasons(p, required[..i + 1])
         == RequiredReasons(p, required[..i]) + When(Missing(p, required[i]), PayloadRequired(required[i]))
  {
    hide Missing, When;
    assert required[..i + 1][..i] == required[..i];
  }

  lemma TypeStep(p: Fields, fields: seq<(string, FieldType)>, i: nat)
    requires i < |fields|
    ensures TypeReasons(p, fields[..i + 1])
         == TypeReasons(p, fields[..i])
            + When(IllTyped(p, fields[i].0, fields[i].1), PayloadTypeInvalid(fields[i].0))
  {
    hide IllTyped, When;
    assert fields[..i + 1][..i] == fields[..i];
  }

  method ValidatePayload(contract: Contract, p: Fields) returns (reasonCodes: seq<Reason>)
    ensures reasonCodes == ContractReasons(contract, p)
  {
    hide Missing, IllTyped, HasOneOf, RequiredReasons, TypeReasons, When;
    reasonCodes := [];
    NoReasonsAtFirst(p);
    for i := 0 to |contract.required|
      invariant reasonCodes == RequiredReasons(p, contract.required[..i])
    {
      RequiredStep(p, contract.required, i);
      reasonCodes := reasonCodes + When(Missing(p, contract.required[i]), PayloadRequired(contract.required[i]));
    }
    assert contract.required[..|contract.required|] == contract.required;
    var hasOne := AnyPresent(p, contract.oneOf);
    reasonCodes := reasonCodes + When(contract.oneOf != [] && !hasOne, PayloadTargetRequired);
    ghost var soFar := reasonCodes;
    for i := 0 to |contract.fields|
      invariant reasonCodes == soFar + TypeReasons(p, contract.fields[..i])
    {
      TypeStep(p, contract.fields, i);
      var (field, expected) := contract.fields[i];
      reasonCodes := reasonCodes + When(IllTyped(p, field, expected), PayloadTypeInvalid(field));
    }
    assert contract.fields[..|contract.fields|] == contract.fields;
  }

  function NextSequence(c: Context): int {
    (if c.authority.lastSequence != 0 then c.authority.lastSequence else c.canonicalSequence) + 1
  }

  function SequenceReasons(c: Context, sequence: Option<int>): seq<Reason> {
    var expected := NextSequence(c);
    When(sequence != Some(expected), SequenceMismatch(expected, if sequence.Some? then sequence.value else 0))
  }

  function PreviousHashReasons(c: Context, previous: Json): seq<Reason> {
    var expected := HashJson(c.head);
    When(!previous.Null? && !previous.Undefined? && !StrictEq(previous, expected),
         PreviousEventHashMismatch(expected, previous))
  }

  function AuthorityReasons(s: AuthorityState, env: Envelope, p: Fields): seq<Reason> {
    match KindOf(env.kind)
    case None => [UnknownRealmEventType]
    case Some(kind) =>
      When(!CanSign(s, env.signer, RequiredAuthority(kind)), AuthorityTransitionDenied)
      + CheckTransition(kind, s, env, p)
  }

  /** Each stage runs only when the ones before it found nothing. */
  function Reasons(c: Context, n: Normalized): seq<Reason> {
    var shape := EnvelopeReasons(n.envelope) + PayloadReasons(KindOf(n.envelope.kind), n.payload);
    if shape != [] then shape
    else
      var sequence := SequenceReasons(c, n.envelope.sequence);
      if sequence != [] then sequence
      else
        var previous := PreviousHashReasons(c, n.envelope.previousEventHash);
        if previous != [] then previous
        else AuthorityReasons(c.authority, n.envelope, n.payload)
  }

  /** The event the validator builds, before it is linked to the chain. */
  function Unlinked(kind: Kind, n: Normalized, acceptedAt: string): RealmEvent {
    var env := n.envelope;
    RealmEvent(kind, true, env.signer, env.authorityReference, env.sequence, env.timestamp, 1, 1, env, n.payload,
               acceptedAt, "", "", None, "")
  }

  function BuildAccepted(h: Hash, head: Option<string>, n: Normalized, acceptedAt: string): RealmEvent
    requires KindOf(n.envelope.kind).Some?
  {
    Attach(h, Unlinked(KindOf(n.envelope.kind).value, n, acceptedAt), head)
  }

  lemma ReasonsNeedKind(c: Context, n: Normalized)
    requires Reasons(c, n) == []
    ensures KindOf(n.envelope.kind).Some?
  {
  }

  /** `validateRealmEventProposal` with the sequence check on. */
  function Validate(h: Hash, c: Context, proposal: Json, now: string): Verdict {
    var n := Normalize(proposal, now);
    var reasons := Reasons(c, n);
    if reasons != [] then Rejected(reasons)
    else
      ReasonsNeedKind(c, n);
      Accepted(BuildAccepted(h, c.head, n, now))
  }

  /** What the validator builds is chained, canonical, and has an adapter. */
  lemma BuiltIsWhole(h: Hash, head: Option<string>, n: Normalized, acceptedAt: string)
    requires KindOf(n.envelope.kind).Some?
    ensures Whole(BuildAccepted(h, head, n, acceptedAt)) && Supported(BuildAccepted(h, head, n, acceptedAt))
    ensures !BuildAccepted(h, head, n, acceptedAt).kind.Other?
  {
    hide Name, Inherited, EventHash, EventId;
    KeyNotInherited(KindOf(n.envelope.kind).value);
  }

  lemma AcceptedIsWhole(h: Hash, c: Context, proposal: Json, now: string)
    requires Validate(h, c, proposal, now).Accepted?
    ensures Whole(Validate(h, c, proposal, now).event) && Supported(Validate(h, c, proposal, now).event)
    ensures !Validate(h, c, proposal, now).event.kind.Other?
  {
    hide Normalize, Reasons, BuildAccepted, Whole, Supported;
    ReasonsNeedKind(c, Normalize(proposal, now));
    BuiltIsWhole(h, c.head, Normalize(proposal, now), now);
  }

  // ---- what the payload check means ----

  lemma {:induction false} NoRequiredReasons(p: Fields, required: seq<string>)
    ensures RequiredReasons(p, required) == [] <==> forall i :: 0 <= i < |required| ==> !Missing(p, required[i])
  {
    hide Missing;
    if required != [] {
      var n := |required| - 1;
      NoRequiredReasons(p, required[..n]);
      assert forall i :: 0 <= i < n ==> required[i] == required[..n][i];
    }
  }

  lemma {:induction false} NoTypeReasons(p: Fields, fields: seq<(string, FieldType)>)
    ensures TypeReasons(p, fields) == []
       <==> forall i :: 0 <= i < |fields| ==> !IllTyped(p, fields[i].0, fields[i].1)
  {
    hide IllTyped;
    if fields != [] {
      var n := |fields| - 1;
      NoTypeReasons(p, fields[..n]);
      assert forall i :: 0 <= i < n ==> fields[i] == fields[..n][i];
    }
  }

  /** A payload passes exactly when it has every required field, one of the alternatives, and no ill-typed field. */
  lemma PayloadPasses(contract: Contract, p: Fields)
    ensures ContractReasons(contract, p) == []
       <==> && (forall i :: 0 <= i < |contract.required| ==> !Missing(p, contract.required[i]))
            && (contract.oneOf == [] || HasOneOf(p, contract.oneOf))
            && (forall i :: 0 <= i < |contract.fields| ==> !IllTyped(p, contract.fields[i].0, contract.fields[i].1))
  {
    NoRequiredReasons(p, contract.required);
    NoTypeReasons(p, contract.fields);
  }

  /** A proposal is accepted exactly when every stage has nothing to say. */
  lemma AcceptedMeans(c: Context, n: Normalized, kind: Kind)
    requires KindOf(n.envelope.kind) == Some(kind)
    ensures Reasons(c, n) == []
       <==> && n.envelope.signer != "" && n.envelope.authorityReference != "" && NonBlank(n.envelope.timestamp)
            && ContractReasons(PayloadContract(kind), n.payload) == []
            && NextSequence(c) >= 1 && n.envelope.sequence == Some(NextSequence(c))
            && (n.envelope.previousEventHash in {Null, Undefined}
                || StrictEq(n.envelope.previousEventHash, HashJson(c.head)))
            && CanSign(c.authority, n.envelope.signer, RequiredAuthority(kind))
            && CheckTransition(kind, c.authority, n.envelope, n.payload) == []
  {
    NameTrimmed(kind);
    hide Name, KindOf, PayloadContract, ContractReasons, CheckTransition, CanSign, NextSequence;
  }

  lemma NameTrimmed(kind: Kind)
    requires !kind.Other?
    ensures Name(kind) != "" && Trimmed(Name(kind))
  {
    var s := Name(kind);
    assert !IsSpace(s[0]) && !IsSpace(s[|s| - 1]);
  }
}
