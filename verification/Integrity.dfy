/** The integrity report of a ledger, and which ledgers it calls valid. */
module Integrity {
  import opened Text
  import opened JsonValues
  import opened JsonParser
  import opened Registry
  import opened History
  import opened CurrentAuthority
  import opened Validator
  import opened Pipeline
  import opened Runs
  import opened Devices
  import opened Snapshots
  import opened Commands
  import opened EventIds

  // ---- the projection hash ----

  function StatusText(status: Status): string {
    match status case Active => "active" case Revoked => "revoked" case Expired => "expired"
  }

  function IdOrNull(id: string): Json {
    if id == "" then Null else Str(id)
  }

  /** The members every projected entry has, in the names its list uses. */
  function EntryFields<D>(e: Entry<D>, issuedAt: string, issuedEvent: string, endedAt: string, endedEvent: string)
    : Fields
  {
    map["status" := Str(StatusText(e.status)), issuedAt := e.issuedAt, issuedEvent := IdOrNull(e.issuedEvent),
        endedAt := e.endedAt, endedEvent := IdOrNull(e.endedEvent)]
  }

  function DeviceJson(d: Device): Json {
    Obj(EntryFields(d, "issuedAt", "issuedEvent", "revokedAt", "revokedEvent")
        + map["id" := Str(d.id), "authority" := Str(d.ref), "authorityRef" := Str(d.ref),
              "publicKey" := d.detail.publicKey])
  }

  function RecoveryJson(r: RecoveryAuthority): Json {
    var fields := EntryFields(r, "issuedAt", "issuedEvent", "revokedAt", "revokedEvent")
      + map["id" := Str(r.id), "authorityRef" := Str(r.ref), "publicKey" := r.detail.publicKey,
            "issuedBy" := IdOrNull(r.detail.issuedBy)];
    Obj(if r.status.Active? then fields["revokedAt" := Undefined] else fields)
  }

  function SessionJson(s: Session): Json {
    var fields := EntryFields(s, "issuedAt", "issuedEvent", "expiredAt", "expiredEvent")
      + map["id" := Str(s.id), "authorityRef" := Str(s.ref), "deviceRef" := s.detail.deviceRef,
            "expiresAt" := s.detail.expiresAt];
    Obj(if s.status.Active? then fields["expiredAt" := Undefined]["expiredEvent" := Undefined] else fields)
  }

  function TrustJson(t: Trust): Json {
    var fields := EntryFields(t, "establishedAt", "establishedEvent", "revokedAt", "revokedEvent")
      + map["realmId" := Str(t.id), "trustedRootAuthority" := t.detail.trustedRootAuthority,
            "allowedClaimScopes" := t.detail.allowedClaimScopes, "trustScope" := t.detail.trustScope,
            "policyId" := t.detail.policyId, "remoteEventHead" := t.detail.remoteEventHead];
    Obj(if t.status.Active? then fields["revokedAt" := Undefined]["revokedEvent" := Undefined] else fields)
  }

  function RootJson(root: Option<Root>): Json {
    match root
    case None => Null
    case Some(r) => Obj(map["id" := Str(r.id), "authorityRef" := Str(r.ref), "status" := Str(StatusText(r.status)),
                            "issuedAt" := r.issuedAt, "issuedEvent" := IdOrNull(r.issuedEvent)])
  }

  function LastRecoveryJson(recovery: Option<Recovery>): Json {
    match recovery
    case None => Undefined
    case Some(r) => Obj(map[
      "executedAt" := r.executedAt, "executedEvent" := IdOrNull(r.executedEvent), "recoveryRef" := r.recoveryRef,
      "recoveryAuthority" := IdOrNull(r.recoveryAuthority), "oldDeviceId" := r.oldDeviceId,
      "oldDeviceRef" := r.oldDeviceRef, "newDeviceId" := r.newDeviceId,
      "newDeviceAuthorityRef" := r.newDeviceAuthorityRef, "status" := Str(if r.executed then "executed" else "")])
  }

  function All<T>(items: seq<T>, toJson: T -> Json): Json {
    Arr(seq(|items|, i requires 0 <= i < |items| => toJson(items[i])))
  }

  function StateJson(s: AuthorityState): Json {
    Obj(map[
      "rootAuthority" := RootJson(s.root),
      "recoveryAuthorities" := All(s.recoveryAuthorities, RecoveryJson),
      "devices" := All(s.devices, DeviceJson),
      "sessions" := All(s.sessions, SessionJson),
      "federationTrusts" := All(s.federationTrusts, TrustJson),
      "lastSequence" := Num(s.lastSequence),
      "lastRecovery" := LastRecoveryJson(s.lastRecovery)])
  }

  /** `calculateProjectionHash` */
  function ProjectionHash(h: Hash, s: AuthorityState): Digest {
    h(Encode(StateJson(s)))
  }

  // ---- the checks ----

  datatype Failure =
    | HistoryFailure(fault: Fault)
    | EventChainBroken
    | ProjectionReplayMismatch
    | SnapshotFailure(error: SnapshotError)
    | FederationReferenceInvalid
    | CommandReferenceInvalid

  datatype Check = Pass | Fail(failure: Failure) | Warning | Skip

  datatype Options = Options(
    snapshot: Option<Snapshot>, store: Option<RecordStore>, commandIds: seq<string>,
    remoteEvidenceHeads: map<string, string>)

  datatype Report = Report(
    realmValid: bool, historyHead: Option<string>, projectionHash: Option<string>, checks: seq<Check>,
    failures: seq<Failure>, warned: bool)

  /** `federationTrustEventFor`: the first canonical event known by the id. */
  function FirstById(events: seq<RealmEvent>, id: string): Option<RealmEvent> {
    if events == [] then None
    else if IsCanonical(events[0]) && LoggedId(events[0]) == id then Some(events[0])
    else FirstById(events[1..], id)
  }

  /** One trust refers to a logged event that names the same remote head, and to the supplied evidence for its realm. */
  predicate TrustRefers(events: seq<RealmEvent>, heads: map<string, string>, trust: Trust) {
    var remoteHead := OrNull(trust.detail.remoteEventHead);
    var establishing := FirstById(events, trust.issuedEvent);
    trust.issuedEvent != "" && establishing.Some?
    && var payloadHead := OrNull(Field(establishing.value.payload, "remote_event_head"));
       (Truthy(remoteHead) && Truthy(payloadHead) ==> StrictEq(remoteHead, payloadHead))
       && EvidenceAgrees(heads, trust)
  }

  /** The head found for the trust's realm, if any, is the one the trust names, if it names one. Under a name that every
      object inherits something is found even where nothing was supplied, and that is never the head. */
  predicate EvidenceAgrees(heads: map<string, string>, trust: Trust) {
    trust.id != "" && Truthy(trust.detail.remoteEventHead) ==>
      if trust.id in heads then heads[trust.id] != "" ==> StrictEq(Str(heads[trust.id]), trust.detail.remoteEventHead)
      else !Inherited(trust.id)
  }

  function RecordsFor(store: RecordStore, commandIds: seq<string>): seq<Record> {
    if commandIds == [] then []
    else
      var k := |commandIds| - 1;
      var before := RecordsFor(store, commandIds[..k]);
      if commandIds[k] in store then before + [store[commandIds[k]]] else before
  }

  predicate RecordRefers(events: seq<RealmEvent>, record: Record) {
    forall k :: 0 <= k < |record.acceptedEventIds| ==> LogsId(events, record.acceptedEventIds[k])
  }

  function HistoryCheck(h: Hash, events: seq<RealmEvent>): Check {
    match FaultIn(h, ChainedOf(events)) case Some(fault) => Fail(HistoryFailure(fault)) case None => Pass
  }

  function ProjectionCheck(h: Hash, events: seq<RealmEvent>, live: AuthorityState): Check {
    if FaultIn(h, ChainedOf(events)).Some? then Fail(EventChainBroken)
    else if ProjectionHash(h, Project(events)) != ProjectionHash(h, live) then Fail(ProjectionReplayMismatch)
    else Pass
  }

  function SnapshotCheck(h: Hash, events: seq<RealmEvent>, snapshot: Option<Snapshot>): Check {
    if snapshot.None? then Skip
    else if FaultIn(h, ChainedOf(events)).Some? then Fail(EventChainBroken)
    else
      match SnapshotFault(h, events, snapshot.value) case Some(error) => Fail(SnapshotFailure(error)) case None => Pass
  }

  function FederationCheck(events: seq<RealmEvent>, trusts: seq<Trust>, heads: map<string, string>): Check {
    if forall i :: 0 <= i < |trusts| ==> TrustRefers(events, heads, trusts[i]) then Pass
    else Fail(FederationReferenceInvalid)
  }

  function LineageCheck(events: seq<RealmEvent>, store: Option<RecordStore>, commandIds: seq<string>): Check {
    if store.None? then Warning
    else
      var records := RecordsFor(store.value, commandIds);
      if records == [] then Warning
      else if forall i :: 0 <= i < |records| ==> RecordRefers(events, records[i]) then Pass
      else Fail(CommandReferenceInvalid)
  }

  function FailuresOf(checks: seq<Check>): seq<Failure> {
    if checks == [] then []
    else
      var k := |checks| - 1;
      FailuresOf(checks[..k]) + if checks[k].Fail? then [checks[k].failure] else []
  }

  function Checks(h: Hash, l: LedgerValue, o: Options): seq<Check> {
    var events := Realms(l.log);
    [HistoryCheck(h, events), ProjectionCheck(h, events, l.authority), SnapshotCheck(h, events, o.snapshot),
     FederationCheck(events, l.authority.federationTrusts, o.remoteEvidenceHeads),
     LineageCheck(events, o.store, o.commandIds)]
  }

  /** `verifyRealmIntegrity`; a verified history with an unsupported event version makes the replay throw. */
  function Verify(h: Hash, l: LedgerValue, o: Options): Result<Report, ReplayError> {
    var events := Realms(l.log);
    var valid := FaultIn(h, Linked(l.log)).None?;
    if valid && FirstUnsupported(events).Some? then Failure(FirstUnsupported(events).value)
    else
      var checks := Checks(h, l, o);
      Success(Report(FailuresOf(checks) == [], if valid then Head(Linked(l.log)) else None,
                     if valid then Some(ProjectionHash(h, Project(events))) else None,
                     checks, FailuresOf(checks), Warning in checks))
  }

  // ---- the checks as the source runs them ----

  method VerifyFederationReferences(events: seq<RealmEvent>, trusts: seq<Trust>, heads: map<string, string>)
    returns (check: Check)
    ensures check == FederationCheck(events, trusts, heads)
  {
    hide TrustRefers;
    for i := 0 to |trusts|
      invariant forall j :: 0 <= j < i ==> TrustRefers(events, heads, trusts[j])
    {
      if !TrustRefers(events, heads, trusts[i]) {
        return Fail(FederationReferenceInvalid);
      }
    }
    check := Pass;
  }

  method VerifyCommandExecutionBoundary(events: seq<RealmEvent>, store: Option<RecordStore>, commandIds: seq<string>)
    returns (check: Check)
    ensures check == LineageCheck(events, store, commandIds)
  {
    hide RecordRefers;
    if store.None? {
      return Warning;
    }
    var records := RecordsFor(store.value, commandIds);
    if records == [] {
      return Warning;
    }
    for i := 0 to |records|
      invariant forall j :: 0 <= j < i ==> RecordRefers(events, records[j])
    {
      if !RecordRefers(events, records[i]) {
        return Fail(CommandReferenceInvalid);
      }
    }
    check := Pass;
  }

  method VerifyRealmIntegrity(h: Hash, l: LedgerValue, o: Options) returns (r: Result<Report, ReplayError>)
    ensures r == Verify(h, l, o)
  {
    hide HistoryCheck, ProjectionCheck, SnapshotCheck, FederationCheck, LineageCheck, ProjectionHash;
    var events := Realms(l.log);
    var fault := VerifyRealmEventHistory(h, l.log);
    if fault.None? && FirstUnsupported(events).Some? {
      return Failure(FirstUnsupported(events).value);
    }
    var federation := VerifyFederationReferences(events, l.authority.federationTrusts, o.remoteEvidenceHeads);
    var lineage := VerifyCommandExecutionBoundary(events, o.store, o.commandIds);
    var checks := [HistoryCheck(h, events), ProjectionCheck(h, events, l.authority),
                   SnapshotCheck(h, events, o.snapshot), federation, lineage];
    var failures := [];
    for i := 0 to |checks|
      invariant failures == FailuresOf(checks[..i])
    {
      assert checks[..i + 1][..i] == checks[..i];
      if checks[i].Fail? {
        failures := failures + [checks[i].failure];
      }
    }
    assert checks[..|checks|] == checks;
    var head := LatestRealmEventHash(l.log);
    r := Success(Report(failures == [], if fault.None? then head else None,
                        if fault.None? then Some(ProjectionHash(h, Project(events))) else None,
                        checks, failures, Warning in checks));
  }

  // ---- which reports are valid ----

  lemma {:induction false} NoFailures(checks: seq<Check>)
    ensures FailuresOf(checks) == [] <==> forall i :: 0 <= i < |checks| ==> !checks[i].Fail?
  {
    if checks != [] {
      var k := |checks| - 1;
      NoFailures(checks[..k]);
      assert forall i :: 0 <= i < k ==> checks[..k][i] == checks[i];
    }
  }

  /** Event `i` established or updated the trust with its present details. */
  ghost predicate EstablishedAt(events: seq<RealmEvent>, i: nat, t: Trust) {
    i < |events| && events[i].id == t.issuedEvent
    && (events[i].kind == FederationTrustEstablished || events[i].kind == FederationTrustUpdated)
    && t.detail.remoteEventHead == OrNull(Field(events[i].payload, "remote_event_head"))
  }

  function NewTrust(e: RealmEvent): Trust {
    ApplyTrust(EMPTY_STATE, e.id, e.timestamp, e.envelope, e.payload).federationTrusts[0]
  }

  function TrustsAfter(trusts: seq<Trust>, e: RealmEvent): seq<Trust> {
    match e.kind
    case FederationTrustEstablished => Without(trusts, TrustRealm(e.payload), TrustRealm(e.payload)) + [NewTrust(e)]
    case FederationTrustUpdated => Without(trusts, TrustRealm(e.payload), TrustRealm(e.payload)) + [NewTrust(e)]
    case FederationTrustRevoked => End(trusts, TrustRealm(e.payload), Revoked, Stamp(e.envelope, e.timestamp), e.id)
    case _ => trusts
  }

  lemma EffectOnTrusts(s: AuthorityState, e: RealmEvent)
    requires KindOf(e.envelope.kind) == Some(e.kind)
    ensures ApplyEvent(s, e).federationTrusts == TrustsAfter(s.federationTrusts, e)
    ensures NewTrust(e).issuedEvent == e.id
    ensures NewTrust(e).detail.remoteEventHead == OrNull(Field(e.payload, "remote_event_head"))
  {
    hide ApplyDeviceIssued, ApplySessionIssued, ApplyRecoveryIssued, End, Without, ToText, Or, Field, Stamp, OrNull,
      Key, TargetRecoveryAuthority, AppliedTarget, TrustRealm, KindOf;
    NothingWithout(TrustRealm(e.payload));
  }

  lemma NothingWithout(key: string)
    ensures Without<TrustDetail>([], key, key) == []
  {
  }

  /** A trust after an event is the one it made, or one from before with the same details. */
  lemma TrustOrigin(trusts: seq<Trust>, e: RealmEvent, t: Trust) returns (before: Option<Trust>)
    requires t in TrustsAfter(trusts, e)
    ensures before.None? ==>
      t == NewTrust(e) && (e.kind == FederationTrustEstablished || e.kind == FederationTrustUpdated)
    ensures before.Some? ==>
      before.value in trusts && before.value.issuedEvent == t.issuedEvent && before.value.detail == t.detail
  {
    hide TrustRealm, Without, NewTrust;
    var realm := TrustRealm(e.payload);
    if e.kind == FederationTrustEstablished || e.kind == FederationTrustUpdated {
      WithoutMember(trusts, realm, realm, t);
      before := if t in Without(trusts, realm, realm) then Some(t) else None;
    } else if e.kind == FederationTrustRevoked {
      var k :| 0 <= k < |trusts| && TrustsAfter(trusts, e)[k] == t;
      before := Some(trusts[k]);
    } else {
      before := Some(t);
    }
  }

  lemma NoTrustsAtFirst()
    ensures Project([]).federationTrusts == []
  {
  }

  lemma {:induction false} TrustProvenance(h: Hash, events: seq<RealmEvent>, t: Trust) returns (i: nat)
    requires Legit(h, events) && t in Project(events).federationTrusts
    ensures EstablishedAt(events, i, t)
    decreases |events|
  {
    hide *;
    NoTrustsAtFirst();
    var n := |events| - 1;
    var before, e := events[..n], events[n];
    LegitAt(h, events, n);
    AdmissibleEvent(h, before, e);
    ProjectAppend(before, e);
    EffectOnTrusts(Project(before), e);
    assert events == before + [e];
    var origin := TrustOrigin(Project(before).federationTrusts, e, t);
    if origin.None? {
      i := n;
      EstablishedLast(before, e);
    } else {
      i := TrustProvenance(h, before, origin.value);
      EstablishedLonger(before, e, i, origin.value, t);
    }
  }

  lemma EstablishedLast(before: seq<RealmEvent>, e: RealmEvent)
    requires KindOf(e.envelope.kind) == Some(e.kind)
    requires e.kind == FederationTrustEstablished || e.kind == FederationTrustUpdated
    ensures EstablishedAt(before + [e], |before|, NewTrust(e))
  {
    hide NewTrust, OrNull, Field, KindOf, ApplyEvent;
    EffectOnTrusts(EMPTY_STATE, e);
  }

  lemma EstablishedLonger(before: seq<RealmEvent>, e: RealmEvent, i: nat, u: Trust, t: Trust)
    requires EstablishedAt(before, i, u) && u.issuedEvent == t.issuedEvent && u.detail == t.detail
    ensures EstablishedAt(before + [e], i, t)
  {
    hide OrNull, Field;
  }

  /** Looking an event up by its id finds that event. */
  lemma {:induction false} FindsById(h: Hash, events: seq<RealmEvent>, from: nat, i: nat)
    requires Legit(h, events) && from <= i < |events|
    ensures FirstById(events[from..], events[i].id) == Some(events[i])
    decreases i - from
  {
    hide Legit, Admissible, IsCanonical, LoggedId, LogsId, Chained;
    IdTwice(h, events, from);
    IdTwice(h, events, i);
    AcceptedIsLogged(h, events, from);
    AcceptedIsLogged(h, events, i);
    LegitAt(h, events, from);
    AdmissibleEvent(h, events[..from], events[from]);
    assert events[from..][0] == events[from] && events[from..][1..] == events[from + 1..];
    if from < i {
      if events[from].eventId == events[i].eventId { IdsDistinct(h, events, from, i); }
      FindsById(h, events, from + 1, i);
    }
  }

  lemma TrustsRefer(h: Hash, events: seq<RealmEvent>, heads: map<string, string>, t: Trust)
    requires Legit(h, events) && t in Project(events).federationTrusts
    ensures TrustRefers(events, heads, t) <==> EvidenceAgrees(heads, t)
  {
    hide Legit, Project, FirstById, Field, EvidenceAgrees;
    var i := TrustProvenance(h, events, t);
    FindsById(h, events, 0, i);
    assert events[0..] == events;
    IdTwice(h, events, i);
    var rest := SolidId(h, events, i);
    RemoteHeadIsText(h, events, i);
  }

  /** The remote head in an accepted payload is a string if it is there at all, so comparing it with itself succeeds. */
  lemma RemoteHeadIsText(h: Hash, events: seq<RealmEvent>, i: nat)
    requires Legit(h, events) && i < |events|
    requires events[i].kind == FederationTrustEstablished || events[i].kind == FederationTrustUpdated
    ensures var v := Field(events[i].payload, "remote_event_head"); v.Str? || v.Null? || v.Undefined?
  {
    hide *;
    LegitAt(h, events, i);
    AdmissibleEvent(h, events[..i], events[i]);
    TrustPayloadHead(events[i].kind, events[i].payload);
  }

  lemma TrustPayloadHead(kind: Kind, p: Fields)
    requires kind == FederationTrustEstablished || kind == FederationTrustUpdated
    requires ContractReasons(PayloadContract(kind), p) == []
    ensures var v := Field(p, "remote_event_head"); v.Str? || v.Null? || v.Undefined?
  {
    hide PayloadContract, ContractReasons, Missing, HasOneOf, Field;
    var contract := PayloadContract(kind);
    TrustContractField(kind);
    PayloadPasses(contract, p);
    assert !IllTyped(p, contract.fields[5].0, contract.fields[5].1);
  }

  lemma TrustContractField(kind: Kind)
    requires kind == FederationTrustEstablished || kind == FederationTrustUpdated
    ensures |PayloadContract(kind).fields| == 6 && PayloadContract(kind).fields[5] == ("remote_event_head", StringType)
  {
  }

  lemma {:induction false} RecordsAreStored(store: RecordStore, commandIds: seq<string>)
    ensures forall r :: r in RecordsFor(store, commandIds) ==> exists id :: id in store && store[id] == r
  {
    if commandIds != [] {
      RecordsAreStored(store, commandIds[..|commandIds| - 1]);
    }
  }

  lemma LineagePasses(n: Node, store: Option<RecordStore>, commandIds: seq<string>)
    requires LineageHolds(n) && (store.None? || store == Some(n.store))
    ensures !LineageCheck(Realms(n.ledger.log), store, commandIds).Fail?
  {
    var records, events := RecordsFor(n.store, commandIds), Realms(n.ledger.log);
    RecordsAreStored(n.store, commandIds);
    forall i | 0 <= i < |records| ensures RecordRefers(events, records[i]) {
      assert records[i] in records;
      var id :| id in n.store && n.store[id] == records[i];
    }
  }

  /** A replayed ledger with sound lineage passes exactly when the supplied remote evidence agrees with its trusts. */
  lemma SoundIsValid(x: Runtime, n: Node, o: Options)
    requires Sound(x, n) && (o.store.None? || o.store == Some(n.store))
    requires o.snapshot.Some? ==> SnapshotFault(x.hash, Realms(n.ledger.log), o.snapshot.value).None?
    ensures Verify(x.hash, n.ledger, o).Success?
    ensures Verify(x.hash, n.ledger, o).value.realmValid
       <==> forall t :: t in n.ledger.authority.federationTrusts ==> EvidenceAgrees(o.remoteEvidenceHeads, t)
    ensures Verify(x.hash, n.ledger, o).value.historyHead == Head(Linked(n.ledger.log))
    ensures Verify(x.hash, n.ledger, o).value.projectionHash == Some(ProjectionHash(x.hash, n.ledger.authority))
  {
    hide Legit, Project, FaultIn, FirstUnsupported, SnapshotFault, LineageCheck, LineageHolds, TrustRefers,
      EvidenceAgrees, ProjectionHash;
    var events, trusts := Realms(n.ledger.log), n.ledger.authority.federationTrusts;
    LegitVerifies(x.hash, events);
    LineagePasses(n, o.store, o.commandIds);
    NoFailures(Checks(x.hash, n.ledger, o));
    forall t | t in trusts
      ensures TrustRefers(events, o.remoteEvidenceHeads, t) <==> EvidenceAgrees(o.remoteEvidenceHeads, t) {
      TrustsRefer(x.hash, events, o.remoteEvidenceHeads, t);
    }
    var checks := Checks(x.hash, n.ledger, o);
    assert !checks[0].Fail? && !checks[1].Fail? && !checks[2].Fail? && !checks[4].Fail?;
    assert checks[3].Fail? <==> exists i :: 0 <= i < |trusts| && !TrustRefers(events, o.remoteEvidenceHeads, trusts[i]);
  }

  /** The snapshot of one of the history's cuts. */
  predicate IsCut(events: seq<RealmEvent>, s: Snapshot) {
    0 <= s.lastSequence <= |events| && s == SnapshotAt(events, s.lastSequence)
  }

  /** Every node reached by commands through one store is valid for any command ids, with or without the snapshot of a
      cut, exactly when the supplied remote evidence agrees with its trusts. */
  lemma ReachableIsValid(x: Runtime, commands: seq<Timed>, o: Options)
    requires var n := HandleAll(x, Node(EMPTY_LEDGER, map[]), commands);
      (o.store.None? || o.store == Some(n.store))
      && match o.snapshot
         case None => true
         case Some(s) => IsCut(Realms(n.ledger.log), s)
    ensures var n := HandleAll(x, Node(EMPTY_LEDGER, map[]), commands);
      var r := Verify(x.hash, n.ledger, o);
      && r.Success?
      && (r.value.realmValid
          <==> forall t :: t in n.ledger.authority.federationTrusts ==> EvidenceAgrees(o.remoteEvidenceHeads, t))
  {
    hide Legit, Project, FaultIn, FirstUnsupported, SnapshotFault, LineageCheck, LineageHolds, Verify, HandleAll,
      SnapshotAt;
    var n := HandleAll(x, Node(EMPTY_LEDGER, map[]), commands);
    CommandsKeepSound(x, commands);
    if o.snapshot.Some? { VerifiesIffCut(x.hash, Realms(n.ledger.log), o.snapshot.value); }
    SoundIsValid(x, n, o);
  }

  /** What a valid report vouches for on any ledger: the chain verifies, and the stored projection has the same JSON
      text as the replay. */
  lemma ValidMeans(h: Hash, l: LedgerValue, o: Options)
    requires Verify(h, l, o).Success? && Verify(h, l, o).value.realmValid
    requires CollisionFree(h, {Encode(StateJson(l.authority)), Encode(StateJson(Project(Realms(l.log))))})
    ensures Verified(h, Linked(l.log))
    ensures BuildState(h, Realms(l.log)) == Success(Project(Realms(l.log)))
    ensures Normal(StateJson(l.authority)) == Normal(StateJson(Project(Realms(l.log))))
  {
    hide FaultIn, FirstUnsupported, SnapshotCheck, FederationCheck, LineageCheck, Encode, StateJson, Normal, Project;
    NoFailures(Checks(h, l, o));
    var checks := Checks(h, l, o);
    assert !checks[0].Fail? && !checks[1].Fail?;
    EncodeInjective(StateJson(l.authority), StateJson(Project(Realms(l.log))));
  }
}
