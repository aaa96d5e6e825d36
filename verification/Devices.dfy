/** Where the projected devices come from, and what a revocation settles. */
module Devices {
  import opened Text
  import opened JsonValues
  import opened Registry
  import opened History
  import opened CurrentAuthority
  import opened Validator
  import opened Runs
  import opened EventIds

  // ---- list facts ----

  lemma {:induction false} WithoutMember<D>(entries: seq<Entry<D>>, id: string, ref: string, d: Entry<D>)
    ensures d in Without(entries, id, ref) <==> d in entries && d.id != id && d.ref != ref
  {
    if entries != [] {
      WithoutMember(entries[1..], id, ref, d);
      assert d in entries <==> d == entries[0] || d in entries[1..];
    }
  }

  ghost predicate Distinct<D>(entries: seq<Entry<D>>) {
    forall i, j :: 0 <= i < j < |entries| ==> entries[i].id != entries[j].id && entries[i].ref != entries[j].ref
  }

  lemma {:induction false} WithoutDistinct<D>(entries: seq<Entry<D>>, id: string, ref: string)
    requires Distinct(entries)
    ensures Distinct(Without(entries, id, ref))
  {
    if entries != [] {
      var rest := Without(entries[1..], id, ref);
      WithoutDistinct(entries[1..], id, ref);
      forall j | 0 <= j < |rest| ensures entries[0].id != rest[j].id && entries[0].ref != rest[j].ref {
        WithoutMember(entries[1..], id, ref, rest[j]);
        var k :| 0 <= k < |entries[1..]| && entries[1..][k] == rest[j];
        assert entries[k + 1] == rest[j];
      }
    }
  }

  lemma ReplaceDistinct<D>(entries: seq<Entry<D>>, e: Entry<D>)
    requires Distinct(entries)
    ensures Distinct(Without(entries, e.id, e.ref) + [e])
  {
    var kept := Without(entries, e.id, e.ref);
    WithoutDistinct(entries, e.id, e.ref);
    forall i | 0 <= i < |kept| ensures kept[i].id != e.id && kept[i].ref != e.ref {
      WithoutMember(entries, e.id, e.ref, kept[i]);
    }
  }

  lemma {:induction false} FindIsMember<D>(entries: seq<Entry<D>>, key: string)
    ensures match Find(entries, key)
            case Some(d) => d in entries && Matches(d, key)
            case None => forall d :: d in entries ==> !Matches(d, key)
  {
    if entries != [] && !Matches(entries[0], key) {
      FindIsMember(entries[1..], key);
      assert forall d :: d in entries <==> d == entries[0] || d in entries[1..];
    }
  }

  // ---- what each event does to the device list ----

  function NewDevice(e: RealmEvent): Device {
    Entry(IssuedDeviceId(e.payload), IssuedDeviceRef(e.payload), Active,
          DeviceDetail(OrNull(Field(MigrateIssued(e.payload), "public_key"))),
          Stamp(e.envelope, e.timestamp), e.id, Null, "")
  }

  function DevicesAfter(devices: seq<Device>, e: RealmEvent): seq<Device> {
    match e.kind
    case DeviceKeyIssued => Without(devices, IssuedDeviceId(e.payload), IssuedDeviceRef(e.payload)) + [NewDevice(e)]
    case DeviceKeyRevoked =>
      End(devices, AppliedTarget(e.envelope, e.payload), Revoked, Stamp(e.envelope, e.timestamp), e.id)
    case _ => devices
  }

  lemma EffectOnDevices(s: AuthorityState, e: RealmEvent)
    requires KindOf(e.envelope.kind) == Some(e.kind)
    ensures ApplyEvent(s, e).devices == DevicesAfter(s.devices, e)
  {
    hide ApplySessionIssued, ApplyRecoveryIssued, ApplyTrust, End, Without, ToText, Or, Field, Stamp, OrNull, Key,
      TargetRecoveryAuthority, AppliedTarget, TrustRealm, KindOf, IssuedDeviceId, IssuedDeviceRef, MigrateIssued;
  }

  /** Only a recovery execution changes the recorded recovery, and it records what its payload names. */
  lemma EffectOnRecovery(s: AuthorityState, e: RealmEvent)
    requires KindOf(e.envelope.kind) == Some(e.kind)
    ensures e.kind != RecoveryExecuted ==> ApplyEvent(s, e).lastRecovery == s.lastRecovery
    ensures e.kind == RecoveryExecuted ==>
      && ApplyEvent(s, e).lastRecovery.Some?
      && ApplyEvent(s, e).lastRecovery.value.executedEvent == e.id
      && ApplyEvent(s, e).lastRecovery.value.newDeviceId == OrNull(Field(e.payload, "new_device_id"))
  {
    hide ApplyDeviceIssued, ApplySessionIssued, ApplyRecoveryIssued, ApplyTrust, End, Without, ToText, Or, Field, Stamp,
      OrNull, Key, TargetRecoveryAuthority, AppliedTarget, TrustRealm, KindOf;
  }

  lemma DevicesStep(h: Hash, before: seq<RealmEvent>, e: RealmEvent)
    requires Admissible(h, before, e)
    ensures Project(before + [e]).devices == DevicesAfter(Project(before).devices, e)
    ensures e.kind != RecoveryExecuted ==> Project(before + [e]).lastRecovery == Project(before).lastRecovery
    ensures e.kind == RecoveryExecuted ==>
      && Project(before + [e]).lastRecovery.Some?
      && Project(before + [e]).lastRecovery.value.executedEvent == e.id
      && Project(before + [e]).lastRecovery.value.newDeviceId == OrNull(Field(e.payload, "new_device_id"))
  {
    hide *;
    AdmissibleEvent(h, before, e);
    ProjectAppend(before, e);
    EffectOnDevices(Project(before), e);
    EffectOnRecovery(Project(before), e);
  }

  /** In every reachable state no two devices share an id, and no two share a reference. */
  lemma {:induction false} DevicesDistinct(h: Hash, events: seq<RealmEvent>)
    requires Legit(h, events)
    ensures Distinct(Project(events).devices)
    decreases |events|
  {
    hide Admissible, Legit, Apply, Without, Project;
    if events == [] {
      assert Project(events) == EMPTY_STATE by { EmptyProjection(); }
    } else {
      var n := |events| - 1;
      var before, e := events[..n], events[n];
      LegitAt(h, events, n);
      DevicesDistinct(h, before);
      DevicesStep(h, before, e);
      assert events == before + [e];
      ReplaceDistinct(Project(before).devices, NewDevice(e));
    }
  }

  lemma EmptyProjection()
    ensures Project([]) == EMPTY_STATE
  {
  }

  // ---- provenance ----

  predicate Supersedes(e: RealmEvent, d: Device) {
    e.kind == DeviceKeyIssued && (IssuedDeviceId(e.payload) == d.id || IssuedDeviceRef(e.payload) == d.ref)
  }

  predicate Revokes(e: RealmEvent, d: Device) {
    e.kind == DeviceKeyRevoked && Matches(d, AppliedTarget(e.envelope, e.payload))
  }

  /** Event `i` issued `d`, no later event issued its id or reference again, and `d` is revoked exactly if a later
      event revoked it, the last of which it names. */
  ghost predicate IssuedAt(events: seq<RealmEvent>, i: nat, d: Device) {
    && i < |events|
    && events[i].kind == DeviceKeyIssued && events[i].id == d.issuedEvent
    && IssuedDeviceId(events[i].payload) == d.id && IssuedDeviceRef(events[i].payload) == d.ref
    && (forall j :: i < j < |events| ==> !Supersedes(events[j], d))
    && match d.status {
         case Active => forall j :: i < j < |events| ==> !Revokes(events[j], d)
         case Revoked => exists j :: i < j < |events| && Revokes(events[j], d) && events[j].id == d.endedEvent
                                     && forall k :: j < k < |events| ==> !Revokes(events[k], d)
         case Expired => false
       }
  }

  /** A RECOVERY_EXECUTED event before `i` names the device id, and is the recovery in force. */
  ghost predicate RecoveryNames(events: seq<RealmEvent>, i: nat, deviceId: string)
    requires i <= |events|
  {
    exists j :: 0 <= j < i && events[j].kind == RecoveryExecuted
                && Field(events[j].payload, "new_device_id") == Str(deviceId)
                && Project(events[..i]).lastRecovery.Some?
                && Project(events[..i]).lastRecovery.value.executedEvent == events[j].id
  }

  /** The signer of event `i` was the active root, or an active recovery authority carrying out a recovery. */
  ghost predicate SignerMayIssue(events: seq<RealmEvent>, i: nat, deviceId: string)
    requires i < |events|
  {
    var s := Project(events[..i]);
    IsActiveRoot(s, events[i].signer)
    || (IsActiveRecoveryAuthority(s, events[i].signer) && RecoveryNames(events, i, deviceId))
  }

  lemma {:induction false} RecoveryIsLogged(h: Hash, events: seq<RealmEvent>) returns (j: nat)
    requires Legit(h, events) && Project(events).lastRecovery.Some?
    ensures j < |events| && events[j].kind == RecoveryExecuted
    ensures Project(events).lastRecovery.value.executedEvent == events[j].id
    ensures Project(events).lastRecovery.value.newDeviceId == OrNull(Field(events[j].payload, "new_device_id"))
    decreases |events|
  {
    hide Admissible, Legit, Project, Apply;
    if events == [] { EmptyProjection(); }
    var n := |events| - 1;
    var before, e := events[..n], events[n];
    LegitAt(h, events, n);
    DevicesStep(h, before, e);
    assert events == before + [e];
    if e.kind == RecoveryExecuted {
      j := n;
    } else {
      j := RecoveryIsLogged(h, before);
    }
  }

  /** An accepted DEVICE_KEY_ISSUED event names its device by a non-blank string. */
  lemma IssuedIdIsText(p: Fields)
    requires ContractReasons(PayloadContract(DeviceKeyIssued), p) == []
    ensures Field(p, "device_id").Str? && IssuedDeviceId(p) == Field(p, "device_id").s
  {
    var contract := PayloadContract(DeviceKeyIssued);
    PayloadPasses(contract, p);
    assert contract.required[0] == "device_id" && contract.fields[0] == ("device_id", StringType);
    assert !Missing(p, contract.required[0]) && !IllTyped(p, contract.fields[0].0, contract.fields[0].1);
    MigratedId(p);
  }

  lemma MigratedId(p: Fields)
    requires Truthy(Field(p, "device_id"))
    ensures Field(MigrateIssued(p), "device_id") == Field(p, "device_id")
  {
  }

  lemma IssuerQualified(h: Hash, events: seq<RealmEvent>, i: nat)
    requires Legit(h, events) && i < |events| && events[i].kind == DeviceKeyIssued
    ensures SignerMayIssue(events, i, IssuedDeviceId(events[i].payload))
  {
    hide Admissible, Legit, Project, ContractReasons, PayloadContract, IssuedDeviceId, KindOf, Mirrors;
    var before, e := events[..i], events[i];
    LegitAt(h, events, i);
    AdmissibleEvent(h, before, e);
    MirrorsSigner(e);
    IssuedIdIsText(e.payload);
    var s := Project(before);
    assert CanSign(s, e.signer, RootOrRecovery) && CheckDeviceIssued(s, e.envelope, e.payload) == [];
    if !IsActiveRoot(s, e.signer) {
      var j := RecoveryIsLogged(h, before);
      assert events[j] == before[j];
    }
  }

  lemma MirrorsSigner(e: RealmEvent)
    requires Mirrors(e)
    ensures e.signer == e.envelope.signer
  {
  }

  lemma {:induction false} DeviceLife(h: Hash, events: seq<RealmEvent>, d: Device) returns (i: nat)
    requires Legit(h, events) && d in Project(events).devices
    ensures IssuedAt(events, i, d)
    decreases |events|
  {
    hide Admissible, Legit, Project, Apply, Without, NewDevice, IssuedAt, AppliedTarget;
    if events == [] { EmptyProjection(); }
    var n := |events| - 1;
    var before, e := events[..n], events[n];
    LegitAt(h, events, n);
    DevicesStep(h, before, e);
    assert events == before + [e];
    var devices := Project(before).devices;
    if e.kind == DeviceKeyIssued {
      WithoutMember(devices, IssuedDeviceId(e.payload), IssuedDeviceRef(e.payload), d);
      if d in Without(devices, IssuedDeviceId(e.payload), IssuedDeviceRef(e.payload)) {
        i := DeviceLife(h, before, d);
        LifeContinues(before, i, d, e);
      } else {
        i := n;
        LifeBegins(before, e);
      }
    } else if e.kind == DeviceKeyRevoked {
      var k :| 0 <= k < |devices| && DevicesAfter(devices, e)[k] == d;
      i := DeviceLife(h, before, devices[k]);
      if Matches(devices[k], AppliedTarget(e.envelope, e.payload)) {
        LifeEnds(before, i, devices[k], e);
      } else {
        LifeContinues(before, i, d, e);
      }
    } else {
      i := DeviceLife(h, before, d);
      LifeContinues(before, i, d, e);
    }
  }

  lemma LifeBegins(before: seq<RealmEvent>, e: RealmEvent)
    requires e.kind == DeviceKeyIssued
    ensures IssuedAt(before + [e], |before|, NewDevice(e))
  {
    hide IssuedDeviceId, IssuedDeviceRef, MigrateIssued;
  }

  lemma LifeContinues(before: seq<RealmEvent>, i: nat, d: Device, e: RealmEvent)
    requires IssuedAt(before, i, d) && !Supersedes(e, d) && !Revokes(e, d)
    ensures IssuedAt(before + [e], i, d)
  {
    hide Supersedes, Revokes;
    var events := before + [e];
    assert forall j :: 0 <= j < |before| ==> events[j] == before[j];
    if d.status == Revoked {
      var j :| i < j < |before| && Revokes(before[j], d) && before[j].id == d.endedEvent
               && forall k :: j < k < |before| ==> !Revokes(before[k], d);
      assert Revokes(events[j], d) && events[j].id == d.endedEvent;
      assert forall k :: j < k < |events| ==> !Revokes(events[k], d);
    }
  }

  lemma LifeEnds(before: seq<RealmEvent>, i: nat, d: Device, e: RealmEvent)
    requires IssuedAt(before, i, d) && Revokes(e, d)
    ensures IssuedAt(before + [e], i, Ended(d, Revoked, Stamp(e.envelope, e.timestamp), e.id))
  {
    hide AppliedTarget, IssuedDeviceId, IssuedDeviceRef;
    var events := before + [e];
    assert forall j :: 0 <= j < |before| ==> events[j] == before[j];
    var ended := Ended(d, Revoked, Stamp(e.envelope, e.timestamp), e.id);
    assert forall j :: i < j < |before| ==> Supersedes(before[j], ended) == Supersedes(before[j], d);
    assert Revokes(events[|before|], ended);
  }

  /** Every device entry names the event that issued it, whose signer was entitled to, and its status is settled by
      the revocations since. */
  lemma DeviceProvenance(h: Hash, events: seq<RealmEvent>, d: Device) returns (i: nat)
    requires Legit(h, events) && d in Project(events).devices
    ensures IssuedAt(events, i, d) && SignerMayIssue(events, i, d.id)
  {
    hide Legit, Project, SignerMayIssue;
    i := DeviceLife(h, events, d);
    IssuerQualified(h, events, i);
  }

  /** Conversely, an issued device that no later event issued again is in the list. */
  lemma {:induction false} IssuedStays(h: Hash, events: seq<RealmEvent>, i: nat) returns (d: Device)
    requires Legit(h, events) && i < |events| && events[i].kind == DeviceKeyIssued
    requires forall j :: i < j < |events| ==> !Supersedes(events[j], NewDevice(events[i]))
    ensures d in Project(events).devices
    ensures d.id == IssuedDeviceId(events[i].payload) && d.ref == IssuedDeviceRef(events[i].payload)
    ensures d.issuedEvent == events[i].id
    decreases |events|
  {
    hide Admissible, Legit, Project, Apply, Without, AppliedTarget, IssuedDeviceId, IssuedDeviceRef;
    var n := |events| - 1;
    var before, e := events[..n], events[n];
    LegitAt(h, events, n);
    DevicesStep(h, before, e);
    assert events == before + [e];
    if i == n {
      d := NewDevice(e);
    } else {
      d := IssuedStays(h, before, i);
      d := Survivor(Project(before).devices, d, e);
    }
  }

  /** An entry that `e` does not issue again is still there, at most ended. */
  lemma Survivor(devices: seq<Device>, d: Device, e: RealmEvent) returns (after: Device)
    requires d in devices && !Supersedes(e, d)
    ensures after in DevicesAfter(devices, e)
    ensures after.id == d.id && after.ref == d.ref && after.issuedEvent == d.issuedEvent
    ensures d.status == Revoked ==> after.status == Revoked
    ensures Revokes(e, d) ==> after.status == Revoked
    ensures !Revokes(e, d) ==> after == d
  {
    hide AppliedTarget, IssuedDeviceId, IssuedDeviceRef, Without, NewDevice;
    after := d;
    if e.kind == DeviceKeyIssued {
      WithoutMember(devices, IssuedDeviceId(e.payload), IssuedDeviceRef(e.payload), d);
    } else if e.kind == DeviceKeyRevoked {
      var k :| 0 <= k < |devices| && devices[k] == d;
      after := DevicesAfter(devices, e)[k];
    }
  }

  // ---- revocation ----

  /** Right after a DEVICE_KEY_REVOKED event, every device its target names is revoked. */
  lemma RevocationTakesEffect(h: Hash, before: seq<RealmEvent>, e: RealmEvent, d: Device)
    requires Admissible(h, before, e) && e.kind == DeviceKeyRevoked
    requires d in Project(before + [e]).devices && Matches(d, AppliedTarget(e.envelope, e.payload))
    ensures d.status == Revoked && d.endedEvent == e.id
  {
    hide Admissible, Project, AppliedTarget;
    DevicesStep(h, before, e);
  }

  /** A revoked device stays revoked unless a later event issues its id or its reference again. */
  lemma {:induction false} RevocationSticks(h: Hash, events: seq<RealmEvent>, n: nat, d: Device) returns (later: Device)
    requires Legit(h, events) && n <= |events|
    requires d in Project(events[..n]).devices && d.status == Revoked
    requires forall j :: n <= j < |events| ==> !Supersedes(events[j], d)
    ensures later in Project(events).devices && later.id == d.id && later.ref == d.ref && later.status == Revoked
    decreases |events|
  {
    hide Admissible, Legit, Project, Apply, DevicesAfter, Revokes;
    if n == |events| {
      assert events[..n] == events;
      later := d;
    } else {
      var last := |events| - 1;
      var before, e := events[..last], events[last];
      assert before[..n] == events[..n];
      LegitAt(h, events, last);
      DevicesStep(h, before, e);
      assert events == before + [e];
      later := RevocationSticks(h, before, n, d);
      later := Survivor(Project(before).devices, later, e);
    }
  }

  // ---- signers that are devices and nothing more ----

  predicate OnlyDevice(s: AuthorityState, signer: string) {
    IsActiveDevice(s, signer) && !IsActiveRoot(s, signer) && !IsActiveRecoveryAuthority(s, signer)
  }

  /** Such a signer's accepted event leaves the devices alone, unless it is a revocation. */
  lemma DeviceSignerKinds(s: AuthorityState, e: RealmEvent)
    requires KindOf(e.envelope.kind) == Some(e.kind) && OnlyDevice(s, e.envelope.signer) && s.root.Some?
    requires AuthorityReasons(s, e.envelope, e.payload) == []
    ensures e.kind == DeviceKeyRevoked || ApplyEvent(s, e).devices == s.devices
  {
    hide CheckTransition, KindOf;
    assert CanSign(s, e.envelope.signer, RequiredAuthority(e.kind));
    EffectOnDevices(s, e);
  }

  /** The key a revocation applies, read off the payload: the legacy `device` field stands in for a missing id. */
  function AppliedKey(env: Envelope, p: Fields): string {
    if !Truthy(Field(p, "device_id")) && Truthy(Field(p, "device")) then Key(Field(p, "device"))
    else Key(TargetDevice(env, p))
  }

  lemma AppliedKeyIsTarget(env: Envelope, p: Fields)
    ensures AppliedTarget(env, p) == AppliedKey(env, p)
  {
    hide ToText;
  }

  /** Every other device is as it was. */
  ghost predicate SparesOthers(h: Hash, before: seq<RealmEvent>, e: RealmEvent, own: Device)
    requires Admissible(h, before, e) && e.kind == DeviceKeyRevoked
  {
    DevicesStep(h, before, e);
    forall k :: 0 <= k < |Project(before).devices| && Project(before).devices[k] != own ==>
      Project(before + [e]).devices[k] == Project(before).devices[k]
  }

  /** No other device is known by the key. */
  ghost predicate OnlyOwn(devices: seq<Device>, own: Device, key: string) {
    forall k :: 0 <= k < |devices| && devices[k] != own ==> !Matches(devices[k], key)
  }

  /** An accepted revocation leaves every other device as it was, active or long revoked, exactly when the payload's
      legacy field, where it counts, and otherwise the checked target, is the name of no other device. */
  lemma DeviceRevokesOnlyItself(h: Hash, before: seq<RealmEvent>, e: RealmEvent, own: Device)
    requires Legit(h, before) && Admissible(h, before, e) && e.kind == DeviceKeyRevoked
    requires Find(Project(before).devices, e.envelope.signer) == Some(own)
    ensures SparesOthers(h, before, e, own)
       <==> OnlyOwn(Project(before).devices, own, AppliedKey(e.envelope, e.payload))
  {
    hide Legit, Admissible, Project, AppliedTarget, AppliedKey, Find, Matches, Ended;
    DevicesStep(h, before, e);
    AppliedKeyIsTarget(e.envelope, e.payload);
    var devices, key := Project(before).devices, AppliedKey(e.envelope, e.payload);
    forall k | 0 <= k < |devices|
      ensures Project(before + [e]).devices[k] == devices[k] <==> !Matches(devices[k], key) {
      RevocationMarks(h, before, e, devices[k]);
    }
  }

  /** A revocation changes every device it matches: at least the event the device names is a new one. */
  lemma RevocationMarks(h: Hash, before: seq<RealmEvent>, e: RealmEvent, d: Device)
    requires Legit(h, before) && Admissible(h, before, e) && d in Project(before).devices
    ensures Ended(d, Revoked, Stamp(e.envelope, e.timestamp), e.id) != d
  {
    hide Legit, Admissible, Project, Supersedes, Revokes, IssuedDeviceId, IssuedDeviceRef, Stamp;
    var i := DeviceLife(h, before, d);
    if d.status == Revoked {
      var j :| i < j < |before| && Revokes(before[j], d) && before[j].id == d.endedEvent
               && forall k :: j < k < |before| ==> !Revokes(before[k], d);
      var longer := before + [e];
      LegitAppend(h, before, e);
      assert longer[j] == before[j] && longer[|before|] == e;
      IdTwice(h, longer, j);
      IdTwice(h, longer, |before|);
      if e.id == d.endedEvent {
        IdsDistinct(h, longer, j, |before|);
      }
    }
  }

  /** References are the default ones, and no id looks like a reference. */
  predicate DefaultNames(devices: seq<Device>) {
    forall d :: d in devices ==> d.ref == "device:" + d.id && forall x :: x in devices ==> x.ref != d.id
  }

  /** Without the legacy `device` field and with default names, a device can only revoke itself. */
  lemma PlainSelfRevocation(s: AuthorityState, e: RealmEvent, own: Device)
    requires KindOf(e.envelope.kind) == Some(DeviceKeyRevoked) && e.kind == DeviceKeyRevoked
    requires OnlyDevice(s, e.envelope.signer) && Find(s.devices, e.envelope.signer) == Some(own)
    requires AuthorityReasons(s, e.envelope, e.payload) == []
    requires !Truthy(Field(e.payload, "device")) && Distinct(s.devices) && DefaultNames(s.devices)
    ensures forall k :: 0 <= k < |s.devices| && s.devices[k] != own ==> ApplyEvent(s, e).devices[k] == s.devices[k]
  {
    hide KindOf, ApplyEvent, MigrateRevoked, Find, AuthorityReasons, OnlyDevice, TargetDevice;
    EffectOnDevices(s, e);
    NoAliasTarget(e.envelope, e.payload);
    OwnTarget(s, e, own);
  }

  /** With default names, an accepted revocation by a mere device spares the others exactly when it does not name one
      of them in the legacy field of a payload without a device id. */
  lemma SparesUnlessAliased(h: Hash, before: seq<RealmEvent>, e: RealmEvent, own: Device)
    requires Legit(h, before) && Admissible(h, before, e) && e.kind == DeviceKeyRevoked
    requires OnlyDevice(Project(before), e.envelope.signer) && DefaultNames(Project(before).devices)
    requires Find(Project(before).devices, e.envelope.signer) == Some(own)
    ensures SparesOthers(h, before, e, own)
       <==> Truthy(Field(e.payload, "device_id")) || !Truthy(Field(e.payload, "device"))
            || OnlyOwn(Project(before).devices, own, Key(Field(e.payload, "device")))
  {
    hide Legit, Admissible, Project, SparesOthers, OnlyOwn, OnlyDevice, Find, DefaultNames, TargetDevice, ToText;
    DeviceRevokesOnlyItself(h, before, e, own);
    if Truthy(Field(e.payload, "device_id")) || !Truthy(Field(e.payload, "device")) {
      AdmissibleEvent(h, before, e);
      DevicesDistinct(h, before);
      OwnTarget(Project(before), e, own);
    }
  }

  /** What the check reads as the target is a name of the signing device alone. */
  lemma OwnTarget(s: AuthorityState, e: RealmEvent, own: Device)
    requires KindOf(e.envelope.kind) == Some(DeviceKeyRevoked)
    requires OnlyDevice(s, e.envelope.signer) && Find(s.devices, e.envelope.signer) == Some(own)
    requires AuthorityReasons(s, e.envelope, e.payload) == [] && Distinct(s.devices) && DefaultNames(s.devices)
    ensures OnlyOwn(s.devices, own, Key(TargetDevice(e.envelope, e.payload)))
  {
    hide KindOf, Find, IsActiveRoot, IsActiveRecoveryAuthority, TargetDevice;
    FindIsMember(s.devices, e.envelope.signer);
    assert CheckDeviceRevoked(s, e.envelope, e.payload) == [];
    assert MayRevoke(s, e.envelope, TargetDevice(e.envelope, e.payload));
    var target := Key(TargetDevice(e.envelope, e.payload));
    assert Matches(own, target);
    forall k | 0 <= k < |s.devices| && s.devices[k] != own ensures !Matches(s.devices[k], target) {
      var i :| 0 <= i < |s.devices| && s.devices[i] == own;
      assert s.devices[k] in s.devices;
      assert s.devices[k].id != own.id && s.devices[k].ref != own.ref;
    }
  }

  lemma NoAliasTarget(env: Envelope, p: Fields)
    requires !Truthy(Field(p, "device"))
    ensures AppliedTarget(env, p) == Key(TargetDevice(env, p))
  {
    hide ToText;
  }

  /** The legacy `device` field passes the payload check unseen. */
  lemma AliasPayloadPasses(p: Fields)
    requires p == map["authority_ref" := Str("a"), "device" := Str("b")]
    ensures ContractReasons(PayloadContract(DeviceKeyRevoked), p) == []
  {
    var contract := PayloadContract(DeviceKeyRevoked);
    PayloadPasses(contract, p);
    assert Trim("a") == "a" && NonBlank(Field(p, contract.oneOf[1]));
    forall i | 0 <= i < |contract.fields| ensures !IllTyped(p, contract.fields[i].0, contract.fields[i].1) {
      if contract.fields[i].0 != "authority_ref" { assert Field(p, contract.fields[i].0) == Undefined; }
    }
  }
}
