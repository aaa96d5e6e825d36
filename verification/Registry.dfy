/** The twelve kinds of realm event: contracts, authority policies, transition checks and projection. */
module Registry {
  import opened Text
  import opened JsonValues

  /** The keys of the registry object. */
  const CANONICAL_NAMES: seq<string> := [
    "ROOT_AUTHORITY_CREATED", "DEVICE_KEY_ISSUED", "DEVICE_KEY_REVOKED", "SESSION_AUTHORITY_ISSUED",
    "SESSION_AUTHORITY_EXPIRED", "AUTHORITY_ROTATED", "RECOVERY_AUTHORITY_ISSUED", "RECOVERY_AUTHORITY_REVOKED",
    "RECOVERY_EXECUTED", "FEDERATION_TRUST_ESTABLISHED", "FEDERATION_TRUST_UPDATED", "FEDERATION_TRUST_REVOKED"]

  /** The names every plain object inherits, which a lookup in the registry object finds as well. */
  const INHERITED_NAMES: seq<string> := [
    "constructor", "__defineGetter__", "__defineSetter__", "hasOwnProperty", "__lookupGetter__", "__lookupSetter__",
    "isPrototypeOf", "propertyIsEnumerable", "toString", "valueOf", "__proto__", "toLocaleString"]

  predicate CanonicalName(name: string) {
    name in CANONICAL_NAMES
  }

  predicate Inherited(name: string) {
    name in INHERITED_NAMES
  }

  type OtherName = name: string | !CanonicalName(name) witness "NOTE"

  /** The type of a logged event: one of the twelve, or any other text. */
  datatype Kind =
    | RootAuthorityCreated
    | DeviceKeyIssued
    | DeviceKeyRevoked
    | SessionAuthorityIssued
    | SessionAuthorityExpired
    | AuthorityRotated
    | RecoveryAuthorityIssued
    | RecoveryAuthorityRevoked
    | RecoveryExecuted
    | FederationTrustEstablished
    | FederationTrustUpdated
    | FederationTrustRevoked
    | Other(name: OtherName)

  function Name(kind: Kind): string {
    match kind
    case RootAuthorityCreated => "ROOT_AUTHORITY_CREATED"
    case DeviceKeyIssued => "DEVICE_KEY_ISSUED"
    case DeviceKeyRevoked => "DEVICE_KEY_REVOKED"
    case SessionAuthorityIssued => "SESSION_AUTHORITY_ISSUED"
    case SessionAuthorityExpired => "SESSION_AUTHORITY_EXPIRED"
    case AuthorityRotated => "AUTHORITY_ROTATED"
    case RecoveryAuthorityIssued => "RECOVERY_AUTHORITY_ISSUED"
    case RecoveryAuthorityRevoked => "RECOVERY_AUTHORITY_REVOKED"
    case RecoveryExecuted => "RECOVERY_EXECUTED"
    case FederationTrustEstablished => "FEDERATION_TRUST_ESTABLISHED"
    case FederationTrustUpdated => "FEDERATION_TRUST_UPDATED"
    case FederationTrustRevoked => "FEDERATION_TRUST_REVOKED"
    case Other(name) => name
  }

  /** The registry entry a type name selects. */
  function KindOf(name: string): (kind: Option<Kind>)
    ensures kind.Some? ==> Name(kind.value) == name && !kind.value.Other?
  {
    if name == Name(RootAuthorityCreated) then Some(RootAuthorityCreated)
    else if name == Name(DeviceKeyIssued) then Some(DeviceKeyIssued)
    else if name == Name(DeviceKeyRevoked) then Some(DeviceKeyRevoked)
    else if name == Name(SessionAuthorityIssued) then Some(SessionAuthorityIssued)
    else if name == Name(SessionAuthorityExpired) then Some(SessionAuthorityExpired)
    else if name == Name(AuthorityRotated) then Some(AuthorityRotated)
    else if name == Name(RecoveryAuthorityIssued) then Some(RecoveryAuthorityIssued)
    else if name == Name(RecoveryAuthorityRevoked) then Some(RecoveryAuthorityRevoked)
    else if name == Name(RecoveryExecuted) then Some(RecoveryExecuted)
    else if name == Name(FederationTrustEstablished) then Some(FederationTrustEstablished)
    else if name == Name(FederationTrustUpdated) then Some(FederationTrustUpdated)
    else if name == Name(FederationTrustRevoked) then Some(FederationTrustRevoked)
    else None
  }

  /** `hasRealmEventContract`: only the twelve kinds have a payload contract and adapters under their name. */
  predicate HasContract(name: string) {
    KindOf(name).Some? || Inherited(name)
  }

  lemma NameIsCanonical(kind: Kind)
    requires !kind.Other?
    ensures CanonicalName(Name(kind))
  {
    var i := match kind
      case RootAuthorityCreated => 0
      case DeviceKeyIssued => 1
      case DeviceKeyRevoked => 2
      case SessionAuthorityIssued => 3
      case SessionAuthorityExpired => 4
      case AuthorityRotated => 5
      case RecoveryAuthorityIssued => 6
      case RecoveryAuthorityRevoked => 7
      case RecoveryExecuted => 8
      case FederationTrustEstablished => 9
      case FederationTrustUpdated => 10
      case FederationTrustRevoked => 11;
    assert CANONICAL_NAMES[i] == Name(kind);
  }

  lemma ContractNameInjective(a: Kind, b: Kind)
    requires Name(a) == Name(b) && !a.Other? && !b.Other?
    ensures a == b
  {
    hide CanonicalName;
    assert |Name(a)| == |Name(b)|;
  }

  /** No two kinds share a name. */
  lemma NameInjective(a: Kind, b: Kind)
    requires Name(a) == Name(b)
    ensures a == b
  {
    hide Name, CanonicalName;
    if a.Other? && b.Other? {
      OtherNameIs(a);
      OtherNameIs(b);
    } else if !a.Other? && !b.Other? {
      ContractNameInjective(a, b);
    } else if a.Other? {
      OtherNameDiffers(b, a);
    } else {
      OtherNameDiffers(a, b);
    }
  }

  lemma OtherNameIs(kind: Kind)
    requires kind.Other?
    ensures Name(kind) == kind.name && !CanonicalName(Name(kind))
  {
    hide CanonicalName;
  }

  lemma OtherNameDiffers(a: Kind, b: Kind)
    requires !a.Other? && b.Other?
    ensures Name(a) != Name(b)
  {
    hide Name, CanonicalName;
    NameIsCanonical(a);
    OtherNameIs(b);
  }

  /** A name selects its entry; no other text selects one. */
  lemma KindOfName(kind: Kind)
    ensures KindOf(Name(kind)) == if kind.Other? then None else Some(kind)
  {
    hide Name;
    match KindOf(Name(kind))
    case Some(found) => NameInjective(found, kind);
    case None =>
  }

  lemma NameStartsUpper(kind: Kind)
    requires !kind.Other?
    ensures Name(kind) != "" && 'A' <= Name(kind)[0] <= 'Z'
  {
    hide CanonicalName;
  }

  lemma InheritedStartsLower(name: string)
    requires Inherited(name)
    ensures name != "" && !('A' <= name[0] <= 'Z')
  {
  }

  /** No registry key is an inherited name. */
  lemma KeyNotInherited(kind: Kind)
    requires !kind.Other?
    ensures !Inherited(Name(kind))
  {
    hide Name, Inherited;
    NameStartsUpper(kind);
    if Inherited(Name(kind)) { InheritedStartsLower(Name(kind)); }
  }

  // ---- the projection ----

  datatype Status = Active | Revoked | Expired

  /** One entry of a projected list. A device's `authority` always equals its `authorityRef`, and a trust is
      known by its realm id alone; both are `ref` here. `endedAt` and `endedEvent` record the revocation or expiry. */
  datatype Entry<+D> = Entry(
    id: string, ref: string, status: Status, detail: D,
    issuedAt: Json, issuedEvent: string, endedAt: Json, endedEvent: string)

  datatype DeviceDetail = DeviceDetail(publicKey: Json)
  datatype RecoveryDetail = RecoveryDetail(publicKey: Json, issuedBy: string)
  datatype SessionDetail = SessionDetail(deviceRef: Json, expiresAt: Json)
  datatype TrustDetail = TrustDetail(
    trustedRootAuthority: Json, allowedClaimScopes: Json, trustScope: Json, policyId: Json, remoteEventHead: Json)

  type Device = Entry<DeviceDetail>
  type RecoveryAuthority = Entry<RecoveryDetail>
  type Session = Entry<SessionDetail>
  type Trust = Entry<TrustDetail>

  datatype Root = Root(id: string, ref: string, status: Status, issuedAt: Json, issuedEvent: string)

  datatype Recovery = Recovery(
    executedAt: Json, executedEvent: string, recoveryRef: Json, recoveryAuthority: string,
    oldDeviceId: Json, oldDeviceRef: Json, newDeviceId: Json, newDeviceAuthorityRef: Json, executed: bool)

  datatype AuthorityState = AuthorityState(
    root: Option<Root>,
    recoveryAuthorities: seq<RecoveryAuthority>,
    devices: seq<Device>,
    sessions: seq<Session>,
    federationTrusts: seq<Trust>,
    lastSequence: int,
    lastRecovery: Option<Recovery>)

  const EMPTY_STATE := AuthorityState(None, [], [], [], [], 0, None)

  /** `sequence` is None where the source's Number() yields no integer. */
  datatype Envelope = Envelope(
    kind: string, signer: string, authorityReference: string, sequence: Option<int>,
    timestamp: Json, previousEventHash: Json)

  // ---- lookups ----

  predicate Matches<D>(e: Entry<D>, key: string) {
    e.id == key || e.ref == key
  }

  /** The first entry known by `key`. */
  function Find<D>(entries: seq<Entry<D>>, key: string): Option<Entry<D>> {
    if entries == [] then None
    else if Matches(entries[0], key) then Some(entries[0])
    else Find(entries[1..], key)
  }

  predicate IsActive<D>(entry: Option<Entry<D>>) {
    entry.Some? && entry.value.status.Active?
  }

  predicate IsActiveRoot(s: AuthorityState, signer: string) {
    s.root.Some? && s.root.value.status.Active? && (s.root.value.id == signer || s.root.value.ref == signer)
  }

  predicate IsActiveDevice(s: AuthorityState, signer: string) {
    IsActive(Find(s.devices, signer))
  }

  predicate IsActiveRecoveryAuthority(s: AuthorityState, signer: string) {
    IsActive(Find(s.recoveryAuthorities, signer))
  }

  datatype Policy = AnyInitialRoot | RootOnly | RecoveryOnly | RootOrRecovery | RootOrDevice | RootOrDeviceOrRecovery

  function RequiredAuthority(kind: Kind): Policy {
    match kind
    case RootAuthorityCreated => AnyInitialRoot
    case DeviceKeyIssued => RootOrRecovery
    case DeviceKeyRevoked => RootOrDeviceOrRecovery
    case SessionAuthorityIssued => RootOrDevice
    case SessionAuthorityExpired => RootOrDevice
    case RecoveryExecuted => RecoveryOnly
    case _ => RootOnly
  }

  predicate CanSign(s: AuthorityState, signer: string, policy: Policy) {
    match policy
    case AnyInitialRoot => s.root.None? && signer != ""
    case RootOnly => IsActiveRoot(s, signer)
    case RecoveryOnly => IsActiveRecoveryAuthority(s, signer)
    case RootOrRecovery => IsActiveRoot(s, signer) || IsActiveRecoveryAuthority(s, signer)
    case RootOrDevice => IsActiveRoot(s, signer) || IsActiveDevice(s, signer)
    case RootOrDeviceOrRecovery =>
      IsActiveRoot(s, signer) || IsActiveDevice(s, signer) || IsActiveRecoveryAuthority(s, signer)
  }

  // ---- payload contracts ----

  datatype FieldType = StringType | ArrayType

  datatype Contract = Contract(required: seq<string>, oneOf: seq<string>, fields: seq<(string, FieldType)>)

  function PayloadContract(kind: Kind): Contract {
    match kind
    case RootAuthorityCreated =>
      Contract(["root_id"], [], [("root_id", StringType), ("public_key", StringType), ("label", StringType)])
    case DeviceKeyIssued =>
      Contract(["device_id", "public_key"], [],
               [("device_id", StringType), ("public_key", StringType), ("authority_ref", StringType),
                ("capabilities", ArrayType)])
    case DeviceKeyRevoked =>
      Contract([], ["device_id", "authority_ref", "device_authority"],
               [("device_id", StringType), ("authority_ref", StringType), ("device_authority", StringType),
                ("reason", StringType)])
    case SessionAuthorityIssued =>
      Contract(["session_id"], [],
               [("session_id", StringType), ("device_ref", StringType), ("authority_ref", StringType),
                ("expires_at", StringType)])
    case SessionAuthorityExpired =>
      Contract([], ["session_id", "authority_ref"], [("session_id", StringType), ("authority_ref", StringType)])
    case AuthorityRotated =>
      Contract(["new_authority_ref"], [],
               [("new_authority_ref", StringType), ("new_root_id", StringType), ("previous_authority_ref", StringType)])
    case RecoveryAuthorityIssued =>
      Contract(["recovery_authority_id", "public_key"], [],
               [("recovery_authority_id", StringType), ("public_key", StringType), ("authority_ref", StringType),
                ("label", StringType)])
    case RecoveryAuthorityRevoked =>
      Contract([], ["recovery_authority_id", "authority_ref", "recovery_authority_ref"],
               [("recovery_authority_id", StringType), ("authority_ref", StringType),
                ("recovery_authority_ref", StringType), ("reason", StringType)])
    case RecoveryExecuted =>
      Contract(["recovery_ref", "old_device_id", "new_device_id"], [],
               [("recovery_ref", StringType), ("old_device_id", StringType), ("old_device_ref", StringType),
                ("new_device_id", StringType), ("new_device_authority_ref", StringType), ("reason", StringType)])
    case FederationTrustRevoked =>
      Contract(["remote_realm_id"], [], [("remote_realm_id", StringType), ("reason", StringType)])
    case Other(_) => Contract([], [], [])
    case _ =>
      Contract(["remote_realm_id"], [],
               [("remote_realm_id", StringType), ("trusted_root_authority", StringType),
                ("allowed_claim_scopes", ArrayType), ("trust_scope", StringType), ("policy_id", StringType),
                ("remote_event_head", StringType)])
  }

  // ---- transition checks ----

  datatype Reason =
    | EnvelopeTypeRequired
    | UnknownRealmEventType
    | EnvelopeSignerRequired
    | EnvelopeAuthorityReferenceRequired
    | EnvelopeSequenceInvalid
    | EnvelopeTimestampRequired
    | UnknownPayloadSchema
    | PayloadRequired(field: string)
    | PayloadTargetRequired
    | PayloadTypeInvalid(field: string)
    | SequenceMismatch(expected: int, got: int)
    | PreviousEventHashMismatch(expectedHash: Json, gotHash: Json)
    | AuthorityTransitionDenied
    | RootAuthorityAlreadyExists
    | RecoveryContextRequired
    | RecoveryContextMismatch
    | RecoveryReplacementDeviceMismatch
    | DeviceAuthorityNotFound
    | DeviceAuthorityAlreadyRevoked
    | DeviceRevokeTargetNotSelf
    | RecoveryRevokeTargetMismatch
    | RecoveryAuthorityAlreadyActive
    | RecoveryAuthorityNotFound
    | RecoveryAuthorityAlreadyRevoked
    | RecoveryOldDeviceNotFound
    | RecoveryOldDeviceNotActive
    | RecoveryReplacementAlreadyActive

  /** `String(value || '')` */
  function Key(v: Json): string {
    ToText(Or(v, Str("")))
  }

  function TargetDevice(env: Envelope, p: Fields): Json {
    Or(Or(Or(Field(p, "device_id"), Field(p, "authority_ref")), Field(p, "device_authority")),
       Str(env.authorityReference))
  }

  function TargetRecoveryAuthority(env: Envelope, p: Fields): Json {
    Or(Or(Or(Field(p, "recovery_authority_id"), Field(p, "authority_ref")), Field(p, "recovery_authority_ref")),
       Str(env.authorityReference))
  }

  function CheckDeviceIssued(s: AuthorityState, env: Envelope, p: Fields): seq<Reason> {
    if IsActiveRoot(s, env.signer) then []
    else if s.lastRecovery.None? || !s.lastRecovery.value.executed then [RecoveryContextRequired]
    else if !StrictEq(s.lastRecovery.value.recoveryRef, Field(p, "recovery_ref")) then [RecoveryContextMismatch]
    else if !StrictEq(s.lastRecovery.value.newDeviceId, Field(p, "device_id")) then [RecoveryReplacementDeviceMismatch]
    else []
  }

  /** A signer that is an active device and nothing more may only name itself. */
  predicate MayRevoke(s: AuthorityState, env: Envelope, target: Json) {
    var own := Find(s.devices, env.signer);
    IsActive(own) && !IsActiveRoot(s, env.signer) && !IsActiveRecoveryAuthority(s, env.signer) ==>
      Str(own.value.id) == target || Str(own.value.ref) == target || Str(env.signer) == target
  }

  function CheckDeviceRevoked(s: AuthorityState, env: Envelope, p: Fields): seq<Reason> {
    var target := TargetDevice(env, p);
    var found := Find(s.devices, Key(target));
    if found.None? then [DeviceAuthorityNotFound]
    else if found.value.status.Revoked? then [DeviceAuthorityAlreadyRevoked]
    else if !MayRevoke(s, env, target) then [DeviceRevokeTargetNotSelf]
    else if IsActiveRecoveryAuthority(s, env.signer) then
      if s.lastRecovery.None? || !s.lastRecovery.value.executed then [RecoveryContextRequired]
      else if !StrictEq(s.lastRecovery.value.recoveryRef, Field(p, "recovery_ref")) then [RecoveryContextMismatch]
      else if s.lastRecovery.value.oldDeviceId != Str(found.value.id)
              && s.lastRecovery.value.oldDeviceRef != Str(found.value.ref) then [RecoveryRevokeTargetMismatch]
      else []
    else []
  }

  function CheckRecoveryExecuted(s: AuthorityState, p: Fields): seq<Reason> {
    var oldDevice := Find(s.devices, Key(Or(Field(p, "old_device_id"), Field(p, "old_device_ref"))));
    var replacement := Find(s.devices, Key(Or(Field(p, "new_device_id"), Field(p, "new_device_authority_ref"))));
    if oldDevice.None? then [RecoveryOldDeviceNotFound]
    else if !oldDevice.value.status.Active? then [RecoveryOldDeviceNotActive]
    else if IsActive(replacement) then [RecoveryReplacementAlreadyActive]
    else []
  }

  function CheckTransition(kind: Kind, s: AuthorityState, env: Envelope, p: Fields): seq<Reason> {
    match kind
    case RootAuthorityCreated => if s.root.Some? then [RootAuthorityAlreadyExists] else []
    case DeviceKeyIssued => CheckDeviceIssued(s, env, p)
    case DeviceKeyRevoked => CheckDeviceRevoked(s, env, p)
    case RecoveryAuthorityIssued =>
      if IsActive(Find(s.recoveryAuthorities, Key(TargetRecoveryAuthority(env, p))))
      then [RecoveryAuthorityAlreadyActive] else []
    case RecoveryAuthorityRevoked =>
      var found := Find(s.recoveryAuthorities, Key(TargetRecoveryAuthority(env, p)));
      if found.None? then [RecoveryAuthorityNotFound]
      else if found.value.status.Revoked? then [RecoveryAuthorityAlreadyRevoked]
      else []
    case RecoveryExecuted => CheckRecoveryExecuted(s, p)
    case _ => []
  }

  // ---- projection of one event ----

  /** Entries known neither by `id` nor by `ref`. */
  function Without<D>(entries: seq<Entry<D>>, id: string, ref: string): seq<Entry<D>> {
    if entries == [] then []
    else
      var rest := Without(entries[1..], id, ref);
      if entries[0].id != id && entries[0].ref != ref then [entries[0]] + rest else rest
  }

  function WithoutId<D>(entries: seq<Entry<D>>, id: string): seq<Entry<D>> {
    if entries == [] then []
    else
      var rest := WithoutId(entries[1..], id);
      if entries[0].id != id then [entries[0]] + rest else rest
  }

  function Ended<D>(e: Entry<D>, status: Status, at: Json, event: string): Entry<D> {
    e.(status := status, endedAt := at, endedEvent := event)
  }

  /** Every entry known by `target` takes the given final status. */
  function End<D>(entries: seq<Entry<D>>, target: string, status: Status, at: Json, event: string): (r: seq<Entry<D>>)
    ensures |r| == |entries|
  {
    seq(|entries|, i requires 0 <= i < |entries| =>
      if Matches(entries[i], target) then Ended(entries[i], status, at, event) else entries[i])
  }

  function OrNull(v: Json): Json {
    Or(v, Null)
  }

  function Stamp(env: Envelope, eventTime: Json): Json {
    OrNull(Or(env.timestamp, eventTime))
  }

  /** Payload fields as the version 1 adapter of DEVICE_KEY_ISSUED hands them to the projection. */
  function MigrateIssued(p: Fields): Fields {
    var a := if !Truthy(Field(p, "device_id")) && Truthy(Field(p, "device")) then p["device_id" := p["device"]] else p;
    var b := if !Truthy(Field(a, "public_key")) && Truthy(Field(a, "publicKey"))
             then a["public_key" := a["publicKey"]] else a;
    var c := if !Truthy(Field(b, "authority_ref")) && Truthy(Field(b, "device_authority"))
             then b["authority_ref" := b["device_authority"]] else b;
    if Field(c, "capabilities").Arr? then c else c["capabilities" := Arr([])]
  }

  /** The same for DEVICE_KEY_REVOKED. */
  function MigrateRevoked(p: Fields): Fields {
    var a := if !Truthy(Field(p, "device_id")) && Truthy(Field(p, "device")) then p["device_id" := p["device"]] else p;
    if !Truthy(Field(a, "authority_ref")) && Truthy(Field(a, "device_authority"))
    then a["authority_ref" := a["device_authority"]] else a
  }

  /** The reference and the id a DEVICE_KEY_ISSUED payload registers. */
  function IssuedDeviceRef(p: Fields): string {
    var m := MigrateIssued(p);
    ToText(Or(Or(Field(m, "authority_ref"), Field(m, "device_authority")),
              Str("device:" + ToText(Field(m, "device_id")))))
  }

  function IssuedDeviceId(p: Fields): string {
    ToText(Or(Field(MigrateIssued(p), "device_id"), Str(IssuedDeviceRef(p))))
  }

  /** The key whose devices a DEVICE_KEY_REVOKED event revokes. */
  function AppliedTarget(env: Envelope, p: Fields): string {
    Key(TargetDevice(env, MigrateRevoked(p)))
  }

  function ApplyDeviceIssued(s: AuthorityState, id: string, time: Json, env: Envelope, p: Fields): (r: AuthorityState)
    ensures r.(devices := s.devices) == s
  {
    var device := Entry(IssuedDeviceId(p), IssuedDeviceRef(p), Active,
                        DeviceDetail(OrNull(Field(MigrateIssued(p), "public_key"))), Stamp(env, time), id, Null, "");
    s.(devices := Without(s.devices, device.id, device.ref) + [device])
  }

  function ApplySessionIssued(s: AuthorityState, id: string, time: Json, env: Envelope, p: Fields): (r: AuthorityState)
    ensures r.(sessions := s.sessions) == s
  {
    var sessionId := ToText(Or(Field(p, "session_id"), Str("session_" + Decimal(|s.sessions| + 1))));
    var ref := ToText(Or(Or(Field(p, "authority_ref"), Field(p, "session_authority")), Str(sessionId)));
    var session := Entry(sessionId, ref, Active,
                         SessionDetail(OrNull(Field(p, "device_ref")), OrNull(Field(p, "expires_at"))),
                         Stamp(env, time), id, Null, "");
    s.(sessions := WithoutId(s.sessions, sessionId) + [session])
  }

  function ApplyRecoveryIssued(s: AuthorityState, id: string, time: Json, env: Envelope, p: Fields): (r: AuthorityState)
    ensures r.(recoveryAuthorities := s.recoveryAuthorities) == s
  {
    var ref := ToText(Or(Or(Field(p, "authority_ref"), Field(p, "recovery_authority_ref")),
                         Str("recovery:" + ToText(Field(p, "recovery_authority_id")))));
    var authority := Entry(ToText(Or(Field(p, "recovery_authority_id"), Str(ref))), ref, Active,
                           RecoveryDetail(OrNull(Field(p, "public_key")), env.signer), Stamp(env, time), id, Null, "");
    s.(recoveryAuthorities := Without(s.recoveryAuthorities, authority.id, ref) + [authority])
  }

  function TrustRealm(p: Fields): string {
    Key(Or(Field(p, "remote_realm_id"), Field(p, "realm_id")))
  }

  function ApplyTrust(s: AuthorityState, id: string, time: Json, env: Envelope, p: Fields): (r: AuthorityState)
    ensures r.(federationTrusts := s.federationTrusts) == s
  {
    var realm := TrustRealm(p);
    var scopes := Field(p, "allowed_claim_scopes");
    var trust := Entry(realm, realm, Active,
                       TrustDetail(OrNull(Field(p, "trusted_root_authority")), if scopes.Arr? then scopes else Arr([]),
                                   Or(Field(p, "trust_scope"), Str("claims")), OrNull(Field(p, "policy_id")),
                                   OrNull(Field(p, "remote_event_head"))),
                       Stamp(env, time), id, Null, "");
    s.(federationTrusts := Without(s.federationTrusts, realm, realm) + [trust])
  }

  function NewRoot(ref: string, rootId: Json, id: string, time: Json, env: Envelope): Root {
    Root(ToText(Or(rootId, Str(ref))), ref, Active, Stamp(env, time), id)
  }

  /** What the event does, the sequence number aside. */
  function Effect(kind: Kind, s: AuthorityState, id: string, time: Json, env: Envelope, p: Fields): AuthorityState {
    match kind
    case RootAuthorityCreated =>
      var ref := ToText(Or(Or(Or(Str(env.authorityReference), Str(env.signer)), Field(p, "authority_id")),
                           Str("root")));
      s.(root := Some(NewRoot(ref, Field(p, "root_id"), id, time, env)))
    case DeviceKeyIssued => ApplyDeviceIssued(s, id, time, env, p)
    case DeviceKeyRevoked =>
      s.(devices := End(s.devices, AppliedTarget(env, p), Revoked, Stamp(env, time), id))
    case SessionAuthorityIssued => ApplySessionIssued(s, id, time, env, p)
    case SessionAuthorityExpired =>
      var target := Key(Or(Field(p, "session_id"), Field(p, "authority_ref")));
      s.(sessions := End(s.sessions, target, Expired, Stamp(env, time), id))
    case AuthorityRotated =>
      var ref := Key(Or(Field(p, "new_authority_ref"), Str(env.authorityReference)));
      s.(root := Some(NewRoot(ref, Field(p, "new_root_id"), id, time, env)))
    case RecoveryAuthorityIssued => ApplyRecoveryIssued(s, id, time, env, p)
    case RecoveryAuthorityRevoked =>
      var target := Key(TargetRecoveryAuthority(env, p));
      s.(recoveryAuthorities := End(s.recoveryAuthorities, target, Revoked, Stamp(env, time), id))
    case RecoveryExecuted =>
      s.(lastRecovery := Some(Recovery(
        Stamp(env, time), id, OrNull(Or(Field(p, "recovery_ref"), Str(env.authorityReference))), env.signer,
        OrNull(Field(p, "old_device_id")), OrNull(Or(Field(p, "old_device_ref"), Field(p, "old_device_id"))),
        OrNull(Field(p, "new_device_id")), OrNull(Field(p, "new_device_authority_ref")), true)))
    case FederationTrustEstablished => ApplyTrust(s, id, time, env, p)
    case FederationTrustUpdated => ApplyTrust(s, id, time, env, p)
    case FederationTrustRevoked =>
      s.(federationTrusts := End(s.federationTrusts, TrustRealm(p), Revoked, Stamp(env, time), id))
    case Other(_) => s
  }

  function Apply(kind: Kind, s: AuthorityState, id: string, time: Json, env: Envelope, p: Fields): AuthorityState {
    var next := Effect(kind, s, id, time, env, p);
    if env.sequence.Some? then next.(lastSequence := env.sequence.value) else next
  }
}
