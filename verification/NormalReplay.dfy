/** Undefined members of payloads: the hash does not see them, and neither does anything that acceptance decides. */
module NormalReplay {
  import opened Text
  import opened JsonValues
  import opened JsonParser
  import opened Registry
  import opened History
  import opened CurrentAuthority
  import opened Validator
  import opened Runs
  import opened HeadCommits

  // ---- reading a value in its normal form ----

  /** `Normal`, which keeps a value that is undefined itself. */
  function Tidy(v: Json): Json {
    if v.Undefined? then Undefined else Normal(v)
  }

  /** A payload as its JSON text holds it. */
  function TidyFields(p: Fields): Fields {
    map k | k in p && p[k] != Undefined :: Normal(p[k])
  }

  lemma FieldTidy(p: Fields, name: string)
    ensures Field(TidyFields(p), name) == Tidy(Field(p, name))
  {
    hide Normal;
    if name in p { NormalDefined(p[name]); }
  }

  lemma NormalDefined(v: Json)
    ensures Normal(v) != Undefined
  {
  }

  lemma TidyShape(v: Json)
    ensures Truthy(Tidy(v)) == Truthy(v) && (Tidy(v).Arr? <==> v.Arr?) && (Tidy(v).Obj? <==> v.Obj?)
    ensures !v.Arr? && !v.Obj? ==> Tidy(v) == v
  {
  }

  lemma OrTidy(a: Json, b: Json)
    ensures Or(Tidy(a), Tidy(b)) == Tidy(Or(a, b))
  {
    hide Tidy;
    TidyShape(a);
  }

  lemma StrictEqTidy(a: Json, b: Json)
    ensures StrictEq(Tidy(a), b) == StrictEq(a, b) && StrictEq(Tidy(a), Tidy(b)) == StrictEq(a, b)
  {
    hide Tidy;
    TidyShape(a);
    TidyShape(b);
  }

  lemma {:induction false} ToTextNormal(v: Json)
    requires !v.Undefined?
    ensures ToText(Normal(v)) == ToText(v)
    decreases v, 1, 0
  {
    match v
    case Arr(items) => JoinNormal(v, 0);
    case _ =>
  }

  lemma {:induction false} JoinNormal(arr: Json, i: nat)
    requires arr.Arr? && i <= |arr.items|
    ensures JoinText(Normal(arr), i) == JoinText(arr, i)
    decreases arr, 0, |arr.items| - i
  {
    if i < |arr.items| {
      JoinNormal(arr, i + 1);
      var slot := arr.items[i];
      if !slot.Undefined? { ToTextNormal(slot); }
      assert Normal(arr).items[i] == Normal(slot);
      assert Normal(slot).Undefined? || Normal(slot).Null? <==> slot.Undefined? || slot.Null?;
    }
  }

  lemma ToTextTidy(v: Json)
    ensures ToText(Tidy(v)) == ToText(v)
  {
    hide Normal, ToText;
    if !v.Undefined? { ToTextNormal(v); }
  }

  lemma KeyTidy(v: Json)
    ensures Key(Tidy(v)) == Key(v)
  {
    hide Tidy, ToText;
    TidyShape(Str(""));
    OrTidy(v, Str(""));
    ToTextTidy(Or(v, Str("")));
  }

  lemma OrNullTidy(v: Json)
    ensures OrNull(Tidy(v)) == Tidy(OrNull(v))
  {
    hide Tidy;
    TidyShape(Null);
    OrTidy(v, Null);
  }

  lemma TidyUpdate(p: Fields, name: string, v: Json)
    requires v != Undefined
    ensures TidyFields(p[name := v]) == TidyFields(p)[name := Tidy(v)]
  {
    hide Normal;
  }

  // ---- reading a tidy payload: tidy values, and the same texts ----

  lemma OrTextTidy(v: Json, t: string)
    ensures Or(Tidy(v), Str(t)) == Tidy(Or(v, Str(t))) && Or(Str(t), Tidy(v)) == Tidy(Or(Str(t), v))
  {
    hide Tidy, Or;
    TidyShape(Str(t));
    OrTidy(v, Str(t));
    OrTidy(Str(t), v);
  }

  lemma TwoFields(p: Fields, a: string, b: string)
    ensures Or(Field(TidyFields(p), a), Field(TidyFields(p), b)) == Tidy(Or(Field(p, a), Field(p, b)))
  {
    hide Tidy, TidyFields, Field, Or;
    FieldTidy(p, a);
    FieldTidy(p, b);
    OrTidy(Field(p, a), Field(p, b));
  }

  lemma ThreeFields(p: Fields, a: string, b: string, c: string, t: string)
    ensures Or(Or(Or(Field(TidyFields(p), a), Field(TidyFields(p), b)), Field(TidyFields(p), c)), Str(t))
         == Tidy(Or(Or(Or(Field(p, a), Field(p, b)), Field(p, c)), Str(t)))
  {
    hide Tidy, TidyFields, Field, Or;
    TwoFields(p, a, b);
    FieldTidy(p, c);
    OrTidy(Or(Field(p, a), Field(p, b)), Field(p, c));
    OrTextTidy(Or(Or(Field(p, a), Field(p, b)), Field(p, c)), t);
  }

  lemma FieldText(p: Fields, a: string, t: string)
    ensures ToText(Field(TidyFields(p), a)) == ToText(Field(p, a))
    ensures ToText(Or(Field(TidyFields(p), a), Str(t))) == ToText(Or(Field(p, a), Str(t)))
  {
    hide Tidy, TidyFields, Field, Or, ToText;
    FieldTidy(p, a);
    ToTextTidy(Field(p, a));
    OrTextTidy(Field(p, a), t);
    ToTextTidy(Or(Field(p, a), Str(t)));
  }

  lemma TwoFieldsText(p: Fields, a: string, b: string, t: string)
    ensures ToText(Or(Or(Field(TidyFields(p), a), Field(TidyFields(p), b)), Str(t)))
         == ToText(Or(Or(Field(p, a), Field(p, b)), Str(t)))
    ensures Key(Or(Field(TidyFields(p), a), Field(TidyFields(p), b))) == Key(Or(Field(p, a), Field(p, b)))
  {
    hide Tidy, TidyFields, Field, Or, ToText, Key;
    TwoFields(p, a, b);
    var v := Or(Field(p, a), Field(p, b));
    OrTextTidy(v, t);
    ToTextTidy(Or(v, Str(t)));
    KeyTidy(v);
  }

  lemma FieldOrNull(p: Fields, a: string)
    ensures OrNull(Field(TidyFields(p), a)) == Tidy(OrNull(Field(p, a)))
  {
    hide Tidy, TidyFields, Field, OrNull;
    FieldTidy(p, a);
    OrNullTidy(Field(p, a));
  }

  // ---- the adapters ----

  function Alias(p: Fields, name: string, legacy: string): Fields {
    if !Truthy(Field(p, name)) && Truthy(Field(p, legacy)) then p[name := Field(p, legacy)] else p
  }

  lemma AliasTidy(p: Fields, name: string, legacy: string)
    ensures Alias(TidyFields(p), name, legacy) == TidyFields(Alias(p, name, legacy))
  {
    hide TidyFields, Field, Tidy;
    FieldTidy(p, name);
    FieldTidy(p, legacy);
    TidyShape(Field(p, name));
    TidyShape(Field(p, legacy));
    if Truthy(Field(p, legacy)) { TidyUpdate(p, name, Field(p, legacy)); }
  }

  function WithCapabilities(p: Fields): Fields {
    if Field(p, "capabilities").Arr? then p else p["capabilities" := Arr([])]
  }

  lemma WithCapabilitiesTidy(p: Fields)
    ensures WithCapabilities(TidyFields(p)) == TidyFields(WithCapabilities(p))
  {
    hide TidyFields, Field;
    FieldTidy(p, "capabilities");
    TidyShape(Field(p, "capabilities"));
    TidyUpdate(p, "capabilities", Arr([]));
    assert Tidy(Arr([])) == Arr([]);
  }

  lemma MigratesByAlias(p: Fields)
    ensures MigrateIssued(p)
         == WithCapabilities(Alias(Alias(Alias(p, "device_id", "device"), "public_key", "publicKey"),
                                   "authority_ref", "device_authority"))
    ensures MigrateRevoked(p) == Alias(Alias(p, "device_id", "device"), "authority_ref", "device_authority")
  {
    hide Truthy;
    assert Truthy(Undefined) == false by { NothingTruthy(); }
  }

  lemma NothingTruthy()
    ensures !Truthy(Undefined)
  {
  }

  lemma MigrateTidy(p: Fields)
    ensures MigrateIssued(TidyFields(p)) == TidyFields(MigrateIssued(p))
    ensures MigrateRevoked(TidyFields(p)) == TidyFields(MigrateRevoked(p))
  {
    hide TidyFields, Alias, WithCapabilities, MigrateIssued, MigrateRevoked;
    MigratesByAlias(p);
    MigratesByAlias(TidyFields(p));
    var a := Alias(p, "device_id", "device");
    var b := Alias(a, "public_key", "publicKey");
    AliasTidy(p, "device_id", "device");
    AliasTidy(a, "authority_ref", "device_authority");
    AliasTidy(a, "public_key", "publicKey");
    AliasTidy(b, "authority_ref", "device_authority");
    WithCapabilitiesTidy(Alias(b, "authority_ref", "device_authority"));
  }

  // ---- projected lists ----

  function TidyEntries<D>(entries: seq<Entry<D>>, tidy: D -> D): (r: seq<Entry<D>>)
    ensures |r| == |entries| && forall i :: 0 <= i < |r| ==> r[i] == entries[i].(detail := tidy(entries[i].detail))
  {
    if entries == [] then []
    else [entries[0].(detail := tidy(entries[0].detail))] + TidyEntries(entries[1..], tidy)
  }

  lemma {:induction false} TidyWithout<D>(entries: seq<Entry<D>>, tidy: D -> D, id: string, ref: string)
    ensures TidyEntries(Without(entries, id, ref), tidy) == Without(TidyEntries(entries, tidy), id, ref)
    ensures TidyEntries(WithoutId(entries, id), tidy) == WithoutId(TidyEntries(entries, tidy), id)
  {
    if entries != [] {
      TidyWithout(entries[1..], tidy, id, ref);
      assert TidyEntries(entries, tidy)[1..] == TidyEntries(entries[1..], tidy);
    }
  }

  lemma {:induction false} TidyFind<D>(entries: seq<Entry<D>>, tidy: D -> D, key: string)
    ensures Find(TidyEntries(entries, tidy), key).Some? == Find(entries, key).Some?
    ensures Find(entries, key).Some? ==>
      var e := Find(entries, key).value;
      Find(TidyEntries(entries, tidy), key).value == e.(detail := tidy(e.detail))
  {
    if entries != [] {
      TidyFind(entries[1..], tidy, key);
      assert TidyEntries(entries, tidy)[1..] == TidyEntries(entries[1..], tidy);
    }
  }

  lemma TidyEnd<D>(entries: seq<Entry<D>>, tidy: D -> D, target: string, status: Status, at: Json, event: string)
    ensures TidyEntries(End(entries, target, status, at, event), tidy)
         == End(TidyEntries(entries, tidy), target, status, at, event)
  {
  }

  /** A new entry in place of the old ones. */
  lemma TidyReplace<D>(entries: seq<Entry<D>>, tidy: D -> D, e: Entry<D>)
    ensures TidyEntries(Without(entries, e.id, e.ref) + [e], tidy)
         == Without(TidyEntries(entries, tidy), e.id, e.ref) + [e.(detail := tidy(e.detail))]
    ensures TidyEntries(WithoutId(entries, e.id) + [e], tidy)
         == WithoutId(TidyEntries(entries, tidy), e.id) + [e.(detail := tidy(e.detail))]
  {
    TidyWithout(entries, tidy, e.id, e.ref);
    hide Without, WithoutId;
    var a, b := Without(entries, e.id, e.ref), WithoutId(entries, e.id);
    assert TidyEntries(a + [e], tidy) == TidyEntries(a, tidy) + [e.(detail := tidy(e.detail))];
    assert TidyEntries(b + [e], tidy) == TidyEntries(b, tidy) + [e.(detail := tidy(e.detail))];
  }

  // ---- the projection ----

  function TidyDevice(d: DeviceDetail): DeviceDetail {
    DeviceDetail(Tidy(d.publicKey))
  }

  function TidyRecovery(d: RecoveryDetail): RecoveryDetail {
    d.(publicKey := Tidy(d.publicKey))
  }

  function TidySession(d: SessionDetail): SessionDetail {
    SessionDetail(Tidy(d.deviceRef), Tidy(d.expiresAt))
  }

  function TidyTrust(d: TrustDetail): TrustDetail {
    TrustDetail(Tidy(d.trustedRootAuthority), Tidy(d.allowedClaimScopes), Tidy(d.trustScope), Tidy(d.policyId),
                Tidy(d.remoteEventHead))
  }

  function TidyLast(r: Recovery): Recovery {
    r.(recoveryRef := Tidy(r.recoveryRef), oldDeviceId := Tidy(r.oldDeviceId), oldDeviceRef := Tidy(r.oldDeviceRef),
       newDeviceId := Tidy(r.newDeviceId), newDeviceAuthorityRef := Tidy(r.newDeviceAuthorityRef))
  }

  /** A projection with its details as their JSON text holds them. */
  function TidyState(s: AuthorityState): AuthorityState {
    AuthorityState(
      s.root, TidyEntries(s.recoveryAuthorities, TidyRecovery), TidyEntries(s.devices, TidyDevice),
      TidyEntries(s.sessions, TidySession), TidyEntries(s.federationTrusts, TidyTrust), s.lastSequence,
      if s.lastRecovery.None? then None else Some(TidyLast(s.lastRecovery.value)))
  }

  lemma TargetDeviceTidy(env: Envelope, p: Fields)
    ensures TargetDevice(env, TidyFields(p)) == Tidy(TargetDevice(env, p))
    ensures TargetRecoveryAuthority(env, TidyFields(p)) == Tidy(TargetRecoveryAuthority(env, p))
  {
    hide Tidy, TidyFields, Field, Or;
    ThreeFields(p, "device_id", "authority_ref", "device_authority", env.authorityReference);
    ThreeFields(p, "recovery_authority_id", "authority_ref", "recovery_authority_ref", env.authorityReference);
  }

  lemma AppliedTargetTidy(env: Envelope, p: Fields)
    ensures AppliedTarget(env, TidyFields(p)) == AppliedTarget(env, p)
  {
    hide Tidy, TidyFields, TargetDevice, Key, MigrateRevoked;
    MigrateTidy(p);
    TargetDeviceTidy(env, MigrateRevoked(p));
    KeyTidy(TargetDevice(env, MigrateRevoked(p)));
  }

  lemma IssuedTidy(p: Fields)
    ensures IssuedDeviceRef(TidyFields(p)) == IssuedDeviceRef(p) && IssuedDeviceId(TidyFields(p)) == IssuedDeviceId(p)
  {
    hide Tidy, TidyFields, Field, Or, ToText, MigrateIssued;
    MigrateTidy(p);
    var m := MigrateIssued(p);
    FieldText(m, "device_id", IssuedDeviceRef(p));
    TwoFieldsText(m, "authority_ref", "device_authority", "device:" + ToText(Field(m, "device_id")));
  }

  lemma TrustRealmTidy(p: Fields)
    ensures TrustRealm(TidyFields(p)) == TrustRealm(p)
  {
    hide Tidy, TidyFields, Field, Or, Key;
    TwoFieldsText(p, "remote_realm_id", "realm_id", "");
  }

  lemma DeviceIssuedTidy(s: AuthorityState, id: string, time: Json, env: Envelope, p: Fields)
    ensures ApplyDeviceIssued(TidyState(s), id, time, env, TidyFields(p))
         == TidyState(ApplyDeviceIssued(s, id, time, env, p))
  {
    hide Tidy, TidyFields, Field, Or, OrNull, ToText, MigrateIssued, IssuedDeviceId, IssuedDeviceRef, Without, Stamp,
      TidyEntries, TidyLast;
    MigrateTidy(p);
    IssuedTidy(p);
    FieldOrNull(MigrateIssued(p), "public_key");
    var d := ApplyDeviceIssued(s, id, time, env, p).devices;
    TidyReplace(s.devices, TidyDevice, d[|d| - 1]);
  }

  lemma SessionIssuedTidy(s: AuthorityState, id: string, time: Json, env: Envelope, p: Fields)
    ensures ApplySessionIssued(TidyState(s), id, time, env, TidyFields(p))
         == TidyState(ApplySessionIssued(s, id, time, env, p))
  {
    hide Tidy, TidyFields, Field, Or, OrNull, ToText, WithoutId, Stamp, TidyEntries, TidyLast;
    FieldText(p, "session_id", "session_" + Decimal(|s.sessions| + 1));
    var d := ApplySessionIssued(s, id, time, env, p).sessions;
    TwoFieldsText(p, "authority_ref", "session_authority", d[|d| - 1].id);
    FieldOrNull(p, "device_ref");
    FieldOrNull(p, "expires_at");
    TidyReplace(s.sessions, TidySession, d[|d| - 1]);
  }

  lemma RecoveryIssuedTidy(s: AuthorityState, id: string, time: Json, env: Envelope, p: Fields)
    ensures ApplyRecoveryIssued(TidyState(s), id, time, env, TidyFields(p))
         == TidyState(ApplyRecoveryIssued(s, id, time, env, p))
  {
    hide Tidy, TidyFields, Field, Or, OrNull, ToText, Without, Stamp, TidyEntries, TidyLast;
    var d := ApplyRecoveryIssued(s, id, time, env, p).recoveryAuthorities;
    FieldText(p, "recovery_authority_id", d[|d| - 1].ref);
    TwoFieldsText(p, "authority_ref", "recovery_authority_ref",
                  "recovery:" + ToText(Field(p, "recovery_authority_id")));
    FieldOrNull(p, "public_key");
    TidyReplace(s.recoveryAuthorities, TidyRecovery, d[|d| - 1]);
  }

  function TrustDetailOf(p: Fields): TrustDetail {
    var scopes := Field(p, "allowed_claim_scopes");
    TrustDetail(OrNull(Field(p, "trusted_root_authority")), if scopes.Arr? then scopes else Arr([]),
                Or(Field(p, "trust_scope"), Str("claims")), OrNull(Field(p, "policy_id")),
                OrNull(Field(p, "remote_event_head")))
  }

  lemma TrustDetailTidy(p: Fields)
    ensures TrustDetailOf(TidyFields(p)) == TidyTrust(TrustDetailOf(p))
  {
    hide Tidy, TidyFields, Field, Or, OrNull;
    FieldOrNull(p, "trusted_root_authority");
    FieldOrNull(p, "policy_id");
    FieldOrNull(p, "remote_event_head");
    FieldTidy(p, "allowed_claim_scopes");
    TidyShape(Field(p, "allowed_claim_scopes"));
    FieldTidy(p, "trust_scope");
    OrTextTidy(Field(p, "trust_scope"), "claims");
    NoItemsTidy();
  }

  lemma TrustTidy(s: AuthorityState, id: string, time: Json, env: Envelope, p: Fields)
    ensures ApplyTrust(TidyState(s), id, time, env, TidyFields(p)) == TidyState(ApplyTrust(s, id, time, env, p))
  {
    hide Tidy, TidyTrust, TidyFields, Field, Or, OrNull, TrustRealm, Without, Stamp, TidyEntries, TidyLast;
    TrustRealmTidy(p);
    TrustDetailTidy(p);
    var realm := TrustRealm(p);
    TidyReplace(s.federationTrusts, TidyTrust,
                Entry(realm, realm, Active, TrustDetailOf(p), Stamp(env, time), id, Null, ""));
  }

  lemma NoItemsTidy()
    ensures Tidy(Arr([])) == Arr([])
  {
  }

  lemma EndsTidy(s: AuthorityState, target: string, status: Status, at: Json, event: string)
    ensures TidyEntries(End(s.devices, target, status, at, event), TidyDevice)
         == End(TidyEntries(s.devices, TidyDevice), target, status, at, event)
    ensures TidyEntries(End(s.sessions, target, status, at, event), TidySession)
         == End(TidyEntries(s.sessions, TidySession), target, status, at, event)
    ensures TidyEntries(End(s.recoveryAuthorities, target, status, at, event), TidyRecovery)
         == End(TidyEntries(s.recoveryAuthorities, TidyRecovery), target, status, at, event)
    ensures TidyEntries(End(s.federationTrusts, target, status, at, event), TidyTrust)
         == End(TidyEntries(s.federationTrusts, TidyTrust), target, status, at, event)
  {
    hide End, TidyEntries;
    TidyEnd(s.devices, TidyDevice, target, status, at, event);
    TidyEnd(s.sessions, TidySession, target, status, at, event);
    TidyEnd(s.recoveryAuthorities, TidyRecovery, target, status, at, event);
    TidyEnd(s.federationTrusts, TidyTrust, target, status, at, event);
  }

  lemma RootTidy(kind: Kind, s: AuthorityState, id: string, time: Json, env: Envelope, p: Fields)
    requires kind == RootAuthorityCreated || kind == AuthorityRotated
    ensures Effect(kind, TidyState(s), id, time, env, TidyFields(p)) == TidyState(Effect(kind, s, id, time, env, p))
  {
    hide Tidy, TidyFields, Field, Or, ToText, Key, Stamp, TidyEntries, TidyLast;
    var reference := FirstOf(env.authorityReference, env.signer);
    OrTexts(env.authorityReference, env.signer);
    FieldTidy(p, "authority_id");
    OrTextTidy(Field(p, "authority_id"), reference);
    OrTextTidy(Or(Str(reference), Field(p, "authority_id")), "root");
    ToTextTidy(Or(Or(Str(reference), Field(p, "authority_id")), Str("root")));
    FieldTidy(p, "new_authority_ref");
    OrTextTidy(Field(p, "new_authority_ref"), env.authorityReference);
    KeyTidy(Or(Field(p, "new_authority_ref"), Str(env.authorityReference)));
    var root := Effect(kind, s, id, time, env, p).root.value;
    FieldText(p, "root_id", root.ref);
    FieldText(p, "new_root_id", root.ref);
  }

  lemma OrTexts(a: string, b: string)
    ensures Or(Str(a), Str(b)) == Str(FirstOf(a, b))
  {
  }

  lemma RecoveryExecutedTidy(s: AuthorityState, id: string, time: Json, env: Envelope, p: Fields)
    ensures Effect(RecoveryExecuted, TidyState(s), id, time, env, TidyFields(p))
         == TidyState(Effect(RecoveryExecuted, s, id, time, env, p))
  {
    hide Tidy, TidyFields, Field, Or, OrNull, Stamp, TidyEntries;
    FieldTidy(p, "recovery_ref");
    OrTextTidy(Field(p, "recovery_ref"), env.authorityReference);
    OrNullTidy(Or(Field(p, "recovery_ref"), Str(env.authorityReference)));
    TwoFields(p, "old_device_ref", "old_device_id");
    OrNullTidy(Or(Field(p, "old_device_ref"), Field(p, "old_device_id")));
    FieldOrNull(p, "old_device_id");
    FieldOrNull(p, "new_device_id");
    FieldOrNull(p, "new_device_authority_ref");
  }

  lemma EndingTidy(kind: Kind, s: AuthorityState, id: string, time: Json, env: Envelope, p: Fields)
    requires kind == DeviceKeyRevoked || kind == SessionAuthorityExpired || kind == RecoveryAuthorityRevoked
             || kind == FederationTrustRevoked
    ensures Effect(kind, TidyState(s), id, time, env, TidyFields(p)) == TidyState(Effect(kind, s, id, time, env, p))
  {
    hide Tidy, TidyFields, Field, Or, Key, Stamp, TidyEntries, TidyLast, End, AppliedTarget, TargetRecoveryAuthority,
      TrustRealm;
    var at := Stamp(env, time);
    EndingKeysTidy(env, p);
    EndsTidy(s, AppliedTarget(env, p), Revoked, at, id);
    EndsTidy(s, Key(Or(Field(p, "session_id"), Field(p, "authority_ref"))), Expired, at, id);
    EndsTidy(s, Key(TargetRecoveryAuthority(env, p)), Revoked, at, id);
    EndsTidy(s, TrustRealm(p), Revoked, at, id);
  }

  lemma EndingKeysTidy(env: Envelope, p: Fields)
    ensures var q := TidyFields(p);
      && AppliedTarget(env, q) == AppliedTarget(env, p)
      && Key(Or(Field(q, "session_id"), Field(q, "authority_ref")))
         == Key(Or(Field(p, "session_id"), Field(p, "authority_ref")))
      && Key(TargetRecoveryAuthority(env, q)) == Key(TargetRecoveryAuthority(env, p))
      && TrustRealm(q) == TrustRealm(p)
  {
    hide Tidy, TidyFields, Field, Or, Key, AppliedTarget, TargetRecoveryAuthority, TrustRealm;
    AppliedTargetTidy(env, p);
    TargetDeviceTidy(env, p);
    KeyTidy(TargetRecoveryAuthority(env, p));
    SessionKeyTidy(p);
    TrustRealmTidy(p);
  }

  lemma SessionKeyTidy(p: Fields)
    ensures Key(Or(Field(TidyFields(p), "session_id"), Field(TidyFields(p), "authority_ref")))
         == Key(Or(Field(p, "session_id"), Field(p, "authority_ref")))
  {
    hide Tidy, TidyFields, Field, Or, Key;
    TwoFieldsText(p, "session_id", "authority_ref", "");
  }

  /** A tidy payload takes a tidy projection to a tidy projection. */
  lemma EffectTidy(kind: Kind, s: AuthorityState, id: string, time: Json, env: Envelope, p: Fields)
    ensures Effect(kind, TidyState(s), id, time, env, TidyFields(p)) == TidyState(Effect(kind, s, id, time, env, p))
  {
    hide TidyFields, TidyState, ApplyDeviceIssued, ApplySessionIssued, ApplyRecoveryIssued, ApplyTrust;
    match kind
    case DeviceKeyIssued => DeviceIssuedTidy(s, id, time, env, p);
    case SessionAuthorityIssued => SessionIssuedTidy(s, id, time, env, p);
    case RecoveryAuthorityIssued => RecoveryIssuedTidy(s, id, time, env, p);
    case FederationTrustEstablished => TrustTidy(s, id, time, env, p);
    case FederationTrustUpdated => TrustTidy(s, id, time, env, p);
    case RootAuthorityCreated => RootTidy(kind, s, id, time, env, p);
    case AuthorityRotated => RootTidy(kind, s, id, time, env, p);
    case RecoveryExecuted => RecoveryExecutedTidy(s, id, time, env, p);
    case Other(_) =>
    case _ => EndingTidy(kind, s, id, time, env, p);
  }

  // ---- histories ----

  function TidyEvent(e: RealmEvent): RealmEvent {
    e.(payload := TidyFields(e.payload))
  }

  /** The history as its JSON text holds it. */
  function TidyAll(events: seq<RealmEvent>): (r: seq<RealmEvent>)
    ensures |r| == |events|
  {
    if events == [] then [] else TidyAll(events[..|events| - 1]) + [TidyEvent(events[|events| - 1])]
  }

  lemma ApplyTidy(s: AuthorityState, e: RealmEvent)
    ensures ApplyEvent(TidyState(s), TidyEvent(e)) == TidyState(ApplyEvent(s, e))
  {
    hide TidyFields, TidyEntries, TidyLast, Effect, KindOf;
    match KindOf(e.envelope.kind) {
      case None =>
      case Some(kind) => EffectTidy(kind, s, e.id, e.timestamp, e.envelope, e.payload);
    }
  }

  lemma {:induction false} ProjectTidy(events: seq<RealmEvent>)
    ensures Project(TidyAll(events)) == TidyState(Project(events))
  {
    hide TidyState, ApplyEvent, TidyEvent;
    if events == [] {
      EmptyTidy();
    } else {
      var n := |events| - 1;
      ProjectTidy(events[..n]);
      ApplyTidy(Project(events[..n]), events[n]);
      assert TidyAll(events)[..n] == TidyAll(events[..n]);
    }
  }

  lemma EmptyTidy()
    ensures TidyState(EMPTY_STATE) == EMPTY_STATE
  {
  }

  lemma {:induction false} NormalIsPlain(v: Json)
    ensures Plain(Normal(v))
    decreases v
  {
    match v
    case Arr(items) =>
      forall i | 0 <= i < |items| ensures Plain(Normal(items[i])) { NormalIsPlain(items[i]); }
    case Obj(fields) =>
      forall k | k in fields ensures Plain(Normal(fields[k])) { NormalIsPlain(fields[k]); }
    case _ =>
  }

  lemma TidyIsPlain(p: Fields)
    ensures PlainFields(TidyFields(p)) && Normal(Obj(TidyFields(p))) == Normal(Obj(p))
  {
    assert Normal(Obj(p)) == Obj(TidyFields(p));
    NormalIsPlain(Obj(p));
    PlainIsNormal(Normal(Obj(p)));
  }

  /** The hashed text is the same. */
  lemma TidyText(e: RealmEvent, previous: Option<string>)
    ensures Encode(Material(TidyEvent(e), previous)) == Encode(Material(e, previous))
  {
    var a, b := Material(TidyEvent(e), previous), Material(e, previous);
    TidyIsPlain(e.payload);
    hide Normal, TidyFields, Name, Encode, HashJson;
    assert a == Obj(b.fields["payload" := Obj(TidyFields(e.payload))]);
    NormalMember(b.fields, "payload", Obj(TidyFields(e.payload)));
    EncodeInjective(a, b);
  }

  lemma NormalMember(p: Fields, name: string, v: Json)
    requires name in p && p[name] != Undefined && v != Undefined && Normal(v) == Normal(p[name])
    ensures Normal(Obj(p[name := v])) == Normal(Obj(p))
  {
    assert Normal(Obj(p[name := v])).fields == Normal(Obj(p)).fields;
  }

  lemma TidyAt(events: seq<RealmEvent>, e: RealmEvent)
    ensures TidyAll(events + [e]) == TidyAll(events) + [TidyEvent(e)]
    ensures Expected(TidyAll(events)) == Expected(events)
  {
    hide TidyEvent;
    assert (events + [e])[..|events|] == events;
    if events != [] { TidyKeepsHash(events[|events| - 1]); }
  }

  lemma TidyKeepsHash(e: RealmEvent)
    ensures TidyEvent(e).currentEventHash == e.currentEventHash
  {
  }

  lemma TidyLink(h: Hash, e: RealmEvent, previous: Option<string>)
    ensures LinkFault(h, TidyEvent(e), previous) == LinkFault(h, e, previous)
  {
    hide Material, Encode, TidyFields;
    TidyText(e, previous);
  }

  /** The tidy history links like the history, and hashes the same texts. */
  lemma {:induction false} TidyChain(h: Hash, events: seq<RealmEvent>)
    ensures FaultIn(h, TidyAll(events)) == FaultIn(h, events)
    ensures Preimages(TidyAll(events)) == Preimages(events) && Expected(TidyAll(events)) == Expected(events)
    decreases |events|
  {
    hide LinkFault, Material, Encode, TidyEvent, Expected;
    if events != [] {
      var n := |events| - 1;
      var before, e := events[..n], events[n];
      TidyChain(h, before);
      TidyAt(before, e);
      TidyAt(events, e);
      assert events == before + [e];
      TidyLink(h, e, Expected(before));
      TidyText(e, Expected(before));
      var tidy := TidyAll(before) + [TidyEvent(e)];
      assert TidyAll(events) == tidy && tidy[..n] == TidyAll(before) && tidy[n] == TidyEvent(e);
    }
  }

  lemma {:induction false} TidyHashable(events: seq<RealmEvent>)
    requires forall e :: e in events ==> Mirrors(e)
    ensures forall e :: e in TidyAll(events) ==> Hashable(e)
  {
    hide TidyEvent, Mirrors, PlainFields, TidyAll;
    forall i | 0 <= i < |events| ensures Hashable(TidyAll(events)[i]) {
      assert events[i] in events;
      TidyIndex(events, i);
      TidyMirrors(events[i]);
    }
  }

  lemma {:induction false} TidyIndex(events: seq<RealmEvent>, i: nat)
    requires i < |events|
    ensures TidyAll(events)[i] == TidyEvent(events[i])
    decreases |events|
  {
    hide TidyEvent;
    var n := |events| - 1;
    if i < n { TidyIndex(events[..n], i); }
  }

  // ---- the saved form ----

  /** What is left of an event in JSON, timestamps aside. */
  function KeptEvent(e: RealmEvent): RealmEvent {
    Erased(TidyEvent(e))
  }

  function KeptAll(events: seq<RealmEvent>): seq<RealmEvent> {
    ErasedAll(TidyAll(events))
  }

  function KeptState(s: AuthorityState): AuthorityState {
    ErasedState(TidyState(s))
  }

  /** Event by event the same in JSON, timestamps aside. */
  ghost predicate SameKept(a: seq<RealmEvent>, b: seq<RealmEvent>) {
    |a| == |b| && forall i :: 0 <= i < |a| ==> KeptEvent(a[i]) == KeptEvent(b[i])
  }

  lemma KeptEach(a: seq<RealmEvent>, b: seq<RealmEvent>)
    requires |a| == |b| || KeptAll(a) == KeptAll(b)
    ensures KeptAll(a) == KeptAll(b) <==> SameKept(a, b)
  {
    hide Erased, TidyEvent, TidyAll, ErasedAll;
    assert |a| == |TidyAll(a)| == |ErasedAll(TidyAll(a))| == |ErasedAll(TidyAll(b))| == |b| || |a| == |b|;
    ErasedAt(TidyAll(a), TidyAll(b));
    forall i | 0 <= i < |a|
      ensures Erased(TidyAll(a)[i]) == KeptEvent(a[i]) && Erased(TidyAll(b)[i]) == KeptEvent(b[i]) {
      TidyIndex(a, i);
      TidyIndex(b, i);
    }
  }

  /** Histories that are the same in JSON replay to projections that are. */
  lemma KeptReplay(a: seq<RealmEvent>, b: seq<RealmEvent>)
    requires KeptAll(a) == KeptAll(b)
    ensures KeptState(Project(a)) == KeptState(Project(b))
  {
    hide Project, TidyAll, TidyState, ErasedAll, ErasedState;
    ErasedProject(TidyAll(a), TidyAll(b));
    ProjectTidy(a);
    ProjectTidy(b);
  }

  lemma TidyMirrors(e: RealmEvent)
    ensures Mirrors(TidyEvent(e)) == Mirrors(e) && PlainFields(TidyEvent(e).payload)
  {
    hide Name, PlainFields, TidyFields;
    TidyIsPlain(e.payload);
  }

  // ---- what acceptance decides ----

  lemma TidyLookups(s: AuthorityState, key: string)
    ensures var t := TidyState(s);
      && IsActiveRoot(t, key) == IsActiveRoot(s, key) && IsActiveDevice(t, key) == IsActiveDevice(s, key)
      && IsActiveRecoveryAuthority(t, key) == IsActiveRecoveryAuthority(s, key)
      && Find(t.devices, key).Some? == Find(s.devices, key).Some?
      && Find(t.recoveryAuthorities, key).Some? == Find(s.recoveryAuthorities, key).Some?
    ensures Find(s.devices, key).Some? ==>
      var d, e := Find(s.devices, key).value, Find(TidyState(s).devices, key).value;
      d.id == e.id && d.ref == e.ref && d.status == e.status
    ensures Find(s.recoveryAuthorities, key).Some? ==>
      Find(s.recoveryAuthorities, key).value.status == Find(TidyState(s).recoveryAuthorities, key).value.status
  {
    hide Find, TidyEntries, TidyDevice, TidyRecovery, TidySession, TidyTrust, TidyLast;
    TidyFind(s.devices, TidyDevice, key);
    TidyFind(s.recoveryAuthorities, TidyRecovery, key);
  }

  lemma TidyRecoveryContext(s: AuthorityState)
    ensures TidyState(s).lastRecovery.Some? == s.lastRecovery.Some?
    ensures s.lastRecovery.Some? ==>
      var r, t := s.lastRecovery.value, TidyState(s).lastRecovery.value;
      && t.executed == r.executed
      && (forall v :: StrictEq(t.recoveryRef, v) == StrictEq(r.recoveryRef, v))
      && (forall v :: StrictEq(t.newDeviceId, v) == StrictEq(r.newDeviceId, v))
      && (forall text :: t.oldDeviceId == Str(text) <==> r.oldDeviceId == Str(text))
      && (forall text :: t.oldDeviceRef == Str(text) <==> r.oldDeviceRef == Str(text))
  {
    hide TidyEntries, StrictEq, Tidy;
    if s.lastRecovery.Some? {
      var r := s.lastRecovery.value;
      forall v ensures StrictEq(Tidy(r.recoveryRef), v) == StrictEq(r.recoveryRef, v) {
        StrictEqTidy(r.recoveryRef, v);
      }
      forall v ensures StrictEq(Tidy(r.newDeviceId), v) == StrictEq(r.newDeviceId, v) {
        StrictEqTidy(r.newDeviceId, v);
      }
      TidyShape(r.oldDeviceId);
      TidyShape(r.oldDeviceRef);
    }
  }

  lemma TidyDeviceChecks(s: AuthorityState, env: Envelope, p: Fields)
    ensures CheckDeviceIssued(TidyState(s), env, p) == CheckDeviceIssued(s, env, p)
    ensures CheckDeviceRevoked(TidyState(s), env, p) == CheckDeviceRevoked(s, env, p)
  {
    hide Find, TidyState, TargetDevice, Key, Or, Field, StrictEq, IsActiveRoot, IsActiveRecoveryAuthority;
    TidyRecoveryContext(s);
    TidyLookups(s, env.signer);
    TidyLookups(s, Key(TargetDevice(env, p)));
    assert MayRevoke(TidyState(s), env, TargetDevice(env, p)) == MayRevoke(s, env, TargetDevice(env, p));
  }

  lemma TidyRecoveryChecks(s: AuthorityState, env: Envelope, p: Fields)
    ensures CheckRecoveryExecuted(TidyState(s), p) == CheckRecoveryExecuted(s, p)
    ensures CheckTransition(RecoveryAuthorityIssued, TidyState(s), env, p)
         == CheckTransition(RecoveryAuthorityIssued, s, env, p)
    ensures CheckTransition(RecoveryAuthorityRevoked, TidyState(s), env, p)
         == CheckTransition(RecoveryAuthorityRevoked, s, env, p)
  {
    hide Find, TidyState, TargetRecoveryAuthority, Key, Or, Field;
    TidyLookups(s, Key(TargetRecoveryAuthority(env, p)));
    TidyLookups(s, Key(Or(Field(p, "old_device_id"), Field(p, "old_device_ref"))));
    TidyLookups(s, Key(Or(Field(p, "new_device_id"), Field(p, "new_device_authority_ref"))));
  }

  lemma TidyHeadline(s: AuthorityState)
    ensures TidyState(s).root == s.root && TidyState(s).lastSequence == s.lastSequence
  {
  }

  /** The authority checks read nothing that a tidy projection lacks. */
  lemma TidyAuthorityReasons(s: AuthorityState, env: Envelope, p: Fields)
    ensures AuthorityReasons(TidyState(s), env, p) == AuthorityReasons(s, env, p)
  {
    hide Find, TidyState, KindOf, CheckDeviceIssued, CheckDeviceRevoked, CheckRecoveryExecuted, Key,
      TargetRecoveryAuthority, IsActiveRoot, IsActiveDevice, IsActiveRecoveryAuthority, IsActive;
    TidyHeadline(s);
    TidyLookups(s, env.signer);
    TidyDeviceChecks(s, env, p);
    TidyRecoveryChecks(s, env, p);
  }

  lemma TidyDecision(h: Hash, events: seq<RealmEvent>, proposal: Json, now: string)
    ensures Validate(h, ContextAt(TidyAll(events)), proposal, now) == Validate(h, ContextAt(events), proposal, now)
  {
    hide TidyState, Normalize, Reasons, AuthorityReasons, BuildAccepted, Project, FaultIn, Preimages, TidyAll, Expected;
    var n := Normalize(proposal, now);
    TidyChain(h, events);
    ProjectTidy(events);
    TidyHeadline(Project(events));
    TidyAuthorityReasons(Project(events), n.envelope, n.payload);
    SameReasons(ContextAt(TidyAll(events)), ContextAt(events), n);
  }

  /** Whatever the payloads hold: reachable histories with one head have the same JSON text and projection, timestamps
      aside, and meet every next proposal with the same verdict. */
  lemma SameHeadSameText(h: Hash, a: seq<RealmEvent>, b: seq<RealmEvent>)
    requires Legit(h, a) && Legit(h, b) && Head(a) == Head(b)
    requires CollisionFree(h, Preimages(a) + Preimages(b))
    ensures KeptAll(a) == KeptAll(b) && KeptState(Project(a)) == KeptState(Project(b))
    ensures forall proposal, now :: Validate(h, ContextAt(a), proposal, now) == Validate(h, ContextAt(b), proposal, now)
  {
    hide Legit, FaultIn, Mirrors, Hashable, Validate, Preimages, CollisionFree, Project, Expected, TidyAll, TidyState,
      ErasedState, ErasedAll, Supported, FirstUnsupported;
    LegitHistory(h, a);
    LegitHistory(h, b);
    var x, y := TidyAll(a), TidyAll(b);
    TidyChain(h, a);
    TidyChain(h, b);
    TidyHashable(a);
    TidyHashable(b);
    HeadFixesHistory(h, x, y);
    ErasedProject(x, y);
    ProjectTidy(a);
    ProjectTidy(b);
    forall proposal, now
      ensures Validate(h, ContextAt(a), proposal, now) == Validate(h, ContextAt(b), proposal, now) {
      TidyDecision(h, a, proposal, now);
      TidyDecision(h, b, proposal, now);
      SameDecision(h, x, y, proposal, now);
    }
  }
}
