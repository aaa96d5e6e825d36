/** The head hash commits to the history and to everything acceptance decides. */
module HeadCommits {
  import opened Text
  import opened JsonValues
  import opened JsonParser
  import opened Registry
  import opened History
  import opened CurrentAuthority
  import opened Validator
  import opened Runs

  // ---- the history ----

  /** An event with the fields the hash does not cover erased. */
  function Erased(e: RealmEvent): RealmEvent {
    e.(flagged := true, timestamp := Null, acceptedAt := "", projectionVersion := 1,
       envelope := e.envelope.(timestamp := Null, previousEventHash := Null))
  }

  function ErasedAll(events: seq<RealmEvent>): (r: seq<RealmEvent>)
    ensures |r| == |events|
  {
    if events == [] then [] else ErasedAll(events[..|events| - 1]) + [Erased(events[|events| - 1])]
  }

  /** The envelope says what the hashed fields say, and the payload is a JSON document. */
  predicate Hashable(e: RealmEvent) {
    Mirrors(e) && PlainFields(e.payload)
  }

  lemma PlainMaterial(e: RealmEvent, previous: Option<string>)
    requires PlainFields(e.payload)
    ensures Normal(Material(e, previous)) == Material(e, previous)
  {
    assert Plain(Obj(e.payload));
    PlainIsNormal(Material(e, previous));
  }

  lemma MaterialFields(e: RealmEvent, previous: Option<string>)
    ensures Material(e, previous).Obj?
    ensures var m := Material(e, previous).fields;
      && "type" in m && m["type"] == Str(Name(e.kind))
      && "version" in m && m["version"] == Num(e.version)
      && "payload" in m && m["payload"] == Obj(e.payload)
      && "signer" in m && m["signer"] == Str(FirstOf(e.signer, e.envelope.signer))
      && "authority_reference" in m
      && m["authority_reference"] == Str(FirstOf(e.authorityReference, e.envelope.authorityReference))
      && "previous_event_hash" in m && m["previous_event_hash"] == HashJson(previous)
      && "sequence" in m && m["sequence"] == match OwnSequence(e) case Some(n) => Num(n) case None => Null
  {
  }

  /** The part of an event the hash covers, with the links. */
  datatype Covered = Covered(
    kind: Kind, version: int, payload: Fields, signer: string, authorityReference: string, sequence: Option<int>,
    id: string, eventId: string, previous: Option<string>, current: string)

  function CoveredBy(e: RealmEvent): Covered {
    Covered(e.kind, e.version, e.payload, FirstOf(e.signer, e.envelope.signer),
            FirstOf(e.authorityReference, e.envelope.authorityReference), OwnSequence(e),
            e.id, e.eventId, e.previousEventHash, e.currentEventHash)
  }

  /** The two copies of signer, reference and sequence, of which the hash covers one. */
  datatype Copies = Copies(signer: string, authorityReference: string, sequence: Option<int>, envelope: Envelope)

  function CopiesIn(e: RealmEvent): Copies {
    Copies(e.signer, e.authorityReference, e.sequence, e.envelope.(timestamp := Null, previousEventHash := Null))
  }

  /** One hashed text comes from one predecessor, and from events that agree on what it covers. */
  lemma SameText(a: RealmEvent, b: RealmEvent, previousA: Option<string>, previousB: Option<string>)
    requires PlainFields(a.payload) && PlainFields(b.payload)
    requires Encode(Material(a, previousA)) == Encode(Material(b, previousB))
    ensures previousA == previousB && a.kind == b.kind && a.version == b.version && a.payload == b.payload
    ensures FirstOf(a.signer, a.envelope.signer) == FirstOf(b.signer, b.envelope.signer)
    ensures FirstOf(a.authorityReference, a.envelope.authorityReference)
         == FirstOf(b.authorityReference, b.envelope.authorityReference)
    ensures OwnSequence(a) == OwnSequence(b)
  {
    hide Material, Name, Encode, Normal, PlainFields;
    EncodeInjective(Material(a, previousA), Material(b, previousB));
    PlainMaterial(a, previousA);
    PlainMaterial(b, previousB);
    MaterialFields(a, previousA);
    MaterialFields(b, previousB);
    NameInjective(a.kind, b.kind);
  }

  lemma SameLink(h: Hash, a: RealmEvent, b: RealmEvent, previousA: Option<string>, previousB: Option<string>)
    requires PlainFields(a.payload) && PlainFields(b.payload)
    requires LinkFault(h, a, previousA).None? && LinkFault(h, b, previousB).None?
    requires a.currentEventHash == b.currentEventHash
    requires Encode(Material(a, previousA)) == Encode(Material(b, previousB))
    ensures previousA == previousB && CoveredBy(a) == CoveredBy(b)
  {
    SameText(a, b, previousA, previousB);
    assert EventId(a, a.currentEventHash) == EventId(b, b.currentEventHash) by { hide Name; }
    hide EventId, EventHash, Name, PlainFields, FirstOf;
  }

  /** Verified histories with the same head agree, event by event, on everything the hash covers. */
  lemma {:induction false} HeadFixesCovered(h: Hash, a: seq<RealmEvent>, b: seq<RealmEvent>)
    requires Verified(h, a) && Verified(h, b) && Head(a) == Head(b)
    requires (forall e :: e in a ==> PlainFields(e.payload)) && (forall e :: e in b ==> PlainFields(e.payload))
    requires CollisionFree(h, Preimages(a) + Preimages(b))
    ensures |a| == |b| && forall i :: 0 <= i < |a| ==> CoveredBy(a[i]) == CoveredBy(b[i])
    decreases |a|
  {
    hide FaultIn, LinkFault, PlainFields, CoveredBy, Preimages, Material, Encode;
    VerifiedHead(h, a);
    VerifiedHead(h, b);
    if a != [] && b != [] {
      var m, n := |a| - 1, |b| - 1;
      var x, y := a[..m], b[..n];
      LastLink(h, a);
      LastLink(h, b);
      assert Encode(Material(a[m], Expected(x))) == Encode(Material(b[n], Expected(y)));
      SameLink(h, a[m], b[n], Expected(x), Expected(y));
      HeadFixesCovered(h, x, y);
    }
  }

  lemma CoveredAndCopies(a: RealmEvent, b: RealmEvent)
    requires CoveredBy(a) == CoveredBy(b)
    ensures Erased(a) == Erased(b) <==> CopiesIn(a) == CopiesIn(b)
  {
  }

  lemma {:induction false} ErasedAt(a: seq<RealmEvent>, b: seq<RealmEvent>)
    requires |a| == |b|
    ensures ErasedAll(a) == ErasedAll(b) <==> forall i :: 0 <= i < |a| ==> Erased(a[i]) == Erased(b[i])
    decreases |a|
  {
    hide Erased, ErasedAll;
    if a == [] {
      NothingErased(a, b);
    } else {
      var n := |a| - 1;
      ErasedAt(a[..n], b[..n]);
      ErasedLast(a);
      ErasedLast(b);
      var x, y := ErasedAll(a[..n]), ErasedAll(b[..n]);
      assert x + [Erased(a[n])] == y + [Erased(b[n])] <==> x == y && Erased(a[n]) == Erased(b[n]) by {
        assert (x + [Erased(a[n])])[..n] == x && (y + [Erased(b[n])])[..n] == y;
      }
      assert forall i :: 0 <= i < n ==> a[..n][i] == a[i] && b[..n][i] == b[i];
    }
  }

  lemma NothingErased(a: seq<RealmEvent>, b: seq<RealmEvent>)
    requires a == [] && b == []
    ensures ErasedAll(a) == ErasedAll(b)
  {
  }

  lemma ErasedLast(a: seq<RealmEvent>)
    requires a != []
    ensures ErasedAll(a) == ErasedAll(a[..|a| - 1]) + [Erased(a[|a| - 1])]
  {
    hide Erased;
  }

  /** Such histories are the same, timestamps aside, exactly when their uncovered copies agree. */
  lemma SameUnlessCopiesDiffer(h: Hash, a: seq<RealmEvent>, b: seq<RealmEvent>)
    requires Verified(h, a) && Verified(h, b) && Head(a) == Head(b)
    requires (forall e :: e in a ==> PlainFields(e.payload)) && (forall e :: e in b ==> PlainFields(e.payload))
    requires CollisionFree(h, Preimages(a) + Preimages(b))
    ensures |a| == |b|
    ensures ErasedAll(a) == ErasedAll(b) <==> forall i :: 0 <= i < |a| ==> CopiesIn(a[i]) == CopiesIn(b[i])
  {
    hide *;
    HeadFixesCovered(h, a, b);
    ErasedAt(a, b);
    forall i | 0 <= i < |a| ensures Erased(a[i]) == Erased(b[i]) <==> CopiesIn(a[i]) == CopiesIn(b[i]) {
      CoveredAndCopies(a[i], b[i]);
    }
  }

  lemma MirroredCopies(a: RealmEvent, b: RealmEvent)
    requires Mirrors(a) && Mirrors(b) && CoveredBy(a) == CoveredBy(b)
    ensures CopiesIn(a) == CopiesIn(b)
  {
    hide Name;
  }

  /** Where envelopes repeat the hashed fields, verified histories with the same head are the same, timestamps aside. */
  lemma HeadFixesHistory(h: Hash, a: seq<RealmEvent>, b: seq<RealmEvent>)
    requires Verified(h, a) && Verified(h, b) && Head(a) == Head(b)
    requires (forall e :: e in a ==> Hashable(e)) && (forall e :: e in b ==> Hashable(e))
    requires CollisionFree(h, Preimages(a) + Preimages(b))
    ensures ErasedAll(a) == ErasedAll(b)
  {
    hide FaultIn, PlainFields, CoveredBy, CopiesIn, Preimages, CollisionFree, Mirrors, ErasedAll, Head;
    SameUnlessCopiesDiffer(h, a, b);
    HeadFixesCovered(h, a, b);
    forall i | 0 <= i < |a| ensures CopiesIn(a[i]) == CopiesIn(b[i]) {
      assert a[i] in a && b[i] in b;
      MirroredCopies(a[i], b[i]);
    }
  }

  lemma LastLink(h: Hash, events: seq<RealmEvent>)
    requires Verified(h, events) && events != []
    ensures var n := |events| - 1;
      && Verified(h, events[..n])
      && Preimages(events[..n]) <= Preimages(events)
      && LinkFault(h, events[n], Expected(events[..n])).None?
      && events[n].currentEventHash == h(Encode(Material(events[n], Expected(events[..n]))))
      && Encode(Material(events[n], Expected(events[..n]))) in Preimages(events)
      && Head(events[..n]) == Expected(events[..n])
  {
    hide Material, Encode, LinkFault, FaultIn, Expected, Head;
    var n := |events| - 1;
    VerifiedAt(h, events, n);
    VerifiedPrefix(h, events, n);
    VerifiedHead(h, events[..n]);
    HashOfLinked(h, events[n], Expected(events[..n]));
  }

  // ---- the projection ----

  function ErasedEntry<D>(e: Entry<D>): Entry<D> {
    e.(issuedAt := Null, endedAt := Null)
  }

  function ErasedEntries<D>(entries: seq<Entry<D>>): (r: seq<Entry<D>>)
    ensures |r| == |entries| && forall i :: 0 <= i < |r| ==> r[i] == ErasedEntry(entries[i])
  {
    if entries == [] then [] else [ErasedEntry(entries[0])] + ErasedEntries(entries[1..])
  }

  /** A projection with its timestamps erased. */
  function ErasedState(s: AuthorityState): AuthorityState {
    AuthorityState(
      if s.root.None? then None else Some(s.root.value.(issuedAt := Null)),
      ErasedEntries(s.recoveryAuthorities), ErasedEntries(s.devices), ErasedEntries(s.sessions),
      ErasedEntries(s.federationTrusts), s.lastSequence,
      if s.lastRecovery.None? then None else Some(s.lastRecovery.value.(executedAt := Null)))
  }

  lemma {:induction false} ErasedWithout<D>(entries: seq<Entry<D>>, id: string, ref: string)
    ensures ErasedEntries(Without(entries, id, ref)) == Without(ErasedEntries(entries), id, ref)
  {
    if entries != [] {
      ErasedWithout(entries[1..], id, ref);
      assert ErasedEntries(entries)[1..] == ErasedEntries(entries[1..]);
    }
  }

  lemma {:induction false} ErasedWithoutId<D>(entries: seq<Entry<D>>, id: string)
    ensures ErasedEntries(WithoutId(entries, id)) == WithoutId(ErasedEntries(entries), id)
  {
    if entries != [] {
      ErasedWithoutId(entries[1..], id);
      assert ErasedEntries(entries)[1..] == ErasedEntries(entries[1..]);
    }
  }

  lemma ErasedAppend<D>(entries: seq<Entry<D>>, e: Entry<D>)
    ensures ErasedEntries(entries + [e]) == ErasedEntries(entries) + [ErasedEntry(e)]
  {
  }

  lemma {:induction false} ErasedFind<D>(entries: seq<Entry<D>>, key: string)
    ensures Find(ErasedEntries(entries), key)
         == match Find(entries, key) case Some(e) => Some(ErasedEntry(e)) case None => None
  {
    if entries != [] {
      ErasedFind(entries[1..], key);
      assert ErasedEntries(entries)[1..] == ErasedEntries(entries[1..]);
    }
  }

  /** Two entries that differ at most in timestamps replace the same entries, and leave lists that do. */
  lemma ErasedReplace<D>(a: seq<Entry<D>>, b: seq<Entry<D>>, x: Entry<D>, y: Entry<D>)
    requires ErasedEntries(a) == ErasedEntries(b) && ErasedEntry(x) == ErasedEntry(y)
    ensures ErasedEntries(Without(a, x.id, x.ref) + [x]) == ErasedEntries(Without(b, y.id, y.ref) + [y])
    ensures ErasedEntries(WithoutId(a, x.id) + [x]) == ErasedEntries(WithoutId(b, y.id) + [y])
  {
    ErasedWithout(a, x.id, x.ref);
    ErasedWithout(b, y.id, y.ref);
    ErasedWithoutId(a, x.id);
    ErasedWithoutId(b, y.id);
    ErasedAppend(Without(a, x.id, x.ref), x);
    ErasedAppend(Without(b, y.id, y.ref), y);
    ErasedAppend(WithoutId(a, x.id), x);
    ErasedAppend(WithoutId(b, y.id), y);
  }

  lemma ErasedEnd<D>(a: seq<Entry<D>>, b: seq<Entry<D>>, target: string, status: Status, s: Json, t: Json,
    event: string)
    requires ErasedEntries(a) == ErasedEntries(b)
    ensures ErasedEntries(End(a, target, status, s, event)) == ErasedEntries(End(b, target, status, t, event))
  {
    var x, y := ErasedEntries(End(a, target, status, s, event)), ErasedEntries(End(b, target, status, t, event));
    assert |a| == |ErasedEntries(a)| == |b|;
    forall i | 0 <= i < |a| ensures x[i] == y[i] {
      assert ErasedEntry(a[i]) == ErasedEntries(a)[i] == ErasedEntry(b[i]);
    }
  }

  predicate SameState(s: AuthorityState, t: AuthorityState) {
    ErasedState(s) == ErasedState(t)
  }

  /** Events that differ in unhashed fields take equal states to equal states, timestamps aside. */
  lemma ErasedApply(s: AuthorityState, t: AuthorityState, a: RealmEvent, b: RealmEvent)
    requires SameState(s, t) && Erased(a) == Erased(b)
    ensures SameState(ApplyEvent(s, a), ApplyEvent(t, b))
  {
    hide ErasedEntries, KindOf, Name;
    match KindOf(a.envelope.kind) {
      case None =>
      case Some(kind) => ErasedEffect(kind, s, t, a, b);
    }
  }

  lemma ErasedEffect(kind: Kind, s: AuthorityState, t: AuthorityState, a: RealmEvent, b: RealmEvent)
    requires SameState(s, t) && Erased(a) == Erased(b)
    ensures SameState(Effect(kind, s, a.id, a.timestamp, a.envelope, a.payload),
                      Effect(kind, t, b.id, b.timestamp, b.envelope, b.payload))
  {
    hide ErasedEntries, Without, WithoutId, End, ToText, Or, Field, OrNull, Key, Stamp, AppliedTarget, TrustRealm,
      IssuedDeviceId, IssuedDeviceRef, MigrateIssued, ErasedEntry, ApplyDeviceIssued, ApplySessionIssued,
      ApplyRecoveryIssued, ApplyTrust, TargetRecoveryAuthority;
    var p := a.payload;
    var at, bt := Stamp(a.envelope, a.timestamp), Stamp(b.envelope, b.timestamp);
    SameTargets(a.envelope, b.envelope, p);
    match kind
    case DeviceKeyIssued => ErasedLists(s, t, a, b);
    case SessionAuthorityIssued => ErasedLists(s, t, a, b);
    case RecoveryAuthorityIssued => ErasedLists(s, t, a, b);
    case FederationTrustEstablished => ErasedLists(s, t, a, b);
    case FederationTrustUpdated => ErasedLists(s, t, a, b);
    case DeviceKeyRevoked =>
      ErasedEnd(s.devices, t.devices, AppliedTarget(a.envelope, p), Revoked, at, bt, a.id);
    case SessionAuthorityExpired =>
      ErasedEnd(s.sessions, t.sessions, Key(Or(Field(p, "session_id"), Field(p, "authority_ref"))), Expired, at, bt,
        a.id);
    case RecoveryAuthorityRevoked =>
      ErasedEnd(s.recoveryAuthorities, t.recoveryAuthorities, Key(TargetRecoveryAuthority(a.envelope, p)),
                Revoked, at, bt, a.id);
    case FederationTrustRevoked =>
      ErasedEnd(s.federationTrusts, t.federationTrusts, TrustRealm(p), Revoked, at, bt, a.id);
    case _ =>
  }

  lemma SameTargets(a: Envelope, b: Envelope, p: Fields)
    requires a.authorityReference == b.authorityReference
    ensures AppliedTarget(a, p) == AppliedTarget(b, p)
    ensures TargetDevice(a, p) == TargetDevice(b, p)
    ensures TargetRecoveryAuthority(a, p) == TargetRecoveryAuthority(b, p)
  {
    hide MigrateRevoked, Key;
  }

  lemma ErasedLists(s: AuthorityState, t: AuthorityState, a: RealmEvent, b: RealmEvent)
    requires SameState(s, t) && Erased(a) == Erased(b)
    ensures SameState(ApplyDeviceIssued(s, a.id, a.timestamp, a.envelope, a.payload),
                      ApplyDeviceIssued(t, b.id, b.timestamp, b.envelope, b.payload))
    ensures SameState(ApplySessionIssued(s, a.id, a.timestamp, a.envelope, a.payload),
                      ApplySessionIssued(t, b.id, b.timestamp, b.envelope, b.payload))
    ensures SameState(ApplyRecoveryIssued(s, a.id, a.timestamp, a.envelope, a.payload),
                      ApplyRecoveryIssued(t, b.id, b.timestamp, b.envelope, b.payload))
    ensures SameState(ApplyTrust(s, a.id, a.timestamp, a.envelope, a.payload),
                      ApplyTrust(t, b.id, b.timestamp, b.envelope, b.payload))
  {
    hide ErasedEntries, Without, WithoutId, ToText, Or, Field, OrNull, Key, Stamp, TrustRealm,
      IssuedDeviceId, IssuedDeviceRef, MigrateIssued;
    var d, e := ApplyDeviceIssued(s, a.id, a.timestamp, a.envelope, a.payload).devices,
                ApplyDeviceIssued(t, b.id, b.timestamp, b.envelope, b.payload).devices;
    ErasedReplace(s.devices, t.devices, d[|d| - 1], e[|e| - 1]);
    var f, g := ApplySessionIssued(s, a.id, a.timestamp, a.envelope, a.payload).sessions,
                ApplySessionIssued(t, b.id, b.timestamp, b.envelope, b.payload).sessions;
    assert |s.sessions| == |ErasedEntries(s.sessions)| == |t.sessions|;
    ErasedReplace(s.sessions, t.sessions, f[|f| - 1], g[|g| - 1]);
    var i, j := ApplyRecoveryIssued(s, a.id, a.timestamp, a.envelope, a.payload).recoveryAuthorities,
                ApplyRecoveryIssued(t, b.id, b.timestamp, b.envelope, b.payload).recoveryAuthorities;
    ErasedReplace(s.recoveryAuthorities, t.recoveryAuthorities, i[|i| - 1], j[|j| - 1]);
    var k, l := ApplyTrust(s, a.id, a.timestamp, a.envelope, a.payload).federationTrusts,
                ApplyTrust(t, b.id, b.timestamp, b.envelope, b.payload).federationTrusts;
    ErasedReplace(s.federationTrusts, t.federationTrusts, k[|k| - 1], l[|l| - 1]);
  }

  lemma SameAsItself(s: AuthorityState)
    ensures SameState(s, s)
  {
  }

  lemma {:induction false} ErasedProject(a: seq<RealmEvent>, b: seq<RealmEvent>)
    requires ErasedAll(a) == ErasedAll(b)
    ensures SameState(Project(a), Project(b))
    decreases |a|
  {
    hide SameState, ApplyEvent, Erased;
    assert |a| == |ErasedAll(a)| == |b|;
    if a != [] {
      var n := |a| - 1;
      assert ErasedAll(a)[..n] == ErasedAll(a[..n]) && ErasedAll(b)[..n] == ErasedAll(b[..n]);
      assert ErasedAll(a)[n] == Erased(a[n]) && ErasedAll(b)[n] == Erased(b[n]);
      ErasedProject(a[..n], b[..n]);
      ErasedApply(Project(a[..n]), Project(b[..n]), a[n], b[n]);
    } else {
      SameAsItself(EMPTY_STATE);
    }
  }

  // ---- what acceptance decides ----

  lemma SameLookups(s: AuthorityState, t: AuthorityState, key: string)
    requires SameState(s, t)
    ensures IsActiveRoot(s, key) == IsActiveRoot(t, key)
    ensures IsActiveDevice(s, key) == IsActiveDevice(t, key)
    ensures IsActiveRecoveryAuthority(s, key) == IsActiveRecoveryAuthority(t, key)
    ensures match Find(s.devices, key)
            case Some(d) => Find(t.devices, key).Some? && ErasedEntry(Find(t.devices, key).value) == ErasedEntry(d)
            case None => Find(t.devices, key).None?
    ensures match Find(s.recoveryAuthorities, key)
            case Some(d) => Find(t.recoveryAuthorities, key).Some?
                            && ErasedEntry(Find(t.recoveryAuthorities, key).value) == ErasedEntry(d)
            case None => Find(t.recoveryAuthorities, key).None?
  {
    hide Find, ErasedEntries;
    ErasedFind(s.devices, key);
    ErasedFind(t.devices, key);
    ErasedFind(s.recoveryAuthorities, key);
    ErasedFind(t.recoveryAuthorities, key);
  }

  lemma SameDeviceChecks(s: AuthorityState, t: AuthorityState, env: Envelope, p: Fields)
    requires SameState(s, t)
    ensures CheckDeviceIssued(s, env, p) == CheckDeviceIssued(t, env, p)
    ensures CheckDeviceRevoked(s, env, p) == CheckDeviceRevoked(t, env, p)
  {
    hide Find, SameState, TargetDevice, Key, Or, Field, IsActiveRoot, IsActiveRecoveryAuthority;
    SameHeadline(s, t);
    SameLookups(s, t, env.signer);
    SameLookups(s, t, Key(TargetDevice(env, p)));
    assert MayRevoke(s, env, TargetDevice(env, p)) == MayRevoke(t, env, TargetDevice(env, p));
  }

  lemma SameRecoveryChecks(s: AuthorityState, t: AuthorityState, env: Envelope, p: Fields)
    requires SameState(s, t)
    ensures CheckRecoveryExecuted(s, p) == CheckRecoveryExecuted(t, p)
    ensures CheckTransition(RecoveryAuthorityIssued, s, env, p) == CheckTransition(RecoveryAuthorityIssued, t, env, p)
    ensures CheckTransition(RecoveryAuthorityRevoked, s, env, p) == CheckTransition(RecoveryAuthorityRevoked, t, env, p)
  {
    hide Find, SameState, TargetRecoveryAuthority, Key, Or, Field;
    SameLookups(s, t, Key(TargetRecoveryAuthority(env, p)));
    SameLookups(s, t, Key(Or(Field(p, "old_device_id"), Field(p, "old_device_ref"))));
    SameLookups(s, t, Key(Or(Field(p, "new_device_id"), Field(p, "new_device_authority_ref"))));
  }

  /** The authority checks read no timestamp. */
  lemma SameAuthorityReasons(s: AuthorityState, t: AuthorityState, env: Envelope, p: Fields)
    requires SameState(s, t)
    ensures AuthorityReasons(s, env, p) == AuthorityReasons(t, env, p)
  {
    hide Find, SameState, KindOf, CheckDeviceIssued, CheckDeviceRevoked, CheckRecoveryExecuted, Key,
      TargetRecoveryAuthority, IsActiveRoot, IsActiveDevice, IsActiveRecoveryAuthority, IsActive;
    SameHeadline(s, t);
    SameLookups(s, t, env.signer);
    SameDeviceChecks(s, t, env, p);
    SameRecoveryChecks(s, t, env, p);
  }

  lemma SameHeadline(s: AuthorityState, t: AuthorityState)
    requires SameState(s, t)
    ensures s.root.Some? == t.root.Some? && s.lastSequence == t.lastSequence
    ensures s.lastRecovery.Some? == t.lastRecovery.Some?
    ensures s.lastRecovery.Some? ==>
      s.lastRecovery.value.(executedAt := Null) == t.lastRecovery.value.(executedAt := Null)
  {
    hide ErasedEntries;
  }

  lemma SameReasons(c: Context, d: Context, n: Normalized)
    requires c.head == d.head && c.canonicalSequence == d.canonicalSequence
    requires c.authority.lastSequence == d.authority.lastSequence
    requires AuthorityReasons(c.authority, n.envelope, n.payload)
      == AuthorityReasons(d.authority, n.envelope, n.payload)
    ensures Reasons(c, n) == Reasons(d, n)
  {
    hide EnvelopeReasons, PayloadReasons, AuthorityReasons;
  }

  lemma SameDecision(h: Hash, a: seq<RealmEvent>, b: seq<RealmEvent>, proposal: Json, now: string)
    requires SameState(Project(a), Project(b)) && Head(a) == Head(b)
    ensures Validate(h, ContextAt(a), proposal, now) == Validate(h, ContextAt(b), proposal, now)
  {
    hide SameState, Normalize, Reasons, AuthorityReasons, BuildAccepted, Project, Head;
    var n := Normalize(proposal, now);
    SameHeadline(Project(a), Project(b));
    SameAuthorityReasons(Project(a), Project(b), n.envelope, n.payload);
    SameReasons(ContextAt(a), ContextAt(b), n);
  }

  /** Legitimate histories with the same head hold the same events and the same authority, timestamps aside, and
      meet every next proposal with the same verdict. */
  lemma SameHeadSameRealm(h: Hash, a: seq<RealmEvent>, b: seq<RealmEvent>)
    requires Legit(h, a) && Legit(h, b) && Head(a) == Head(b)
    requires forall e :: e in a + b ==> PlainFields(e.payload)
    requires CollisionFree(h, Preimages(a) + Preimages(b))
    ensures ErasedAll(a) == ErasedAll(b)
    ensures ErasedState(Project(a)) == ErasedState(Project(b))
    ensures forall proposal, now :: Validate(h, ContextAt(a), proposal, now) == Validate(h, ContextAt(b), proposal, now)
  {
    hide Legit, Verified, Mirrors, PlainFields, Validate, Preimages, CollisionFree, Project;
    LegitHistory(h, a);
    LegitHistory(h, b);
    HeadFixesHistory(h, a, b);
    ErasedProject(a, b);
    forall proposal, now
      ensures Validate(h, ContextAt(a), proposal, now) == Validate(h, ContextAt(b), proposal, now) {
      SameDecision(h, a, b, proposal, now);
    }
  }

  // ---- what the head does not commit to ----

  /** Without matching envelopes the claim fails: two one-event histories verify with one head and different roots. */
  lemma HeadMissesEnvelope(h: Hash) returns (a: seq<RealmEvent>, b: seq<RealmEvent>)
    ensures Verified(h, a) && Verified(h, b) && Head(a) == Head(b) && Head(a).Some?
    ensures ChainedOf(a) == a && ChainedOf(b) == b
    ensures Project(a).root != Project(b).root
    ensures FirstUnsupported(a).None? && FirstUnsupported(b).None?
    ensures Project(a).federationTrusts == [] && Project(b).federationTrusts == []
  {
    var env := Envelope(Name(RootAuthorityCreated), "r", "r", Some(1), Str("t"), Null);
    var e := Attach(h, Unlinked(RootAuthorityCreated, Normalized(env, map[]), ""), None);
    var f := e.(envelope := env.(authorityReference := "s"));
    assert Material(f, None) == Material(e, None) && EventId(f, f.currentEventHash) == EventId(e, e.currentEventHash);
    AttachLinks(h, e, None);
    KindOfName(RootAuthorityCreated);
    KeyNotInherited(RootAuthorityCreated);
    assert Chained(e) && Chained(f);
    hide *;
    a, b := [e], [f];
    LoneRoot(h, e);
    LoneRoot(h, f);
  }

  /** A log of one root creation. */
  lemma LoneRoot(h: Hash, e: RealmEvent)
    requires LinkFault(h, e, None).None? && KindOf(e.envelope.kind) == Some(RootAuthorityCreated)
    requires !Inherited(e.envelope.kind) && e.version == 1 && e.envelope.authorityReference != ""
      && e.currentEventHash != ""
    ensures Verified(h, [e]) && Head([e]) == Some(e.currentEventHash) && FirstUnsupported([e]).None?
    ensures Project([e]).root.Some? && Project([e]).root.value.ref == e.envelope.authorityReference
    ensures Project([e]).federationTrusts == []
    ensures Chained(e) ==> ChainedOf([e]) == [e]
  {
    hide KindOf, LinkFault, Name, Inherited, Project, FirstUnsupported, FaultIn, ApplyEvent, ChainedOf, Chained;
    assert [] + [e] == [e];
    EmptyHistory(h);
    FaultAppend(h, [], e);
    ChainedAppend([], e);
    ProjectAppend([], e);
    CreatedRoot(Project([]), e);
  }

  lemma CreatedRoot(s: AuthorityState, e: RealmEvent)
    requires KindOf(e.envelope.kind) == Some(RootAuthorityCreated) && e.envelope.authorityReference != ""
    ensures ApplyEvent(s, e).root.Some? && ApplyEvent(s, e).root.value.ref == e.envelope.authorityReference
    ensures ApplyEvent(s, e).federationTrusts == s.federationTrusts
  {
    hide KindOf, Name;
  }
}
