/** Backup artifacts and restoring a realm from one. */
module Backup {
  import opened Text
  import opened JsonValues
  import opened Registry
  import opened History
  import opened CurrentAuthority
  import opened Pipeline
  import opened Runs
  import opened HeadCommits
  import opened NormalReplay
  import opened Snapshots
  import opened Commands
  import opened Integrity

  const SUPPORTED_VERSION := 1
  const SUPPORTED_RUNTIME := "1"

  /** `projectionOnly` tells whether the artifact carries a bare projection. */
  datatype Artifact = Artifact(
    history: Option<seq<LogEvent>>, historyHead: Option<string>, runtimeVersion: string, registryVersion: int,
    projectionVersion: int, snapshot: Option<Snapshot>, projectionOnly: bool)

  datatype BackupError =
    | CanonicalHistoryRequired
    | RegistryVersionUnsupported
    | BackupProjectionUnsupported
    | RuntimeVersionUnsupported
    | HistoryBroken(fault: Fault)
    | HistoryHeadMismatch
    | SnapshotRejected(snapshotError: SnapshotError)
    | SnapshotNotRestoreSource
    | IntegrityFailed(failures: seq<Failure>)
    | BackupThrew(error: ReplayError)

  /** `createBackupArtifact` with the versions left at their defaults; `cut` is the snapshot's last sequence. */
  function CreateBackup(h: Hash, l: LedgerValue, includeSnapshot: bool, cut: Option<int>)
    : Result<Artifact, SnapshotError>
  {
    var events, fault := Realms(l.log), FaultIn(h, Linked(l.log));
    if fault.Some? then Failure(ReplayFailed(HistoryInvalid(fault.value)))
    else
      var bare := Artifact(Some(l.log), Head(Linked(l.log)), SUPPORTED_RUNTIME, SUPPORTED_VERSION, SUPPORTED_VERSION,
                           None, false);
      if !includeSnapshot then Success(bare)
      else
        match CreateSnapshot(h, events, cut)
        case Failure(error) => Failure(error)
        case Success(snapshot) => Success(bare.(snapshot := Some(snapshot)))
  }

  datatype Verification = Unusable(error: BackupError) | CacheOnly | Complete(head: Option<string>)

  function VersionError(b: Artifact): Option<BackupError> {
    if b.registryVersion != SUPPORTED_VERSION then Some(RegistryVersionUnsupported)
    else if b.projectionVersion != SUPPORTED_VERSION then Some(BackupProjectionUnsupported)
    else if b.runtimeVersion != SUPPORTED_RUNTIME then Some(RuntimeVersionUnsupported)
    else None
  }

  /** `verifyBackupArtifact` */
  function VerifyBackup(h: Hash, b: Artifact): (r: Verification)
    ensures r.Complete? ==> b.history.Some?
  {
    if b.history.None? then
      if b.projectionOnly || b.snapshot.None? then Unusable(CanonicalHistoryRequired) else CacheOnly
    else
      var events := Realms(b.history.value);
      if VersionError(b).Some? then Unusable(VersionError(b).value)
      else if FaultIn(h, ChainedOf(events)).Some? then Unusable(HistoryBroken(FaultIn(h, ChainedOf(events)).value))
      else if b.historyHead.Some? && b.historyHead.value != "" && b.historyHead != Head(ChainedOf(events))
      then Unusable(HistoryHeadMismatch)
      else if b.snapshot.Some? && SnapshotFault(h, events, b.snapshot.value).Some?
      then Unusable(SnapshotRejected(SnapshotFault(h, events, b.snapshot.value).value))
      else if FirstUnsupported(events).Some? then Unusable(BackupThrew(FirstUnsupported(events).value))
      else Complete(Head(ChainedOf(events)))
  }

  datatype RestoreOptions = RestoreOptions(
    store: Option<RecordStore>, commandIds: seq<string>, heads: map<string, string>)

  /** `restoreRealmFromBackup`: the restored ledger, or why there is none. */
  function Restore(h: Hash, b: Artifact, o: RestoreOptions): Result<LedgerValue, BackupError> {
    match VerifyBackup(h, b)
    case Unusable(error) => Failure(error)
    case CacheOnly => Failure(SnapshotNotRestoreSource)
    case Complete(_) =>
      var ledger := LedgerOf(b.history.value);
      match Verify(h, ledger, Options(b.snapshot, o.store, o.commandIds, o.heads))
      case Failure(error) => Failure(BackupThrew(error))
      case Success(report) => if report.realmValid then Success(ledger) else Failure(IntegrityFailed(report.failures))
  }

  method RestoreRealmFromBackup(h: Hash, b: Artifact, o: RestoreOptions, ledger: Ledger)
    returns (error: Option<BackupError>)
    requires ledger.Value() == EMPTY_LEDGER
    modifies ledger
    ensures match Restore(h, b, o)
            case Success(restored) => error.None? && ledger.Value() == restored
            case Failure(e) => error == Some(e)
    ensures ledger.Value() == if VerifyBackup(h, b).Complete? then LedgerOf(b.history.value) else EMPTY_LEDGER
  {
    hide FaultIn, SnapshotFault, FirstUnsupported, Verify, VersionError, Project;
    match VerifyBackup(h, b) {
      case Unusable(e) => return Some(e);
      case CacheOnly => return Some(SnapshotNotRestoreSource);
      case Complete(_) =>
    }
    ledger.log := b.history.value;
    var rebuilt := ledger.RebuildAuthorityState(h);
    assert ledger.Value() == LedgerOf(b.history.value);
    var integrity := VerifyRealmIntegrity(h, ledger.Value(), Options(b.snapshot, o.store, o.commandIds, o.heads));
    match integrity {
      case Failure(e) => return Some(BackupThrew(e));
      case Success(report) => return if report.realmValid then None else Some(IntegrityFailed(report.failures));
    }
  }

  /** `compareRestoredIntegrity` */
  predicate SameIntegrity(h: Hash, original: LedgerValue, restored: LedgerValue) {
    Head(Linked(original.log)) == Head(Linked(restored.log))
    && ProjectionHash(h, original.authority) == ProjectionHash(h, restored.authority)
  }

  // ---- round trips ----

  /** The cut a snapshot is asked for, the end by default, lies within the history. */
  predicate CutWithin(events: seq<RealmEvent>, cut: Option<int>) {
    cut.Some? ==> 0 <= cut.value <= |events|
  }

  ghost predicate EvidenceAgreesWithAll(heads: map<string, string>, trusts: seq<Trust>) {
    forall t :: t in trusts ==> EvidenceAgrees(heads, t)
  }

  /** A live node can be backed up unless it is asked for a snapshot at a negative cut; restoring the artifact gives the
      same ledger exactly when the cut lies within the history and the supplied evidence agrees with the trusts, and
      otherwise nothing. */
  lemma BackupRoundTrip(x: Runtime, n: Node, includeSnapshot: bool, cut: Option<int>, o: RestoreOptions)
    requires Sound(x, n) && (o.store.None? || o.store == Some(n.store))
    ensures CreateBackup(x.hash, n.ledger, includeSnapshot, cut).Success?
       <==> (includeSnapshot && cut.Some? ==> cut.value >= 0)
    ensures CreateBackup(x.hash, n.ledger, includeSnapshot, cut).Success? ==>
      var restored := Restore(x.hash, CreateBackup(x.hash, n.ledger, includeSnapshot, cut).value, o);
      && (restored.Success? <==> (includeSnapshot ==> CutWithin(Realms(n.ledger.log), cut))
                                 && EvidenceAgreesWithAll(o.heads, n.ledger.authority.federationTrusts))
      && (restored.Success? ==> restored.value == n.ledger && SameIntegrity(x.hash, n.ledger, restored.value))
  {
    hide Legit, FaultIn, SnapshotFault, FirstUnsupported, Verify, Project, CreateSnapshot, LineageHolds, SnapshotAt,
      EvidenceAgrees, ProjectionHash;
    var h, events := x.hash, Realms(n.ledger.log);
    LegitVerifies(h, events);
    if includeSnapshot { SnapshotFits(h, events, cut); }
    var created := CreateBackup(h, n.ledger, includeSnapshot, cut);
    if created.Success? && (includeSnapshot ==> CutWithin(events, cut)) {
      SoundIsValid(x, n, Options(created.value.snapshot, o.store, o.commandIds, o.heads));
    }
  }

  /** A snapshot is created at every cut that is not negative, and fits the history when the cut lies within it. */
  lemma SnapshotFits(h: Hash, events: seq<RealmEvent>, cut: Option<int>)
    requires Legit(h, events)
    ensures CreateSnapshot(h, events, cut).Success? <==> cut.None? || cut.value >= 0
    ensures CreateSnapshot(h, events, cut).Success? ==>
      (SnapshotFault(h, events, CreateSnapshot(h, events, cut).value).None? <==> CutWithin(events, cut))
  {
    hide Legit, FaultIn, SnapshotFault, FirstUnsupported, Project, SnapshotAt, UpTo, HeadEvent;
    LegitVerifies(h, events);
    if cut.None? {
      CreatedAtEnd(h, events);
      CutVerifies(h, events, |events|);
    } else if 0 <= cut.value <= |events| {
      CreatedAt(h, events, cut.value);
      CutVerifies(h, events, cut.value);
    } else if cut.value > |events| {
      LegitCounted(h, events);
      UpToCounted(events, cut.value);
      VerifiesIffCut(h, events, CreateSnapshot(h, events, cut).value);
    }
  }

  lemma CutVerifies(h: Hash, events: seq<RealmEvent>, k: nat)
    requires Legit(h, events) && k <= |events|
    ensures SnapshotFault(h, events, SnapshotAt(events, k)).None?
  {
    VerifiesIffCut(h, events, SnapshotAt(events, k));
  }

  // ---- what a verified artifact restores ----

  /** A verified artifact restores exactly when the trusts of its own replay refer to its log and the supplied records
      name logged events, and what it restores is its own log with its own replay. */
  lemma RestoresItself(h: Hash, b: Artifact, o: RestoreOptions)
    requires VerifyBackup(h, b).Complete?
    ensures var saved := Realms(b.history.value);
      && (Restore(h, b, o).Success?
          <==> (forall t :: t in Project(saved).federationTrusts ==> TrustRefers(saved, o.heads, t))
               && !LineageCheck(saved, o.store, o.commandIds).Fail?)
      && (Restore(h, b, o).Success? ==>
            Restore(h, b, o).value.log == b.history.value && Restore(h, b, o).value.authority == Project(saved))
  {
    hide FaultIn, SnapshotFault, FirstUnsupported, Project, VersionError, LineageCheck, TrustRefers, ProjectionHash,
      Head, Realms, ChainedOf;
    var saved, ledger := Realms(b.history.value), LedgerOf(b.history.value);
    var checks := Checks(h, ledger, Options(b.snapshot, o.store, o.commandIds, o.heads));
    NoFailures(checks);
    assert !checks[0].Fail? && !checks[1].Fail? && !checks[2].Fail?;
    assert checks[3] == FederationCheck(saved, Project(saved).federationTrusts, o.heads);
    assert checks[4] == LineageCheck(saved, o.store, o.commandIds);
    assert checks[3].Fail?
      <==> exists i :: 0 <= i < |Project(saved).federationTrusts|
                       && !TrustRefers(saved, o.heads, Project(saved).federationTrusts[i]);
  }

  // ---- any artifact with the same head ----

  /** Whatever the chain or the projection reads, the hash speaks for: it is chained, and its envelope repeats the
      hashed fields. */
  ghost predicate AllCovered(saved: seq<RealmEvent>) {
    forall e :: e in saved && (Chained(e) || IsCanonical(e)) ==> Chained(e) && Mirrors(e)
  }

  ghost predicate AllMirror(events: seq<RealmEvent>) {
    forall e :: e in events ==> Mirrors(e)
  }

  lemma MirrorsCarries(a: RealmEvent, b: RealmEvent)
    requires CoveredBy(a) == CoveredBy(b) && Mirrors(a) && CopiesIn(a) == CopiesIn(b)
    ensures Mirrors(b)
  {
    hide Name;
  }

  /** A chain with the head of a reachable one is the same in JSON, timestamps aside, exactly when its envelopes
      mirror. */
  lemma ChainSameIffMirrored(h: Hash, events: seq<RealmEvent>, chain: seq<RealmEvent>)
    requires Legit(h, events) && Verified(h, chain) && Head(chain) == Head(events)
    requires CollisionFree(h, Preimages(events) + Preimages(chain))
    ensures |events| == |chain|
    ensures KeptAll(events) == KeptAll(chain) <==> AllMirror(chain)
  {
    hide Legit, FaultIn, FirstUnsupported, Project, Supported, Expected, Mirrors, PlainFields, Preimages, CollisionFree,
      CoveredBy, CopiesIn, Erased, ErasedAll, TidyAll, TidyEvent;
    LegitHistory(h, events);
    TidyChain(h, events);
    TidyChain(h, chain);
    var x, y := TidyAll(events), TidyAll(chain);
    TidyPlain(events);
    TidyPlain(chain);
    HeadFixesCovered(h, x, y);
    SameUnlessCopiesDiffer(h, x, y);
    forall i | 0 <= i < |events| ensures CopiesIn(x[i]) == CopiesIn(y[i]) <==> Mirrors(chain[i]) {
      TidyIndex(events, i);
      TidyIndex(chain, i);
      TidyMirrors(events[i]);
      TidyMirrors(chain[i]);
      if Mirrors(y[i]) { MirroredCopies(x[i], y[i]); }
      if CopiesIn(x[i]) == CopiesIn(y[i]) { MirrorsCarries(x[i], y[i]); }
    }
    assert AllMirror(chain) <==> forall i :: 0 <= i < |chain| ==> Mirrors(chain[i]);
  }

  lemma TidyPlain(events: seq<RealmEvent>)
    ensures forall e :: e in TidyAll(events) ==> PlainFields(e.payload)
  {
    hide TidyAll, TidyEvent, PlainFields;
    forall i | 0 <= i < |events| ensures PlainFields(TidyAll(events)[i].payload) {
      TidyIndex(events, i);
      TidyMirrors(events[i]);
    }
  }

  /** A chained event whose envelope mirrors is canonical. */
  lemma MirrorIsCanonical(e: RealmEvent)
    requires Chained(e) && Mirrors(e)
    ensures IsCanonical(e)
  {
    hide Chained, HasContract, Name;
    ChainedMeans(e);
  }

  /** Where the hash speaks for everything, the chain is what is projected. */
  lemma CoveredIsChain(saved: seq<RealmEvent>)
    requires AllCovered(saved)
    ensures CanonicalOf(saved) == ChainedOf(saved) && AllMirror(ChainedOf(saved))
  {
    hide Chained, IsCanonical, Mirrors;
    forall e | e in saved && Chained(e) ensures IsCanonical(e) {
      MirrorIsCanonical(e);
    }
    SameFilters(saved);
    forall e | e in ChainedOf(saved) ensures Mirrors(e) {
      FilteredMembers(saved, e);
    }
  }

  lemma KeptMirrors(a: RealmEvent, b: RealmEvent)
    requires KeptEvent(a) == KeptEvent(b) && Mirrors(a) && Chained(a)
    ensures Mirrors(b) && Chained(b)
  {
    hide Name, TidyFields;
  }

  /** Where the projected events are those of a reachable log, and no fewer than the chained ones, the hash speaks for
      all. */
  lemma SameIsCovered(h: Hash, events: seq<RealmEvent>, saved: seq<RealmEvent>)
    requires Legit(h, events) && SameKept(events, CanonicalOf(saved)) && |ChainedOf(saved)| == |events|
    ensures AllCovered(saved)
  {
    hide Legit, KeptEvent, Chained, IsCanonical, Mirrors, Project, FirstUnsupported, FaultIn, Supported;
    LegitHistory(h, events);
    LegitIsWhole(h, events);
    forall e | e in saved && IsCanonical(e) ensures Chained(e) && Mirrors(e) {
      FilteredMembers(saved, e);
      var i :| 0 <= i < |events| && CanonicalOf(saved)[i] == e;
      FilteredMembers(events, events[i]);
      KeptMirrors(events[i], e);
    }
    SameFilters(saved);
  }

  /** A saved log whose chain has the head of a reachable log projects the same events in JSON, timestamps aside,
      exactly when the hash speaks for everything that is chained or projected. */
  lemma SameIffMirrored(h: Hash, events: seq<RealmEvent>, saved: seq<RealmEvent>)
    requires Legit(h, events) && Verified(h, ChainedOf(saved)) && Head(ChainedOf(saved)) == Head(events)
    requires CollisionFree(h, Preimages(events) + Preimages(ChainedOf(saved)))
    ensures KeptAll(events) == KeptAll(CanonicalOf(saved)) <==> AllCovered(saved)
  {
    hide *;
    ChainSameIffMirrored(h, events, ChainedOf(saved));
    if AllCovered(saved) { CoveredIsChain(saved); }
    if KeptAll(events) == KeptAll(CanonicalOf(saved)) {
      KeptEach(events, CanonicalOf(saved));
      SameIsCovered(h, events, saved);
    }
  }

  // ---- lookups in the saved log ----

  lemma {:induction false} FirstByIdAppend(events: seq<RealmEvent>, e: RealmEvent, id: string)
    ensures FirstById(events + [e], id)
         == if FirstById(events, id).Some? then FirstById(events, id)
            else if IsCanonical(e) && LoggedId(e) == id then Some(e) else None
  {
    hide IsCanonical, LoggedId;
    if events == [] {
      assert (events + [e])[1..] == [];
    } else {
      FirstByIdAppend(events[1..], e, id);
      assert (events + [e])[1..] == events[1..] + [e];
    }
  }

  /** Looking an event up reads canonical events only. */
  lemma {:induction false} FirstByIdCanonical(events: seq<RealmEvent>, id: string)
    ensures FirstById(CanonicalOf(events), id) == FirstById(events, id)
  {
    hide IsCanonical, LoggedId;
    if events != [] {
      var n := |events| - 1;
      FirstByIdCanonical(events[..n], id);
      assert events == events[..n] + [events[n]];
      FirstByIdAppend(events[..n], events[n], id);
      if IsCanonical(events[n]) { FirstByIdAppend(CanonicalOf(events[..n]), events[n], id); }
    }
  }

  lemma KeptLookup(a: RealmEvent, b: RealmEvent)
    requires KeptEvent(a) == KeptEvent(b)
    ensures LoggedId(a) == LoggedId(b) && TidyFields(a.payload) == TidyFields(b.payload)
  {
    hide TidyFields;
  }

  /** Canonical events that are the same in JSON, timestamps aside, are found alike under an id. */
  lemma {:induction false} SameFirstById(a: seq<RealmEvent>, b: seq<RealmEvent>, id: string)
    requires SameKept(a, b) && forall e :: e in a + b ==> IsCanonical(e)
    ensures FirstById(a, id).Some? == FirstById(b, id).Some?
    ensures FirstById(a, id).Some? ==>
      TidyFields(FirstById(a, id).value.payload) == TidyFields(FirstById(b, id).value.payload)
    decreases |a|
  {
    hide IsCanonical, LoggedId, KeptEvent, TidyFields;
    if a != [] {
      KeptLookup(a[0], b[0]);
      assert a[0] in a + b && b[0] in a + b;
      assert forall i :: 0 <= i < |a| - 1 ==> a[1..][i] == a[i + 1] && b[1..][i] == b[i + 1];
      SameFirstById(a[1..], b[1..], id);
    }
  }

  lemma AllCanonical(events: seq<RealmEvent>)
    ensures forall e :: e in CanonicalOf(events) ==> IsCanonical(e)
  {
    hide IsCanonical;
    forall e | e in CanonicalOf(events) ensures IsCanonical(e) {
      FilteredMembers(events, e);
    }
  }

  lemma SameLogsId(h: Hash, events: seq<RealmEvent>, saved: seq<RealmEvent>, id: string)
    requires Legit(h, events) && SameKept(events, CanonicalOf(saved)) && LogsId(events, id)
    ensures LogsId(saved, id)
  {
    hide Legit, IsCanonical, LoggedId, KeptEvent;
    var i :| 0 <= i < |events| && IsCanonical(events[i]) && LoggedId(events[i]) == id;
    var e := CanonicalOf(saved)[i];
    KeptLookup(events[i], e);
    FilteredMembers(saved, e);
    var j :| 0 <= j < |saved| && saved[j] == e;
  }

  /** What a trust or an event names as the remote head is read alike. */
  lemma SameRemoteHead(a: Json, b: Json, other: Json, another: Json)
    requires Tidy(a) == Tidy(b) && Tidy(other) == Tidy(another)
    ensures Truthy(OrNull(a)) == Truthy(OrNull(b))
    ensures StrictEq(OrNull(a), OrNull(other)) == StrictEq(OrNull(b), OrNull(another))
  {
    hide Tidy, StrictEq, OrNull;
    OrNullTidy(a);
    OrNullTidy(b);
    OrNullTidy(other);
    OrNullTidy(another);
    TidyShape(OrNull(a));
    TidyShape(OrNull(b));
    StrictEqTidy(OrNull(a), OrNull(other));
    StrictEqTidy(OrNull(b), OrNull(another));
  }

  function KeptTrust(t: Trust): Trust {
    ErasedEntry(t.(detail := TidyTrust(t.detail)))
  }

  lemma SameTrustRefers(h: Hash, events: seq<RealmEvent>, saved: seq<RealmEvent>, heads: map<string, string>,
                        t: Trust, u: Trust)
    requires Legit(h, events) && SameKept(events, CanonicalOf(saved)) && KeptTrust(t) == KeptTrust(u)
    requires EvidenceAgrees(heads, t) == EvidenceAgrees(heads, u)
    ensures TrustRefers(events, heads, t) == TrustRefers(saved, heads, u)
  {
    hide Legit, FirstById, OrNull, Truthy, StrictEq, Field, SameKept, IsCanonical, EvidenceAgrees, Tidy, TidyFields;
    LegitIsWhole(h, events);
    AllCanonical(events);
    AllCanonical(saved);
    SameFirstById(events, CanonicalOf(saved), t.issuedEvent);
    FirstByIdCanonical(saved, t.issuedEvent);
    if FirstById(events, t.issuedEvent).Some? {
      var p, q := FirstById(events, t.issuedEvent).value.payload, FirstById(saved, t.issuedEvent).value.payload;
      FieldTidy(p, "remote_event_head");
      FieldTidy(q, "remote_event_head");
      var v, w := Field(p, "remote_event_head"), Field(q, "remote_event_head");
      SameRemoteHead(t.detail.remoteEventHead, u.detail.remoteEventHead, v, w);
      SameRemoteHead(v, w, v, w);
    }
  }

  lemma SameEvidence(heads: map<string, string>, t: Trust, u: Trust)
    requires KeptTrust(t) == KeptTrust(u)
    ensures EvidenceAgrees(heads, t) == EvidenceAgrees(heads, u)
  {
    hide Tidy, Inherited;
    TidyShape(t.detail.remoteEventHead);
    TidyShape(u.detail.remoteEventHead);
  }

  /** The trusts of the saved log's replay refer to it exactly when the evidence agrees with the original's trusts. */
  lemma SavedTrustsRefer(h: Hash, events: seq<RealmEvent>, saved: seq<RealmEvent>, heads: map<string, string>)
    requires Legit(h, events) && SameKept(events, CanonicalOf(saved))
    requires KeptState(Project(events)) == KeptState(Project(saved))
    ensures (forall u :: u in Project(saved).federationTrusts ==> TrustRefers(saved, heads, u))
       <==> EvidenceAgreesWithAll(heads, Project(events).federationTrusts)
  {
    hide Legit, Project, TrustRefers, EvidenceAgrees, SameKept, CanonicalOf, KeptState, KeptTrust;
    var trusts, others := Project(events).federationTrusts, Project(saved).federationTrusts;
    SameTrusts(Project(events), Project(saved));
    forall i | 0 <= i < |trusts| ensures TrustRefers(saved, heads, others[i]) <==> EvidenceAgrees(heads, trusts[i]) {
      TrustsRefer(h, events, heads, trusts[i]);
      SameEvidence(heads, trusts[i], others[i]);
      SameTrustRefers(h, events, saved, heads, trusts[i], others[i]);
    }
  }

  lemma SameTrusts(s: AuthorityState, t: AuthorityState)
    requires KeptState(s) == KeptState(t)
    ensures |s.federationTrusts| == |t.federationTrusts|
    ensures forall i :: 0 <= i < |s.federationTrusts| ==>
      KeptTrust(s.federationTrusts[i]) == KeptTrust(t.federationTrusts[i])
  {
    hide TidyTrust;
    var a, b := TidyEntries(s.federationTrusts, TidyTrust), TidyEntries(t.federationTrusts, TidyTrust);
    assert ErasedEntries(a) == ErasedEntries(b);
    assert |a| == |b|;
    forall i | 0 <= i < |a| ensures ErasedEntry(a[i]) == ErasedEntry(b[i]) {
      assert ErasedEntries(a)[i] == ErasedEntry(a[i]) && ErasedEntries(b)[i] == ErasedEntry(b[i]);
    }
  }

  /** Records that name logged events of one log name logged events of another that logs those ids. */
  lemma SavedLineagePasses(n: Node, saved: seq<RealmEvent>, store: Option<RecordStore>, commandIds: seq<string>)
    requires LineageHolds(n) && (store.None? || store == Some(n.store))
    requires forall id :: LogsId(Realms(n.ledger.log), id) ==> LogsId(saved, id)
    ensures !LineageCheck(saved, store, commandIds).Fail?
  {
    hide LogsId;
    var records := RecordsFor(n.store, commandIds);
    RecordsAreStored(n.store, commandIds);
    forall i | 0 <= i < |records| ensures RecordRefers(saved, records[i]) {
      assert records[i] in records;
      var id :| id in n.store && n.store[id] == records[i];
    }
  }

  /** A verified artifact that carries a reachable ledger's head projects that ledger's events, timestamps aside,
      exactly when the hash speaks for everything that is chained or projected. Then it restores exactly when the
      supplied evidence agrees with the ledger's trusts, and what it restores is the ledger's authority, timestamps
      aside. */
  lemma RestoredByHead(x: Runtime, n: Node, b: Artifact, o: RestoreOptions)
    requires Sound(x, n) && (o.store.None? || o.store == Some(n.store))
    requires Head(Linked(n.ledger.log)).Some? && b.historyHead == Head(Linked(n.ledger.log))
    requires VerifyBackup(x.hash, b).Complete?
    requires CollisionFree(x.hash, Preimages(Realms(n.ledger.log)) + Preimages(Linked(b.history.value)))
    ensures KeptAll(Realms(n.ledger.log)) == KeptAll(CanonicalOf(Realms(b.history.value)))
       <==> AllCovered(Realms(b.history.value))
    ensures AllCovered(Realms(b.history.value)) ==>
      && (Restore(x.hash, b, o).Success? <==> EvidenceAgreesWithAll(o.heads, n.ledger.authority.federationTrusts))
      && (Restore(x.hash, b, o).Success? ==>
            Restore(x.hash, b, o).value.log == b.history.value
            && KeptState(Restore(x.hash, b, o).value.authority) == KeptState(n.ledger.authority))
  {
    hide *;
    var events, saved := Realms(n.ledger.log), Realms(b.history.value);
    LiveNode(x, n);
    HeadIsText(Linked(n.ledger.log));
    VerifiedArtifact(x.hash, b);
    SameIffMirrored(x.hash, events, saved);
    if AllCovered(saved) {
      SameReplay(events, saved);
      SavedTrustsRefer(x.hash, events, saved, o.heads);
      forall id | LogsId(events, id) ensures LogsId(saved, id) { SameLogsId(x.hash, events, saved, id); }
      SavedLineagePasses(n, saved, o.store, o.commandIds);
      RestoresItself(x.hash, b, o);
    }
  }

  lemma HeadIsText(events: seq<RealmEvent>)
    ensures Head(events) != Some("")
  {
  }

  lemma LiveNode(x: Runtime, n: Node)
    requires Sound(x, n)
    ensures Legit(x.hash, Realms(n.ledger.log)) && LineageHolds(n)
    ensures Linked(n.ledger.log) == Realms(n.ledger.log) && n.ledger.authority == Project(Realms(n.ledger.log))
  {
    hide Legit, LineageHolds, Project, Realms, Linked;
    LiveContext(x.hash, n.ledger);
  }

  lemma VerifiedArtifact(h: Hash, b: Artifact)
    requires VerifyBackup(h, b).Complete? && b.historyHead.Some? && b.historyHead.value != ""
    ensures Verified(h, ChainedOf(Realms(b.history.value))) && b.historyHead == Head(ChainedOf(Realms(b.history.value)))
    ensures Linked(b.history.value) == ChainedOf(Realms(b.history.value))
  {
    hide FaultIn, SnapshotFault, FirstUnsupported, VersionError, Head, ChainedOf, Realms;
  }

  lemma SameReplay(events: seq<RealmEvent>, saved: seq<RealmEvent>)
    requires KeptAll(events) == KeptAll(CanonicalOf(saved))
    ensures SameKept(events, CanonicalOf(saved)) && KeptState(Project(events)) == KeptState(Project(saved))
  {
    hide *;
    KeptEach(events, CanonicalOf(saved));
    KeptReplay(events, CanonicalOf(saved));
    ProjectCanonical(saved);
  }
}
