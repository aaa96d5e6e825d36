/** Snapshots of the projection, and resuming a replay from one. */
module Snapshots {
  import opened Text
  import opened Registry
  import opened History
  import opened CurrentAuthority
  import opened Runs

  const SUPPORTED_PROJECTION_VERSION := 1

  datatype Snapshot = Snapshot(
    projection: AuthorityState, lastVerifiedEventHash: Option<string>, lastSequence: int, projectionVersion: int)

  datatype SnapshotError =
    | MetadataInvalid
    | ProjectionVersionUnsupported
    | HistoryMismatch
    | ProjectionMismatch
    | ReplayFailed(error: ReplayError)

  /** Canonical events up to, and after, a sequence number. */
  function UpTo(events: seq<RealmEvent>, last: int): seq<RealmEvent> {
    if events == [] then []
    else
      var n := |events| - 1;
      var before := UpTo(events[..n], last);
      var own := OwnSequence(events[n]);
      if own.Some? && own.value <= last then before + [events[n]] else before
  }

  function After(events: seq<RealmEvent>, last: int): seq<RealmEvent> {
    if events == [] then []
    else
      var n := |events| - 1;
      var before := After(events[..n], last);
      var own := OwnSequence(events[n]);
      if own.Some? && own.value > last then before + [events[n]] else before
  }

  /** The first event with the given sequence number; zero stands for the empty history. */
  function HeadEvent(events: seq<RealmEvent>, last: int): Option<RealmEvent> {
    if last == 0 then None else FirstWith(events, last)
  }

  function FirstWith(events: seq<RealmEvent>, sequence: int): Option<RealmEvent> {
    if events == [] then None
    else if OwnSequence(events[0]) == Some(sequence) then Some(events[0])
    else FirstWith(events[1..], sequence)
  }

  function LastSequence(canonical: seq<RealmEvent>): Option<int> {
    if canonical == [] then Some(0) else OwnSequence(canonical[|canonical| - 1])
  }

  function CreateSnapshot(h: Hash, events: seq<RealmEvent>, lastSequence: Option<int>)
    : Result<Snapshot, SnapshotError>
  {
    var fault, canonical := FaultIn(h, ChainedOf(events)), CanonicalOf(events);
    if fault.Some? then Failure(ReplayFailed(HistoryInvalid(fault.value)))
    else
      var last := if lastSequence.Some? then lastSequence else LastSequence(canonical);
      if last.None? || last.value < 0 then Failure(MetadataInvalid)
      else
        match BuildState(h, UpTo(canonical, last.value))
        case Failure(error) => Failure(ReplayFailed(error))
        case Success(projection) =>
          var head := HeadEvent(canonical, last.value);
          Success(Snapshot(projection, if head.Some? then Some(head.value.currentEventHash) else None, last.value,
                           SUPPORTED_PROJECTION_VERSION))
  }

  predicate NamesHead(canonical: seq<RealmEvent>, snapshot: Snapshot) {
    if snapshot.lastSequence == 0 then snapshot.lastVerifiedEventHash.None?
    else
      var head := HeadEvent(canonical, snapshot.lastSequence);
      head.Some? && snapshot.lastVerifiedEventHash == Some(head.value.currentEventHash)
  }

  /** `verifyRealmSnapshot`: no error, or the first one found. An empty hash is one that is missing: null is None. */
  function SnapshotFault(h: Hash, events: seq<RealmEvent>, snapshot: Snapshot): Option<SnapshotError> {
    var fault, canonical := FaultIn(h, ChainedOf(events)), CanonicalOf(events);
    if snapshot.lastSequence < 0 || snapshot.lastVerifiedEventHash == Some("") then Some(MetadataInvalid)
    else if snapshot.projectionVersion != SUPPORTED_PROJECTION_VERSION then Some(ProjectionVersionUnsupported)
    else if fault.Some? then Some(ReplayFailed(HistoryInvalid(fault.value)))
    else if !NamesHead(canonical, snapshot) then Some(HistoryMismatch)
    else
      match BuildState(h, UpTo(canonical, snapshot.lastSequence))
      case Failure(error) => Some(ReplayFailed(error))
      case Success(projection) => if projection != snapshot.projection then Some(ProjectionMismatch) else None
  }

  /** A replay of `events` that starts from `state`. */
  function Resume(state: AuthorityState, events: seq<RealmEvent>): AuthorityState {
    if events == [] then state else ApplyEvent(Resume(state, events[..|events| - 1]), events[|events| - 1])
  }

  method RebuildFromSnapshot(h: Hash, log: seq<LogEvent>, snapshot: Snapshot)
    returns (r: Result<AuthorityState, SnapshotError>)
    ensures SnapshotFault(h, Realms(log), snapshot).Some? ==>
      r == Failure(SnapshotFault(h, Realms(log), snapshot).value)
    ensures SnapshotFault(h, Realms(log), snapshot).None? ==>
      var rest := After(CanonicalOf(Realms(log)), snapshot.lastSequence);
      r == match FirstUnsupported(rest)
           case Some(error) => Failure(ReplayFailed(error))
           case None => Success(Resume(snapshot.projection, rest))
  {
    hide SnapshotFault, ApplyEvent, Supported, After, CanonicalOf;
    var fault := SnapshotFault(h, Realms(log), snapshot);
    if fault.Some? {
      return Failure(fault.value);
    }
    var remaining := After(CanonicalOf(Realms(log)), snapshot.lastSequence);
    var projection := snapshot.projection;
    for i := 0 to |remaining|
      invariant FirstUnsupported(remaining[..i]).None?
      invariant projection == Resume(snapshot.projection, remaining[..i])
    {
      assert remaining[..i + 1][..i] == remaining[..i];
      if !Supported(remaining[i]) {
        UnsupportedStays(remaining, i + 1);
        return Failure(ReplayFailed(FirstUnsupported(remaining[..i + 1]).value));
      }
      projection := ApplyEvent(projection, remaining[i]);
    }
    assert remaining[..|remaining|] == remaining;
    r := Success(projection);
  }

  // ---- cuts of a legitimate history ----

  /** Sequence numbers count the events from one. */
  predicate Counted(events: seq<RealmEvent>) {
    forall k :: 0 <= k < |events| ==> OwnSequence(events[k]) == Some(k + 1)
  }

  lemma LegitCounted(h: Hash, events: seq<RealmEvent>)
    requires Legit(h, events)
    ensures Counted(events)
  {
    hide Legit, FaultIn, FirstUnsupported, Project, Mirrors, Supported;
    LegitHistory(h, events);
  }

  lemma CountedPrefix(events: seq<RealmEvent>, n: nat)
    requires Counted(events) && n < |events|
    ensures Counted(events[..n]) && OwnSequence(events[n]) == Some(n + 1)
  {
  }

  lemma {:induction false} UpToCounted(events: seq<RealmEvent>, k: nat)
    requires Counted(events)
    ensures UpTo(events, k) == if k <= |events| then events[..k] else events
    decreases |events|
  {
    hide OwnSequence, Counted;
    if events != [] {
      var n := |events| - 1;
      CountedPrefix(events, n);
      UpToCounted(events[..n], k);
      assert events == events[..n] + [events[n]];
      assert k <= n ==> events[..n][..k] == events[..k];
    }
  }

  /** Dropping the first `k` of a list one longer. */
  lemma DropOfLonger(before: seq<RealmEvent>, e: RealmEvent, k: nat)
    ensures k <= |before| ==> (before + [e])[k..] == before[k..] + [e]
    ensures k == |before| + 1 ==> (before + [e])[k..] == []
  {
  }

  lemma {:induction false} AfterCounted(events: seq<RealmEvent>, k: nat)
    requires Counted(events)
    ensures After(events, k) == if k <= |events| then events[k..] else []
    decreases |events|
  {
    hide OwnSequence, Counted;
    if events != [] {
      var n := |events| - 1;
      CountedPrefix(events, n);
      AfterCounted(events[..n], k);
      assert events == events[..n] + [events[n]];
      DropOfLonger(events[..n], events[n], k);
      if k == n {
        assert events[..n][k..] == [];
      }
    }
  }

  lemma {:induction false} FirstWithFrom(events: seq<RealmEvent>, i: nat, sequence: int)
    requires Counted(events) && i <= |events| && i < sequence
    ensures FirstWith(events[i..], sequence) == if sequence <= |events| then Some(events[sequence - 1]) else None
    decreases |events| - i
  {
    hide OwnSequence;
    if i < |events| {
      assert events[i..][1..] == events[i + 1..];
      if i + 1 < sequence { FirstWithFrom(events, i + 1, sequence); }
    }
  }

  lemma HeadOfCounted(events: seq<RealmEvent>, k: nat)
    requires Counted(events)
    ensures HeadEvent(events, k) == if 0 < k <= |events| then Some(events[k - 1]) else None
  {
    hide Counted;
    if k > 0 {
      assert events[0..] == events;
      FirstWithFrom(events, 0, k);
    }
  }

  lemma BuildPrefix(h: Hash, events: seq<RealmEvent>, k: nat)
    requires Legit(h, events) && k <= |events|
    ensures BuildState(h, events[..k]) == Success(Project(events[..k]))
  {
    hide Legit, FaultIn, FirstUnsupported, Project;
    LegitPrefix(h, events, k);
    LegitVerifies(h, events[..k]);
  }

  /** The snapshot of a legitimate history at a cut. */
  function SnapshotAt(events: seq<RealmEvent>, k: nat): Snapshot
    requires k <= |events|
  {
    Snapshot(Project(events[..k]), Expected(events[..k]), k, SUPPORTED_PROJECTION_VERSION)
  }

  lemma CreatedAt(h: Hash, events: seq<RealmEvent>, k: nat)
    requires Legit(h, events) && k <= |events|
    ensures CreateSnapshot(h, events, Some(k)) == Success(SnapshotAt(events, k))
  {
    hide Legit, FaultIn, FirstUnsupported, Project, BuildState, HeadEvent, UpTo, Counted, ChainedOf, CanonicalOf;
    LegitVerifies(h, events);
    LegitCounted(h, events);
    UpToCounted(events, k);
    HeadOfCounted(events, k);
    BuildPrefix(h, events, k);
  }

  /** Without a cut the snapshot is taken at the end. */
  lemma CreatedAtEnd(h: Hash, events: seq<RealmEvent>)
    requires Legit(h, events)
    ensures CreateSnapshot(h, events, None) == Success(SnapshotAt(events, |events|))
  {
    hide Legit, BuildState, HeadEvent, UpTo, Counted, FaultIn, OwnSequence, SnapshotAt, ChainedOf, CanonicalOf;
    LegitIsWhole(h, events);
    LegitCounted(h, events);
    if events != [] { LastCounted(events); }
    assert CreateSnapshot(h, events, None) == CreateSnapshot(h, events, Some(|events|));
    CreatedAt(h, events, |events|);
  }

  lemma LastCounted(events: seq<RealmEvent>)
    requires Counted(events) && events != []
    ensures OwnSequence(events[|events| - 1]) == Some(|events|)
  {
  }

  /** The hash at a cut is never empty. */
  lemma CutHashIsText(h: Hash, events: seq<RealmEvent>, k: nat)
    requires Legit(h, events) && k <= |events|
    ensures Expected(events[..k]) != Some("")
    ensures Expected(events[..k]) == if k == 0 then None else Some(events[k - 1].currentEventHash)
  {
    hide Legit, FaultIn, FirstUnsupported, Project, ChainedOf, CanonicalOf;
    LegitPrefix(h, events, k);
    LegitVerifies(h, events[..k]);
  }

  /** A snapshot passes the check exactly when it is the snapshot of one of the history's cuts. */
  lemma VerifiesIffCut(h: Hash, events: seq<RealmEvent>, snapshot: Snapshot)
    requires Legit(h, events)
    ensures SnapshotFault(h, events, snapshot).None?
       <==> 0 <= snapshot.lastSequence <= |events| && snapshot == SnapshotAt(events, snapshot.lastSequence)
  {
    hide Legit, FaultIn, FirstUnsupported, Project, BuildState, HeadEvent, UpTo, Counted, Expected, ChainedOf,
      CanonicalOf;
    if 0 <= snapshot.lastSequence {
      var k: nat := snapshot.lastSequence;
      LegitVerifies(h, events);
      if k <= |events| { CutHashIsText(h, events, k); }
      LegitCounted(h, events);
      UpToCounted(events, k);
      HeadOfCounted(events, k);
      if k <= |events| { BuildPrefix(h, events, k); }
    }
  }

  lemma {:induction false} ResumeFromCut(events: seq<RealmEvent>, k: nat)
    requires k <= |events|
    ensures Resume(Project(events[..k]), events[k..]) == Project(events)
    decreases |events|
  {
    hide ApplyEvent;
    if k < |events| {
      var n := |events| - 1;
      assert events[..n][..k] == events[..k] && events[k..][..n - k] == events[..n][k..];
      ResumeFromCut(events[..n], k);
    } else {
      assert events[..k] == events;
    }
  }

  lemma {:induction false} SupportedSuffix(events: seq<RealmEvent>, k: nat)
    requires k <= |events| && FirstUnsupported(events).None?
    ensures FirstUnsupported(events[k..]).None?
    decreases |events|
  {
    hide Supported;
    if k < |events| {
      var n := |events| - 1;
      assert events[k..][..n - k] == events[..n][k..];
      SupportedSuffix(events[..n], k);
    }
  }

  lemma ResumesAt(h: Hash, events: seq<RealmEvent>, k: nat)
    requires Legit(h, events) && k <= |events|
    ensures SnapshotFault(h, events, SnapshotAt(events, k)).None?
    ensures CanonicalOf(events) == events
    ensures FirstUnsupported(After(events, k)).None?
    ensures Resume(SnapshotAt(events, k).projection, After(events, k)) == Project(events)
  {
    VerifiesIffCut(h, events, SnapshotAt(events, k));
    hide Legit, SnapshotFault, FirstUnsupported, Project, Counted, After, FaultIn, Resume;
    LegitCounted(h, events);
    AfterCounted(events, k);
    LegitVerifies(h, events);
    SupportedSuffix(events, k);
    ResumeFromCut(events, k);
  }

  lemma SameCut(events: seq<RealmEvent>, extended: seq<RealmEvent>, k: nat)
    requires k <= |events| <= |extended| && extended[..|events|] == events
    ensures SnapshotAt(extended, k) == SnapshotAt(events, k)
  {
    assert extended[..k] == events[..k];
  }

  /** A snapshot of any cut still verifies after any further accepted events, and replaying the rest from it gives
      the full replay. */
  lemma SnapshotResumes(h: Hash, events: seq<RealmEvent>, k: nat, extended: seq<RealmEvent>)
    requires Legit(h, extended) && |events| <= |extended| && extended[..|events|] == events && k <= |events|
    ensures CreateSnapshot(h, events, Some(k)).Success?
    ensures var snapshot := CreateSnapshot(h, events, Some(k)).value;
      && SnapshotFault(h, extended, snapshot).None?
      && FirstUnsupported(After(CanonicalOf(extended), snapshot.lastSequence)).None?
      && Resume(snapshot.projection, After(CanonicalOf(extended), snapshot.lastSequence)) == Project(extended)
  {
    hide *;
    LegitPrefix(h, extended, |events|);
    CreatedAt(h, events, k);
    SameCut(events, extended, k);
    ResumesAt(h, extended, k);
    assert SnapshotAt(events, k).lastSequence == k by { CutSequence(events, k); }
  }

  lemma CutSequence(events: seq<RealmEvent>, k: nat)
    requires k <= |events|
    ensures SnapshotAt(events, k).lastSequence == k
  {
  }
}
