/** The authority state as a replay of the event history. */
module CurrentAuthority {
  import opened Text
  import opened Registry
  import opened History

  /** What an inherited name finds in the registry has no name of its own. */
  datatype ReplayError = HistoryInvalid(fault: Fault) | UnsupportedVersion(contract: Option<Kind>, version: int)

  /** Only version 1 payloads of the twelve kinds have an adapter. */
  predicate Supported(e: RealmEvent) {
    !Inherited(e.envelope.kind) && (KindOf(e.envelope.kind).Some? ==> e.version == 1)
  }

  /** The effect of one event; the envelope decides which contract applies. */
  function ApplyEvent(s: AuthorityState, e: RealmEvent): AuthorityState {
    match KindOf(e.envelope.kind)
    case Some(kind) => Apply(kind, s, e.id, e.timestamp, e.envelope, e.payload)
    case None => s
  }

  function Project(events: seq<RealmEvent>): AuthorityState {
    if events == [] then EMPTY_STATE
    else ApplyEvent(Project(events[..|events| - 1]), events[|events| - 1])
  }

  function FirstUnsupported(events: seq<RealmEvent>): Option<ReplayError> {
    if events == [] then None
    else
      var n := |events| - 1;
      var before := FirstUnsupported(events[..n]);
      if before.Some? then before
      else if !Supported(events[n]) then
        Some(UnsupportedVersion(KindOf(events[n].envelope.kind), events[n].version))
      else None
  }

  lemma ProjectAppend(events: seq<RealmEvent>, e: RealmEvent)
    ensures Project(events + [e]) == ApplyEvent(Project(events), e)
    ensures FirstUnsupported(events).None? && Supported(e) ==> FirstUnsupported(events + [e]).None?
    ensures FirstUnsupported(events).None? && !Supported(e) ==>
      FirstUnsupported(events + [e]) == Some(UnsupportedVersion(KindOf(e.envelope.kind), e.version))
    ensures FirstUnsupported(events).Some? ==> FirstUnsupported(events + [e]) == FirstUnsupported(events)
  {
    hide ApplyEvent, Supported, KindOf;
    assert (events + [e])[..|events|] == events;
  }

  /** An event that is not canonical has no effect and needs no adapter, so replay may as well read it. */
  lemma OthersAreInert(s: AuthorityState, e: RealmEvent)
    requires !IsCanonical(e)
    ensures ApplyEvent(s, e) == s && Supported(e)
  {
  }

  lemma NothingCanonical()
    ensures CanonicalOf([]) == []
  {
  }

  lemma {:induction false} ProjectCanonical(events: seq<RealmEvent>)
    ensures Project(CanonicalOf(events)) == Project(events)
    ensures FirstUnsupported(CanonicalOf(events)) == FirstUnsupported(events)
  {
    hide *;
    if events == [] {
      NothingCanonical();
    } else {
      var n := |events| - 1;
      var before, e := events[..n], events[n];
      ProjectCanonical(before);
      assert events == before + [e];
      ChainedAppend(before, e);
      ProjectAppend(before, e);
      ProjectAppend(CanonicalOf(before), e);
      if !IsCanonical(e) { OthersAreInert(Project(before), e); }
    }
  }

  /** `buildCurrentAuthorityState`: the chain must verify and every canonical event must have an adapter. */
  function BuildState(h: Hash, events: seq<RealmEvent>): Result<AuthorityState, ReplayError> {
    match FaultIn(h, ChainedOf(events))
    case Some(fault) => Failure(HistoryInvalid(fault))
    case None =>
      match FirstUnsupported(events)
      case Some(error) => Failure(error)
      case None => Success(Project(events))
  }

  lemma {:induction false} UnsupportedStays(events: seq<RealmEvent>, n: nat)
    requires n <= |events| && FirstUnsupported(events[..n]).Some?
    ensures FirstUnsupported(events) == FirstUnsupported(events[..n])
    decreases |events|
  {
    if n < |events| {
      var before := events[..|events| - 1];
      assert before[..n] == events[..n];
      UnsupportedStays(before, n);
    } else {
      assert events[..n] == events;
    }
  }

  /** A log whose realm events reach an unsupported one stays unsupported. */
  lemma UnsupportedAt(log: seq<LogEvent>, i: nat, e: RealmEvent)
    requires i < |log| && FirstUnsupported(Realms(log[..i])).None? && !Supported(e)
    requires Realms(log[..i + 1]) == Realms(log[..i]) + [e]
    ensures FirstUnsupported(Realms(log)) == Some(UnsupportedVersion(KindOf(e.envelope.kind), e.version))
  {
    hide *;
    var events := Realms(log[..i]);
    ProjectAppend(events, e);
    RealmsPrefix(log, i + 1);
    UnsupportedStays(Realms(log), |events + [e]|);
  }

  lemma ReplayStep(log: seq<LogEvent>, i: nat)
    requires i < |log| && FirstUnsupported(Realms(log[..i])).None?
    ensures log[i].Foreign? ==> Realms(log[..i + 1]) == Realms(log[..i])
    ensures log[i].Realm? ==> Project(Realms(log[..i + 1])) == ApplyEvent(Project(Realms(log[..i])), log[i].event)
    ensures log[i].Realm? && Supported(log[i].event) ==> FirstUnsupported(Realms(log[..i + 1])).None?
    ensures log[i].Realm? && !Supported(log[i].event) ==>
      FirstUnsupported(Realms(log))
      == Some(UnsupportedVersion(KindOf(log[i].event.envelope.kind), log[i].event.version))
  {
    hide *;
    RealmsNext(log, i);
    if log[i].Realm? {
      ProjectAppend(Realms(log[..i]), log[i].event);
      if !Supported(log[i].event) {
        UnsupportedAt(log, i, log[i].event);
      }
    }
  }

  lemma RealmsNext(log: seq<LogEvent>, i: nat)
    requires i < |log|
    ensures Realms(log[..i + 1]) == if log[i].Realm? then Realms(log[..i]) + [log[i].event] else Realms(log[..i])
  {
    hide *;
    assert log[..i + 1] == log[..i] + [log[i]];
    RealmsAppend(log[..i], log[i]);
  }

  method BuildCurrentAuthorityState(h: Hash, log: seq<LogEvent>) returns (r: Result<AuthorityState, ReplayError>)
    ensures r == BuildState(h, Realms(log))
  {
    var fault := VerifyRealmEventHistory(h, log);
    if fault.Some? {
      return Failure(HistoryInvalid(fault.value));
    }
    hide ApplyEvent, Supported, IsCanonical;
    var state := EMPTY_STATE;
    for i := 0 to |log|
      invariant FirstUnsupported(Realms(log[..i])).None?
      invariant state == Project(Realms(log[..i]))
    {
      ReplayStep(log, i);
      if log[i].Realm? {
        var e := log[i].event;
        if IsCanonical(e) {
          if !Supported(e) {
            return Failure(UnsupportedVersion(KindOf(e.envelope.kind), e.version));
          }
          state := ApplyEvent(state, e);
        } else {
          OthersAreInert(state, e);
        }
      }
    }
    assert log[..|log|] == log;
    r := Success(state);
  }
}
