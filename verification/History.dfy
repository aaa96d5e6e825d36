/** The hash-chained event history: building links, finding the head, checking a log. */
module History {
  import opened Text
  import opened JsonValues
  import opened JsonParser
  import opened Registry

  predicate HexText(s: string) {
    s != "" && forall i :: 0 <= i < |s| ==> IsHex(s[i])
  }

  /** The hexadecimal text of a digest; it is never empty. */
  type Digest = s: string | HexText(s) witness "0"

  /** The hash is any function from text to digests. */
  type Hash = string -> Digest

  /** A logged event with an envelope. `flagged` is the realm_event mark; `kind`, and `signer` to `timestamp`, repeat
      the envelope at top level when the validator builds the event. */
  datatype RealmEvent = RealmEvent(
    kind: Kind, flagged: bool, signer: string, authorityReference: string, sequence: Option<int>, timestamp: Json,
    version: int, projectionVersion: int, envelope: Envelope, payload: Fields, acceptedAt: string,
    id: string, eventId: string, previousEventHash: Option<string>, currentEventHash: string)

  /** Entries that no part of the realm reads are opaque here. */
  datatype LogEvent = Realm(event: RealmEvent) | Foreign(content: string)

  /** `isHashChainedRealmEvent`: the event's own type decides. */
  predicate Chained(e: RealmEvent) {
    e.kind.Other? ==> Inherited(e.kind.name)
  }

  /** `isCanonicalRealmEvent`: the mark or the envelope's type decides. */
  predicate IsCanonical(e: RealmEvent) {
    e.flagged || HasContract(e.envelope.kind)
  }

  lemma ChainedMeans(e: RealmEvent)
    ensures Chained(e) <==> HasContract(Name(e.kind))
  {
    hide Name, KindOf, CanonicalName;
    KindOfName(e.kind);
    if e.kind.Other? { OtherNameIs(e.kind); }
  }

  /** The events the hash chain runs through. */
  function ChainedOf(events: seq<RealmEvent>): (r: seq<RealmEvent>)
    ensures |r| <= |events|
  {
    if events == [] then []
    else
      var n := |events| - 1;
      var before := ChainedOf(events[..n]);
      if Chained(events[n]) then before + [events[n]] else before
  }

  /** The events the projection is folded over. */
  function CanonicalOf(events: seq<RealmEvent>): (r: seq<RealmEvent>)
    ensures |r| <= |events|
  {
    if events == [] then []
    else
      var n := |events| - 1;
      var before := CanonicalOf(events[..n]);
      if IsCanonical(events[n]) then before + [events[n]] else before
  }

  lemma {:induction false} FilteredMembers(events: seq<RealmEvent>, e: RealmEvent)
    ensures e in ChainedOf(events) <==> e in events && Chained(e)
    ensures e in CanonicalOf(events) <==> e in events && IsCanonical(e)
  {
    hide Chained, IsCanonical;
    if events != [] {
      var n := |events| - 1;
      FilteredMembers(events[..n], e);
      assert events == events[..n] + [events[n]];
    }
  }

  /** Where every canonical event is chained, the two lists are the same exactly when they are equally long, which is
      when every chained event is canonical. */
  lemma {:induction false} SameFilters(events: seq<RealmEvent>)
    requires forall e :: e in events && IsCanonical(e) ==> Chained(e)
    ensures |CanonicalOf(events)| <= |ChainedOf(events)|
    ensures |CanonicalOf(events)| == |ChainedOf(events)| <==> forall e :: e in events && Chained(e) ==> IsCanonical(e)
    ensures |CanonicalOf(events)| == |ChainedOf(events)| ==> CanonicalOf(events) == ChainedOf(events)
  {
    hide Chained, IsCanonical;
    if events != [] {
      var n := |events| - 1;
      assert events[n] in events;
      SameFilters(events[..n]);
      assert events == events[..n] + [events[n]];
    }
  }

  /** Both chained and canonical, as every event is that acceptance builds. */
  predicate Whole(e: RealmEvent) {
    Chained(e) && IsCanonical(e)
  }

  lemma {:induction false} AllWhole(events: seq<RealmEvent>)
    requires forall e :: e in events ==> Whole(e)
    ensures ChainedOf(events) == events && CanonicalOf(events) == events
  {
    hide Chained, IsCanonical;
    if events != [] {
      var n := |events| - 1;
      assert events[n] in events;
      AllWhole(events[..n]);
      assert events == events[..n] + [events[n]];
    }
  }

  lemma ChainedAppend(events: seq<RealmEvent>, e: RealmEvent)
    ensures ChainedOf(events + [e]) == if Chained(e) then ChainedOf(events) + [e] else ChainedOf(events)
    ensures CanonicalOf(events + [e]) == if IsCanonical(e) then CanonicalOf(events) + [e] else CanonicalOf(events)
  {
    hide Chained, IsCanonical;
    assert (events + [e])[..|events|] == events;
  }

  /** The entries of a log that are events with an envelope, in order. */
  function Realms(log: seq<LogEvent>): (events: seq<RealmEvent>)
    ensures |events| <= |log|
  {
    if log == [] then []
    else
      var before := Realms(log[..|log| - 1]);
      match log[|log| - 1]
      case Realm(e) => before + [e]
      case Foreign(_) => before
  }

  lemma RealmsAppend(log: seq<LogEvent>, entry: LogEvent)
    ensures Realms(log + [entry]) == if entry.Realm? then Realms(log) + [entry.event] else Realms(log)
  {
    assert (log + [entry])[..|log|] == log;
  }

  /** What a prefix of a log holds is a prefix of what the log holds. */
  lemma {:induction false} RealmsPrefix(log: seq<LogEvent>, n: nat)
    requires n <= |log|
    ensures |Realms(log[..n])| <= |Realms(log)|
    ensures Realms(log)[..|Realms(log[..n])|] == Realms(log[..n])
    decreases |log| - n
  {
    if n == |log| {
      assert log[..n] == log;
    } else {
      RealmsPrefix(log, n + 1);
      assert log[..n + 1] == log[..n] + [log[n]];
      RealmsAppend(log[..n], log[n]);
    }
  }

  /** The events of a log that the hash chain runs through. */
  function Linked(log: seq<LogEvent>): seq<RealmEvent> {
    ChainedOf(Realms(log))
  }

  predicate InChain(entry: LogEvent) {
    entry.Realm? && Chained(entry.event)
  }

  lemma NothingLinked()
    ensures Linked([]) == []
  {
  }

  lemma LinkedAppend(log: seq<LogEvent>, entry: LogEvent)
    ensures Linked(log + [entry]) == if InChain(entry) then Linked(log) + [entry.event] else Linked(log)
  {
    hide Chained, ChainedOf, Realms;
    RealmsAppend(log, entry);
    if entry.Realm? { ChainedAppend(Realms(log), entry.event); }
  }

  // ---- hash material ----

  function FirstOf(a: string, b: string): string {
    if a != "" then a else b
  }

  function OwnSequence(e: RealmEvent): Option<int> {
    if e.sequence.Some? then e.sequence else e.envelope.sequence
  }

  function HashJson(hash: Option<string>): Json {
    match hash case Some(text) => Str(text) case None => Null
  }

  /** What the hash of an event covers: neither timestamps nor the nested envelope's own copies. */
  function Material(e: RealmEvent, previous: Option<string>): Json {
    Obj(map[
      "authority_reference" := Str(FirstOf(e.authorityReference, e.envelope.authorityReference)),
      "payload" := Obj(e.payload),
      "previous_event_hash" := HashJson(previous),
      "sequence" := match OwnSequence(e) case Some(n) => Num(n) case None => Null,
      "signer" := Str(FirstOf(e.signer, e.envelope.signer)),
      "type" := Str(Name(e.kind)),
      "version" := Num(e.version)])
  }

  function EventHash(h: Hash, e: RealmEvent, previous: Option<string>): Digest {
    h(Encode(Material(e, previous)))
  }

  function Short(hash: string): string {
    if |hash| <= 16 then hash else hash[..16]
  }

  function EventId(e: RealmEvent, hash: string): string {
    "realm_evt_" + (match OwnSequence(e) case Some(n) => IntText(n) case None => "NaN")
    + "_" + Lower(FirstOf(Name(e.kind), "REALM_EVENT")) + "_" + Short(hash)
  }

  // ---- head and verification ----

  /** The hash the next event must name: the last event's hash, as the checking loop carries it. */
  function Expected(events: seq<RealmEvent>): Option<string> {
    if events == [] then None else Some(events[|events| - 1].currentEventHash)
  }

  /** `latestRealmEventHash`, which turns an empty hash into null. */
  function Head(events: seq<RealmEvent>): Option<string> {
    if Expected(events) == Some("") then None else Expected(events)
  }

  datatype Fault =
    | ChainBroken(sequence: Option<int>)
    | HashMismatch(sequence: Option<int>)
    | IdMismatch(sequence: Option<int>)

  /** What is wrong with one event after a history whose last hash is `previous`. */
  function LinkFault(h: Hash, e: RealmEvent, previous: Option<string>): Option<Fault> {
    if e.previousEventHash != previous then Some(ChainBroken(e.sequence))
    else
      var hash := EventHash(h, e, previous);
      if e.currentEventHash != hash then Some(HashMismatch(e.sequence))
      else if e.eventId != EventId(e, hash) || e.id != EventId(e, hash) then Some(IdMismatch(e.sequence))
      else None
  }

  /** The first fault of a list of linked events, if it has one. */
  function FaultIn(h: Hash, events: seq<RealmEvent>): Option<Fault> {
    if events == [] then None
    else
      var before := events[..|events| - 1];
      var fault := FaultIn(h, before);
      if fault.Some? then fault else LinkFault(h, events[|events| - 1], Expected(before))
  }

  predicate Verified(h: Hash, events: seq<RealmEvent>) {
    FaultIn(h, events).None?
  }

  lemma HashOfLinked(h: Hash, e: RealmEvent, previous: Option<string>)
    requires LinkFault(h, e, previous).None?
    ensures e.currentEventHash == h(Encode(Material(e, previous)))
  {
    hide Encode, Material, EventId;
  }

  lemma VerifiedPrefix(h: Hash, events: seq<RealmEvent>, n: nat)
    requires Verified(h, events) && n <= |events|
    ensures Verified(h, events[..n])
    decreases |events| - n
  {
    hide LinkFault;
    if n < |events| {
      VerifiedPrefix(h, events, n + 1);
      assert events[..n + 1][..n] == events[..n];
    } else {
      assert events[..n] == events;
    }
  }

  lemma VerifiedAt(h: Hash, events: seq<RealmEvent>, k: nat)
    requires Verified(h, events) && k < |events|
    ensures LinkFault(h, events[k], Expected(events[..k])).None?
  {
    hide LinkFault, Expected;
    VerifiedPrefix(h, events, k + 1);
    assert events[..k + 1][..k] == events[..k];
  }

  lemma FaultAppend(h: Hash, events: seq<RealmEvent>, e: RealmEvent)
    ensures FaultIn(h, events + [e])
         == if FaultIn(h, events).Some? then FaultIn(h, events) else LinkFault(h, e, Expected(events))
  {
    assert (events + [e])[..|events|] == events;
  }

  lemma {:induction false} FaultStays(h: Hash, events: seq<RealmEvent>, n: nat)
    requires n <= |events| && FaultIn(h, events[..n]).Some?
    ensures FaultIn(h, events) == FaultIn(h, events[..n])
    decreases |events|
  {
    hide LinkFault;
    if n < |events| {
      var before := events[..|events| - 1];
      assert before[..n] == events[..n];
      FaultStays(h, before, n);
    } else {
      assert events[..n] == events;
    }
  }

  method LatestRealmEventHash(log: seq<LogEvent>) returns (head: Option<string>)
    ensures head == Head(Linked(log))
  {
    var index := |log| - 1;
    assert log[..index + 1] == log;
    while index >= 0
      invariant -1 <= index < |log|
      invariant Linked(log) == Linked(log[..index + 1])
    {
      assert log[..index + 1][..index] == log[..index];
      if InChain(log[index]) {
        var e := log[index].event;
        assert Linked(log) == Linked(log[..index]) + [e];
        return if e.currentEventHash == "" then None else Some(e.currentEventHash);
      }
      index := index - 1;
    }
    assert log[..0] == [];
    head := None;
  }

  method VerifyRealmEventHistory(h: Hash, log: seq<LogEvent>) returns (fault: Option<Fault>)
    ensures fault == FaultIn(h, Linked(log))
  {
    var expectedPreviousHash: Option<string> := None;
    for i := 0 to |log|
      invariant Verified(h, Linked(log[..i]))
      invariant expectedPreviousHash == Expected(Linked(log[..i]))
    {
      HistoryStep(h, log, i);
      if InChain(log[i]) {
        var e := log[i].event;
        var found := LinkFault(h, e, expectedPreviousHash);
        if found.Some? {
          FaultFound(h, log, i + 1);
          return found;
        }
        expectedPreviousHash := Some(e.currentEventHash);
      }
    }
    assert log[..|log|] == log;
    fault := None;
  }

  lemma HistoryStep(h: Hash, log: seq<LogEvent>, i: nat)
    requires i < |log| && Verified(h, Linked(log[..i]))
    ensures !InChain(log[i]) ==> Linked(log[..i + 1]) == Linked(log[..i])
    ensures InChain(log[i]) ==> Expected(Linked(log[..i + 1])) == Some(log[i].event.currentEventHash)
    ensures InChain(log[i]) ==>
      FaultIn(h, Linked(log[..i + 1])) == LinkFault(h, log[i].event, Expected(Linked(log[..i])))
  {
    hide Linked, Chained, LinkFault;
    assert log[..i + 1] == log[..i] + [log[i]];
    LinkedAppend(log[..i], log[i]);
    if InChain(log[i]) { FaultAppend(h, Linked(log[..i]), log[i].event); }
  }

  lemma {:induction false} LinkedPrefix(log: seq<LogEvent>, n: nat)
    requires n <= |log|
    ensures |Linked(log[..n])| <= |Linked(log)|
    ensures Linked(log)[..|Linked(log[..n])|] == Linked(log[..n])
    decreases |log| - n
  {
    if n == |log| {
      assert log[..n] == log;
    } else {
      LinkedPrefix(log, n + 1);
      assert log[..n + 1] == log[..n] + [log[n]];
      LinkedAppend(log[..n], log[n]);
    }
  }

  lemma FaultFound(h: Hash, log: seq<LogEvent>, n: nat)
    requires n <= |log| && FaultIn(h, Linked(log[..n])).Some?
    ensures FaultIn(h, Linked(log)) == FaultIn(h, Linked(log[..n]))
  {
    LinkedPrefix(log, n);
    FaultStays(h, Linked(log), |Linked(log[..n])|);
  }

  // ---- building the chain ----

  function Attach(h: Hash, e: RealmEvent, previous: Option<string>): RealmEvent {
    var hash := EventHash(h, e, previous);
    var id := EventId(e, hash);
    e.(id := id, eventId := id, previousEventHash := previous, currentEventHash := hash)
  }

  /** A log with every hash-chained event linked, in order, to the one before it. */
  function ChainLog(h: Hash, log: seq<LogEvent>): (chained: seq<LogEvent>)
    ensures |chained| == |log|
  {
    if log == [] then []
    else
      var before := ChainLog(h, log[..|log| - 1]);
      var last := log[|log| - 1];
      if InChain(last) then before + [Realm(Attach(h, last.event, Head(Linked(before))))] else before + [last]
  }

  lemma AttachLinks(h: Hash, e: RealmEvent, previous: Option<string>)
    ensures LinkFault(h, Attach(h, e, previous), previous).None?
    ensures LinkFault(h, e, previous).None? <==> Attach(h, e, previous) == e
  {
    var a := Attach(h, e, previous);
    assert Material(a, previous) == Material(e, previous);
    assert EventId(a, a.currentEventHash) == EventId(e, a.currentEventHash);
  }

  lemma VerifiedHead(h: Hash, events: seq<RealmEvent>)
    requires Verified(h, events)
    ensures Head(events) == Expected(events)
  {
    if events != [] {
      VerifiedAt(h, events, |events| - 1);
    }
  }

  /** Linking any events makes a history that the check accepts. */
  lemma {:induction false} ChainVerifies(h: Hash, log: seq<LogEvent>)
    ensures Verified(h, Linked(ChainLog(h, log)))
  {
    hide Linked, LinkFault, Head;
    if log == [] {
      NothingLinked();
    } else {
      var n := |log| - 1;
      var before := ChainLog(h, log[..n]);
      ChainVerifies(h, log[..n]);
      LinkedAppend(before, ChainLog(h, log)[n]);
      if InChain(log[n]) {
        var previous := Head(Linked(before));
        VerifiedHead(h, Linked(before));
        AttachLinks(h, log[n].event, previous);
        FaultAppend(h, Linked(before), Attach(h, log[n].event, previous));
      }
    }
  }

  /** Checking undoes building: a log passes exactly when linking it again changes nothing. */
  lemma {:induction false} VerifiedIffChained(h: Hash, log: seq<LogEvent>)
    ensures Verified(h, Linked(log)) <==> ChainLog(h, log) == log
  {
    hide Linked, LinkFault, Head;
    if log == [] {
      NothingLinked();
    } else {
      var n := |log| - 1;
      var before := log[..n];
      VerifiedIffChained(h, before);
      assert log == before + [log[n]];
      LinkedAppend(before, log[n]);
      var again := ChainLog(h, log);
      assert again[..n] == ChainLog(h, before);
      assert again == log <==> again[..n] == before && again[n] == log[n];
      if InChain(log[n]) {
        FaultAppend(h, Linked(before), log[n].event);
        if Verified(h, Linked(before)) {
          VerifiedHead(h, Linked(before));
          AttachLinks(h, log[n].event, Expected(Linked(before)));
        }
      }
    }
  }

  // ---- collisions ----

  /** The texts a history feeds to the hash. */
  function Preimages(events: seq<RealmEvent>): set<string> {
    if events == [] then {}
    else
      var n := |events| - 1;
      Preimages(events[..n]) + {Encode(Material(events[n], Expected(events[..n])))}
  }

  /** No two of finitely many texts share a digest. */
  ghost predicate CollisionFree(h: Hash, texts: set<string>) {
    forall x, y :: x in texts && y in texts && h(x) == h(y) ==> x == y
  }

  lemma {:induction false} PreimageAt(events: seq<RealmEvent>, k: nat)
    requires k < |events|
    ensures Encode(Material(events[k], Expected(events[..k]))) in Preimages(events)
    decreases |events|
  {
    hide Encode, Material, Expected;
    var n := |events| - 1;
    if k < n {
      PreimageAt(events[..n], k);
      assert events[..n][..k] == events[..k];
    }
  }
}
