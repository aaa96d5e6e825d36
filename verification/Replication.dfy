/** Replication of one realm's log over a channel that loses, repeats and reorders batches. */
module Replication {
  import opened Text
  import opened JsonValues
  import opened JsonParser
  import opened Registry
  import opened History
  import opened CurrentAuthority
  import opened Validator
  import opened Pipeline
  import opened Runs
  import opened EventIds
  import opened HeadCommits
  import opened Ceremony
  import opened Commands
  import opened Transport

  // ---- the fields an event carries to a replica ----

  /** The replica stamps its own acceptance time and may note the previous hash in the envelope. */
  function Carried(e: RealmEvent): RealmEvent {
    e.(acceptedAt := "", envelope := e.envelope.(previousEventHash := Null))
  }

  /** Event by event the same, acceptance times aside. */
  ghost predicate SameChain(a: seq<RealmEvent>, b: seq<RealmEvent>) {
    |a| == |b| && forall i :: 0 <= i < |a| ==> Carried(a[i]) == Carried(b[i])
  }

  lemma CarriedApply(s: AuthorityState, a: RealmEvent, b: RealmEvent)
    requires Carried(a) == Carried(b)
    ensures ApplyEvent(s, a) == ApplyEvent(s, b)
  {
    var c := Carried(a);
    assert b.envelope == a.envelope.(previousEventHash := b.envelope.previousEventHash);
    hide KindOf, Name;
    match KindOf(a.envelope.kind) {
      case None =>
      case Some(kind) => PreviousUnread(kind, s, a.id, a.timestamp, a.envelope, b.envelope, a.payload);
    }
  }

  lemma PreviousUnread(kind: Kind, s: AuthorityState, id: string, time: Json, a: Envelope, b: Envelope, p: Fields)
    requires b == a.(previousEventHash := b.previousEventHash)
    ensures Apply(kind, s, id, time, a, p) == Apply(kind, s, id, time, b, p)
  {
    hide Effect;
    EffectUnread(kind, s, id, time, a, b, p);
  }

  lemma EffectUnread(kind: Kind, s: AuthorityState, id: string, time: Json, a: Envelope, b: Envelope, p: Fields)
    requires b == a.(previousEventHash := b.previousEventHash)
    ensures Effect(kind, s, id, time, a, p) == Effect(kind, s, id, time, b, p)
  {
    hide ToText, Or, Field, OrNull, Key, Stamp, AppliedTarget, TargetRecoveryAuthority, End, TrustRealm,
      ApplyDeviceIssued, ApplySessionIssued, ApplyRecoveryIssued, ApplyTrust, NewRoot;
    SameTargets(a, b, p);
    PreviousUnreadByLists(s, id, time, a, b, p);
    if kind.RootAuthorityCreated? || kind.AuthorityRotated? {
      forall ref, rootId ensures NewRoot(ref, rootId, id, time, a) == NewRoot(ref, rootId, id, time, b) {
        SameRoot(ref, rootId, id, time, a, b);
      }
    }
  }

  lemma SameRoot(ref: string, rootId: Json, id: string, time: Json, a: Envelope, b: Envelope)
    requires Stamp(a, time) == Stamp(b, time)
    ensures NewRoot(ref, rootId, id, time, a) == NewRoot(ref, rootId, id, time, b)
  {
  }

  lemma PreviousUnreadByLists(s: AuthorityState, id: string, time: Json, a: Envelope, b: Envelope, p: Fields)
    requires b == a.(previousEventHash := b.previousEventHash)
    ensures Stamp(a, time) == Stamp(b, time)
    ensures ApplyDeviceIssued(s, id, time, a, p) == ApplyDeviceIssued(s, id, time, b, p)
    ensures ApplySessionIssued(s, id, time, a, p) == ApplySessionIssued(s, id, time, b, p)
    ensures ApplyRecoveryIssued(s, id, time, a, p) == ApplyRecoveryIssued(s, id, time, b, p)
    ensures ApplyTrust(s, id, time, a, p) == ApplyTrust(s, id, time, b, p)
  {
    hide ToText, Or, Field, OrNull, Key, Without, WithoutId, MigrateIssued, IssuedDeviceId, IssuedDeviceRef, TrustRealm;
  }

  lemma {:induction false} SameChainSameState(a: seq<RealmEvent>, b: seq<RealmEvent>)
    requires SameChain(a, b)
    ensures Project(a) == Project(b) && Expected(a) == Expected(b) && Head(a) == Head(b)
    decreases |a|
  {
    hide ApplyEvent, Carried;
    if a != [] {
      var k := |a| - 1;
      SameChainSameState(a[..k], b[..k]);
      CarriedApply(Project(a[..k]), a[k], b[k]);
      CarriedHash(a[k], b[k]);
    }
  }

  lemma CarriedHash(a: RealmEvent, b: RealmEvent)
    requires Carried(a) == Carried(b)
    ensures a.currentEventHash == b.currentEventHash
  {
  }

  // ---- a source event is accepted by a replica that is up to date ----

  /** What the replica reads when it is handed the event object as a proposal. */
  function Renormalized(e: RealmEvent): Normalized {
    var env := e.envelope;
    var previous := Coalesce(Coalesce(env.previousEventHash, HashJson(e.previousEventHash)), Null);
    Normalized(env.(previousEventHash := previous),
               e.payload)
  }

  lemma EventFields(e: RealmEvent)
    ensures Get(EventJson(e), "envelope") == EnvelopeJson(e.envelope)
    ensures Get(EventJson(e), "payload") == Obj(e.payload)
    ensures Get(EventJson(e), "previous_event_hash") == HashJson(e.previousEventHash)
  {
  }

  lemma EnvelopeFields(env: Envelope)
    ensures var j := EnvelopeJson(env);
      && Get(j, "type") == Str(env.kind) && Get(j, "signer") == Str(env.signer)
      && Get(j, "authority_reference") == Str(env.authorityReference)
      && Get(j, "sequence") == (if env.sequence.Some? then Num(env.sequence.value) else Undefined)
      && Get(j, "timestamp") == env.timestamp && Get(j, "previous_event_hash") == env.previousEventHash
  {
  }

  lemma NormalizeEvent(e: RealmEvent, now: string)
    requires IsNormal(e.envelope) && NonBlank(e.envelope.timestamp)
    ensures Normalize(EventJson(e), now) == Renormalized(e)
  {
    EventFields(e);
    EnvelopeFields(e.envelope);
    hide EventJson, Name;
    assert EnvelopeJson(e.envelope).Obj?;
    hide EnvelopeJson, Get;
  }

  lemma ReplicaAccepts(h: Hash, before: seq<RealmEvent>, e: RealmEvent, c: Context, now: string)
    requires Admissible(h, before, e) && c == ContextAt(before)
    ensures Validate(h, c, EventJson(e), now).Accepted?
    ensures Carried(Validate(h, c, EventJson(e), now).event) == Carried(e)
  {
    AdmissibleEvent(h, before, e);
    NormalizeEvent(e, now);
    var n := Renormalized(e);
    RenormalizedAccepted(h, before, e);
    RebuiltCarried(h, c.head, Content(e), n, e.acceptedAt, now);
    hide Reasons, Normalize, EventJson, BuildAccepted, KindOf, Carried, Renormalized, IsNormal;
    assert e == BuildAccepted(h, Head(before), Content(e), e.acceptedAt);
  }

  lemma RenormalizedAccepted(h: Hash, before: seq<RealmEvent>, e: RealmEvent)
    requires Admissible(h, before, e)
    ensures Reasons(ContextAt(before), Renormalized(e)) == []
    ensures KindOf(Renormalized(e).envelope.kind) == Some(e.kind)
    ensures Renormalized(e).envelope == e.envelope.(previousEventHash := Renormalized(e).envelope.previousEventHash)
  {
    AdmissibleEvent(h, before, e);
    hide KindOf, Name, PayloadContract, ContractReasons, CanSign, CheckTransition, NextSequence, Project,
      AuthorityReasons, Reasons, EventHash, EventId, Mirrors;
    var c, n := ContextAt(before), Renormalized(e);
    AcceptedMeans(c, Content(e), e.kind);
    AcceptedMeans(c, n, e.kind);
    CheckIgnoresPrevious(e.kind, c.authority, e.envelope, n.envelope, e.payload);
    assert e.previousEventHash == c.head;
  }

  lemma CheckIgnoresPrevious(kind: Kind, s: AuthorityState, a: Envelope, b: Envelope, p: Fields)
    requires b == a.(previousEventHash := b.previousEventHash)
    ensures CheckTransition(kind, s, a, p) == CheckTransition(kind, s, b, p)
  {
    SameTargets(a, b, p);
    hide TargetDevice, TargetRecoveryAuthority, Key, Or, Field, Find;
  }

  lemma RebuiltCarried(h: Hash, head: Option<string>, a: Normalized, b: Normalized, s: string, t: string)
    requires KindOf(a.envelope.kind).Some? && b.payload == a.payload
    requires b.envelope == a.envelope.(previousEventHash := b.envelope.previousEventHash)
    ensures Carried(BuildAccepted(h, head, a, s)) == Carried(BuildAccepted(h, head, b, t))
  {
    hide KindOf;
    var kind := KindOf(a.envelope.kind).value;
    assert Material(Unlinked(kind, a, s), head) == Material(Unlinked(kind, b, t), head);
    hide Material, Name;
  }

  // ---- a source cut into batches ----

  /** The events of the first batches, in order. */
  function Joined(batches: seq<Batch>): seq<RealmEvent> {
    if batches == [] then [] else Joined(batches[..|batches| - 1]) + EventsIn(batches[|batches| - 1])
  }

  /** Batch `i` is a non-empty segment that starts and ends where its hashes say. */
  ghost predicate Fits(batches: seq<Batch>, i: nat)
    requires i < |batches|
  {
    && !batches[i].importsState && batches[i].events.Some? && EventsIn(batches[i]) != []
    && PreviousOf(batches[i]) == Expected(Joined(batches[..i]))
    && HeadOf(batches[i]) == Expected(Joined(batches[..i + 1]))
  }

  /** The batches are consecutive segments of one legitimate log. */
  ghost predicate Segments(h: Hash, batches: seq<Batch>) {
    Legit(h, Joined(batches)) && forall i :: 0 <= i < |batches| ==> Fits(batches, i)
  }

  lemma JoinedStep(batches: seq<Batch>, i: nat)
    requires i < |batches|
    ensures Joined(batches[..i + 1]) == Joined(batches[..i]) + EventsIn(batches[i])
  {
    assert batches[..i + 1][..i] == batches[..i];
  }

  lemma {:induction false} JoinedPrefix(batches: seq<Batch>, i: nat)
    requires i <= |batches|
    ensures Joined(batches[..i]) <= Joined(batches)
    decreases |batches| - i
  {
    if i < |batches| {
      JoinedPrefix(batches, i + 1);
      JoinedStep(batches, i);
    } else {
      assert batches[..i] == batches;
    }
  }

  lemma {:induction false} JoinedGrows(h: Hash, batches: seq<Batch>, i: nat, j: nat)
    requires Segments(h, batches) && i < j <= |batches|
    ensures |Joined(batches[..i])| < |Joined(batches[..j])|
    decreases j
  {
    hide Legit, Joined;
    assert Fits(batches, j - 1);
    JoinedStep(batches, j - 1);
    if i < j - 1 { JoinedGrows(h, batches, i, j - 1); }
  }

  /** Cuts of one log with the same last hash are the same cut. */
  lemma HashFixesCut(h: Hash, events: seq<RealmEvent>, m: nat, n: nat)
    requires Legit(h, events) && m <= |events| && n <= |events| && CollisionFree(h, Preimages(events))
    requires Expected(events[..m]) == Expected(events[..n])
    ensures m == n
  {
    hide Legit, Material, Encode, Preimages, Verified, OwnSequence, Project, FirstUnsupported;
    if m > 0 && n > 0 {
      HashedAt(h, events, m - 1);
      HashedAt(h, events, n - 1);
      var a, b := Material(events[m - 1], Expected(events[..m - 1])),
        Material(events[n - 1], Expected(events[..n - 1]));
      EncodeInjective(a, b);
      assert Normal(a) == Normal(b);
      NormalSequence(events[m - 1], Expected(events[..m - 1]));
      NormalSequence(events[n - 1], Expected(events[..n - 1]));
    }
  }

  lemma HashedAt(h: Hash, events: seq<RealmEvent>, k: nat)
    requires Legit(h, events) && k < |events|
    ensures Encode(Material(events[k], Expected(events[..k]))) in Preimages(events)
    ensures Expected(events[..k + 1]) == Some(h(Encode(Material(events[k], Expected(events[..k])))))
    ensures OwnSequence(events[k]) == Some(k + 1)
  {
    hide Legit, Material, Encode, Preimages, Project, FirstUnsupported, Mirrors, Supported, FaultIn, LinkFault;
    LegitHistory(h, events);
    VerifiedAt(h, events, k);
    PreimageAt(events, k);
    HashOfLinked(h, events[k], Expected(events[..k]));
  }

  lemma NormalSequence(e: RealmEvent, previous: Option<string>)
    requires OwnSequence(e).Some?
    ensures Get(Normal(Material(e, previous)), "sequence") == Num(OwnSequence(e).value)
  {
    MaterialFields(e, previous);
    hide Material, OwnSequence;
  }

  // ---- one delivery ----

  /** The store holds commands for these events only. */
  ghost predicate StoresOnly(n: Node, events: seq<RealmEvent>) {
    forall id :: id in n.store ==> exists prefix, e :: e in events && id == CommandIdFor(prefix, e.eventId)
  }

  /** The replica holds a copy of these events, replayed, and has stored commands for nothing else. */
  ghost predicate Holds(x: Runtime, n: Node, events: seq<RealmEvent>) {
    Live(x.hash, n.ledger) && SameChain(Realms(n.ledger.log), events) && StoresOnly(n, events)
  }

  /** Commands for different events of one log have different ids, whatever their prefixes. */
  lemma CommandIdsDiffer(h: Hash, events: seq<RealmEvent>, i: nat, j: nat, p: string, q: string)
    requires Legit(h, events) && i < |events| && j < |events|
    requires CommandIdFor(p, events[i].eventId) == CommandIdFor(q, events[j].eventId)
    ensures i == j
  {
    hide Legit, Decimal, IsSpace;
    var a := SolidId(h, events, i);
    var b := SolidId(h, events, j);
    ColonSplits("transport:" + p, "transport:" + q, events[i].eventId, events[j].eventId);
    IdsDistinct(h, events, i, j);
  }

  lemma EventCommandId(b: Batch, e: RealmEvent, index: nat)
    requires e.eventId != "" && !IsSpace(e.eventId[|e.eventId| - 1])
    ensures CommandId(EventCommand(b, e, index)) == CommandIdFor(Prefix(b), e.eventId)
  {
    hide Prefix, EventJson;
    var id := CommandIdFor(Prefix(b), e.eventId);
    assert id[0] == 't' && id[|id| - 1] == e.eventId[|e.eventId| - 1];
    assert CommandId(EventCommand(b, e, index)) == Trim(id);
  }

  lemma EventCommandType(b: Batch, e: RealmEvent, index: nat)
    ensures CommandType(EventCommand(b, e, index)) == SUBMIT
    ensures SubmittedProposal(EventCommand(b, e, index)) == EventJson(e)
  {
    hide Prefix, EventRef, EventJson, SUBMIT, Trim;
    SubmitIsTrimmed();
    EventIsObject(e);
  }

  lemma SubmitIsTrimmed()
    ensures Trim(SUBMIT) == SUBMIT
  {
    assert SUBMIT[0] == 'S' && SUBMIT[|SUBMIT| - 1] == 'T';
  }

  lemma EventIsObject(e: RealmEvent)
    ensures EventJson(e).Obj?
  {
  }

  /** Handing the next source event to an up-to-date replica: it is accepted and the copy is one event longer. */
  lemma NextEventArrives(x: Runtime, n: Node, source: seq<RealmEvent>, k: nat, b: Batch, index: nat, now: string)
    requires Legit(x.hash, source) && k < |source| && Holds(x, n, source[..k])
    ensures var (next, reply) := Handle(x, n, EventCommand(b, source[k], index), now);
      Holds(x, next, source[..k + 1]) && Succeeded(reply)
  {
    hide Legit, EventCommand, Validate, EventJson, IsSpace, CommandIdFor, Prefix, Applied, Handle, CommandId,
      CommandType, SubmittedProposal, Live, SameChain, StoresOnly, Succeeded;
    var e, c, l := source[k], EventCommand(b, source[k], index), n.ledger;
    var rest := SolidId(x.hash, source, k);
    EventCommandId(b, e, index);
    EventCommandType(b, e, index);
    FreshCommand(x, n, source, k, Prefix(b));
    CopyAccepted(x, l, source, k, now);
    SubmitHandled(x, n, c, now);
    StoreGrows(n, Handle(x, n, c, now).0, source, k, Prefix(b));
  }

  /** An up-to-date ledger accepts the next source event, and is up to date again. */
  lemma CopyAccepted(x: Runtime, l: LedgerValue, source: seq<RealmEvent>, k: nat, now: string)
    requires Legit(x.hash, source) && k < |source|
    requires Live(x.hash, l) && SameChain(Realms(l.log), source[..k])
    ensures var verdict := Validate(x.hash, ContextOf(l), EventJson(source[k]), now);
      && verdict.Accepted?
      && Live(x.hash, Applied(l, Realm(verdict.event)))
      && SameChain(Realms(Applied(l, Realm(verdict.event)).log), source[..k + 1])
  {
    hide *;
    LegitAt(x.hash, source, k);
    LiveContext(x.hash, l);
    SameContext(Realms(l.log), source[..k]);
    ReplicaAccepts(x.hash, source[..k], source[k], ContextOf(l), now);
    AcceptedIsAdmissible(x.hash, Realms(l.log), EventJson(source[k]), now);
    var copy := Validate(x.hash, ContextOf(l), EventJson(source[k]), now).event;
    AppendKeepsReplay(x.hash, l, copy);
    ChainAppend(Realms(l.log), source[..k], copy, source[k]);
    assert source[..k + 1] == source[..k] + [source[k]];
  }

  lemma SameContext(a: seq<RealmEvent>, b: seq<RealmEvent>)
    requires SameChain(a, b)
    ensures ContextAt(a) == ContextAt(b)
  {
    hide Project, Head, SameChain;
    SameChainSameState(a, b);
  }

  lemma ChainAppend(a: seq<RealmEvent>, b: seq<RealmEvent>, e: RealmEvent, f: RealmEvent)
    requires SameChain(a, b) && Carried(e) == Carried(f)
    ensures SameChain(a + [e], b + [f])
  {
    hide Carried;
  }

  lemma FreshCommand(x: Runtime, n: Node, source: seq<RealmEvent>, k: nat, prefix: string)
    requires Legit(x.hash, source) && k < |source| && StoresOnly(n, source[..k])
    ensures CommandIdFor(prefix, source[k].eventId) !in n.store
    ensures CommandIdFor(prefix, source[k].eventId) != ""
  {
    hide Legit, CommandIdFor;
    assert CommandIdFor(prefix, source[k].eventId) != "" by { IdForIsText(prefix, source[k].eventId); }
    if CommandIdFor(prefix, source[k].eventId) in n.store {
      var q, e :| e in source[..k] && CommandIdFor(prefix, source[k].eventId) == CommandIdFor(q, e.eventId);
      var i :| 0 <= i < k && source[i] == e;
      CommandIdsDiffer(x.hash, source, k, i, prefix, q);
    }
  }

  lemma IdForIsText(prefix: string, ref: string)
    ensures CommandIdFor(prefix, ref) != ""
  {
  }

  lemma StoreGrows(n: Node, next: Node, source: seq<RealmEvent>, k: nat, prefix: string)
    requires k < |source| && StoresOnly(n, source[..k])
    requires next.store.Keys == n.store.Keys + {CommandIdFor(prefix, source[k].eventId)}
    ensures StoresOnly(next, source[..k + 1])
  {
    hide CommandIdFor;
    forall id | id in next.store
      ensures exists p, e :: e in source[..k + 1] && id == CommandIdFor(p, e.eventId) {
      if id in n.store {
        var p, e :| e in source[..k] && id == CommandIdFor(p, e.eventId);
        assert e in source[..k + 1];
      } else {
        assert source[..k + 1][k] == source[k];
      }
    }
  }

  /** A new submission runs acceptance once and records its id. */
  lemma SubmitHandled(x: Runtime, n: Node, c: Command, now: string)
    requires CommandType(c) == SUBMIT && CommandId(c) != "" && CommandId(c) !in n.store
    ensures var (next, reply) := Handle(x, n, c, now);
      var verdict := Validate(x.hash, ContextOf(n.ledger), SubmittedProposal(c), now);
      && next.store.Keys == n.store.Keys + {CommandId(c)}
      && (verdict.Accepted? ==> next.ledger == Applied(n.ledger, Realm(verdict.event)) && Succeeded(reply))
  {
    hide Validate, Applied, CommandId, Fingerprint, SubmittedProposal, CommandType, PlanOf;
    assert SUBMIT != "" && SUBMIT != CEREMONY && SUBMIT != REMOTE by { KindsDiffer(); }
  }

  lemma KindsDiffer()
    ensures SUBMIT != "" && SUBMIT != CEREMONY && SUBMIT != REMOTE
  {
  }

  /** A whole segment handed to a replica that stops where the segment starts. */
  lemma {:induction false} SegmentArrives(x: Runtime, n: Node, source: seq<RealmEvent>, k: nat, b: Batch, i: nat,
                                          replies: seq<Reply>, now: string)
    requires Legit(x.hash, source) && b.events.Some? && i <= |EventsIn(b)| && k + |EventsIn(b)| - i <= |source|
    requires source[k..k + |EventsIn(b)| - i] == EventsIn(b)[i..]
    requires Holds(x, n, source[..k])
    ensures Holds(x, Deliver(x, n, replies, BatchCommands(b)[i..], now).0, source[..k + |EventsIn(b)| - i])
    decreases |EventsIn(b)| - i
  {
    hide Legit, Holds, Handle, EventCommand, Succeeded;
    var events, commands := EventsIn(b), BatchCommands(b);
    if i == |events| {
      assert commands[i..] == [];
    } else {
      assert source[k] == source[k..k + |events| - i][0] == events[i];
      assert commands[i..][0] == EventCommand(b, source[k], i) && commands[i..][1..] == commands[i + 1..];
      NextEventArrives(x, n, source, k, b, i, now);
      var (next, reply) := Handle(x, n, EventCommand(b, source[k], i), now);
      assert source[k + 1..k + 1 + |events| - (i + 1)] == source[k..k + |events| - i][1..] == events[i + 1..];
      SegmentArrives(x, next, source, k + 1, b, i + 1, replies + [reply], now);
    }
  }

  // ---- any schedule of deliveries ----

  datatype Delivery = Delivery(index: nat, now: string)

  /** What a replica that starts empty holds after deliveries of the batches, in any order and number. */
  function Delivered(x: Runtime, batches: seq<Batch>, schedule: seq<Delivery>): Node {
    if schedule == [] then Node(EMPTY_LEDGER, map[])
    else
      var k := |schedule| - 1;
      var before := Delivered(x, batches, schedule[..k]);
      if schedule[k].index < |batches|
        then Receive(x, before, batches[schedule[k].index], schedule[k].now).0 else before
  }

  /** How many batches have come, each after the ones before it. */
  function Progress(batches: nat, schedule: seq<Delivery>): (done: nat)
    ensures done <= batches
  {
    if schedule == [] then 0
    else
      var k := |schedule| - 1;
      var done := Progress(batches, schedule[..k]);
      if done < batches && schedule[k].index == done then done + 1 else done
  }

  lemma NextBatch(x: Runtime, n: Node, batches: seq<Batch>, j: nat, now: string)
    requires Segments(x.hash, batches) && j < |batches| && Holds(x, n, Joined(batches[..j]))
    ensures Holds(x, Receive(x, n, batches[j], now).0, Joined(batches[..j + 1]))
  {
    hide Legit, Holds, Joined, Deliver, BatchCommands, CachedReplay, SegmentFault, FaultIn, Project;
    var b, source, k := batches[j], Joined(batches), |Joined(batches[..j])|;
    assert Fits(batches, j);
    JoinedStep(batches, j);
    JoinedPrefix(batches, j);
    JoinedPrefix(batches, j + 1);
    assert source[..k] == Joined(batches[..j]) && source[..k + |EventsIn(b)|] == Joined(batches[..j + 1]);
    HeldHead(x, n, source[..k]);
    VerifiedCut(x.hash, source, k);
    VerifiedCut(x.hash, source, k + |EventsIn(b)|);
    SegmentLinks(x.hash, source[..k], EventsIn(b));
    assert EnvelopeError(x.hash, b, Head(Linked(n.ledger.log))).None?;
    assert source[k..k + |EventsIn(b)| - 0] == EventsIn(b)[0..];
    SegmentArrives(x, n, source, k, b, 0, [], now);
    assert BatchCommands(b)[0..] == BatchCommands(b);
  }

  lemma HeldHead(x: Runtime, n: Node, events: seq<RealmEvent>)
    requires Holds(x, n, events)
    ensures Head(Linked(n.ledger.log)) == Expected(events)
  {
    hide Legit, Project, StoresOnly, Linked, Realms, Head, Expected;
    LiveContext(x.hash, n.ledger);
    SameChainSameState(Realms(n.ledger.log), events);
    LegitVerifies(x.hash, Realms(n.ledger.log));
  }

  lemma VerifiedCut(h: Hash, events: seq<RealmEvent>, k: nat)
    requires Legit(h, events) && k <= |events|
    ensures Verified(h, events[..k])
  {
    hide Legit, FaultIn;
    LegitVerifies(h, events);
    VerifiedPrefix(h, events, k);
  }

  /** A batch that does not start at the local head leaves the node alone. */
  lemma OtherBatch(x: Runtime, n: Node, batches: seq<Batch>, j: nat, i: nat, now: string)
    requires Segments(x.hash, batches) && j <= |batches| && i < |batches| && i != j
    requires Holds(x, n, Joined(batches[..j])) && CollisionFree(x.hash, Preimages(Joined(batches)))
    ensures Receive(x, n, batches[i], now).0 == n
  {
    hide Legit, Holds, Joined, Receive, CollisionFree, Preimages, Expected, Head, Linked, PreviousOf;
    var source := Joined(batches);
    assert Fits(batches, i);
    JoinedPrefix(batches, i);
    JoinedPrefix(batches, j);
    HeldHead(x, n, Joined(batches[..j]));
    var a, b := |Joined(batches[..i])|, |Joined(batches[..j])|;
    assert source[..a] == Joined(batches[..i]) && source[..b] == Joined(batches[..j]);
    if i < j { JoinedGrows(x.hash, batches, i, j); } else { JoinedGrows(x.hash, batches, j, i); }
    if PreviousOf(batches[i]) == Head(Linked(n.ledger.log)) {
      HashFixesCut(x.hash, source, a, b);
    } else {
      StaleBatch(x, n, batches[i], now);
    }
  }

  lemma StaleBatch(x: Runtime, n: Node, b: Batch, now: string)
    requires PreviousOf(b) != Head(Linked(n.ledger.log))
    ensures Receive(x, n, b, now).0 == n
  {
    hide Deliver, BatchCommands, CachedReplay, SegmentFault, Head, Linked, PreviousOf;
  }

  /** Safety and convergence: whatever is lost, repeated or reordered, the replica holds exactly the batches that have
      come in order, with the source's hashes, ids and projection. */
  lemma {:induction false} ReplicaHoldsProgress(x: Runtime, batches: seq<Batch>, schedule: seq<Delivery>)
    requires Segments(x.hash, batches) && CollisionFree(x.hash, Preimages(Joined(batches)))
    ensures Holds(x, Delivered(x, batches, schedule), Joined(batches[..Progress(|batches|, schedule)]))
  {
    hide Holds, Segments, Receive, Joined, CollisionFree, Preimages;
    if schedule == [] {
      EmptyHolds(x, batches);
    } else {
      var k := |schedule| - 1;
      ReplicaHoldsProgress(x, batches, schedule[..k]);
      var before, done := Delivered(x, batches, schedule[..k]), Progress(|batches|, schedule[..k]);
      var i, now := schedule[k].index, schedule[k].now;
      if i < |batches| {
        if i == done {
          NextBatch(x, before, batches, done, now);
        } else {
          OtherBatch(x, before, batches, done, i, now);
        }
      }
    }
  }

  lemma EmptyHolds(x: Runtime, batches: seq<Batch>)
    ensures Holds(x, Node(EMPTY_LEDGER, map[]), Joined(batches[..0]))
  {
    assert batches[..0] == [];
  }

  /** The replica's projection and head are those of the source's prefix. */
  lemma ReplicaProjection(x: Runtime, batches: seq<Batch>, schedule: seq<Delivery>)
    requires Segments(x.hash, batches) && CollisionFree(x.hash, Preimages(Joined(batches)))
    ensures var replica, prefix := Delivered(x, batches, schedule), Joined(batches[..Progress(|batches|, schedule)]);
      && prefix <= Joined(batches)
      && replica.ledger.authority == Project(prefix)
      && Head(Linked(replica.ledger.log)) == Expected(prefix)
  {
    hide Segments, Receive, Joined, CollisionFree, Preimages, Delivered, StoresOnly, Legit, Project;
    var done := Progress(|batches|, schedule);
    ReplicaHoldsProgress(x, batches, schedule);
    JoinedPrefix(batches, done);
    HeldHead(x, Delivered(x, batches, schedule), Joined(batches[..done]));
    SameChainSameState(Realms(Delivered(x, batches, schedule).ledger.log), Joined(batches[..done]));
  }

  /** The first `k` batches occur in the schedule, each somewhere after the one before it. */
  ghost predicate InOrder(schedule: seq<Delivery>, k: nat) {
    k == 0 || exists p :: 0 <= p < |schedule| && schedule[p].index == k - 1 && InOrder(schedule[..p], k - 1)
  }

  lemma {:induction false} InOrderLonger(schedule: seq<Delivery>, n: nat, k: nat)
    requires n <= |schedule| && InOrder(schedule[..n], k)
    ensures InOrder(schedule, k)
  {
    if k > 0 {
      var p :| 0 <= p < n && schedule[..n][p].index == k - 1 && InOrder(schedule[..n][..p], k - 1);
      assert schedule[..n][..p] == schedule[..p];
    }
  }

  /** Progress counts precisely the batches the schedule contains in order. */
  lemma {:induction false} ProgressIffInOrder(batches: nat, schedule: seq<Delivery>, k: nat)
    requires k <= batches
    ensures Progress(batches, schedule) >= k <==> InOrder(schedule, k)
    decreases |schedule|, k
  {
    if schedule == [] || k == 0 {
      InOrderAtFirst(schedule, k);
    } else {
      hide InOrder;
      var n := |schedule| - 1;
      ProgressIffInOrder(batches, schedule[..n], k);
      ProgressIffInOrder(batches, schedule[..n], k - 1);
      InOrderStep(schedule, k);
    }
  }

  lemma InOrderAtFirst(schedule: seq<Delivery>, k: nat)
    requires schedule == [] || k == 0
    ensures InOrder(schedule, k) <==> k == 0
  {
  }

  /** The last delivery is the next batch, or it does not matter. */
  lemma InOrderStep(schedule: seq<Delivery>, k: nat)
    requires schedule != [] && k > 0
    ensures var n := |schedule| - 1;
      InOrder(schedule, k)
      <==> InOrder(schedule[..n], k) || (schedule[n].index == k - 1 && InOrder(schedule[..n], k - 1))
  {
    var n := |schedule| - 1;
    if InOrder(schedule[..n], k) { InOrderLonger(schedule, n, k); }
    if InOrder(schedule, k) {
      var p :| 0 <= p < |schedule| && schedule[p].index == k - 1 && InOrder(schedule[..p], k - 1);
      if p < n { assert schedule[..n][..p] == schedule[..p] && schedule[..n][p] == schedule[p]; }
    }
  }

  /** The replica ends with the whole source log exactly when the schedule contains all batches in order. */
  lemma Convergence(x: Runtime, batches: seq<Batch>, schedule: seq<Delivery>)
    requires Segments(x.hash, batches) && CollisionFree(x.hash, Preimages(Joined(batches)))
    ensures SameChain(Realms(Delivered(x, batches, schedule).ledger.log), Joined(batches))
      <==> InOrder(schedule, |batches|)
  {
    hide Receive, Joined, CollisionFree, Preimages, Delivered, StoresOnly, Legit, Progress, InOrder, Fits;
    var done := Progress(|batches|, schedule);
    ReplicaHoldsProgress(x, batches, schedule);
    ProgressIffInOrder(|batches|, schedule, |batches|);
    assert batches[..|batches|] == batches;
    if done < |batches| { JoinedGrows(x.hash, batches, done, |batches|); }
  }
}
