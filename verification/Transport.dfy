/** Batches of events between realms: verification, delivery, and what any schedule of deliveries leaves. */
module Transport {
  import opened Text
  import opened JsonValues
  import opened Registry
  import opened History
  import opened Pipeline
  import opened Commands

  /** A batch as received; empty texts stand for absent names. */
  datatype Batch = Batch(
    events: Option<seq<RealmEvent>>, importsState: bool,
    previousEventHash: Option<string>, previousHash: Option<string>,
    headHash: Option<string>, currentEventHash: Option<string>,
    commandId: string, commandIdPrefix: string, deliveryId: string, transportId: string, batchId: string,
    transport: string, remoteRealmId: string, source: string)

  datatype TransportError =
    | StateImportForbidden
    | EventsRequired
    | HistoryGap
    | EventHashMismatch
    | EventIdMismatch
    | HeadHashMismatch

  datatype BatchReply =
    | Received(replies: seq<Reply>)
    | Stopped(replies: seq<Reply>)
    | Replayed(replies: seq<Reply>)
    | Mismatched(reply: Reply)
    | Invalid(error: TransportError)

  function FirstSome(a: Option<string>, b: Option<string>): Option<string> {
    if a.Some? then a else b
  }

  function PreviousOf(b: Batch): Option<string> {
    FirstSome(b.previousEventHash, b.previousHash)
  }

  function HeadOf(b: Batch): Option<string> {
    FirstSome(b.headHash, b.currentEventHash)
  }

  function EventsIn(b: Batch): seq<RealmEvent> {
    if b.events.Some? then b.events.value else []
  }

  // ---- verification ----

  function AsTransportError(fault: Fault): TransportError {
    match fault
    case ChainBroken(_) => HistoryGap
    case HashMismatch(_) => EventHashMismatch
    case IdMismatch(_) => EventIdMismatch
  }

  /** The hash a segment ends on. */
  function EndOf(previous: Option<string>, events: seq<RealmEvent>): Option<string> {
    if events == [] then previous else Expected(events)
  }

  /** The first fault of a segment that starts after the hash `previous`. */
  function SegmentFault(h: Hash, previous: Option<string>, events: seq<RealmEvent>): Option<Fault> {
    if events == [] then None
    else
      var k := |events| - 1;
      var fault := SegmentFault(h, previous, events[..k]);
      if fault.Some? then fault else LinkFault(h, events[k], EndOf(previous, events[..k]))
  }

  lemma {:induction false} SegmentFaultStays(h: Hash, previous: Option<string>, events: seq<RealmEvent>, k: nat)
    requires k <= |events| && SegmentFault(h, previous, events[..k]).Some?
    ensures SegmentFault(h, previous, events) == SegmentFault(h, previous, events[..k])
    decreases |events|
  {
    hide LinkFault;
    if k < |events| {
      var before := events[..|events| - 1];
      assert before[..k] == events[..k];
      SegmentFaultStays(h, previous, before, k);
    } else {
      assert events[..k] == events;
    }
  }

  method VerifyTransportEventSegment(h: Hash, previous: Option<string>, events: seq<RealmEvent>)
    returns (error: Option<TransportError>, head: Option<string>)
    ensures error == match SegmentFault(h, previous, events)
                     case Some(fault) => Some(AsTransportError(fault)) case None => None
    ensures error.None? ==> head == EndOf(previous, events)
  {
    hide LinkFault;
    head := previous;
    for i := 0 to |events|
      invariant SegmentFault(h, previous, events[..i]).None?
      invariant head == EndOf(previous, events[..i])
    {
      assert events[..i + 1][..i] == events[..i];
      var fault := LinkFault(h, events[i], head);
      if fault.Some? {
        SegmentFaultStays(h, previous, events, i + 1);
        return Some(AsTransportError(fault.value)), head;
      }
      head := Some(events[i].currentEventHash);
    }
    assert events[..|events|] == events;
    error := None;
  }

  /** `verifyTransportEnvelope` against the local head. */
  function EnvelopeError(h: Hash, b: Batch, localHead: Option<string>): Option<TransportError> {
    if b.importsState then Some(StateImportForbidden)
    else if b.events.None? then Some(EventsRequired)
    else if PreviousOf(b) != localHead then Some(HistoryGap)
    else
      match SegmentFault(h, PreviousOf(b), b.events.value)
      case Some(fault) => Some(AsTransportError(fault))
      case None => if HeadOf(b) != EndOf(PreviousOf(b), b.events.value) then Some(HeadHashMismatch) else None
  }

  /** A segment verifies after a verified list of links exactly when the two together are one. */
  lemma {:induction false} SegmentLinks(h: Hash, before: seq<RealmEvent>, events: seq<RealmEvent>)
    requires Verified(h, before)
    ensures Verified(h, before + events) <==> SegmentFault(h, Expected(before), events).None?
    ensures EndOf(Expected(before), events) == Expected(before + events)
    decreases |events|
  {
    hide LinkFault;
    if events == [] {
      assert before + events == before;
    } else {
      var k := |events| - 1;
      SegmentLinks(h, before, events[..k]);
      assert before + events == (before + events[..k]) + [events[k]];
      FaultAppend(h, before + events[..k], events[k]);
    }
  }

  lemma {:induction false} ChainedJoined(before: seq<RealmEvent>, events: seq<RealmEvent>)
    requires forall e :: e in events ==> Chained(e)
    ensures ChainedOf(before + events) == ChainedOf(before) + events
    decreases |events|
  {
    hide Chained;
    if events == [] {
      assert before + events == before;
    } else {
      var k := |events| - 1;
      assert events[k] in events;
      ChainedJoined(before, events[..k]);
      assert before + events == (before + events[..k]) + [events[k]];
      ChainedAppend(before + events[..k], events[k]);
    }
  }

  /** A segment of hash-chained events verifies after a verified history exactly when the history it makes verifies. */
  lemma SegmentExtends(h: Hash, before: seq<RealmEvent>, events: seq<RealmEvent>)
    requires Verified(h, ChainedOf(before)) && forall e :: e in events ==> Chained(e)
    ensures Verified(h, ChainedOf(before + events)) <==> SegmentFault(h, Expected(ChainedOf(before)), events).None?
    ensures EndOf(Expected(ChainedOf(before)), events) == Expected(ChainedOf(before + events))
  {
    hide *;
    ChainedJoined(before, events);
    SegmentLinks(h, ChainedOf(before), events);
  }

  // ---- commands ----

  function Prefix(b: Batch): string {
    var head := match HeadOf(b) case Some(text) => text case None => "";
    FirstOf(b.commandId, FirstOf(b.commandIdPrefix, FirstOf(b.deliveryId, FirstOf(b.transportId,
      FirstOf(b.batchId, FirstOf(head, "transport_batch"))))))
  }

  function EventRef(e: RealmEvent, index: nat): string {
    FirstOf(e.eventId, FirstOf(e.id, FirstOf(e.currentEventHash, "event_" + Decimal(index))))
  }

  function CommandIdFor(prefix: string, eventRef: string): string {
    "transport:" + prefix + ":" + eventRef
  }

  function EnvelopeJson(env: Envelope): Json {
    Obj(map[
      "type" := Str(env.kind), "signer" := Str(env.signer), "authority_reference" := Str(env.authorityReference),
      "sequence" := if env.sequence.Some? then Num(env.sequence.value) else Undefined,
      "timestamp" := env.timestamp, "previous_event_hash" := env.previousEventHash])
  }

  /** The event object itself, which is submitted as the proposal. */
  function EventJson(e: RealmEvent): Json {
    Obj(map[
      "type" := Str(Name(e.kind)), "realm_event" := Bool(e.flagged), "version" := Num(e.version),
      "projection_version" := Num(e.projectionVersion), "envelope" := EnvelopeJson(e.envelope),
      "payload" := Obj(e.payload), "signer" := Str(e.signer), "authority_reference" := Str(e.authorityReference),
      "sequence" := if e.sequence.Some? then Num(e.sequence.value) else Undefined, "timestamp" := e.timestamp,
      "accepted_at" := Str(e.acceptedAt), "id" := Str(e.id), "event_id" := Str(e.eventId),
      "previous_event_hash" := HashJson(e.previousEventHash), "current_event_hash" := Str(e.currentEventHash)])
  }

  function TextOrNull(s: string): Json {
    if s == "" then Null else Str(s)
  }

  function EventCommand(b: Batch, e: RealmEvent, index: nat): Command {
    Command(
      Str(CommandIdFor(Prefix(b), EventRef(e, index))), Str(SUBMIT), Obj(map["proposal" := EventJson(e)]),
      Obj(map["transport" := Str(FirstOf(b.transport, FirstOf(b.remoteRealmId,
                                   FirstOf(b.source, "realm_replication_transport"))))]),
      Obj(map["batch_head_hash" := HashJson(HeadOf(b)), "batch_previous_event_hash" := HashJson(PreviousOf(b)),
              "delivery_id" := TextOrNull(b.deliveryId), "remote_realm_id" := TextOrNull(b.remoteRealmId)]))
  }

  function BatchCommands(b: Batch): seq<Command> {
    var events := EventsIn(b);
    seq(|events|, i requires 0 <= i < |events| => EventCommand(b, events[i], i))
  }

  // ---- delivery ----

  predicate Succeeded(reply: Reply) {
    reply.Reply? && reply.result.Done?
  }

  /** Commands run in order until one fails. */
  function Deliver(x: Runtime, n: Node, replies: seq<Reply>, commands: seq<Command>, now: string): (Node, BatchReply)
    decreases |commands|
  {
    if commands == [] then (n, Received(replies))
    else
      var (next, reply) := Handle(x, n, commands[0], now);
      if !Succeeded(reply) then (next, Stopped(replies + [reply]))
      else Deliver(x, next, replies + [reply], commands[1..], now)
  }

  /** The store is asked for the ids as they are, whereas records are kept under trimmed ids. */
  predicate AllStored(n: Node, commands: seq<Command>) {
    forall i :: 0 <= i < |commands| ==> ToText(commands[i].commandId) in n.store
  }

  /** The replies a fully stored batch gets; handling a stored command leaves the node as it is. */
  function StoredReplies(x: Runtime, n: Node, commands: seq<Command>, now: string): seq<Reply> {
    seq(|commands|, i requires 0 <= i < |commands| => Handle(x, n, commands[i], now).1)
  }

  function FirstMismatch(replies: seq<Reply>): Option<Reply> {
    if replies == [] then None
    else if replies[0].IntentMismatch? then Some(replies[0])
    else FirstMismatch(replies[1..])
  }

  /** `cachedBatchReplay` */
  function CachedReplay(x: Runtime, n: Node, b: Batch, now: string): Option<BatchReply> {
    var commands := BatchCommands(b);
    if commands == [] || !AllStored(n, commands) then None
    else
      var replies := StoredReplies(x, n, commands, now);
      if FirstMismatch(replies).Some? then Some(Mismatched(FirstMismatch(replies).value))
      else if exists i :: 0 <= i < |replies| && !(replies[i].Reply? && replies[i].idempotentReplay) then None
      else Some(Replayed(replies))
  }

  /** `receiveEventBatch` */
  function Receive(x: Runtime, n: Node, b: Batch, now: string): (Node, BatchReply) {
    if b.importsState then (n, Invalid(StateImportForbidden))
    else
      match EnvelopeError(x.hash, b, Head(Linked(n.ledger.log)))
      case None => Deliver(x, n, [], BatchCommands(b), now)
      case Some(error) =>
        match CachedReplay(x, n, b, now)
        case Some(reply) => (n, reply)
        case None => (n, Invalid(error))
  }

  method RunCommands(x: Runtime, ledger: Ledger, store: ExecutionStore, commands: seq<Command>, now: string)
    returns (reply: BatchReply)
    modifies ledger, store
    ensures (Node(ledger.Value(), store.records), reply)
         == Deliver(x, Node(old(ledger.Value()), old(store.records)), [], commands, now)
  {
    hide Handle;
    var commandResults: seq<Reply> := [];
    ghost var start := Node(ledger.Value(), store.records);
    for i := 0 to |commands|
      invariant Deliver(x, Node(ledger.Value(), store.records), commandResults, commands[i..], now)
             == Deliver(x, start, [], commands, now)
    {
      assert commands[i..][1..] == commands[i + 1..];
      var result := ExecuteCommand(x, ledger, store, commands[i], now);
      commandResults := commandResults + [result];
      if !Succeeded(result) {
        return Stopped(commandResults);
      }
    }
    reply := Received(commandResults);
  }

  method ReceiveEventBatch(x: Runtime, ledger: Ledger, store: ExecutionStore, batch: Batch, now: string)
    returns (reply: BatchReply)
    modifies ledger, store
    ensures (Node(ledger.Value(), store.records), reply)
         == Receive(x, Node(old(ledger.Value()), old(store.records)), batch, now)
  {
    hide Deliver, CachedReplay, BatchCommands, SegmentFault;
    if batch.importsState {
      return Invalid(StateImportForbidden);
    }
    var localHead := LatestRealmEventHash(ledger.log);
    var error: Option<TransportError>;
    if batch.events.None? {
      error := Some(EventsRequired);
    } else if PreviousOf(batch) != localHead {
      error := Some(HistoryGap);
    } else {
      var head;
      error, head := VerifyTransportEventSegment(x.hash, PreviousOf(batch), batch.events.value);
      if error.None? && HeadOf(batch) != head {
        error := Some(HeadHashMismatch);
      }
    }
    if error.Some? {
      var replay := CachedReplay(x, Node(ledger.Value(), store.records), batch, now);
      return if replay.Some? then replay.value else Invalid(error.value);
    }
    reply := RunCommands(x, ledger, store, BatchCommands(batch), now);
  }
}
