/** Commands and the execution store that makes them idempotent. */
module Commands {
  import opened Text
  import opened JsonValues
  import opened JsonParser
  import opened Registry
  import opened History
  import opened Validator
  import opened Pipeline
  import opened Runs
  import opened EventIds
  import opened Ceremony

  /** What a check in front of acceptance decides: refuse, hand a proposal on, or throw. */
  datatype Checked = Refuse(code: string) | Forward(proposal: Json)

  /** The hash, and the two checks kept abstract: device signatures and remote realm evidence. The remote check
      throws where `remoteThrows` says so, which depends on the payload alone. */
  datatype Runtime = Runtime(
    hash: Hash,
    checkDevice: (AuthorityState, Json, Json) -> Checked,
    checkRemote: (Json, string) -> Checked,
    remoteThrows: Json -> bool)

  datatype Command = Command(commandId: Json, kind: Json, payload: Json, actor: Json, evidence: Json)

  datatype CommandResult =
    | Done(events: seq<RealmEvent>)
    | Denied(events: seq<RealmEvent>, reasons: seq<Reason>)
    | Refused(code: string)
    | TypeUnsupported

  datatype Record = Record(intentFingerprint: string, result: CommandResult, acceptedEventIds: seq<string>)

  type RecordStore = map<string, Record>

  /** A ledger together with its execution store. */
  datatype Node = Node(ledger: LedgerValue, store: RecordStore)

  datatype Reply =
    | Reply(commandId: Option<string>, result: CommandResult, acceptedEventIds: seq<string>, idempotentReplay: bool)
    | IntentMismatch(id: string)
    | CommandThrew(error: Thrown)

  function ObjectOr(v: Json): Json {
    if v.Obj? || v.Arr? then v else Obj(map[])
  }

  function CommandType(c: Command): string {
    Trim(Key(c.kind))
  }

  function CommandId(c: Command): string {
    Trim(Key(c.commandId))
  }

  /** The part of a command its fingerprint covers. */
  function CommandIntent(c: Command): Json {
    Obj(map["type" := Str(CommandType(c)), "payload" := ObjectOr(c.payload), "actor" := Or(c.actor, Null),
            "evidence" := ObjectOr(c.evidence)])
  }

  function Fingerprint(h: Hash, c: Command): string {
    h(Encode(CommandIntent(c)))
  }

  function PayloadFields(c: Command): Fields {
    if c.payload.Obj? then c.payload.fields else map[]
  }

  const SUBMIT := "SUBMIT_REALM_EVENT"
  const CEREMONY := "EXECUTE_RECOVERY_CEREMONY"
  const DEVICE := "SUBMIT_DEVICE_EVENT"
  const REMOTE := "RECOGNIZE_REMOTE_REALM"

  /** A command throws, before it touches anything, for reasons its own content settles. */
  function ThrownBy(x: Runtime, c: Command): Option<Thrown> {
    if CommandType(c) == "" then Some(CommandTypeRequired)
    else if CommandType(c) == CEREMONY then
      match PlanOf(PayloadFields(c), "") case Failure(error) => Some(error) case Success(_) => None
    else if CommandType(c) == REMOTE && x.remoteThrows(ObjectOr(c.payload)) then Some(PropertyOfNothing)
    else None
  }

  function SubmitOne(h: Hash, l: LedgerValue, proposal: Json, now: string): (LedgerValue, CommandResult) {
    match Validate(h, ContextOf(l), proposal, now)
    case Accepted(e) => (Applied(l, Realm(e)), Done([e]))
    case Rejected(reasons) => (l, Denied([], reasons))
  }

  /** The proposal a checked command hands to acceptance, if any. */
  function Checking(x: Runtime, s: AuthorityState, c: Command, now: string): Checked {
    if CommandType(c) == DEVICE then x.checkDevice(s, ObjectOr(c.payload), ObjectOr(c.evidence))
    else x.checkRemote(ObjectOr(c.payload), now)
  }

  function SubmittedProposal(c: Command): Json {
    Or(Get(c.payload, "proposal"), ObjectOr(c.payload))
  }

  /** `executeRealmCommand` for a command that does not throw. */
  function Execute(x: Runtime, l: LedgerValue, c: Command, now: string): (LedgerValue, CommandResult)
    requires ThrownBy(x, c).None?
  {
    if CommandType(c) == SUBMIT then SubmitOne(x.hash, l, SubmittedProposal(c), now)
    else if CommandType(c) == CEREMONY then
      PlanIgnoresClock(PayloadFields(c), now);
      var o := Submit(x.hash, l, [], Proposals(PlanOf(PayloadFields(c), now).value), now);
      (o.ledger, if o.failure.None? then Done(o.accepted) else Denied(o.accepted, o.failure.value))
    else if CommandType(c) == DEVICE || CommandType(c) == REMOTE then
      match Checking(x, l.authority, c, now)
      case Refuse(code) => (l, Refused(code))
      case Forward(proposal) => SubmitOne(x.hash, l, proposal, now)
    else (l, TypeUnsupported)
  }

  lemma PlanIgnoresClock(input: Fields, now: string)
    ensures PlanOf(input, now).Failure? <==> PlanOf(input, "").Failure?
    ensures PlanOf(input, now).Failure? ==> PlanOf(input, now).error == PlanOf(input, "").error
  {
  }

  function EventsOf(result: CommandResult): seq<RealmEvent> {
    match result case Done(events) => events case Denied(events, _) => events case _ => []
  }

  /** `collectAcceptedEventIds` */
  function Ids(events: seq<RealmEvent>): seq<string> {
    seq(|events|, i requires 0 <= i < |events| => events[i].id)
  }

  /** `executeCommand` */
  function Handle(x: Runtime, n: Node, c: Command, now: string): (Node, Reply) {
    var id := CommandId(c);
    var thrown := ThrownBy(x, c);
    if id == "" then
      if thrown.Some? then (n, CommandThrew(thrown.value))
      else
        var (ledger, result) := Execute(x, n.ledger, c, now);
        (n.(ledger := ledger), Reply(None, result, Ids(EventsOf(result)), false))
    else if CommandType(c) == "" then (n, CommandThrew(CommandTypeRequired))
    else if id in n.store then
      if n.store[id].intentFingerprint != Fingerprint(x.hash, c) then (n, IntentMismatch(id))
      else (n, Reply(Some(id), n.store[id].result, n.store[id].acceptedEventIds, true))
    else if thrown.Some? then (n, CommandThrew(thrown.value))
    else
      var (ledger, result) := Execute(x, n.ledger, c, now);
      var ids := Ids(EventsOf(result));
      (Node(ledger, n.store[id := Record(Fingerprint(x.hash, c), result, ids)]), Reply(Some(id), result, ids, false))
  }

  class ExecutionStore {
    var records: RecordStore

    constructor ()
      ensures records == map[]
    {
      records := map[];
    }

    method Set(commandId: string, record: Record)
      modifies this
      ensures records == old(records)[commandId := record]
    {
      records := records[commandId := record];
    }
  }

  method AcceptOne(h: Hash, ledger: Ledger, proposal: Json, now: string) returns (result: CommandResult)
    modifies ledger
    ensures (ledger.Value(), result) == SubmitOne(h, old(ledger.Value()), proposal, now)
  {
    var verdict := ledger.AcceptRealmEvent(h, proposal, now);
    match verdict {
      case Accepted(event) => result := Done([event]);
      case Rejected(reasons) => result := Denied([], reasons);
    }
  }

  method ExecuteRealmCommand(x: Runtime, ledger: Ledger, command: Command, now: string)
    returns (r: Result<CommandResult, Thrown>)
    modifies ledger
    ensures r.Failure? <==> ThrownBy(x, command).Some?
    ensures r.Failure? ==> r.error == ThrownBy(x, command).value && ledger.Value() == old(ledger.Value())
    ensures r.Success? ==> (ledger.Value(), r.value) == Execute(x, old(ledger.Value()), command, now)
  {
    hide SubmitOne, Submit, PlanOf, Proposals, CommandType, Checking, SubmittedProposal;
    var kind := CommandType(command);
    if kind == "" {
      return Failure(CommandTypeRequired);
    }
    if kind == SUBMIT {
      var result := AcceptOne(x.hash, ledger, SubmittedProposal(command), now);
      return Success(result);
    }
    if kind == CEREMONY {
      PlanIgnoresClock(PayloadFields(command), now);
      var ceremony := ExecuteRecoveryCeremony(x.hash, ledger, PayloadFields(command), now);
      match ceremony {
        case Failure(error) => return Failure(error);
        case Success((events, failure)) =>
          return Success(if failure.None? then Done(events) else Denied(events, failure.value));
      }
    }
    if kind == REMOTE && x.remoteThrows(ObjectOr(command.payload)) {
      return Failure(PropertyOfNothing);
    }
    if kind == DEVICE || kind == REMOTE {
      match Checking(x, ledger.authority, command, now) {
        case Refuse(code) => return Success(Refused(code));
        case Forward(proposal) =>
          var result := AcceptOne(x.hash, ledger, proposal, now);
          return Success(result);
      }
    }
    return Success(TypeUnsupported);
  }

  method ExecuteCommand(x: Runtime, ledger: Ledger, store: ExecutionStore, command: Command, now: string)
    returns (reply: Reply)
    modifies ledger, store
    ensures (Node(ledger.Value(), store.records), reply)
         == Handle(x, Node(old(ledger.Value()), old(store.records)), command, now)
  {
    hide Execute, ThrownBy, CommandId, Fingerprint;
    var id := CommandId(command);
    EmptyTypeThrows(x, command);
    if id == "" {
      var outcome := ExecuteRealmCommand(x, ledger, command, now);
      match outcome {
        case Failure(error) => return CommandThrew(error);
        case Success(result) => return Reply(None, result, Ids(EventsOf(result)), false);
      }
    }
    if CommandType(command) == "" {
      return CommandThrew(CommandTypeRequired);
    }
    var intentFingerprint := Fingerprint(x.hash, command);
    if id in store.records {
      var existing := store.records[id];
      if existing.intentFingerprint != intentFingerprint {
        return IntentMismatch(id);
      }
      return Reply(Some(id), existing.result, existing.acceptedEventIds, true);
    }
    var outcome := ExecuteRealmCommand(x, ledger, command, now);
    match outcome {
      case Failure(error) => return CommandThrew(error);
      case Success(result) =>
        var ids := Ids(EventsOf(result));
        store.Set(id, Record(intentFingerprint, result, ids));
        return Reply(Some(id), result, ids, false);
    }
  }

  lemma EmptyTypeThrows(x: Runtime, c: Command)
    ensures CommandType(c) == "" ==> ThrownBy(x, c) == Some(CommandTypeRequired)
  {
  }

  // ---- streams of commands ----

  datatype Timed = Timed(command: Command, now: string)

  function HandleAll(x: Runtime, n: Node, commands: seq<Timed>): Node {
    if commands == [] then n
    else
      var k := |commands| - 1;
      Handle(x, HandleAll(x, n, commands[..k]), commands[k].command, commands[k].now).0
  }

  predicate Names(commands: seq<Timed>, id: string) {
    exists i :: 0 <= i < |commands| && CommandId(commands[i].command) == id
  }

  /** Commands without an id, and for every other id the first occurrence that does not throw, unless it is stored. */
  function Deciding(x: Runtime, known: set<string>, commands: seq<Timed>): seq<Timed> {
    if commands == [] then []
    else
      var k := |commands| - 1;
      var before := Deciding(x, known, commands[..k]);
      var id := CommandId(commands[k].command);
      if id == "" || (ThrownBy(x, commands[k].command).None? && id !in known && !Names(before, id))
      then before + [commands[k]] else before
  }

  /** What one command does to the node: nothing unless it is executed, and then its id, if any, is recorded. */
  lemma HandleEffect(x: Runtime, n: Node, c: Command, now: string)
    ensures var id, after := CommandId(c), Handle(x, n, c, now).0;
      && (id != "" && (id in n.store || ThrownBy(x, c).Some?) ==> after == n)
      && (id == "" ==> after.store == n.store)
      && (id != "" && id !in n.store && ThrownBy(x, c).None? ==>
            id in after.store && after.store == n.store[id := after.store[id]])
  {
    hide Execute, CommandId, Fingerprint;
  }

  /** The ids recorded by a stream of commands each of which is decisive. */
  lemma {:induction false} StreamIsItsDecidingPart(x: Runtime, n: Node, commands: seq<Timed>)
    ensures HandleAll(x, n, commands) == HandleAll(x, n, Deciding(x, n.store.Keys, commands))
    ensures forall id :: id in HandleAll(x, n, commands).store
              <==> id in n.store || (id != "" && Names(Deciding(x, n.store.Keys, commands), id))
  {
    hide Handle, CommandId, ThrownBy, Names;
    if commands == [] {
      assert forall id :: !Names([], id) by { NoNames(); }
    } else {
      var k := |commands| - 1;
      var before := Deciding(x, n.store.Keys, commands[..k]);
      var last := commands[k];
      StreamIsItsDecidingPart(x, n, commands[..k]);
      HandleEffect(x, HandleAll(x, n, commands[..k]), last.command, last.now);
      assert (before + [last])[..|before|] == before;
      forall id ensures Names(before + [last], id) <==> Names(before, id) || CommandId(last.command) == id {
        NamesAppend(before, last, id);
      }
    }
  }

  lemma NoNames()
    ensures forall id :: !Names([], id)
  {
  }

  lemma NamesAppend(commands: seq<Timed>, last: Timed, id: string)
    ensures Names(commands + [last], id) <==> Names(commands, id) || CommandId(last.command) == id
  {
    hide CommandId;
    var longer := commands + [last];
    assert longer[|commands|] == last;
    if Names(commands, id) {
      var i :| 0 <= i < |commands| && CommandId(commands[i].command) == id;
      assert CommandId(longer[i].command) == id;
    }
  }

  /** A record once made is never changed. */
  lemma {:induction false} RecordsStay(x: Runtime, n: Node, commands: seq<Timed>, id: string)
    requires id in n.store
    ensures id in HandleAll(x, n, commands).store && HandleAll(x, n, commands).store[id] == n.store[id]
  {
    hide Handle, CommandId, ThrownBy;
    if commands != [] {
      var k := |commands| - 1;
      RecordsStay(x, n, commands[..k], id);
      HandleEffect(x, HandleAll(x, n, commands[..k]), commands[k].command, commands[k].now);
    }
  }

  /** A command executed once is answered with its first result ever after, and changes nothing more. */
  lemma ReplayReturnsFirst(x: Runtime, n: Node, c: Command, now: string, later: seq<Timed>, again: string)
    requires CommandId(c) != "" && CommandId(c) !in n.store && ThrownBy(x, c).None?
    ensures var (first, reply) := Handle(x, n, c, now);
      var after := HandleAll(x, first, later);
      && reply.Reply? && !reply.idempotentReplay
      && Handle(x, after, c, again) == (after, reply.(idempotentReplay := true))
  {
    hide Execute, CommandId, Fingerprint, PlanOf, CommandType;
    var first := Handle(x, n, c, now).0;
    RecordsStay(x, first, later, CommandId(c));
  }

  /** Under one id a different intent is refused, whatever happened since. */
  lemma ConflictIsRefused(x: Runtime, n: Node, c: Command, now: string, later: seq<Timed>, d: Command, again: string)
    requires CommandId(c) != "" && CommandId(c) !in n.store && ThrownBy(x, c).None?
    requires CommandId(d) == CommandId(c) && CommandType(d) != ""
    requires Normal(CommandIntent(d)) != Normal(CommandIntent(c))
      && CollisionFree(x.hash, {Encode(CommandIntent(c)), Encode(CommandIntent(d))})
    ensures var after := HandleAll(x, Handle(x, n, c, now).0, later);
      Handle(x, after, d, again) == (after, IntentMismatch(CommandId(d)))
  {
    hide Execute, CommandId, PlanOf, CommandType, CommandIntent, Normal, Encode;
    var first := Handle(x, n, c, now).0;
    RecordsStay(x, first, later, CommandId(c));
    EncodeInjective(CommandIntent(c), CommandIntent(d));
  }

  // ---- running literally the first occurrences ----

  /** Commands without an id, and the first occurrence of every other id. */
  function Firsts(commands: seq<Timed>): seq<Timed> {
    if commands == [] then []
    else
      var k := |commands| - 1;
      var before := Firsts(commands[..k]);
      var id := CommandId(commands[k].command);
      if id == "" || !Names(commands[..k], id) then before + [commands[k]] else before
  }

  /** Some occurrence of the id runs without throwing. */
  predicate SomeRuns(x: Runtime, commands: seq<Timed>, id: string) {
    exists i :: 0 <= i < |commands| && CommandId(commands[i].command) == id && ThrownBy(x, commands[i].command).None?
  }

  /** The first occurrence of the id does. */
  predicate FirstRuns(x: Runtime, commands: seq<Timed>, id: string) {
    exists i :: 0 <= i < |commands| && CommandId(commands[i].command) == id && ThrownBy(x, commands[i].command).None?
                && !Names(commands[..i], id)
  }

  lemma RunsAppend(x: Runtime, commands: seq<Timed>, last: Timed, id: string)
    ensures SomeRuns(x, commands + [last], id)
       <==> SomeRuns(x, commands, id) || (CommandId(last.command) == id && ThrownBy(x, last.command).None?)
  {
    hide CommandId, ThrownBy;
    var longer := commands + [last];
    assert longer[|commands|] == last;
    if SomeRuns(x, commands, id) {
      var i :| 0 <= i < |commands| && CommandId(commands[i].command) == id && ThrownBy(x, commands[i].command).None?;
      assert longer[i] == commands[i];
    }
  }

  lemma FirstRunsAppend(x: Runtime, commands: seq<Timed>, last: Timed, id: string)
    ensures FirstRuns(x, commands + [last], id)
       <==> FirstRuns(x, commands, id)
            || (CommandId(last.command) == id && ThrownBy(x, last.command).None? && !Names(commands, id))
  {
    hide CommandId, ThrownBy, Names;
    var longer := commands + [last];
    assert longer[|commands|] == last && longer[..|commands|] == commands;
    assert forall i :: 0 <= i < |commands| ==> longer[i] == commands[i] && longer[..i] == commands[..i];
    if FirstRuns(x, commands, id) {
      var i :| 0 <= i < |commands| && CommandId(commands[i].command) == id && ThrownBy(x, commands[i].command).None?
               && !Names(commands[..i], id);
      assert longer[i] == commands[i] && longer[..i] == commands[..i];
    }
  }

  /** The ids a stream records: those of which some occurrence runs. */
  lemma {:induction false} RecordedIffRuns(x: Runtime, n: Node, commands: seq<Timed>, id: string)
    requires id != ""
    ensures id in HandleAll(x, n, commands).store <==> id in n.store || SomeRuns(x, commands, id)
  {
    hide Handle, CommandId, ThrownBy, SomeRuns;
    if commands == [] {
      assert !SomeRuns(x, [], id) by { NothingRuns(x, id); }
    } else {
      var k := |commands| - 1;
      var before, last := commands[..k], commands[k];
      RecordedIffRuns(x, n, before, id);
      HandleEffect(x, HandleAll(x, n, before), last.command, last.now);
      assert commands == before + [last];
      RunsAppend(x, before, last, id);
    }
  }

  lemma NothingRuns(x: Runtime, id: string)
    ensures !SomeRuns(x, [], id) && !FirstRuns(x, [], id)
  {
  }

  lemma {:induction false} FirstsRun(x: Runtime, commands: seq<Timed>, id: string)
    requires id != ""
    ensures SomeRuns(x, Firsts(commands), id) <==> FirstRuns(x, commands, id)
  {
    hide CommandId, ThrownBy, SomeRuns, FirstRuns, Names;
    if commands == [] {
      NothingRuns(x, id);
    } else {
      var k := |commands| - 1;
      var before, last := commands[..k], commands[k];
      FirstsRun(x, before, id);
      assert commands == before + [last];
      FirstRunsAppend(x, before, last, id);
      RunsAppend(x, Firsts(before), last, id);
    }
  }

  /** Every new id of which some occurrence runs has a first occurrence that runs. */
  ghost predicate FirstsDecide(x: Runtime, known: set<string>, commands: seq<Timed>) {
    forall id :: id != "" && id !in known && SomeRuns(x, commands, id) ==> FirstRuns(x, commands, id)
  }

  /** A stream leaves the ledger and store of its first occurrences exactly when no new id's first occurrence throws
      while a later one runs; what throws depends on the command alone. */
  lemma FirstsSuffice(x: Runtime, n: Node, commands: seq<Timed>)
    ensures HandleAll(x, n, commands) == HandleAll(x, n, Firsts(commands)) <==> FirstsDecide(x, n.store.Keys, commands)
  {
    hide HandleAll, Firsts, SomeRuns, FirstRuns;
    if FirstsDecide(x, n.store.Keys, commands) {
      DecidingFirsts(x, n, commands);
    }
    if HandleAll(x, n, commands) == HandleAll(x, n, Firsts(commands)) {
      forall id | id != "" && id !in n.store && SomeRuns(x, commands, id) ensures FirstRuns(x, commands, id) {
        RecordedIffRuns(x, n, commands, id);
        RecordedIffRuns(x, n, Firsts(commands), id);
        FirstsRun(x, commands, id);
      }
    }
  }

  lemma {:induction false} DecidingFirsts(x: Runtime, n: Node, commands: seq<Timed>)
    requires FirstsDecide(x, n.store.Keys, commands)
    ensures HandleAll(x, n, commands) == HandleAll(x, n, Firsts(commands))
  {
    hide Handle, CommandId, ThrownBy, SomeRuns, FirstRuns, Names;
    if commands != [] {
      var k := |commands| - 1;
      var before, last := commands[..k], commands[k];
      var id := CommandId(last.command);
      assert commands == before + [last];
      forall other | other != "" && other !in n.store && SomeRuns(x, before, other)
        ensures FirstRuns(x, before, other) {
        RunsAppend(x, before, last, other);
        FirstRunsAppend(x, before, last, other);
        RunsIsNamed(x, before, other);
      }
      DecidingFirsts(x, n, before);
      HandleEffect(x, HandleAll(x, n, before), last.command, last.now);
      if id != "" && Names(before, id) {
        RunsAppend(x, before, last, id);
        FirstRunsAppend(x, before, last, id);
        FirstIsRun(x, before, id);
        RecordedIffRuns(x, n, before, id);
      } else {
        assert (Firsts(before) + [last])[..|Firsts(before)|] == Firsts(before);
      }
    }
  }

  lemma RunsIsNamed(x: Runtime, commands: seq<Timed>, id: string)
    requires SomeRuns(x, commands, id)
    ensures Names(commands, id)
  {
    hide CommandId, ThrownBy;
  }

  lemma FirstIsRun(x: Runtime, commands: seq<Timed>, id: string)
    ensures FirstRuns(x, commands, id) ==> SomeRuns(x, commands, id)
  {
    hide CommandId, ThrownBy, Names;
  }

  /** Taking literally the first occurrence of an id is not enough: one that throws leaves no record, and a later
      occurrence is executed. */
  lemma FirstMayThrow(x: Runtime) returns (c: Timed, d: Timed)
    ensures CommandId(c.command) == CommandId(d.command) != "" && Firsts([c, d]) == [c]
    ensures HandleAll(x, Node(EMPTY_LEDGER, map[]), [c, d]) != HandleAll(x, Node(EMPTY_LEDGER, map[]), Firsts([c, d]))
  {
    hide Handle, CommandId, ThrownBy, EMPTY_LEDGER;
    var empty, typed := SameIdOneThrows(x);
    c, d := Timed(empty, ""), Timed(typed, "");
    var n := Node(EMPTY_LEDGER, map[]);
    HandleEffect(x, n, empty, "");
    HandleEffect(x, n, typed, "");
    assert [c, d][..1] == [c] && [c][..0] == [];
    assert Names([c], CommandId(typed)) by { assert [c][0].command == empty; }
    assert Firsts([c]) == [c] by { NoNames(); }
  }

  /** Two commands with one id, the first without a type. */
  lemma SameIdOneThrows(x: Runtime) returns (empty: Command, typed: Command)
    ensures CommandId(empty) == CommandId(typed) != "" && ThrownBy(x, empty).Some? && ThrownBy(x, typed).None?
  {
    empty := Command(Str("a"), Str(""), Null, Null, Null);
    typed := empty.(kind := Str("x"));
    assert Trim("a") == "a" && Trim("x") == "x" && Trim("") == "";
    assert CommandId(empty) == "a" && CommandType(empty) == "" && CommandType(typed) == "x";
  }

  // ---- what every node reached by commands satisfies ----

  /** The id by which a logged event is known. */
  function LoggedId(e: RealmEvent): string {
    FirstOf(e.eventId, e.id)
  }

  /** The ids `eventIdsInLog` collects. */
  predicate LogsId(events: seq<RealmEvent>, id: string) {
    id != "" && exists i :: 0 <= i < |events| && IsCanonical(events[i]) && LoggedId(events[i]) == id
  }

  /** Every recorded event id is the id of a logged event. */
  predicate LineageHolds(n: Node) {
    var events := Realms(n.ledger.log);
    forall commandId :: commandId in n.store ==>
      forall k :: 0 <= k < |n.store[commandId].acceptedEventIds| ==>
        LogsId(events, n.store[commandId].acceptedEventIds[k])
  }

  ghost predicate Sound(x: Runtime, n: Node) {
    Live(x.hash, n.ledger) && LineageHolds(n)
  }

  /** The log only grows, and by the events of the result. */
  lemma ExecuteGrows(x: Runtime, l: LedgerValue, c: Command, now: string)
    requires ThrownBy(x, c).None? && Live(x.hash, l)
    ensures var (after, result) := Execute(x, l, c, now);
      && Live(x.hash, after) && after.log == l.log + LogOf(EventsOf(result))
  {
    hide Validate, ContextOf, Projected, Live, PlanOf, Proposals, Checking, CommandType, SubmittedProposal, Submit;
    var (after, result) := Execute(x, l, c, now);
    if CommandType(c) == CEREMONY {
      PlanIgnoresClock(PayloadFields(c), now);
      var proposals := Proposals(PlanOf(PayloadFields(c), now).value);
      GrowsByAccepted(x.hash, l, [], proposals, now);
      SubmitKeepsReplay(x.hash, l, [], proposals, now);
      var accepted := Submit(x.hash, l, [], proposals, now).accepted;
      assert accepted[0..] == accepted;
    } else {
      forall proposal ensures Live(x.hash, SubmitOne(x.hash, l, proposal, now).0)
                          && SubmitOne(x.hash, l, proposal, now).0.log
                             == l.log + LogOf(EventsOf(SubmitOne(x.hash, l, proposal, now).1)) {
        StepKeepsReplay(x.hash, l, Propose(proposal, now));
      }
    }
  }

  lemma {:induction false} RealmsOfLogOf(log: seq<LogEvent>, events: seq<RealmEvent>)
    ensures Realms(log + LogOf(events)) == Realms(log) + events
  {
    if events == [] {
      assert log + LogOf(events) == log;
    } else {
      var k := |events| - 1;
      assert log + LogOf(events) == (log + LogOf(events[..k])) + [Realm(events[k])];
      RealmsAppend(log + LogOf(events[..k]), Realm(events[k]));
      RealmsOfLogOf(log, events[..k]);
    }
  }

  /** Lineage survives a longer log and one new record whose ids are those of the new events. */
  lemma LineageExtends(n: Node, next: Node, events: seq<RealmEvent>)
    requires LineageHolds(n) && Realms(next.ledger.log) == Realms(n.ledger.log) + events
    requires forall id :: id in next.store ==>
      (id in n.store && next.store[id] == n.store[id]) || next.store[id].acceptedEventIds == Ids(events)
    requires forall k :: 0 <= k < |events| ==> LogsId(Realms(next.ledger.log), events[k].id)
    ensures LineageHolds(next)
  {
    hide LogsId, Realms;
    var before, after := Realms(n.ledger.log), Realms(next.ledger.log);
    forall id | LogsId(before, id) ensures LogsId(after, id) {
      LogsIdLonger(before, events, id);
    }
    assert forall k :: 0 <= k < |events| ==> Ids(events)[k] == events[k].id;
  }

  lemma LogsIdLonger(before: seq<RealmEvent>, events: seq<RealmEvent>, id: string)
    requires LogsId(before, id)
    ensures LogsId(before + events, id)
  {
    hide IsCanonical, LoggedId;
    var i :| 0 <= i < |before| && IsCanonical(before[i]) && LoggedId(before[i]) == id;
    assert (before + events)[i] == before[i];
  }

  /** An accepted event is known by its id. */
  lemma AcceptedIsLogged(h: Hash, events: seq<RealmEvent>, k: nat)
    requires Legit(h, events) && k < |events|
    ensures LogsId(events, events[k].id) && LoggedId(events[k]) == events[k].id
  {
    hide Legit, Admissible, IsCanonical, Chained, IsSpace;
    IdTwice(h, events, k);
    var rest := SolidId(h, events, k);
    LegitAt(h, events, k);
    AdmissibleEvent(h, events[..k], events[k]);
  }

  lemma SuffixIsLogged(h: Hash, l: LedgerValue, before: seq<RealmEvent>, events: seq<RealmEvent>)
    requires Live(h, l) && Realms(l.log) == before + events
    ensures forall k :: 0 <= k < |events| ==> LogsId(Realms(l.log), events[k].id)
  {
    hide LogsId, Realms, LedgerOf, Legit, LoggedId;
    forall k | 0 <= k < |events| ensures LogsId(Realms(l.log), events[k].id) {
      assert (before + events)[|before| + k] == events[k];
      AcceptedIsLogged(h, before + events, |before| + k);
    }
  }

  lemma HandleKeepsSound(x: Runtime, n: Node, c: Command, now: string)
    requires Sound(x, n)
    ensures Sound(x, Handle(x, n, c, now).0)
  {
    hide Execute, CommandId, Fingerprint, Live, ThrownBy, CommandType, LineageHolds, LogOf, Realms;
    if ThrownBy(x, c).None? && Handle(x, n, c, now).0 != n {
      ExecuteGrows(x, n.ledger, c, now);
      var (after, result) := Execute(x, n.ledger, c, now);
      RealmsOfLogOf(n.ledger.log, EventsOf(result));
      SuffixIsLogged(x.hash, after, Realms(n.ledger.log), EventsOf(result));
      LineageExtends(n, Handle(x, n, c, now).0, EventsOf(result));
    }
  }

  lemma {:induction false} CommandsKeepSound(x: Runtime, commands: seq<Timed>)
    ensures Sound(x, HandleAll(x, Node(EMPTY_LEDGER, map[]), commands))
  {
    hide Handle, Sound;
    if commands == [] {
      EmptyNodeSound(x);
    } else {
      var k := |commands| - 1;
      CommandsKeepSound(x, commands[..k]);
      HandleKeepsSound(x, HandleAll(x, Node(EMPTY_LEDGER, map[]), commands[..k]), commands[k].command, commands[k].now);
    }
  }

  lemma EmptyNodeSound(x: Runtime)
    ensures Sound(x, Node(EMPTY_LEDGER, map[]))
  {
  }
}
