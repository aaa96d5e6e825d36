/** Every run of the pipeline: which logs it can produce, and that the stored state is their replay. */
module Runs {
  import opened Text
  import opened JsonValues
  import opened Registry
  import opened History
  import opened CurrentAuthority
  import opened Validator
  import opened Pipeline

  /** What acceptance sees after a history, if the stored projection is its replay. */
  function ContextAt(events: seq<RealmEvent>): Context {
    Context(Project(events), Project(events).lastSequence, Head(events))
  }

  predicate IsNormal(env: Envelope) {
    Trimmed(env.kind) && Trimmed(env.signer) && Trimmed(env.authorityReference) && !env.previousEventHash.Undefined?
  }

  function Content(e: RealmEvent): Normalized {
    Normalized(e.envelope, e.payload)
  }

  /** `e` is exactly the event acceptance would build, after `before`, from its own envelope and payload. */
  predicate Admissible(h: Hash, before: seq<RealmEvent>, e: RealmEvent) {
    && IsNormal(e.envelope)
    && Reasons(ContextAt(before), Content(e)) == []
    && (ReasonsNeedKind(ContextAt(before), Content(e));
        e == BuildAccepted(h, Head(before), Content(e), e.acceptedAt))
  }

  /** Histories each of whose events was admissible when it came. */
  predicate Legit(h: Hash, events: seq<RealmEvent>) {
    forall k {:trigger Admissible(h, events[..k], events[k])} :: 0 <= k < |events| ==>
      Admissible(h, events[..k], events[k])
  }

  /** The ledger a log stands for. */
  function LedgerOf(log: seq<LogEvent>): LedgerValue {
    var state := Project(Realms(log));
    LedgerValue(log, state, state.lastSequence)
  }

  /** The hashed top-level fields repeat the envelope's. */
  predicate Mirrors(e: RealmEvent) {
    && Name(e.kind) == e.envelope.kind
    && e.signer == e.envelope.signer
    && e.authorityReference == e.envelope.authorityReference
    && e.sequence == e.envelope.sequence
  }

  lemma LegitAppend(h: Hash, events: seq<RealmEvent>, e: RealmEvent)
    ensures Legit(h, events + [e]) <==> Legit(h, events) && Admissible(h, events, e)
  {
    hide Admissible;
    var longer := events + [e];
    forall k | 0 <= k < |events| ensures longer[..k] == events[..k] && longer[k] == events[k] {
    }
    assert longer[..|events|] == events && longer[|events|] == e;
    if Legit(h, longer) {
      assert Admissible(h, longer[..|events|], longer[|events|]);
      forall k | 0 <= k < |events| ensures Admissible(h, events[..k], events[k]) {
        assert Admissible(h, longer[..k], longer[k]);
      }
    }
    if Legit(h, events) && Admissible(h, events, e) {
      forall k | 0 <= k < |longer| ensures Admissible(h, longer[..k], longer[k]) {
        if k < |events| { assert Admissible(h, events[..k], events[k]); }
      }
    }
  }

  lemma LegitPrefix(h: Hash, events: seq<RealmEvent>, n: nat)
    requires Legit(h, events) && n <= |events|
    ensures Legit(h, events[..n])
  {
    hide Admissible;
    forall k | 0 <= k < n ensures Admissible(h, events[..n][..k], events[..n][k]) {
      assert events[..n][..k] == events[..k];
      assert Admissible(h, events[..k], events[k]);
    }
  }

  lemma LegitAt(h: Hash, events: seq<RealmEvent>, k: nat)
    requires Legit(h, events) && k < |events|
    ensures Legit(h, events[..k]) && Admissible(h, events[..k], events[k])
  {
    hide Admissible;
    LegitPrefix(h, events, k);
    assert Admissible(h, events[..k], events[k]);
  }

  /** Facts about a single admissible event. */
  lemma AdmissibleEvent(h: Hash, before: seq<RealmEvent>, e: RealmEvent)
    requires Admissible(h, before, e)
    ensures Mirrors(e) && Supported(e) && KindOf(e.envelope.kind) == Some(e.kind)
    ensures e.envelope.sequence == Some(NextSequence(ContextAt(before)))
    ensures AuthorityReasons(Project(before), e.envelope, e.payload) == []
    ensures NonBlank(e.envelope.timestamp) && e.envelope.signer != "" && e.envelope.authorityReference != ""
    ensures ContractReasons(PayloadContract(e.kind), e.payload) == []
    ensures LinkFault(h, e, Head(before)).None?
    ensures forall s :: ApplyEvent(s, e).lastSequence == NextSequence(ContextAt(before))
    ensures Whole(e) && !e.kind.Other?
  {
    BuiltIsWhole(h, Head(before), Content(e), e.acceptedAt);
    hide Chained, IsCanonical, Inherited, Name;
    AttachLinks(h, Unlinked(e.kind, Content(e), e.acceptedAt), Head(before));
  }

  lemma LegitStep(h: Hash, before: seq<RealmEvent>, e: RealmEvent)
    requires Admissible(h, before, e)
    requires Verified(h, before) && FirstUnsupported(before).None? && Project(before).lastSequence == |before|
    ensures Verified(h, before + [e]) && FirstUnsupported(before + [e]).None?
    ensures Project(before + [e]).lastSequence == |before| + 1
    ensures e.sequence == Some(|before| + 1) && Mirrors(e) && Supported(e)
  {
    hide Admissible, ApplyEvent, LinkFault, Supported;
    AdmissibleEvent(h, before, e);
    VerifiedHead(h, before);
    FaultAppend(h, before, e);
    ProjectAppend(before, e);
  }

  lemma EmptyHistory(h: Hash)
    ensures Verified(h, []) && FirstUnsupported([]).None? && Project([]) == EMPTY_STATE && ChainedOf([]) == []
  {
  }

  /** The k-th event of such a history has sequence k, counting from one; it verifies and replays. */
  lemma {:induction false} LegitHistory(h: Hash, events: seq<RealmEvent>)
    requires Legit(h, events)
    ensures Verified(h, events)
    ensures FirstUnsupported(events).None?
    ensures Project(events).lastSequence == |events|
    ensures forall k :: 0 <= k < |events| ==>
      events[k].sequence == Some(k + 1) && Mirrors(events[k]) && Supported(events[k])
  {
    hide Admissible, Project, FaultIn, FirstUnsupported, Supported, Mirrors, NextSequence;
    if events == [] {
      EmptyHistory(h);
    } else {
      var n := |events| - 1;
      var before, e := events[..n], events[n];
      LegitAt(h, events, n);
      LegitHistory(h, before);
      LegitStep(h, before, e);
      assert events == before + [e];
      forall k | 0 <= k < |events|
        ensures events[k].sequence == Some(k + 1) && Mirrors(events[k]) && Supported(events[k])
      {
        assert k < n ==> events[k] == before[k];
      }
    }
  }

  /** Every event of such a history is chained and canonical. */
  lemma LegitIsWhole(h: Hash, events: seq<RealmEvent>)
    requires Legit(h, events)
    ensures ChainedOf(events) == events && CanonicalOf(events) == events
  {
    hide *;
    forall e | e in events ensures Whole(e) {
      var k :| 0 <= k < |events| && events[k] == e;
      LegitAt(h, events, k);
      AdmissibleEvent(h, events[..k], e);
    }
    AllWhole(events);
  }

  lemma LegitVerifies(h: Hash, events: seq<RealmEvent>)
    requires Legit(h, events)
    ensures Verified(h, events) && FirstUnsupported(events).None? && Project(events).lastSequence == |events|
    ensures Head(events) == Expected(events)
    ensures ChainedOf(events) == events && CanonicalOf(events) == events
  {
    hide *;
    LegitHistory(h, events);
    VerifiedHead(h, events);
    LegitIsWhole(h, events);
  }

  lemma NormalizeIsNormal(proposal: Json, now: string)
    ensures IsNormal(Normalize(proposal, now).envelope)
  {
  }

  lemma AcceptedIsAdmissible(h: Hash, before: seq<RealmEvent>, proposal: Json, now: string)
    ensures Validate(h, ContextAt(before), proposal, now).Accepted? ==>
      Admissible(h, before, Validate(h, ContextAt(before), proposal, now).event)
  {
    hide Normalize, Reasons, EventHash, EventId;
    NormalizeIsNormal(proposal, now);
  }

  /** Live equals replay: after any run the stored projection is the replay of the log, and the log is legitimate. */
  lemma {:induction false} LiveIsReplay(h: Hash, inputs: seq<Input>)
    ensures Legit(h, Realms(Run(h, inputs).log))
    ensures Run(h, inputs) == LedgerOf(Run(h, inputs).log)
    ensures BuildState(h, Realms(Run(h, inputs).log)) == Success(Run(h, inputs).authority)
  {
    hide Step, Admissible;
    if inputs != [] {
      var n := |inputs| - 1;
      LiveIsReplay(h, inputs[..n]);
      StepKeepsReplay(h, Run(h, inputs[..n]), inputs[n]);
    }
    LegitVerifies(h, Realms(Run(h, inputs).log));
  }

  /** Booting from the log of any run gives back the ledger of that run. */
  lemma RestartRecovers(h: Hash, inputs: seq<Input>)
    ensures var l := Run(h, inputs);
      BootState(h, l.log) == Success(l.authority) && l == LedgerValue(l.log, l.authority, l.authority.lastSequence)
  {
    hide Run, Legit, Project, FaultIn, FirstUnsupported, Realms;
    LiveIsReplay(h, inputs);
    LegitHistory(h, Realms(Run(h, inputs).log));
    ReplayableHasNoFault(Run(h, inputs).log);
  }

  predicate Live(h: Hash, l: LedgerValue) {
    Legit(h, Realms(l.log)) && l == LedgerOf(l.log)
  }

  /** A live ledger shows acceptance its replay and the head of its events. */
  lemma LiveContext(h: Hash, l: LedgerValue)
    requires Live(h, l)
    ensures Legit(h, Realms(l.log)) && ContextOf(l) == ContextAt(Realms(l.log)) && Linked(l.log) == Realms(l.log)
  {
    hide Legit, Head, Project, Realms, ChainedOf;
    LegitIsWhole(h, Realms(l.log));
  }

  lemma StepKeepsReplay(h: Hash, l: LedgerValue, input: Input)
    requires Live(h, l)
    ensures Live(h, Step(h, l, input))
  {
    hide Validate, ContextOf, ContextAt, Admissible;
    LiveContext(h, l);
    match input {
      case Unrelated(content) =>
        RealmsAppend(l.log, Foreign(content));
      case Propose(proposal, now) =>
        AcceptedIsAdmissible(h, Realms(l.log), proposal, now);
        match Validate(h, ContextOf(l), proposal, now) {
          case Rejected(_) =>
          case Accepted(e) => AppendKeepsReplay(h, l, e);
        }
    }
  }

  lemma WholeToRealm(e: RealmEvent)
    requires Whole(e) && !e.kind.Other?
    ensures ToRealm(Realm(e))
  {
  }

  lemma AppendKeepsReplay(h: Hash, l: LedgerValue, e: RealmEvent)
    requires Live(h, l) && Admissible(h, Realms(l.log), e)
    ensures Live(h, Applied(l, Realm(e)))
    ensures Realms(Applied(l, Realm(e)).log) == Realms(l.log) + [e]
  {
    hide Admissible, ApplyEvent, Whole, Supported, Mirrors;
    AdmissibleEvent(h, Realms(l.log), e);
    WholeToRealm(e);
    RealmsAppend(l.log, Realm(e));
    LegitAppend(h, Realms(l.log), e);
    ProjectAppend(Realms(l.log), e);
    LegitHistory(h, Realms(l.log) + [e]);
  }

  // ---- every legitimate log is produced by some run ----

  /** A proposal that says exactly what a normalised envelope and payload say. */
  function ProposalJson(n: Normalized): Json {
    var env := n.envelope;
    Obj(map[
      "envelope" := Obj(map[
        "type" := Str(env.kind),
        "signer" := Str(env.signer),
        "authority_reference" := Str(env.authorityReference),
        "sequence" := if env.sequence.Some? then Num(env.sequence.value) else Undefined,
        "timestamp" := env.timestamp,
        "previous_event_hash" := env.previousEventHash]),
      "payload" := Obj(n.payload)])
  }

  lemma ProposalFields(n: Normalized)
    ensures var source, env := Get(ProposalJson(n), "envelope"), n.envelope;
      && source.Obj? && Get(source, "type") == Str(env.kind) && Get(source, "signer") == Str(env.signer)
      && Get(source, "authority_reference") == Str(env.authorityReference)
      && Get(source, "sequence") == (if env.sequence.Some? then Num(env.sequence.value) else Undefined)
      && Get(source, "timestamp") == env.timestamp && Get(source, "previous_event_hash") == env.previousEventHash
    ensures Get(ProposalJson(n), "payload") == Obj(n.payload)
    ensures Get(ProposalJson(n), "previous_event_hash") == Undefined
  {
  }

  lemma NormalizeProposalJson(n: Normalized, now: string)
    requires IsNormal(n.envelope) && Truthy(n.envelope.timestamp)
    ensures Normalize(ProposalJson(n), now) == n
  {
    hide ProposalJson, Get, Trim, ReadDigits;
    ProposalFields(n);
  }

  lemma AdmissibleNormal(h: Hash, before: seq<RealmEvent>, e: RealmEvent)
    requires Admissible(h, before, e)
    ensures IsNormal(e.envelope) && Truthy(e.envelope.timestamp)
  {
    hide Reasons, BuildAccepted, Trimmed, ApplyEvent, LinkFault, ContractReasons, AuthorityReasons, Mirrors, Supported,
      Whole, KindOf, PayloadContract, NextSequence;
    AdmissibleEvent(h, before, e);
  }

  lemma AdmissibleAccepted(h: Hash, before: seq<RealmEvent>, e: RealmEvent, proposal: Json)
    requires Admissible(h, before, e) && Normalize(proposal, e.acceptedAt) == Content(e)
    ensures Validate(h, ContextAt(before), proposal, e.acceptedAt) == Accepted(e)
  {
    hide Normalize, Reasons, BuildAccepted, Project, Head, IsNormal;
  }

  lemma ReproposeAdmissible(h: Hash, l: LedgerValue, e: RealmEvent)
    requires Live(h, l) && Admissible(h, Realms(l.log), e)
    ensures Step(h, l, Propose(ProposalJson(Content(e)), e.acceptedAt)) == Applied(l, Realm(e))
  {
    hide Normalize, ProposalJson, Live, ContextOf, ContextAt, Admissible, Validate, Applied;
    LiveContext(h, l);
    AdmissibleNormal(h, Realms(l.log), e);
    NormalizeProposalJson(Content(e), e.acceptedAt);
    AdmissibleAccepted(h, Realms(l.log), e, ProposalJson(Content(e)));
  }

  lemma {:induction false} LegitIsReached(h: Hash, log: seq<LogEvent>) returns (inputs: seq<Input>)
    requires Legit(h, Realms(log))
    ensures Run(h, inputs).log == log
  {
    hide Admissible, AcceptProposal;
    if log == [] {
      inputs := [];
    } else {
      var n := |log| - 1;
      assert log == log[..n] + [log[n]];
      RealmsAppend(log[..n], log[n]);
      if log[n].Realm? { LegitAppend(h, Realms(log[..n]), log[n].event); }
      var before := LegitIsReached(h, log[..n]);
      LiveIsReplay(h, before);
      var last :=
        match log[n]
        case Realm(e) => Propose(ProposalJson(Content(e)), e.acceptedAt)
        case Foreign(content) => Unrelated(content);
      if log[n].Realm? { ReproposeAdmissible(h, Run(h, before), log[n].event); }
      inputs := before + [last];
      assert inputs[..|before|] == before;
    }
  }

  /** A log is the log of some run exactly when its realm events are legitimate. */
  lemma ReachableIffLegit(h: Hash, log: seq<LogEvent>)
    ensures (exists inputs :: Run(h, inputs).log == log) <==> Legit(h, Realms(log))
  {
    hide Legit, Run, LedgerOf;
    if Legit(h, Realms(log)) {
      var inputs := LegitIsReached(h, log);
    }
    forall inputs | Run(h, inputs).log == log ensures Legit(h, Realms(log)) {
      LiveIsReplay(h, inputs);
    }
  }
}
