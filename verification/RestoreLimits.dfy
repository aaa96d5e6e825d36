/** Where restoring does not do what a backup is for: what the head does not cover, and realms with inherited names. */
module RestoreLimits {
  import opened Text
  import opened JsonValues
  import opened Registry
  import opened History
  import opened CurrentAuthority
  import opened Validator
  import opened Pipeline
  import opened Runs
  import opened RootAuthority
  import opened HeadCommits
  import Ceremony
  import opened Commands
  import opened Integrity
  import opened Backup

  function BareArtifact(events: seq<RealmEvent>): Artifact {
    Artifact(Some(Ceremony.LogOf(events)), Head(ChainedOf(events)), SUPPORTED_RUNTIME, SUPPORTED_VERSION,
             SUPPORTED_VERSION, None, false)
  }

  lemma NoRealms()
    ensures Realms([]) == []
  {
  }

  lemma BareLog(events: seq<RealmEvent>)
    ensures Realms(Ceremony.LogOf(events)) == events
  {
    hide Realms, Ceremony.LogOf;
    RealmsOfLogOf([], events);
    assert [] + Ceremony.LogOf(events) == Ceremony.LogOf(events);
    assert Realms([]) == [] by { NoRealms(); }
    assert [] + events == events;
  }

  /** The artifact of a history that replays verifies. */
  lemma BareVerifies(h: Hash, events: seq<RealmEvent>)
    requires Verified(h, ChainedOf(events)) && FirstUnsupported(events).None?
    ensures VerifyBackup(h, BareArtifact(events)).Complete?
    ensures Realms(BareArtifact(events).history.value) == events
    ensures BareArtifact(events).historyHead == Head(ChainedOf(events))
  {
    hide FaultIn, FirstUnsupported, Head, Realms, Ceremony.LogOf, ChainedOf;
    BareLog(events);
  }

  // ---- envelopes ----

  lemma TrustlessRestores(h: Hash, events: seq<RealmEvent>, o: RestoreOptions)
    requires Verified(h, ChainedOf(events)) && FirstUnsupported(events).None? && Project(events).federationTrusts == []
    requires o.store.None?
    ensures Restore(h, BareArtifact(events), o).Success?
    ensures Restore(h, BareArtifact(events), o).value.authority == Project(events)
  {
    hide FaultIn, FirstUnsupported, Project, Realms, ChainedOf, VerifyBackup, Restore, BareArtifact, TrustRefers;
    BareVerifies(h, events);
    RestoresItself(h, BareArtifact(events), o);
  }

  /** Without matching envelopes the head does not fix what is restored: two artifacts with one head restore to
      different roots. */
  lemma BackupMissesEnvelope(h: Hash) returns (a: Artifact, b: Artifact, o: RestoreOptions)
    ensures Restore(h, a, o).Success? && Restore(h, b, o).Success?
    ensures a.historyHead == b.historyHead && a.historyHead.Some?
    ensures Restore(h, a, o).value.authority.root != Restore(h, b, o).value.authority.root
  {
    hide FaultIn, FirstUnsupported, Project, Head, ChainedOf, Restore;
    o := RestoreOptions(None, [], map[]);
    var x, y := HeadMissesEnvelope(h);
    a, b := BareArtifact(x), BareArtifact(y);
    TrustlessRestores(h, x, o);
    TrustlessRestores(h, y, o);
  }

  // ---- entries outside the chain ----

  /** An entry of no realm type whose envelope is a rotation: the chain skips it, the projection does not. */
  function Note(ref: string): RealmEvent {
    RealmEvent(Other("NOTE"), true, "", "", None, Null, 1, 1,
               Envelope(Name(AuthorityRotated), "x", "x", Some(99), Str("t"), Null),
               map["new_authority_ref" := Str(ref)], "", "", "", None, "")
  }

  lemma NoteIsUnchained(ref: string)
    ensures !Chained(Note(ref)) && IsCanonical(Note(ref)) && Supported(Note(ref)) && LoggedId(Note(ref)) == ""
    ensures KindOf(Note(ref).envelope.kind) == Some(AuthorityRotated)
  {
    hide Name, Inherited;
    KindOfName(AuthorityRotated);
    KeyNotInherited(AuthorityRotated);
    NoteNotInherited();
  }

  lemma NoteNotInherited()
    ensures !Inherited("NOTE")
  {
    if Inherited("NOTE") { InheritedStartsLower("NOTE"); }
  }

  lemma NoteRotates(s: AuthorityState, ref: string)
    requires ref != ""
    ensures ApplyEvent(s, Note(ref)).root.Some? && ApplyEvent(s, Note(ref)).root.value.ref == ref
    ensures ApplyEvent(s, Note(ref)).federationTrusts == s.federationTrusts
  {
    NoteIsUnchained(ref);
    hide Name, KindOf, Inherited;
  }

  lemma NoteKeepsLookups(events: seq<RealmEvent>, ref: string, heads: map<string, string>, t: Trust)
    requires TrustRefers(events, heads, t)
    ensures TrustRefers(events + [Note(ref)], heads, t)
  {
    hide Note, IsCanonical, LoggedId, EvidenceAgrees, Field, OrNull, Truthy, StrictEq, FirstById;
    FirstByIdAppend(events, Note(ref), t.issuedEvent);
  }

  lemma LegitMirrors(h: Hash, events: seq<RealmEvent>)
    requires Legit(h, events)
    ensures AllMirror(events)
  {
    hide Legit, Mirrors, Supported, FaultIn, FirstUnsupported, Project;
    LegitHistory(h, events);
  }

  lemma NoteKeepsReferences(x: Runtime, n: Node, o: RestoreOptions, ref: string)
    requires Sound(x, n) && (o.store.None? || o.store == Some(n.store))
    requires EvidenceAgreesWithAll(o.heads, n.ledger.authority.federationTrusts)
    ensures var saved := Realms(n.ledger.log) + [Note(ref)];
      && (forall t :: t in n.ledger.authority.federationTrusts ==> TrustRefers(saved, o.heads, t))
      && !LineageCheck(saved, o.store, o.commandIds).Fail?
  {
    hide Sound, Legit, LineageHolds, Note, TrustRefers, EvidenceAgrees, LineageCheck, LogsId, Realms, Project;
    var events := Realms(n.ledger.log);
    var saved := events + [Note(ref)];
    LiveNode(x, n);
    forall t | t in n.ledger.authority.federationTrusts ensures TrustRefers(saved, o.heads, t) {
      TrustsRefer(x.hash, events, o.heads, t);
      NoteKeepsLookups(events, ref, o.heads, t);
    }
    forall id | LogsId(events, id) ensures LogsId(saved, id) { LogsIdLonger(events, [Note(ref)], id); }
    SavedLineagePasses(n, saved, o.store, o.commandIds);
  }

  lemma NoteReplays(h: Hash, events: seq<RealmEvent>, ref: string)
    requires Legit(h, events) && ref != ""
    ensures var saved := events + [Note(ref)];
      && ChainedOf(saved) == events && FirstUnsupported(saved).None? && !AllCovered(saved)
      && Project(saved).federationTrusts == Project(events).federationTrusts
      && Project(saved).root.Some? && Project(saved).root.value.ref == ref
  {
    hide Legit, Note, Chained, IsCanonical, Supported, Mirrors, KindOf, ApplyEvent, Project, FaultIn, FirstUnsupported,
      ChainedOf, LoggedId;
    NoteIsUnchained(ref);
    NoteRotates(Project(events), ref);
    LegitVerifies(h, events);
    ChainedAppend(events, Note(ref));
    ProjectAppend(events, Note(ref));
    assert Note(ref) in events + [Note(ref)];
  }

  /** One such entry behind any reachable log keeps the head and restores to any root one likes, although every chained
      event is the log's own. */
  lemma UnchainedEntryRestores(x: Runtime, n: Node, o: RestoreOptions, ref: string) returns (b: Artifact)
    requires Sound(x, n) && (o.store.None? || o.store == Some(n.store)) && ref != ""
    requires EvidenceAgreesWithAll(o.heads, n.ledger.authority.federationTrusts)
    ensures b.history.Some? && Linked(b.history.value) == Linked(n.ledger.log)
      && b.historyHead == Head(Linked(n.ledger.log))
    ensures AllMirror(Linked(b.history.value)) && !AllCovered(Realms(b.history.value))
    ensures Restore(x.hash, b, o).Success?
    ensures Restore(x.hash, b, o).value.authority.root.Some?
      && Restore(x.hash, b, o).value.authority.root.value.ref == ref
  {
    hide Sound, Legit, Note, AllCovered, EvidenceAgreesWithAll, FaultIn, FirstUnsupported, Project, Head, ChainedOf,
      Realms, VerifyBackup, Restore, BareArtifact, TrustRefers, LineageCheck;
    var h, events := x.hash, Realms(n.ledger.log);
    var saved := events + [Note(ref)];
    LiveNode(x, n);
    LegitVerifies(h, events);
    LegitMirrors(h, events);
    NoteReplays(h, events, ref);
    NoteKeepsReferences(x, n, o, ref);
    b := BareArtifact(saved);
    BareVerifies(h, saved);
    RestoresItself(h, b, o);
  }

  // ---- realms with inherited names ----

  const BARE := RestoreOptions(None, [], map[])

  /** A trust with a head in a realm whose name every object inherits keeps a reachable ledger from being valid, and its
      backup from restoring, unless evidence is supplied for that name. */
  lemma InheritedRealmNeedsEvidence(x: Runtime, n: Node, t: Trust, o: RestoreOptions)
    requires Sound(x, n) && (o.store.None? || o.store == Some(n.store))
    requires t in n.ledger.authority.federationTrusts && Inherited(t.id) && t.id !in o.heads
    requires Truthy(t.detail.remoteEventHead)
    ensures Verify(x.hash, n.ledger, Options(None, o.store, o.commandIds, o.heads)).Success?
    ensures !Verify(x.hash, n.ledger, Options(None, o.store, o.commandIds, o.heads)).value.realmValid
    ensures CreateBackup(x.hash, n.ledger, false, None).Success?
    ensures Restore(x.hash, CreateBackup(x.hash, n.ledger, false, None).value, o).Failure?
  {
    hide Sound, Verify, CreateBackup, Restore, Inherited, Truthy;
    InheritedDisagrees(o.heads, t);
    SoundIsValid(x, n, Options(None, o.store, o.commandIds, o.heads));
    BackupRoundTrip(x, n, false, None, o);
  }

  lemma InheritedDisagrees(heads: map<string, string>, t: Trust)
    requires Inherited(t.id) && t.id !in heads && Truthy(t.detail.remoteEventHead)
    ensures !EvidenceAgrees(heads, t)
  {
    hide Inherited;
    InheritedStartsLower(t.id);
  }

  function InheritedTrust(): Normalized {
    Normalized(Envelope(Name(FederationTrustEstablished), "r", "r", Some(2), Str("t"), Null),
               map["remote_realm_id" := Str("constructor"), "remote_event_head" := Str("h")])
  }

  lemma InheritedTrustPayloadPasses(p: Fields)
    requires p == InheritedTrust().payload
    ensures ContractReasons(PayloadContract(FederationTrustEstablished), p) == []
  {
    hide Trim;
    var contract := PayloadContract(FederationTrustEstablished);
    PayloadPasses(contract, p);
    assert NonBlank(Str("constructor")) by { SolidText("constructor"); }
    forall i | 0 <= i < |contract.fields| ensures !IllTyped(p, contract.fields[i].0, contract.fields[i].1) {
      if i == 0 || i == 5 {
        assert Field(p, contract.fields[i].0).Str?;
      } else {
        assert Field(p, contract.fields[i].0) == Undefined;
      }
    }
  }

  lemma SolidText(s: string)
    requires s != "" && !IsSpace(s[0]) && !IsSpace(s[|s| - 1])
    ensures Trim(s) == s && NonBlank(Str(s))
  {
  }

  lemma InheritedTrustAccepted(c: Context)
    requires NextSequence(c) == 2 && IsActiveRoot(c.authority, "r")
    ensures IsNormal(InheritedTrust().envelope) && Reasons(c, InheritedTrust()) == []
  {
    hide PayloadContract, ContractReasons, KindOf, Name, NextSequence, Reasons, Trim;
    var n := InheritedTrust();
    KindOfName(FederationTrustEstablished);
    NameTrimmed(FederationTrustEstablished);
    InheritedTrustPayloadPasses(n.payload);
    SolidText("r");
    SolidText("t");
    AcceptedMeans(c, n, FederationTrustEstablished);
  }

  lemma InheritedTrustEffect(s: AuthorityState, e: RealmEvent)
    requires Content(e) == InheritedTrust() && s.federationTrusts == []
    ensures |ApplyEvent(s, e).federationTrusts| == 1
    ensures var t := ApplyEvent(s, e).federationTrusts[0];
      t.id == "constructor" && t.detail.remoteEventHead == Str("h")
  {
    hide KindOf, Name;
    KindOfName(FederationTrustEstablished);
    NothingWithout("constructor");
  }

  lemma ConstructorIsInherited()
    ensures Inherited("constructor")
  {
    assert INHERITED_NAMES[0] == "constructor";
  }

  /** Two accepted events after which the report of the untouched ledger is not valid and its own backup does not
      restore. */
  lemma InheritedRealmFails(x: Runtime) returns (inputs: seq<Input>)
    ensures var l := Run(x.hash, inputs);
      && Verify(x.hash, l, Options(None, None, [], map[])).Success?
      && !Verify(x.hash, l, Options(None, None, [], map[])).value.realmValid
      && CreateBackup(x.hash, l, false, None).Success?
      && Restore(x.hash, CreateBackup(x.hash, l, false, None).value, BARE).Failure?
  {
    hide Reasons, IsNormal, Legit, Project, ApplyEvent, InheritedTrust, Content, IsActiveRoot, Verify, CreateBackup,
      Restore, Run, Inherited;
    var first := FirstRootRun(x.hash);
    InheritedTrustAccepted(ContextAt(first));
    var events := Accept(x.hash, first, InheritedTrust());
    InheritedTrustEffect(Project(first), events[1]);
    inputs := RunOf(x, events);
    ConstructorIsInherited();
    InheritedRealmNeedsEvidence(x, Node(Run(x.hash, inputs), map[]), Project(events).federationTrusts[0], BARE);
  }

  /** The run that logs just these events. */
  lemma RunOf(x: Runtime, events: seq<RealmEvent>) returns (inputs: seq<Input>)
    requires Legit(x.hash, events)
    ensures Run(x.hash, inputs).authority == Project(events) && Sound(x, Node(Run(x.hash, inputs), map[]))
  {
    hide Legit, Project, Run, Realms, BuildState;
    BareLog(events);
    inputs := LegitIsReached(x.hash, Ceremony.LogOf(events));
    LiveIsReplay(x.hash, inputs);
  }
}
