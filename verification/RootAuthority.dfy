/** Root continuity over whole runs, and when the root can still act. */
module RootAuthority {
  import opened Text
  import opened JsonValues
  import opened Registry
  import opened History
  import opened CurrentAuthority
  import opened Validator
  import opened Runs

  predicate HasActiveRoot(s: AuthorityState) {
    s.root.Some? && s.root.value.status.Active?
  }

  /** Nothing but creating the root is possible before there is one. */
  lemma OnlyRootFirst(env: Envelope, p: Fields, kind: Kind)
    requires KindOf(env.kind) == Some(kind) && AuthorityReasons(EMPTY_STATE, env, p) == []
    ensures kind == RootAuthorityCreated
  {
    hide CheckTransition;
    assert CanSign(EMPTY_STATE, env.signer, RequiredAuthority(kind));
  }

  /** Only creation and rotation touch the root, and both leave an active one. */
  lemma EffectOnRoot(s: AuthorityState, env: Envelope, p: Fields, kind: Kind, id: string, time: Json)
    ensures kind.RootAuthorityCreated? || kind.AuthorityRotated? ==> HasActiveRoot(Apply(kind, s, id, time, env, p))
    ensures !kind.RootAuthorityCreated? && !kind.AuthorityRotated? ==> Apply(kind, s, id, time, env, p).root == s.root
  {
    hide ApplyDeviceIssued, ApplySessionIssued, ApplyRecoveryIssued, ApplyTrust, End, ToText, Or, Field, Stamp, OrNull,
      Key, TargetRecoveryAuthority, AppliedTarget, TrustRealm;
  }

  /** With a root in place it cannot be created again, only the root itself rotates it, and the new one is active. */
  lemma RootStep(s: AuthorityState, env: Envelope, p: Fields, kind: Kind, id: string, time: Json)
    requires HasActiveRoot(s)
    requires KindOf(env.kind) == Some(kind) && AuthorityReasons(s, env, p) == []
    ensures kind != RootAuthorityCreated
    ensures HasActiveRoot(Apply(kind, s, id, time, env, p))
    ensures kind != AuthorityRotated ==> Apply(kind, s, id, time, env, p).root == s.root
    ensures kind == AuthorityRotated ==> IsActiveRoot(s, env.signer)
  {
    EffectOnRoot(s, env, p, kind, id, time);
    hide Apply, CheckTransition, KindOf;
    assert CanSign(s, env.signer, RequiredAuthority(kind));
  }

  lemma {:induction false} RootExists(h: Hash, events: seq<RealmEvent>)
    requires Legit(h, events) && events != []
    ensures HasActiveRoot(Project(events))
    decreases |events|
  {
    hide *;
    var n := |events| - 1;
    var before, e := events[..n], events[n];
    LegitAt(h, events, n);
    AdmissibleEvent(h, before, e);
    if before != [] { RootExists(h, before); }
    EventOnRoot(before, e);
    assert events == before + [e];
  }

  /** In every run the first realm event creates the root, no later one does, and from then on a root is active. */
  lemma RootContinuity(h: Hash, events: seq<RealmEvent>)
    requires Legit(h, events)
    ensures forall k :: 0 <= k < |events| ==> (events[k].kind == RootAuthorityCreated <==> k == 0)
    ensures events != [] ==> HasActiveRoot(Project(events))
  {
    hide *;
    if events != [] { RootExists(h, events); }
    forall k | 0 <= k < |events| ensures events[k].kind == RootAuthorityCreated <==> k == 0 {
      var before := events[..k];
      LegitAt(h, events, k);
      AdmissibleEvent(h, before, events[k]);
      if before != [] { RootExists(h, before); }
      EventOnRoot(before, events[k]);
    }
  }

  lemma EventOnRoot(before: seq<RealmEvent>, e: RealmEvent)
    requires before == [] || HasActiveRoot(Project(before))
    requires KindOf(e.envelope.kind) == Some(e.kind) && AuthorityReasons(Project(before), e.envelope, e.payload) == []
    ensures e.kind == RootAuthorityCreated <==> before == []
    ensures HasActiveRoot(Project(before + [e]))
  {
    hide AuthorityReasons, Apply, KindOf, Project;
    ProjectAppend(before, e);
    if before == [] {
      assert Project(before) == EMPTY_STATE by { EmptyProject(); }
      OnlyRootFirst(e.envelope, e.payload, e.kind);
      EffectOnRoot(Project(before), e.envelope, e.payload, e.kind, e.id, e.timestamp);
    } else {
      RootStep(Project(before), e.envelope, e.payload, e.kind, e.id, e.timestamp);
    }
  }

  lemma EmptyProject()
    ensures Project([]) == EMPTY_STATE
  {
  }

  // ---- progress ----

  /** Some proposal signed by the active root is accepted next. */
  ghost predicate RootCanAct(h: Hash, c: Context) {
    exists proposal: Json, now: string ::
      Validate(h, c, proposal, now).Accepted? && IsActiveRoot(c.authority, Normalize(proposal, now).envelope.signer)
  }

  /** A name that survives the trimming of signers. */
  predicate Signable(name: string) {
    name != "" && Trimmed(name)
  }

  /** A proposal every signable root may make. */
  function TrustProposal(signer: string, sequence: int): Normalized {
    Normalized(Envelope(Name(FederationTrustEstablished), signer, signer, Some(sequence), Str("t"), Null),
               map["remote_realm_id" := Str("r")])
  }

  lemma TrustPayloadPasses(p: Fields)
    requires p == map["remote_realm_id" := Str("r")]
    ensures ContractReasons(PayloadContract(FederationTrustEstablished), p) == []
  {
    var contract := PayloadContract(FederationTrustEstablished);
    PayloadPasses(contract, p);
    assert Trim("r") == "r";
    forall i | 0 <= i < |contract.fields| ensures !IllTyped(p, contract.fields[i].0, contract.fields[i].1) {
      if contract.fields[i].0 != "remote_realm_id" { assert Field(p, contract.fields[i].0) == Undefined; }
    }
  }

  lemma TrustProposalAccepted(c: Context, signer: string)
    requires Signable(signer) && IsActiveRoot(c.authority, signer) && NextSequence(c) >= 1
    ensures IsNormal(TrustProposal(signer, NextSequence(c)).envelope)
    ensures Reasons(c, TrustProposal(signer, NextSequence(c))) == []
  {
    hide PayloadContract, ContractReasons, KindOf, Name, NextSequence, Reasons;
    var n := TrustProposal(signer, NextSequence(c));
    KindOfName(FederationTrustEstablished);
    NameTrimmed(FederationTrustEstablished);
    TrustPayloadPasses(n.payload);
    assert Trim("t") == "t";
    AcceptedMeans(c, n, FederationTrustEstablished);
  }

  /** The root can act exactly when its id or its reference is a name a trimmed signer can equal. */
  lemma RootProgress(h: Hash, events: seq<RealmEvent>)
    requires Legit(h, events) && events != []
    ensures HasActiveRoot(Project(events))
    ensures RootCanAct(h, ContextAt(events))
       <==> Signable(Project(events).root.value.id) || Signable(Project(events).root.value.ref)
  {
    hide Legit, Project, Verified, FirstUnsupported, Validate, Normalize, Mirrors, Supported, Signable;
    RootContinuity(h, events);
    LegitHistory(h, events);
    var c := ContextAt(events);
    var root := c.authority.root.value;
    if Signable(root.id) || Signable(root.ref) {
      RootFinds(h, c, if Signable(root.id) then root.id else root.ref);
    }
    forall proposal, now | Validate(h, c, proposal, now).Accepted?
                           && IsActiveRoot(c.authority, Normalize(proposal, now).envelope.signer)
      ensures Signable(root.id) || Signable(root.ref)
    {
      AcceptedSigner(h, c, proposal, now);
    }
  }

  /** A signable name of the root gets a proposal accepted. */
  lemma RootFinds(h: Hash, c: Context, signer: string)
    requires HasActiveRoot(c.authority) && IsActiveRoot(c.authority, signer) && Signable(signer) && NextSequence(c) >= 1
    ensures RootCanAct(h, c)
  {
    hide Normalize, ProposalJson, NextSequence, Signable, CheckTransition;
    var n := TrustProposal(signer, NextSequence(c));
    TrustProposalAccepted(c, signer);
    NormalizeProposalJson(n, "");
    assert Validate(h, c, ProposalJson(n), "").Accepted?;
  }

  lemma AcceptedSigner(h: Hash, c: Context, proposal: Json, now: string)
    requires Validate(h, c, proposal, now).Accepted?
    ensures Signable(Normalize(proposal, now).envelope.signer)
  {
    NormalizeIsNormal(proposal, now);
    hide Normalize, PayloadReasons, AuthorityReasons;
  }

  lemma StrandedStep(h: Hash, start: seq<RealmEvent>, before: seq<RealmEvent>, e: RealmEvent)
    requires Legit(h, start) && start != [] && !RootCanAct(h, ContextAt(start))
    requires HasActiveRoot(Project(before)) && Project(before).root == Project(start).root
    requires Admissible(h, before, e)
    ensures Project(before + [e]).root == Project(start).root
  {
    hide Admissible, Apply, RootCanAct, ContextAt, Mirrors, Legit, Project, AuthorityReasons, KindOf, Supported,
      LinkFault, ContractReasons, NextSequence;
    AdmissibleEvent(h, before, e);
    AdmissibleSigner(h, before, e);
    RootProgress(h, start);
    ProjectAppend(before, e);
    RootStep(Project(before), e.envelope, e.payload, e.kind, e.id, e.timestamp);
  }

  /** A root that cannot act stays the root for ever. */
  lemma {:induction false} StrandedForGood(h: Hash, events: seq<RealmEvent>, n: nat)
    requires Legit(h, events) && 0 < n <= |events|
    requires !RootCanAct(h, ContextAt(events[..n]))
    ensures Project(events).root == Project(events[..n]).root
    decreases |events|
  {
    hide *;
    if n < |events| {
      var last := |events| - 1;
      var before, e := events[..last], events[last];
      assert before[..n] == events[..n];
      LegitAt(h, events, last);
      StrandedForGood(h, before, n);
      RootExists(h, before);
      LegitPrefix(h, events, n);
      StrandedStep(h, events[..n], before, e);
      assert events == before + [e];
    } else {
      assert events[..n] == events;
    }
  }

  lemma AdmissibleSigner(h: Hash, before: seq<RealmEvent>, e: RealmEvent)
    requires Admissible(h, before, e)
    ensures Signable(e.envelope.signer)
  {
    AdmissibleEvent(h, before, e);
    hide Reasons, BuildAccepted;
  }

  // ---- a rotation that strands the root ----

  function FirstRoot(): Normalized {
    Normalized(Envelope(Name(RootAuthorityCreated), "r", "r", Some(1), Str("t"), Null), map["root_id" := Str("r")])
  }

  /** The new reference starts with a space, which the payload check lets through. */
  function StrandingRotation(): Normalized {
    Normalized(Envelope(Name(AuthorityRotated), "r", "r", Some(2), Str("t"), Null),
               map["new_authority_ref" := Str(" s")])
  }

  lemma FirstRootPayloadPasses(p: Fields)
    requires p == map["root_id" := Str("r")]
    ensures ContractReasons(PayloadContract(RootAuthorityCreated), p) == []
  {
    var contract := PayloadContract(RootAuthorityCreated);
    PayloadPasses(contract, p);
    assert Trim("r") == "r";
    forall i | 0 <= i < |contract.fields| ensures !IllTyped(p, contract.fields[i].0, contract.fields[i].1) {
      if contract.fields[i].0 != "root_id" { assert Field(p, contract.fields[i].0) == Undefined; }
    }
  }

  lemma FirstRootAccepted()
    ensures IsNormal(FirstRoot().envelope) && Reasons(ContextAt([]), FirstRoot()) == []
  {
    hide PayloadContract, ContractReasons, KindOf, Name, Reasons;
    var n := FirstRoot();
    KindOfName(RootAuthorityCreated);
    NameTrimmed(RootAuthorityCreated);
    FirstRootPayloadPasses(n.payload);
    assert Trim("r") == "r" && Trim("t") == "t";
    AcceptedMeans(ContextAt([]), n, RootAuthorityCreated);
  }

  lemma StrandingPayloadPasses(p: Fields)
    requires p == map["new_authority_ref" := Str(" s")]
    ensures ContractReasons(PayloadContract(AuthorityRotated), p) == []
  {
    var contract := PayloadContract(AuthorityRotated);
    PayloadPasses(contract, p);
    assert Trim(" s") == Trim(" s"[1..]) && Trim("s") == "s";
    assert " s"[1..] == "s";
    forall i | 0 <= i < |contract.fields| ensures !IllTyped(p, contract.fields[i].0, contract.fields[i].1) {
      if contract.fields[i].0 != "new_authority_ref" { assert Field(p, contract.fields[i].0) == Undefined; }
    }
  }

  lemma StrandingRotationAccepted(c: Context)
    requires NextSequence(c) == 2 && IsActiveRoot(c.authority, "r")
    ensures IsNormal(StrandingRotation().envelope) && Reasons(c, StrandingRotation()) == []
  {
    hide PayloadContract, ContractReasons, KindOf, Name, NextSequence, Reasons;
    var n := StrandingRotation();
    KindOfName(AuthorityRotated);
    NameTrimmed(AuthorityRotated);
    StrandingPayloadPasses(n.payload);
    assert Trim("r") == "r" && Trim("t") == "t";
    AcceptedMeans(c, n, AuthorityRotated);
  }

  lemma AdmissibleBuilt(h: Hash, before: seq<RealmEvent>, n: Normalized) returns (e: RealmEvent)
    requires IsNormal(n.envelope) && Reasons(ContextAt(before), n) == []
    ensures Admissible(h, before, e) && Content(e) == n
  {
    hide Reasons, EventHash, EventId;
    ReasonsNeedKind(ContextAt(before), n);
    e := BuildAccepted(h, Head(before), n, "");
  }

  /** A normal proposal that nothing speaks against extends a run by one event. */
  lemma Accept(h: Hash, before: seq<RealmEvent>, n: Normalized) returns (events: seq<RealmEvent>)
    requires Legit(h, before) && IsNormal(n.envelope) && Reasons(ContextAt(before), n) == []
    ensures |events| == |before| + 1 && events[..|before|] == before && Legit(h, events)
    ensures Content(events[|before|]) == n && Project(events) == ApplyEvent(Project(before), events[|before|])
    ensures KindOf(n.envelope.kind) == Some(events[|before|].kind)
  {
    hide Legit, Reasons, Admissible, Project, Content, IsNormal;
    var e := AdmissibleBuilt(h, before, n);
    events := before + [e];
    LegitAppend(h, before, e);
    ProjectAppend(before, e);
    AdmissibleKind(h, before, e, n);
  }

  lemma AdmissibleKind(h: Hash, before: seq<RealmEvent>, e: RealmEvent, n: Normalized)
    requires Admissible(h, before, e) && Content(e) == n
    ensures KindOf(n.envelope.kind) == Some(e.kind)
  {
    hide Admissible;
    AdmissibleEvent(h, before, e);
  }

  lemma FirstRootEffect(s: AuthorityState, e: RealmEvent)
    requires KindOf(FirstRoot().envelope.kind) == Some(RootAuthorityCreated) && Content(e) == FirstRoot()
    ensures var t := ApplyEvent(s, e);
      && t == s.(root := t.root, lastSequence := 1)
      && IsActiveRoot(t, "r") && t.root.value.id == "r" && t.root.value.ref == "r"
  {
    hide KindOf, Name;
  }

  lemma FirstRootKind()
    ensures KindOf(FirstRoot().envelope.kind) == Some(RootAuthorityCreated)
  {
    hide KindOf, Name;
    KindOfName(RootAuthorityCreated);
  }

  /** A run of one event, after which the root `r` acts next. */
  lemma FirstRootRun(h: Hash) returns (events: seq<RealmEvent>)
    ensures Legit(h, events) && |events| == 1
    ensures Project(events) == EMPTY_STATE.(root := Project(events).root, lastSequence := 1)
    ensures IsActiveRoot(Project(events), "r") && Project(events).root.value.id == "r"
      && Project(events).root.value.ref == "r"
  {
    hide Reasons, IsNormal, Legit, Project, ApplyEvent, KindOf, FirstRoot, Content, IsActiveRoot;
    FirstRootAccepted();
    assert Legit(h, []) by { EmptyIsLegit(h); }
    events := Accept(h, [], FirstRoot());
    FirstRootKind();
    assert Project([]) == EMPTY_STATE by { EmptyProject(); }
    FirstRootEffect(EMPTY_STATE, events[0]);
  }

  lemma EmptyIsLegit(h: Hash)
    ensures Legit(h, [])
  {
  }

  lemma StrandingRotationEffect(s: AuthorityState, e: RealmEvent)
    requires KindOf(StrandingRotation().envelope.kind) == Some(AuthorityRotated) && Content(e) == StrandingRotation()
    ensures ApplyEvent(s, e).root.Some?
    ensures ApplyEvent(s, e).root.value.id == " s" && ApplyEvent(s, e).root.value.ref == " s"
  {
    hide KindOf, Name;
  }

  lemma StrandingRotationKind()
    ensures KindOf(StrandingRotation().envelope.kind) == Some(AuthorityRotated)
  {
    hide KindOf, Name;
    KindOfName(AuthorityRotated);
  }

  lemma LeadingSpaceIsUnsignable()
    ensures !Signable(" s")
  {
    assert Trim(" s") == Trim(" s"[1..]) && |Trim("s")| <= 1;
    assert " s"[1..] == "s";
  }

  /** Two accepted events after which no proposal of the root is ever accepted again. */
  lemma RotationCanStrand(h: Hash) returns (events: seq<RealmEvent>)
    ensures Legit(h, events) && |events| == 2 && !RootCanAct(h, ContextAt(events))
  {
    hide Reasons, IsNormal, RootCanAct, Legit, Project, ApplyEvent, KindOf, StrandingRotation, Content, IsActiveRoot,
      Signable;
    var first := FirstRootRun(h);
    StrandingRotationAccepted(ContextAt(first));
    events := Accept(h, first, StrandingRotation());
    StrandingRotationKind();
    StrandingRotationEffect(Project(first), events[1]);
    LeadingSpaceIsUnsignable();
    RootProgress(h, events);
  }
}
