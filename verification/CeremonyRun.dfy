/** Ceremonies that stop half way: one event, or two, are logged, and the old device stays active. */
module CeremonyRun {
  import opened Text
  import opened JsonValues
  import opened Registry
  import opened History
  import opened CurrentAuthority
  import opened Validator
  import opened Pipeline
  import opened Runs
  import opened Devices
  import opened RootAuthority
  import opened AliasRun
  import opened Ceremony
  import opened CeremonyOutcome
  import Commands

  /** Root `r` issues recovery authority `v`. */
  function IssueRecovery(): Normalized {
    Normalized(Envelope(Name(RecoveryAuthorityIssued), "r", "r", Some(3), Str("t"), Null),
               map["recovery_authority_id" := Str("v"), "public_key" := Str("k")])
  }

  lemma RecoveryPayloadPasses()
    ensures ContractReasons(PayloadContract(RecoveryAuthorityIssued), IssueRecovery().payload) == []
  {
    hide ContractReasons;
    var contract, p := PayloadContract(RecoveryAuthorityIssued), IssueRecovery().payload;
    PayloadPasses(contract, p);
    assert Trim("v") == "v" && Trim("k") == "k";
    assert Field(p, "authority_ref") == Undefined && Field(p, "label") == Undefined;
  }

  lemma RecoveryAccepted(c: Context)
    requires NextSequence(c) == 3 && IsActiveRoot(c.authority, "r") && c.authority.recoveryAuthorities == []
    ensures IsNormal(IssueRecovery().envelope) && Reasons(c, IssueRecovery()) == []
  {
    hide PayloadContract, ContractReasons, KindOf, Name, NextSequence, Reasons;
    KindOfName(RecoveryAuthorityIssued);
    NameTrimmed(RecoveryAuthorityIssued);
    RecoveryPayloadPasses();
    assert Trim("r") == "r" && Trim("t") == "t";
    AcceptedMeans(c, IssueRecovery(), RecoveryAuthorityIssued);
  }

  lemma RecoveryEffect(s: AuthorityState, e: RealmEvent)
    requires Content(e) == IssueRecovery() && e.kind == RecoveryAuthorityIssued && s.recoveryAuthorities == []
    ensures var t := ApplyEvent(s, e);
      && t == s.(lastSequence := 3, recoveryAuthorities := t.recoveryAuthorities)
      && |t.recoveryAuthorities| == 1 && t.recoveryAuthorities[0].id == "v" && t.recoveryAuthorities[0].status == Active
  {
    KindOfName(RecoveryAuthorityIssued);
    hide KindOf, Name, Stamp;
    var p := IssueRecovery().payload;
    assert Field(p, "recovery_authority_id") == Str("v");
  }

  /** One active device `a`, and one active recovery authority `v`. */
  predicate Ready(s: AuthorityState) {
    s.lastSequence == 3 && |s.devices| == 1 && |s.recoveryAuthorities| == 1
    && s.devices[0].id == "a" && s.devices[0].ref == "device:a" && s.devices[0].status == Active
    && s.recoveryAuthorities[0].id == "v" && s.recoveryAuthorities[0].status == Active
  }

  lemma RecoveryThere(h: Hash) returns (events: seq<RealmEvent>)
    ensures Legit(h, events) && |events| == 3 && Ready(Project(events))
  {
    hide Legit, Project, Reasons, IsNormal, Without, Issue, IssueRecovery, Content, ApplyEvent, KindOf, Name, NewDevice;
    KindOfName(DeviceKeyIssued);
    KindOfName(RecoveryAuthorityIssued);
    IssueKind();
    assert IssueRecovery().envelope.kind == Name(RecoveryAuthorityIssued) by { RecoveryKind(); }
    assert "device:" + "a" == "device:a";
    var one := FirstRootRun(h);
    IssueAccepted(ContextAt(one), "a", 2);
    var two := Accept(h, one, Issue("a", 2));
    IssueEffect(Project(one), two[1], "a", 2);
    WithoutNothing("a");
    assert Project(two).devices == [NewDevice(two[1])];
    RecoveryAccepted(ContextAt(two));
    events := Accept(h, two, IssueRecovery());
    RecoveryEffect(Project(two), events[2]);
  }

  lemma RecoveryKind()
    ensures IssueRecovery().envelope.kind == Name(RecoveryAuthorityIssued)
  {
  }

  /** The ledger of a run that ends there. */
  lemma ReadyLedger(h: Hash) returns (l: LedgerValue)
    ensures Live(h, l) && Ready(l.authority) && NextSequence(ContextOf(l)) == 4
  {
    hide Legit, Project, Ready;
    var events := RecoveryThere(h);
    var log := LogOf(events);
    Commands.RealmsOfLogOf([], events);
    assert [] + log == log && [] + events == events;
    l := LedgerOf(log);
    assert Realms(log) == events by { assert Realms([]) == []; }
    NextAfter(h, l);
  }

  // ---- the two ceremonies ----

  /** The old device is given by its reference, as if that were its id. */
  function CeremonyInput(publicKey: Json): Fields {
    map["recoveryAuthority" := Str("v"), "oldDevice" := Str("device:a"),
        "newDevice" := Obj(map["id" := Str("n"), "public_key" := publicKey]),
        "recoveryRef" := Str("q"), "startSequence" := Num(4), "timestamp" := Str("t")]
  }

  function HalfPlan(publicKey: Json): Plan {
    Plan("v", "device:a", "device:device:a", "n", "device:n", Str("q"), publicKey, Arr([]), 4, Str("t"),
         Str("recovery_ceremony"))
  }

  lemma PlanOfInput(publicKey: Json)
    requires publicKey == Str("k") || publicKey == Undefined
    ensures PlanOf(CeremonyInput(publicKey), "") == Success(HalfPlan(publicKey))
  {
    hide CeremonyInput, Field, NewDeviceJson;
    InputFields(publicKey);
    NewDeviceFields(publicKey);
    assert "device:" + "n" == "device:n" && "device:" + "device:a" == "device:device:a";
  }

  function NewDeviceJson(publicKey: Json): Json {
    Obj(map["id" := Str("n"), "public_key" := publicKey])
  }

  lemma InputFields(publicKey: Json)
    ensures var input := CeremonyInput(publicKey);
      && Field(input, "recoveryAuthority") == Str("v") && Field(input, "oldDevice") == Str("device:a")
      && Field(input, "newDevice") == NewDeviceJson(publicKey)
      && Field(input, "recoveryRef") == Str("q") && Field(input, "startSequence") == Num(4)
      && Field(input, "timestamp") == Str("t") && Field(input, "reason") == Undefined
  {
  }

  lemma NewDeviceFields(publicKey: Json)
    requires publicKey == Str("k") || publicKey == Undefined
    ensures var device := NewDeviceJson(publicKey);
      && Get(device, "id") == Str("n") && Get(device, "capabilities") == Undefined
      && Get(device, "authorityRef") == Undefined && Get(device, "authority_ref") == Undefined
      && Get(device, "authority") == Undefined
      && Or(Get(device, "public_key"), Get(device, "publicKey")) == publicKey
  {
  }

  lemma TextsTrimmed()
    ensures Trim("v") == "v" && Trim("q") == "q" && Trim("t") == "t" && Trim("k") == "k" && Trim("n") == "n"
    ensures Trim("device:a") == "device:a"
  {
  }

  lemma HalfReached(c: Context, publicKey: Json)
    requires Ready(c.authority) && NextSequence(c) == 4 && (publicKey == Str("k") || publicKey == Undefined)
    ensures Reached(c, HalfPlan(publicKey), "") == if publicKey == Undefined then 1 else 2
  {
    hide Trim, NextSequence;
    TextsTrimmed();
    var s, plan := c.authority, HalfPlan(publicKey);
    var a := s.devices[0];
    assert Find(s.devices, "device:a") == Some(a);
    assert s.devices[1..] == [];
    assert Find(s.devices, "n").None?;
    assert Find(s.recoveryAuthorities, "v") == Some(s.recoveryAuthorities[0]);
    assert KeptDevices(s, plan) == [a] by { KeptOne(s.devices); }
    assert Find([a], "device:a") == Some(a);
    assert |"device:a"| == 8 && |"device:device:a"| == 15;
  }

  lemma KeptOne(devices: seq<Device>)
    requires |devices| == 1 && devices[0].id == "a" && devices[0].ref == "device:a"
    ensures Without(devices, "n", "device:n") == [devices[0]]
  {
    assert "device:a"[7] == 'a' && "device:n"[7] == 'n';
    assert devices[1..] == [];
  }

  /** A run after which a ceremony of a ready signer logs one event without a public key, and two with one when the old
      device is given by its reference as if that were its id: it fails, although two thirds of it are in the log. */
  lemma CeremonyStopsHalfWay(h: Hash, publicKey: Json) returns (l: LedgerValue, plan: Plan)
    requires publicKey == Str("k") || publicKey == Undefined
    ensures Live(h, l) && PlanOf(CeremonyInput(publicKey), "") == Success(plan) && SignerReady(l.authority, plan)
    ensures var o := Submit(h, l, [], Proposals(plan), "");
      o.failure.Some? && |o.accepted| == if publicKey == Undefined then 1 else 2
  {
    hide Live, Ready, Reached, Submit, Proposals, NextSequence;
    l := ReadyLedger(h);
    plan := HalfPlan(publicKey);
    PlanOfInput(publicKey);
    HalfReached(ContextOf(l), publicKey);
    CeremonyReaches(h, l, plan, "");
    assert SignerReady(l.authority, plan) by { ReadySigner(l.authority, plan); }
  }

  lemma ReadySigner(s: AuthorityState, plan: Plan)
    requires Ready(s) && plan.signer == "v"
    ensures SignerReady(s, plan)
  {
    assert Trim("v") == "v";
  }
}
