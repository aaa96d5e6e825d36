/** A run in which one device revokes another through the legacy `device` field. */
module AliasRun {
  import opened Text
  import opened JsonValues
  import opened Registry
  import opened History
  import opened CurrentAuthority
  import opened Validator
  import opened Runs
  import opened RootAuthority
  import opened Devices

  function Issue(id: string, sequence: int): Normalized {
    Normalized(Envelope(Name(DeviceKeyIssued), "r", "r", Some(sequence), Str("t"), Null),
               map["device_id" := Str(id), "public_key" := Str("k")])
  }

  /** Signed by device `a`: the check reads `a` as its target, the projection `b`. */
  function AliasRevocation(): Normalized {
    Normalized(Envelope(Name(DeviceKeyRevoked), "a", "a", Some(4), Str("t"), Null),
               map["authority_ref" := Str("a"), "device" := Str("b")])
  }

  lemma IssuePayloadPasses(id: string)
    requires id == "a" || id == "b"
    ensures ContractReasons(PayloadContract(DeviceKeyIssued), Issue(id, 1).payload) == []
  {
    hide ContractReasons;
    var contract, p := PayloadContract(DeviceKeyIssued), Issue(id, 1).payload;
    PayloadPasses(contract, p);
    assert Trim("a") == "a" && Trim("b") == "b" && Trim("k") == "k";
    assert Field(p, "authority_ref") == Undefined && Field(p, "capabilities") == Undefined;
  }

  lemma IssueAccepted(c: Context, id: string, sequence: int)
    requires (id == "a" || id == "b") && sequence == NextSequence(c) >= 1 && IsActiveRoot(c.authority, "r")
    ensures IsNormal(Issue(id, sequence).envelope) && Reasons(c, Issue(id, sequence)) == []
  {
    hide PayloadContract, ContractReasons, KindOf, Name, NextSequence, Reasons;
    KindOfName(DeviceKeyIssued);
    NameTrimmed(DeviceKeyIssued);
    IssuePayloadPasses(id);
    assert Trim("r") == "r" && Trim("t") == "t";
    AcceptedMeans(c, Issue(id, sequence), DeviceKeyIssued);
  }

  lemma IssuedNames(id: string)
    requires id == "a" || id == "b"
    ensures IssuedDeviceId(Issue(id, 1).payload) == id && IssuedDeviceRef(Issue(id, 1).payload) == "device:" + id
  {
  }

  /** What issuing adds to the projection. */
  lemma IssueEffect(s: AuthorityState, e: RealmEvent, id: string, sequence: int)
    requires (id == "a" || id == "b") && Content(e) == Issue(id, sequence) && e.kind == DeviceKeyIssued
    ensures var t := ApplyEvent(s, e);
      && t == s.(lastSequence := sequence, devices := t.devices)
      && t.devices == Without(s.devices, id, "device:" + id) + [NewDevice(e)]
      && NewDevice(e).id == id && NewDevice(e).ref == "device:" + id && NewDevice(e).status == Active
  {
    KindOfName(DeviceKeyIssued);
    IssuedNames(id);
    hide KindOf, Name, IssuedDeviceId, IssuedDeviceRef, MigrateIssued, Without, Stamp;
  }

  /** Root `r`, and the devices `a` and `b`, both active. */
  predicate TwoDevices(s: AuthorityState) {
    IsActiveRoot(s, "r") && s.root.value.id == "r" && s.root.value.ref == "r" && s.recoveryAuthorities == []
    && s.lastSequence == 3 && |s.devices| == 2
    && s.devices[0].id == "a" && s.devices[0].ref == "device:a" && s.devices[0].status == Active
    && s.devices[1].id == "b" && s.devices[1].ref == "device:b" && s.devices[1].status == Active
  }

  lemma RevocationAccepted(c: Context)
    requires TwoDevices(c.authority) && NextSequence(c) == 4
    ensures IsNormal(AliasRevocation().envelope) && Reasons(c, AliasRevocation()) == []
    ensures OnlyDevice(c.authority, "a")
  {
    hide PayloadContract, ContractReasons, KindOf, Name, NextSequence, Reasons;
    var n := AliasRevocation();
    KindOfName(DeviceKeyRevoked);
    NameTrimmed(DeviceKeyRevoked);
    AliasPayloadPasses(n.payload);
    assert Trim("a") == "a" && Trim("t") == "t";
    assert TargetDevice(n.envelope, n.payload) == Str("a");
    assert Find(c.authority.devices, "a") == Some(c.authority.devices[0]);
    AcceptedMeans(c, n, DeviceKeyRevoked);
  }

  lemma RevocationEffect(s: AuthorityState, e: RealmEvent)
    requires TwoDevices(s) && Content(e) == AliasRevocation() && e.kind == DeviceKeyRevoked
    ensures var t := ApplyEvent(s, e);
      |t.devices| == 2 && t.devices[0] == s.devices[0] && t.devices[1].id == "b" && t.devices[1].status == Revoked
  {
    var p := AliasRevocation().payload;
    assert MigrateRevoked(p)["device_id"] == Str("b");
    assert AppliedTarget(e.envelope, e.payload) == "b";
    KindOfName(DeviceKeyRevoked);
    hide KindOf, Name, AppliedTarget, Stamp;
    EffectOnDevices(s, e);
  }

  lemma DevicesThere(h: Hash) returns (events: seq<RealmEvent>)
    ensures Legit(h, events) && |events| == 3 && TwoDevices(Project(events))
  {
    hide Legit, Project, Reasons, IsNormal, Without, Issue, Content, ApplyEvent, KindOf, Name, NewDevice;
    KindOfName(DeviceKeyIssued);
    IssueKind();
    assert "device:" + "a" == "device:a" && "device:" + "b" == "device:b";
    var one := FirstRootRun(h);
    IssueAccepted(ContextAt(one), "a", 2);
    var two := Accept(h, one, Issue("a", 2));
    IssueEffect(Project(one), two[1], "a", 2);
    WithoutNothing("a");
    assert Project(two).devices == [NewDevice(two[1])];
    IssueAccepted(ContextAt(two), "b", 3);
    events := Accept(h, two, Issue("b", 3));
    IssueEffect(Project(two), events[2], "b", 3);
    WithoutOther(NewDevice(two[1]));
    var t := Project(events);
    assert t.devices == [NewDevice(two[1])] + [NewDevice(events[2])];
    assert t.devices[0] == NewDevice(two[1]) && t.devices[1] == NewDevice(events[2]);
  }

  lemma IssueKind()
    ensures forall id, sequence :: Issue(id, sequence).envelope.kind == Name(DeviceKeyIssued)
  {
  }

  lemma WithoutNothing(id: string)
    ensures Without<DeviceDetail>([], id, "device:" + id) == []
  {
  }

  lemma WithoutOther(d: Device)
    requires d.id == "a" && d.ref == "device:a"
    ensures Without([d], "b", "device:b") == [d]
  {
    assert "device:a"[7] == 'a' && "device:b"[7] == 'b';
    assert [d][1..] == [];
  }

  /** Four accepted events; the last is signed by `a`, which is a device and nothing more, leaves `a` active, and
      revokes `b`. */
  lemma DeviceRevokesAnother(h: Hash) returns (events: seq<RealmEvent>)
    ensures Legit(h, events) && |events| == 4
    ensures events[3].envelope.signer == "a" && OnlyDevice(Project(events[..3]), "a")
    ensures TwoDevices(Project(events[..3])) && |Project(events).devices| == 2
    ensures Project(events).devices[0] == Project(events[..3]).devices[0]
    ensures Project(events).devices[1].id == "b" && Project(events).devices[1].status == Revoked
  {
    hide Legit, Project, Reasons, IsNormal, ApplyEvent, KindOf, Name, TwoDevices, OnlyDevice;
    KindOfName(DeviceKeyRevoked);
    var three := DevicesThere(h);
    LastIsThree(Project(three));
    RevocationAccepted(ContextAt(three));
    events := Accept(h, three, AliasRevocation());
    RevocationEffect(Project(three), events[3]);
  }

  lemma LastIsThree(s: AuthorityState)
    requires TwoDevices(s)
    ensures s.lastSequence == 3
  {
  }
}
