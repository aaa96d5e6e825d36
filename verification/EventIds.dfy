/** Event ids: they tell the events of one history apart, although they carry only part of the hash. */
module EventIds {
  import opened Text
  import opened JsonParser
  import opened Registry
  import opened History
  import opened CurrentAuthority
  import opened Runs

  predicate AboutKeys(kind: Kind) {
    kind.RootAuthorityCreated? || kind.DeviceKeyIssued? || kind.DeviceKeyRevoked?
    || kind.SessionAuthorityIssued? || kind.SessionAuthorityExpired? || kind.AuthorityRotated?
  }

  lemma KeyNameHasNoColon(kind: Kind)
    requires AboutKeys(kind)
    ensures ':' !in Name(kind)
  {
  }

  lemma RecoveryOrTrustNameHasNoColon(kind: Kind)
    requires !AboutKeys(kind) && !kind.Other?
    ensures ':' !in Name(kind)
  {
  }

  lemma NameHasNoColon(kind: Kind)
    requires !kind.Other?
    ensures ':' !in Name(kind)
  {
    hide Name;
    if AboutKeys(kind) { KeyNameHasNoColon(kind); } else { RecoveryOrTrustNameHasNoColon(kind); }
  }

  lemma LowerHasNoColon(s: string)
    requires ':' !in s
    ensures ':' !in Lower(s)
  {
  }

  lemma IdShape(h: Hash, before: seq<RealmEvent>, e: RealmEvent, k: nat)
    requires Admissible(h, before, e) && e.sequence == Some(k + 1)
    ensures e.eventId == "realm_evt_" + Decimal(k + 1) + "_" + (Lower(Name(e.kind)) + "_" + Short(e.currentEventHash))
    ensures HexText(e.currentEventHash)
  {
    AdmissibleEvent(h, before, e);
    assert EventHash(h, e, Head(before)) == e.currentEventHash;
    hide Name, Material;
    Regroup(Decimal(k + 1), Lower(Name(e.kind)), Short(e.currentEventHash));
  }

  lemma Regroup(a: string, b: string, c: string)
    ensures "realm_evt_" + a + "_" + b + "_" + c == "realm_evt_" + a + "_" + (b + "_" + c)
  {
  }

  /** An event id contains no colon and ends in no white space. */
  lemma IdIsSolid(id: string, k: nat, name: string, hash: string)
    requires id == "realm_evt_" + Decimal(k) + "_" + (Lower(name) + "_" + Short(hash))
    requires HexText(hash) && ':' !in name
    ensures ':' !in id && id != "" && !IsSpace(id[|id| - 1])
  {
    LowerHasNoColon(name);
    assert forall c :: c in Decimal(k) ==> IsDigit(c);
    assert forall c :: c in Short(hash) ==> IsHex(c);
    assert ':' !in "realm_evt_";
    assert id[|id| - 1] == Short(hash)[|Short(hash)| - 1];
  }

  lemma IdFixesSequence(m: nat, n: nat, a: string, b: string)
    requires "realm_evt_" + Decimal(m) + "_" + a == "realm_evt_" + Decimal(n) + "_" + b
    ensures m == n
  {
    var p, x, y := "realm_evt_", Decimal(m) + ("_" + a), Decimal(n) + ("_" + b);
    assert p + Decimal(m) + "_" + a == p + x && p + Decimal(n) + "_" + b == p + y;
    assert (p + x)[|p|..] == x && (p + y)[|p|..] == y;
    DecimalPrefixUnique(m, n, "_" + a, "_" + b);
  }

  lemma ColonSplits(p: string, q: string, a: string, b: string)
    requires p + ":" + a == q + ":" + b && ':' !in a && ':' !in b
    ensures a == b
  {
    var s := p + ":" + a;
    assert s[|p|] == ':' && s[|q|] == ':';
    assert forall i :: |p| < i < |s| ==> s[i] == a[i - |p| - 1];
    assert forall i :: |q| < i < |s| ==> s[i] == b[i - |q| - 1];
    assert |p| == |q|;
    assert s[|p| + 1..] == a && s[|q| + 1..] == b;
  }

  lemma SolidId(h: Hash, events: seq<RealmEvent>, k: nat) returns (rest: string)
    requires Legit(h, events) && k < |events|
    ensures events[k].eventId != "" && ':' !in events[k].eventId
    ensures !IsSpace(events[k].eventId[|events[k].eventId| - 1])
    ensures events[k].eventId == "realm_evt_" + Decimal(k + 1) + "_" + rest
  {
    hide Legit, Admissible, HexText, Name, Lower, Decimal, Project, FirstUnsupported, FaultIn, Mirrors, Supported,
      IsSpace;
    LegitHistory(h, events);
    LegitAt(h, events, k);
    var e := events[k];
    IdShape(h, events[..k], e, k);
    AdmissibleEvent(h, events[..k], e);
    NameHasNoColon(e.kind);
    IdIsSolid(e.eventId, k + 1, Name(e.kind), e.currentEventHash);
    rest := Lower(Name(e.kind)) + "_" + Short(e.currentEventHash);
  }

  /** No two events of a legitimate history share an id. */
  lemma IdsDistinct(h: Hash, events: seq<RealmEvent>, i: nat, j: nat)
    requires Legit(h, events) && i < |events| && j < |events| && events[i].eventId == events[j].eventId
    ensures i == j
  {
    hide Legit, Decimal, IsSpace;
    var a := SolidId(h, events, i);
    var b := SolidId(h, events, j);
    IdFixesSequence(i + 1, j + 1, a, b);
  }

  lemma IdTwice(h: Hash, events: seq<RealmEvent>, k: nat)
    requires Legit(h, events) && k < |events|
    ensures events[k].id == events[k].eventId
  {
    hide Legit, Admissible, EventHash, EventId;
    LegitAt(h, events, k);
    AdmissibleEvent(h, events[..k], events[k]);
  }
}
