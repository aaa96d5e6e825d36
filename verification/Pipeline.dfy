/** The ledger as acceptance changes it, one proposal after another. */
module Pipeline {
  import opened Text
  import opened JsonValues
  import opened Registry
  import opened History
  import opened CurrentAuthority
  import opened Validator

  /** The part of the ledger the realm lives in. */
  datatype LedgerValue = LedgerValue(log: seq<LogEvent>, authority: AuthorityState, canonicalSequence: int)

  const EMPTY_LEDGER := LedgerValue([], EMPTY_STATE, 0)

  function ContextOf(l: LedgerValue): Context {
    Context(l.authority, l.canonicalSequence, Head(Linked(l.log)))
  }

  function Projected(l: LedgerValue, e: RealmEvent): LedgerValue {
    var authority := ApplyEvent(l.authority, e);
    LedgerValue(l.log, authority,
                if authority.lastSequence != 0 then authority.lastSequence else l.canonicalSequence)
  }

  /** The types that have a case of their own in `applyEvent`. */
  const LEDGER_CASES: seq<string> := [
    "GENESIS", "PASSKEY_ADDED", "NATIVE_CONTROLLER_BOOTSTRAPPED", "CONTROLLER_BINDING_PROPOSED",
    "CONTROLLER_BINDING_APPROVED", "PASSKEY_REVOKED", "TRANSFER", "CAPABILITY_GRANT_CREATED", "CONTROL_GRANT_CREATED",
    "CONTROL_GRANT_REVOKED", "POLICY_ARTIFACT_RECORDED", "AUTHORIZATION_CREATED", "EXTERNAL_PROOF_RECORDED",
    "MARKETPLACE_SETTLEMENT_RECORDED", "MARKETPLACE_SELLER_UPSERTED", "MARKETPLACE_LISTING_UPSERTED",
    "MARKETPLACE_SELLER_ACTIVATED", "ACCOUNT_PROVENANCE_ADMISSION"]

  predicate HasOwnCase(name: string) {
    name in LEDGER_CASES
  }

  /** The entries `applyEvent` hands to the realm projection. */
  predicate ToRealm(entry: LogEvent) {
    entry.Realm? && IsCanonical(entry.event) && !(entry.event.kind.Other? && HasOwnCase(entry.event.kind.name))
  }

  /** `applyEvent` on a writable node: project what belongs to the realm, then append whatever was given. */
  function Applied(l: LedgerValue, entry: LogEvent): LedgerValue {
    var next := if ToRealm(entry) then Projected(l, entry.event) else l;
    next.(log := l.log + [entry])
  }

  function AcceptProposal(h: Hash, l: LedgerValue, proposal: Json, now: string): LedgerValue {
    match Validate(h, ContextOf(l), proposal, now)
    case Accepted(e) => Applied(l, Realm(e))
    case Rejected(_) => l
  }

  /** What a node is fed: realm proposals, or events of other parts of the ledger. */
  datatype Input = Propose(proposal: Json, now: string) | Unrelated(content: string)

  function Step(h: Hash, l: LedgerValue, input: Input): LedgerValue {
    match input
    case Propose(proposal, now) => AcceptProposal(h, l, proposal, now)
    case Unrelated(content) => Applied(l, Foreign(content))
  }

  function Run(h: Hash, inputs: seq<Input>): LedgerValue {
    if inputs == [] then EMPTY_LEDGER
    else Step(h, Run(h, inputs[..|inputs| - 1]), inputs[|inputs| - 1])
  }

  /** Why an event cannot be interpreted. */
  function VersionFault(e: RealmEvent): Option<ReplayError> {
    if Supported(e) then None else Some(UnsupportedVersion(KindOf(e.envelope.kind), e.version))
  }

  function EntryFault(entry: LogEvent): Option<ReplayError> {
    if ToRealm(entry) then VersionFault(entry.event) else None
  }

  /** The first entry of a log that `applyEvent` cannot interpret. */
  function FirstEntryFault(log: seq<LogEvent>): Option<ReplayError> {
    if log == [] then None
    else
      var before := FirstEntryFault(log[..|log| - 1]);
      if before.Some? then before else EntryFault(log[|log| - 1])
  }

  lemma {:induction false} EntryFaultStays(log: seq<LogEvent>, n: nat)
    requires n <= |log| && FirstEntryFault(log[..n]).Some?
    ensures FirstEntryFault(log) == FirstEntryFault(log[..n])
    decreases |log|
  {
    hide EntryFault;
    if n < |log| {
      var before := log[..|log| - 1];
      assert before[..n] == log[..n];
      EntryFaultStays(before, n);
    } else {
      assert log[..n] == log;
    }
  }

  /** A log that replays can be interpreted entry by entry. */
  lemma {:induction false} ReplayableHasNoFault(log: seq<LogEvent>)
    requires FirstUnsupported(Realms(log)).None?
    ensures FirstEntryFault(log).None?
  {
    hide Supported, ToRealm, Realms;
    if log != [] {
      var n := |log| - 1;
      assert log[..n + 1] == log;
      RealmsNext(log, n);
      if log[n].Realm? {
        assert (Realms(log[..n]) + [log[n].event])[..|Realms(log[..n])|] == Realms(log[..n]);
      }
      ReplayableHasNoFault(log[..n]);
      if ToRealm(log[n]) { ToRealmIsRealm(log[n]); }
    }
  }

  lemma ToRealmIsRealm(entry: LogEvent)
    requires ToRealm(entry)
    ensures entry.Realm?
  {
  }

  /** What boot comes to: every event of the saved log is interpreted before its chain is checked. */
  function BootState(h: Hash, saved: seq<LogEvent>): Result<AuthorityState, ReplayError> {
    match FirstEntryFault(saved)
    case Some(error) => Failure(error)
    case None => BuildState(h, Realms(saved))
  }

  class Ledger {
    var log: seq<LogEvent>
    var authority: AuthorityState
    var canonicalSequence: int

    constructor ()
      ensures Value() == EMPTY_LEDGER
    {
      log, authority, canonicalSequence := [], EMPTY_STATE, 0;
    }

    function Value(): LedgerValue
      reads this
    {
      LedgerValue(log, authority, canonicalSequence)
    }

    /** An event that is not canonical is ignored; one that has no adapter is an error that changes nothing. */
    method ApplyCanonicalAuthorityProjection(e: RealmEvent) returns (error: Option<ReplayError>)
      modifies this
      ensures error == VersionFault(e)
      ensures Value() == if error.None? && IsCanonical(e) then Projected(old(Value()), e) else old(Value())
    {
      if !IsCanonical(e) {
        OthersAreInert(authority, e);
        return None;
      }
      error := VersionFault(e);
      if error.Some? {
        return;
      }
      authority := ApplyEvent(authority, e);
      if authority.lastSequence != 0 {
        canonicalSequence := authority.lastSequence;
      }
    }

    method ApplyToLedger(entry: LogEvent, isInitialReplay: bool) returns (error: Option<ReplayError>)
      modifies this
      ensures error == EntryFault(entry)
      ensures error.Some? ==> Value() == old(Value())
      ensures error.None? && !isInitialReplay ==> Value() == Applied(old(Value()), entry)
      ensures error.None? && isInitialReplay ==>
        Value() == if ToRealm(entry) then Projected(old(Value()), entry.event) else old(Value())
    {
      error := None;
      if ToRealm(entry) {
        error := ApplyCanonicalAuthorityProjection(entry.event);
        if error.Some? {
          return;
        }
      }
      if !isInitialReplay {
        log := log + [entry];
      }
    }

    method AcceptRealmEvent(h: Hash, proposal: Json, now: string) returns (verdict: Verdict)
      modifies this
      ensures verdict == Validate(h, ContextOf(old(Value())), proposal, now)
      ensures Value() == AcceptProposal(h, old(Value()), proposal, now)
    {
      hide Validate, Projected, HasOwnCase, Supported, IsCanonical, Chained;
      var head := LatestRealmEventHash(log);
      verdict := Validate(h, Context(authority, canonicalSequence, head), proposal, now);
      if verdict.Accepted? {
        AcceptedIsWhole(h, Context(authority, canonicalSequence, head), proposal, now);
        var error := ApplyToLedger(Realm(verdict.event), false);
      }
    }

    /** `rebuildAuthorityStateOnLedger`; a log that fails the check leaves the ledger as it was. */
    method RebuildAuthorityState(h: Hash) returns (r: Result<AuthorityState, ReplayError>)
      modifies this
      ensures r == BuildState(h, Realms(old(log)))
      ensures r.Success? ==> Value() == LedgerValue(old(log), r.value, r.value.lastSequence)
      ensures r.Failure? ==> Value() == old(Value())
    {
      r := BuildCurrentAuthorityState(h, log);
      if r.Success? {
        authority := r.value;
        canonicalSequence := authority.lastSequence;
      }
    }

    /** Boot: replay the saved log event by event, put it back, then rebuild the authority state from it. */
    method Restart(h: Hash, saved: seq<LogEvent>) returns (r: Result<AuthorityState, ReplayError>)
      modifies this
      ensures r == BootState(h, saved)
      ensures log == if FirstEntryFault(saved).Some? then [] else saved
      ensures r.Success? ==> Value() == LedgerValue(saved, r.value, r.value.lastSequence)
    {
      hide ApplyEvent, BuildState, EntryFault, Realms, ToRealm;
      log := [];
      for i := 0 to |saved|
        invariant log == []
        invariant FirstEntryFault(saved[..i]).None?
      {
        assert saved[..i + 1][..i] == saved[..i];
        var error := ApplyToLedger(saved[i], true);
        if error.Some? {
          EntryFaultStays(saved, i + 1);
          return Failure(error.value);
        }
      }
      assert saved[..|saved|] == saved;
      log := saved;
      r := RebuildAuthorityState(h);
    }
  }
}
