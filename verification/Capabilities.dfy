/** Deciding whether the stored grants give an entity a capability. */
module Capabilities {
  import opened Text
  import opened History
  import opened Artifacts

  /** The hash, and the two readings of the clock: `getTime` of a date text (None if it is no date), `toISOString`. */
  datatype Env = Env(h: Hash, time: string -> Option<int>, iso: int -> string)

  /** What a grant says; an empty text stands for a field that is missing or null. */
  datatype Terms = Terms(entity: string, key: string, capability: string, scope: string,
                         policy: string, status: string, expiresAt: string)

  /** A checked request: normal addresses, and no key address when no key was proved. */
  datatype Request = Request(entity: string, key: string, capability: string, scope: string)

  datatype Decision = Decision(decision: string, matchedGrants: seq<string>, reasonCodes: seq<string>)

  function NormalizeGrant(t: Terms): Terms {
    t.(entity := Lower(t.entity), key := Lower(t.key),
       policy := Lower(OrElse(t.policy, "deny")), status := Lower(OrElse(t.status, "active")))
  }

  /** An expiry that is no date counts as passed. */
  predicate InForce(env: Env, t: Terms, now: int) {
    t.status == "active"
    && (t.expiresAt == "" || (env.time(t.expiresAt).Some? && env.time(t.expiresAt).value > now))
  }

  /** Whether a grant bears on a request; a key that is no key address restricts nothing. */
  predicate BearsOn(env: Env, grant: Terms, request: Request, now: int) {
    var t := NormalizeGrant(grant);
    InForce(env, t, now) && t.entity == request.entity
    && t.capability == request.capability && t.scope == request.scope
    && (NormalizeKey(t.key) == "" || NormalizeKey(t.key) == request.key)
  }

  function Matching(env: Env, grants: Store<Terms>, request: Request, now: int): Store<Terms> {
    if grants == [] then []
    else
      var rest := Matching(env, grants[1..], request, now);
      if BearsOn(env, grants[0].body, request, now)
      then [Item(grants[0].id, NormalizeGrant(grants[0].body))] + rest
      else rest
  }

  /** The ids of the grants with the given policy, empty ids left out. */
  function IdsWithPolicy(grants: Store<Terms>, policy: string): seq<string> {
    if grants == [] then []
    else
      var rest := IdsWithPolicy(grants[1..], policy);
      if grants[0].body.policy == policy && grants[0].id != "" then [grants[0].id] + rest else rest
  }

  function IdsOf(grants: Store<Terms>): seq<string> {
    if grants == [] then []
    else if grants[0].id != "" then [grants[0].id] + IdsOf(grants[1..])
    else IdsOf(grants[1..])
  }

  /** A policy, the decision it leads to, and the policy in capitals. */
  const POLICY_PRECEDENCE: seq<(string, string, string)> := [
    ("deny", "deny", "DENY"),
    ("require_quorum", "quorum", "REQUIRE_QUORUM"),
    ("require_approval", "approval", "REQUIRE_APPROVAL"),
    ("allow", "allow", "ALLOW")]

  predicate AnyWithPolicy(grants: Store<Terms>, policy: string) {
    exists i :: 0 <= i < |grants| && grants[i].body.policy == policy
  }

  /** The first policy, from position `from` on, that one of the matched grants has. */
  function FirstPolicy(matched: Store<Terms>, from: nat): Decision
    requires from <= |POLICY_PRECEDENCE|
    decreases |POLICY_PRECEDENCE| - from
  {
    if from == |POLICY_PRECEDENCE| then Decision("deny", IdsOf(matched), ["NO_SUPPORTED_POLICY"])
    else
      var (policy, decision, capitals) := POLICY_PRECEDENCE[from];
      if AnyWithPolicy(matched, policy)
      then Decision(decision, IdsWithPolicy(matched, policy), ["MATCHED_" + capitals + "_GRANT"])
      else FirstPolicy(matched, from + 1)
  }

  function DecideCapability(env: Env, grants: Store<Terms>, request: Request, now: int): Decision {
    var matched := Matching(env, grants, request, now);
    if matched == [] then Decision("deny", [], ["NO_MATCHING_GRANT"]) else FirstPolicy(matched, 0)
  }

  // ---- what a decision means ----

  /** Grant `g` bears on the request and has the given policy. */
  predicate Speaks(env: Env, g: Item<Terms>, request: Request, now: int, policy: string) {
    BearsOn(env, g.body, request, now) && NormalizeGrant(g.body).policy == policy
  }

  ghost predicate Spoken(env: Env, grants: Store<Terms>, request: Request, now: int, policy: string) {
    exists g :: g in grants && Speaks(env, g, request, now, policy)
  }

  lemma AnyInFront(first: Item<Terms>, rest: Store<Terms>, policy: string)
    ensures AnyWithPolicy([first] + rest, policy) <==> first.body.policy == policy || AnyWithPolicy(rest, policy)
  {
    var all := [first] + rest;
    if AnyWithPolicy(rest, policy) {
      var i :| 0 <= i < |rest| && rest[i].body.policy == policy;
      assert all[i + 1] == rest[i];
    }
    if AnyWithPolicy(all, policy) && first.body.policy != policy {
      var i :| 0 <= i < |all| && all[i].body.policy == policy;
      assert rest[i - 1] == all[i];
    }
    assert all[0] == first;
  }

  lemma {:induction false} MatchingSpeaks(env: Env, grants: Store<Terms>, request: Request, now: int, policy: string)
    ensures AnyWithPolicy(Matching(env, grants, request, now), policy) <==> Spoken(env, grants, request, now, policy)
    ensures forall id :: id in IdsWithPolicy(Matching(env, grants, request, now), policy) <==>
      id != "" && exists g :: g in grants && g.id == id && Speaks(env, g, request, now, policy)
  {
    hide BearsOn, NormalizeGrant;
    if grants != [] {
      var rest, all := Matching(env, grants[1..], request, now), Matching(env, grants, request, now);
      MatchingSpeaks(env, grants[1..], request, now, policy);
      assert forall g :: g in grants <==> g == grants[0] || g in grants[1..];
      if BearsOn(env, grants[0].body, request, now) {
        var first := Item(grants[0].id, NormalizeGrant(grants[0].body));
        assert all == [first] + rest && all[1..] == rest;
        AnyInFront(first, rest, policy);
        assert Speaks(env, grants[0], request, now, policy) <==> first.body.policy == policy;
        assert Spoken(env, grants, request, now, policy)
          <==> Speaks(env, grants[0], request, now, policy) || Spoken(env, grants[1..], request, now, policy);
      } else {
        assert all == rest;
      }
    }
  }

  /**
    * A request is allowed exactly when some grant that bears on it allows it and none that bears on it
    * denies it or asks for a quorum or an approval; the grants named are the allowing ones.
    */
  lemma AllowedMeans(env: Env, grants: Store<Terms>, request: Request, now: int)
    ensures DecideCapability(env, grants, request, now).decision == "allow" <==>
      Spoken(env, grants, request, now, "allow")
      && !Spoken(env, grants, request, now, "deny")
      && !Spoken(env, grants, request, now, "require_quorum")
      && !Spoken(env, grants, request, now, "require_approval")
    ensures DecideCapability(env, grants, request, now).decision == "allow" ==>
      forall id :: id in DecideCapability(env, grants, request, now).matchedGrants <==>
        id != "" && exists g :: g in grants && g.id == id && Speaks(env, g, request, now, "allow")
  {
    hide Matching, IdsWithPolicy, IdsOf, Speaks;
    MatchingSpeaks(env, grants, request, now, "deny");
    MatchingSpeaks(env, grants, request, now, "require_quorum");
    MatchingSpeaks(env, grants, request, now, "require_approval");
    MatchingSpeaks(env, grants, request, now, "allow");
  }

  /** Stricter policies win whatever the order of the grants: quorum before approval, and deny before both. */
  lemma StricterWins(env: Env, grants: Store<Terms>, request: Request, now: int)
    ensures Spoken(env, grants, request, now, "deny") ==>
      DecideCapability(env, grants, request, now).decision == "deny"
    ensures DecideCapability(env, grants, request, now).decision == "quorum" <==>
      Spoken(env, grants, request, now, "require_quorum") && !Spoken(env, grants, request, now, "deny")
    ensures DecideCapability(env, grants, request, now).decision == "approval" <==>
      Spoken(env, grants, request, now, "require_approval")
      && !Spoken(env, grants, request, now, "deny") && !Spoken(env, grants, request, now, "require_quorum")
  {
    hide Matching, IdsWithPolicy, IdsOf, Speaks;
    MatchingSpeaks(env, grants, request, now, "deny");
    MatchingSpeaks(env, grants, request, now, "require_quorum");
    MatchingSpeaks(env, grants, request, now, "require_approval");
    MatchingSpeaks(env, grants, request, now, "allow");
  }
}
