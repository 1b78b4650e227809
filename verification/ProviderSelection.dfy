/** Gates, candidate order and the deterministic selector. */
module ProviderSelection {
  import opened Wrappers
  import opened Text

  datatype CapabilityStatus = SUPPORTED | UNSUPPORTED | UNKNOWN

  datatype Observation = Observation(name: string, status: CapabilityStatus, value: Option<string>)

  /** `fault` is the first of the profile's own checks that fails, other than on its two identifiers. */
  datatype Profile = Profile(projectId: string, profileId: string, providerId: string, sha256: nat,
                             expiresAt: Option<int>, capabilities: seq<Observation>, fault: Option<string>)

  datatype Candidate = Candidate(profile: Profile, priority: int, diagnosticOnly: bool) {
    function Provider(): string { profile.providerId }
  }

  datatype Gates = Gates(policy: Option<bool>, privacy: Option<bool>, independence: Option<bool>,
                         budget: Option<bool>, health: Option<bool>, evidence: Option<bool>, allowFallback: bool)

  datatype Selection = Selection(providerId: string, profileId: string, fallbackUsed: bool,
                                 considered: seq<string>, rejected: seq<string>)

  /** What a selection is made for: `required` is sorted without duplicates, `precomputed` maps providers to reasons. */
  datatype Terms = Terms(project: string, required: seq<string>, gates: Gates, precomputed: map<string, string>)

  // ----- eligibility ----------------------------------------------------------------

  function GateFailure(name: string, passed: Option<bool>): seq<string> {
    match passed
    case None => ["missing:" + name]
    case Some(ok) => if ok then [] else [name]
  }

  function FailedGates(g: Gates): seq<string> {
    GateFailure("policy", g.policy) + GateFailure("privacy", g.privacy)
    + GateFailure("independence", g.independence) + GateFailure("budget", g.budget)
    + GateFailure("health", g.health) + GateFailure("empirical_evidence", g.evidence)
  }

  predicate IdChar(c: char) { 'a' <= c <= 'z' || '0' <= c <= '9' }

  predicate IdOk(s: string) {
    1 <= |s| <= 80 && IdChar(s[0]) && forall i | 1 <= i < |s| :: IdChar(s[i]) || s[i] == '-'
  }

  function ProfileError(p: Profile): Option<string> {
    if !IdOk(p.profileId) || !("profile-" <= p.profileId) then Some("profile_id is invalid")
    else if !IdOk(p.providerId) then Some("provider_id is invalid")
    else p.fault
  }

  predicate Supports(p: Profile, capability: string) {
    exists i | 0 <= i < |p.capabilities| ::
      && p.capabilities[i].name == capability && p.capabilities[i].status.SUPPORTED?
      && p.capabilities[i].value.Some?
      && forall j | 0 <= j < |p.capabilities| :: p.capabilities[j].name == capability ==> j == i
  }

  function FirstUnsupported(p: Profile, required: seq<string>): Option<string> {
    if required == [] then None
    else if !Supports(p, required[0]) then Some(required[0])
    else FirstUnsupported(p, required[1..])
  }

  function RejectionReason(c: Candidate, t: Terms, now: int): Option<string> {
    if ProfileError(c.profile).Some? then ProfileError(c.profile)
    else if c.priority < 0 then Some("candidate priority must not be negative")
    else if c.profile.projectId != t.project then Some("profile binding does not match request")
    else if c.profile.expiresAt.Some? && now >= c.profile.expiresAt.value then Some("profile evidence is stale")
    else if c.diagnosticOnly || c.Provider() in ["provider-qwen", "qwen3.5:9b-q4_K_M"] then
      Some("diagnostic-only candidate")
    else if FailedGates(t.gates) != [] then Some("failed gates: " + Join(",", FailedGates(t.gates)))
    else
      match FirstUnsupported(c.profile, t.required)
      case Some(capability) => Some("required capability is not supported: " + capability)
      case None => None
  }

  /** A rejection decided beforehand comes before the selector's own checks. */
  function Reason(c: Candidate, t: Terms, now: int): Option<string> {
    if c.Provider() in t.precomputed then Some(t.precomputed[c.Provider()]) else RejectionReason(c, t, now)
  }

  // ----- order ------------------------------------------------------------------------

  predicate KeyLess(a: Candidate, b: Candidate) {
    a.priority < b.priority
    || (a.priority == b.priority
        && (Before(a.Provider(), b.Provider())
            || (a.Provider() == b.Provider() && Before(a.profile.profileId, b.profile.profileId))))
  }

  /** Stable: a candidate goes in front of those with an equal key. */
  function Insert(c: Candidate, ordered: seq<Candidate>): seq<Candidate> {
    if ordered == [] then [c]
    else if KeyLess(ordered[0], c) then [ordered[0]] + Insert(c, ordered[1..])
    else [c] + ordered
  }

  function Ordered(cs: seq<Candidate>): seq<Candidate> {
    if cs == [] then [] else Insert(cs[0], Ordered(cs[1..]))
  }

  predicate Sorted(s: seq<Candidate>) {
    forall i, j | 0 <= i < j < |s| :: !KeyLess(s[j], s[i])
  }

  lemma KeyIsTotal(a: Candidate, b: Candidate, c: Candidate)
    ensures !(KeyLess(a, b) && KeyLess(b, a)) && !KeyLess(a, a)
    ensures a.Provider() != b.Provider() ==> KeyLess(a, b) || KeyLess(b, a)
    ensures KeyLess(a, b) && !KeyLess(c, b) ==> KeyLess(a, c)
    ensures !KeyLess(b, a) && !KeyLess(c, b) ==> !KeyLess(c, a)
  {
    BeforeIsTotal(a.Provider(), b.Provider());
    BeforeIsTotal(b.Provider(), c.Provider());
    BeforeIsTotal(a.Provider(), c.Provider());
    BeforeIsTotal(a.profile.profileId, b.profile.profileId);
    BeforeIsTotal(b.profile.profileId, c.profile.profileId);
    BeforeIsTotal(a.profile.profileId, c.profile.profileId);
    BeforeIsTotal(a.Provider(), a.Provider());
    BeforeIsTotal(a.profile.profileId, a.profile.profileId);
    BeforeIsTransitive(a.Provider(), b.Provider(), c.Provider());
    BeforeIsTransitive(c.Provider(), b.Provider(), a.Provider());
    BeforeIsTransitive(c.Provider(), a.Provider(), b.Provider());
    BeforeIsTransitive(b.Provider(), c.Provider(), a.Provider());
    BeforeIsTransitive(a.profile.profileId, b.profile.profileId, c.profile.profileId);
    BeforeIsTransitive(c.profile.profileId, b.profile.profileId, a.profile.profileId);
    BeforeIsTransitive(c.profile.profileId, a.profile.profileId, b.profile.profileId);
    BeforeIsTransitive(b.profile.profileId, c.profile.profileId, a.profile.profileId);
    hide Before;
  }

  lemma {:induction false} InsertPermutes(c: Candidate, s: seq<Candidate>)
    ensures multiset(Insert(c, s)) == multiset(s) + multiset{c}
  {
    hide KeyLess;
    if s != [] {
      InsertPermutes(c, s[1..]);
      assert s == [s[0]] + s[1..];
    }
  }

  lemma {:induction false} InsertSorts(c: Candidate, s: seq<Candidate>)
    requires Sorted(s)
    ensures Sorted(Insert(c, s))
  {
    hide KeyLess;
    if s != [] {
      if KeyLess(s[0], c) {
        InsertSorts(c, s[1..]);
        InsertPermutes(c, s[1..]);
        var tail := Insert(c, s[1..]);
        forall j | 0 <= j < |tail| ensures !KeyLess(tail[j], s[0]) {
          KeyIsTotal(s[0], c, c);
          assert tail[j] in multiset(tail);
        }
      } else {
        forall j | 0 <= j < |s| ensures !KeyLess(s[j], c) {
          KeyIsTotal(c, s[0], s[j]);
          KeyIsTotal(s[0], c, c);
        }
      }
    }
  }

  /** The order is a permutation sorted by (priority, provider, profile). */
  lemma {:induction false} OrderedIsSorted(cs: seq<Candidate>)
    ensures Sorted(Ordered(cs)) && multiset(Ordered(cs)) == multiset(cs)
  {
    if cs != [] {
      hide KeyLess, Insert, Sorted;
      OrderedIsSorted(cs[1..]);
      InsertSorts(cs[0], Ordered(cs[1..]));
      InsertPermutes(cs[0], Ordered(cs[1..]));
      assert cs == [cs[0]] + cs[1..];
    }
  }

  // ----- selection ----------------------------------------------------------------------

  /** Why the candidate at this place in the order is passed over. */
  function Verdict(c: Candidate, first: bool, t: Terms, now: int): Option<string> {
    if Reason(c, t, now).Some? then Reason(c, t, now)
    else if !first && !t.gates.allowFallback then Some("fallback is not permitted")
    else None
  }

  function Providers(cs: seq<Candidate>): seq<string> {
    seq(|cs|, i requires 0 <= i < |cs| => cs[i].Provider())
  }

  lemma ProvidersStep(o: seq<Candidate>, n: nat)
    requires n < |o|
    ensures Providers(o[..n + 1]) == Providers(o[..n]) + [o[n].Provider()]
  {
  }

  function RejectedUpTo(o: seq<Candidate>, n: nat, t: Terms, now: int): seq<string>
    requires n <= |o|
  {
    if n == 0 then []
    else
      var verdict := Verdict(o[n - 1], n == 1, t, now);
      RejectedUpTo(o, n - 1, t, now) + (if verdict.Some? then [Entry(o[n - 1], verdict.value)] else [])
  }

  function Entry(c: Candidate, reason: string): string { c.Provider() + ": " + reason }

  function FirstUpTo(o: seq<Candidate>, n: nat, t: Terms, now: int): (first: Option<nat>)
    requires n <= |o|
    ensures first.Some? ==> first.value < n && Verdict(o[first.value], first.value == 0, t, now).None?
    ensures forall i | 0 <= i < n :: Verdict(o[i], i == 0, t, now).None? ==> first.Some? && first.value <= i
  {
    if n == 0 then None
    else
      var earlier := FirstUpTo(o, n - 1, t, now);
      if earlier.Some? then earlier
      else if Verdict(o[n - 1], n == 1, t, now).None? then Some(n - 1) else None
  }

  lemma FirstStep(o: seq<Candidate>, n: nat, t: Terms, now: int)
    requires n < |o|
    ensures FirstUpTo(o, n + 1, t, now)
            == if FirstUpTo(o, n, t, now).Some? then FirstUpTo(o, n, t, now)
               else if Verdict(o[n], n == 0, t, now).None? then Some(n) else None
  {
  }

  function Select(cs: seq<Candidate>, t: Terms, now: int): Result<Selection, string> {
    if t.required == [] then Err("required_capabilities must not be empty")
    else
      var o := Ordered(cs);
      var rejected := RejectedUpTo(o, |o|, t, now);
      match FirstUpTo(o, |o|, t, now)
      case Some(i) => Ok(Selection(o[i].Provider(), o[i].profile.profileId, i > 0, Providers(o), rejected))
      case None => Err("no eligible capability candidate: " + Join("; ", rejected))
  }

  class CapabilitySelector {
    constructor () {}

    method SelectProvider(cs: seq<Candidate>, t: Terms, now: int) returns (r: Result<Selection, string>)
      ensures r == Select(cs, t, now)
    {
      hide RejectionReason, Ordered, FirstUpTo, Entry, Join;
      if t.required == [] {
        return Err("required_capabilities must not be empty");
      }
      var o := Ordered(cs);
      var considered: seq<string> := [];
      var rejected: seq<string> := [];
      var selected: Option<(string, string, bool)> := None;
      for index := 0 to |o|
        invariant considered == Providers(o[..index])
        invariant rejected == RejectedUpTo(o, index, t, now)
        invariant match FirstUpTo(o, index, t, now)
                  case None => selected == None
                  case Some(i) => selected == Some((o[i].Provider(), o[i].profile.profileId, i > 0))
      {
        FirstStep(o, index, t, now);
        ProvidersStep(o, index);
        var c := o[index];
        considered := considered + [c.Provider()];
        var reason := if c.Provider() in t.precomputed then Some(t.precomputed[c.Provider()]) else None;
        if reason.None? {
          reason := RejectionReason(c, t, now);
        }
        if reason.Some? {
          rejected := rejected + [Entry(c, reason.value)];
        } else if index > 0 && !t.gates.allowFallback {
          rejected := rejected + [Entry(c, "fallback is not permitted")];
        } else if selected.None? {
          selected := Some((c.Provider(), c.profile.profileId, index > 0));
        }
      }
      assert o[..|o|] == o;
      if selected.Some? {
        return Ok(Selection(selected.value.0, selected.value.1, selected.value.2, considered, rejected));
      }
      return Err("no eligible capability candidate: " + Join("; ", rejected));
    }
  }

  // ----- what selection means -------------------------------------------------------------

  predicate DistinctProviders(cs: seq<Candidate>) {
    forall i, j | 0 <= i < j < |cs| :: cs[i].Provider() != cs[j].Provider()
  }

  predicate Eligible(c: Candidate, t: Terms, now: int) { Reason(c, t, now).None? }

  predicate AllPassed(g: Gates) {
    g.policy == g.privacy == g.independence == g.budget == g.health == g.evidence == Some(true)
  }

  /** What a profile says of one capability. */
  function SaidOf(capabilities: seq<Observation>, name: string): seq<Observation> {
    if capabilities == [] then []
    else (if capabilities[0].name == name then [capabilities[0]] else []) + SaidOf(capabilities[1..], name)
  }

  predicate SupportedOnce(p: Profile, name: string) {
    var said := SaidOf(p.capabilities, name);
    |said| == 1 && said[0].status.SUPPORTED? && said[0].value.Some?
  }

  lemma {:induction false} SaidOfNothing(capabilities: seq<Observation>, name: string)
    ensures SaidOf(capabilities, name) == [] <==> forall i | 0 <= i < |capabilities| :: capabilities[i].name != name
  {
    if capabilities != [] {
      SaidOfNothing(capabilities[1..], name);
      assert forall i | 1 <= i < |capabilities| :: capabilities[1..][i - 1] == capabilities[i];
    }
  }

  lemma {:induction false} SaidOnce(capabilities: seq<Observation>, name: string) returns (k: nat)
    ensures |SaidOf(capabilities, name)| == 1 ==>
              && k < |capabilities| && SaidOf(capabilities, name) == [capabilities[k]] && capabilities[k].name == name
              && forall j | 0 <= j < |capabilities| && capabilities[j].name == name :: j == k
    ensures |SaidOf(capabilities, name)| > 1 ==>
              exists i, j | 0 <= i < j < |capabilities| :: capabilities[i].name == capabilities[j].name == name
    decreases |capabilities|
  {
    k := 0;
    if capabilities != [] {
      var rest := capabilities[1..];
      SaidOfNothing(rest, name);
      var r := SaidOnce(rest, name);
      if capabilities[0].name != name {
        k := r + 1;
        if |SaidOf(rest, name)| > 1 {
          var i, j :| 0 <= i < j < |rest| && rest[i].name == rest[j].name == name;
          assert capabilities[i + 1] == rest[i] && capabilities[j + 1] == rest[j];
        }
      } else if SaidOf(rest, name) != [] {
        var i :| 0 <= i < |rest| && rest[i].name == name;
        assert capabilities[i + 1] == rest[i];
      }
      assert forall j | 1 <= j < |capabilities| :: rest[j - 1] == capabilities[j];
    }
  }

  lemma SupportsExactly(p: Profile, name: string)
    ensures Supports(p, name) <==> SupportedOnce(p, name)
  {
    var k := SaidOnce(p.capabilities, name);
    SaidOfNothing(p.capabilities, name);
    hide SaidOf;
    if Supports(p, name) {
      var i :| 0 <= i < |p.capabilities| && p.capabilities[i].name == name && p.capabilities[i].status.SUPPORTED?
               && p.capabilities[i].value.Some?
               && forall j | 0 <= j < |p.capabilities| :: p.capabilities[j].name == name ==> j == i;
    }
  }

  lemma {:induction false} AllSupportedExactly(p: Profile, required: seq<string>)
    ensures FirstUnsupported(p, required).None? <==> forall name | name in required :: SupportedOnce(p, name)
  {
    hide Supports, SupportedOnce;
    if required != [] {
      SupportsExactly(p, required[0]);
      AllSupportedExactly(p, required[1..]);
    }
  }

  lemma GatesPassExactly(g: Gates)
    ensures FailedGates(g) == [] <==> AllPassed(g)
  {
  }

  /**
   A candidate is eligible exactly if nobody has rejected it beforehand, its profile is valid, of this project and
   not expired, its priority is not negative, it is not for diagnosis only, every gate has passed, and every
   required capability is said once, as supported and with a value.
  */
  lemma EligibleExactly(c: Candidate, t: Terms, now: int)
    ensures Eligible(c, t, now) <==>
              && c.profile.providerId !in t.precomputed
              && PlainName(c.profile.providerId) && PlainName(c.profile.profileId) && "profile-" <= c.profile.profileId
              && c.profile.fault.None? && c.profile.projectId == t.project
              && (c.profile.expiresAt.Some? ==> now < c.profile.expiresAt.value)
              && c.priority >= 0 && !c.diagnosticOnly
              && c.profile.providerId != "provider-qwen" && c.profile.providerId != "qwen3.5:9b-q4_K_M"
              && AllPassed(t.gates)
              && forall name | name in t.required :: SupportedOnce(c.profile, name)
  {
    GatesPassExactly(t.gates);
    AllSupportedExactly(c.profile, t.required);
    NamesExactly(c.profile.providerId);
    NamesExactly(c.profile.profileId);
    hide FailedGates, FirstUnsupported, SupportedOnce, IdOk, PlainName, Join, AllPassed;
  }

  /** At most eighty lower-case letters, digits and dashes, and no dash in front. */
  predicate PlainName(s: string) {
    && 0 < |s| < 81 && s[0] != '-'
    && forall x | x in s :: x == '-' || ('0' <= x && x <= '9') || ('a' <= x && x <= 'z')
  }

  lemma NamesExactly(s: string)
    ensures IdOk(s) <==> PlainName(s)
  {
    assert forall i | 0 <= i < |s| :: s[i] in s;
  }

  /** What a selection reports: all candidates in order, and of each one that is not eligible the reason. */
  lemma SelectionReports(cs: seq<Candidate>, t: Terms, now: int)
    requires Select(cs, t, now).Ok?
    ensures var s := Select(cs, t, now).value;
            && |s.considered| == |cs| && (forall i | 0 <= i < |cs| :: s.considered[i] == Ordered(cs)[i].Provider())
            && (forall c | c in cs && !Eligible(c, t, now) ::
                  c.Provider() + ": " + Reason(c, t, now).value in s.rejected)
            && (forall line | line in s.rejected :: exists c | c in cs ::
                  if !Eligible(c, t, now) then line == c.Provider() + ": " + Reason(c, t, now).value
                  else !t.gates.allowFallback && line == c.Provider() + ": " + "fallback is not permitted")
  {
    var o := Ordered(cs);
    SameMembers(cs);
    RejectedLines(o, |o|, t, now);
    hide Ordered, Reason, FirstUpTo, RejectedUpTo, Entry, Verdict;
    forall c | c in cs && !Eligible(c, t, now)
      ensures c.Provider() + ": " + Reason(c, t, now).value in RejectedUpTo(o, |o|, t, now)
    {
      var i :| 0 <= i < |o| && o[i] == c;
      assert LineOf(o[i], t, now) in RejectedUpTo(o, |o|, t, now);
    }
    forall line | line in RejectedUpTo(o, |o|, t, now)
      ensures exists c | c in cs ::
                if !Eligible(c, t, now) then line == c.Provider() + ": " + Reason(c, t, now).value
                else !t.gates.allowFallback && line == c.Provider() + ": " + "fallback is not permitted"
    {
      var i := LineExplained(o, |o|, t, now, line);
      assert o[i] in cs;
    }
  }

  /** Why a candidate that is not eligible is passed over. */
  function LineOf(c: Candidate, t: Terms, now: int): string
    requires !Eligible(c, t, now)
  {
    c.Provider() + ": " + Reason(c, t, now).value
  }

  /** The line says why this candidate is passed over. */
  predicate Passes(c: Candidate, line: string, t: Terms, now: int) {
    if !Eligible(c, t, now) then line == LineOf(c, t, now)
    else !t.gates.allowFallback && line == c.Provider() + ": " + "fallback is not permitted"
  }

  /** One candidate more adds one line, if it does not pass. */
  lemma RejectedStep(o: seq<Candidate>, n: nat, t: Terms, now: int) returns (added: seq<string>)
    requires n < |o|
    ensures RejectedUpTo(o, n + 1, t, now) == RejectedUpTo(o, n, t, now) + added
    ensures added == [] || (|added| == 1 && Passes(o[n], added[0], t, now))
    ensures !Eligible(o[n], t, now) ==> added == [LineOf(o[n], t, now)]
  {
    hide Reason;
    var verdict := Verdict(o[n], n == 0, t, now);
    added := if verdict.Some? then [Entry(o[n], verdict.value)] else [];
  }

  lemma {:induction false} RejectedLines(o: seq<Candidate>, n: nat, t: Terms, now: int)
    requires n <= |o|
    ensures forall i | 0 <= i < n && !Eligible(o[i], t, now) :: LineOf(o[i], t, now) in RejectedUpTo(o, n, t, now)
    decreases n
  {
    hide *;
    if n > 0 {
      RejectedLines(o, n - 1, t, now);
      var added := RejectedStep(o, n - 1, t, now);
    }
  }

  lemma NothingRejected(o: seq<Candidate>, t: Terms, now: int)
    ensures RejectedUpTo(o, 0, t, now) == []
  {
  }

  lemma {:induction false} LineExplained(o: seq<Candidate>, n: nat, t: Terms, now: int, line: string) returns (i: nat)
    requires n <= |o| && line in RejectedUpTo(o, n, t, now)
    ensures i < n && Passes(o[i], line, t, now)
    decreases n
  {
    hide *;
    NothingRejected(o, t, now);
    var added := RejectedStep(o, n - 1, t, now);
    if line in RejectedUpTo(o, n - 1, t, now) {
      i := LineExplained(o, n - 1, t, now, line);
    } else {
      i := n - 1;
    }
  }

  /** The least candidate in (priority, provider, profile) order among `cs` that satisfies `Eligible`. */
  predicate LeastEligible(c: Candidate, cs: seq<Candidate>, t: Terms, now: int) {
    && c in cs && Eligible(c, t, now)
    && forall d | d in cs && Eligible(d, t, now) :: !KeyLess(d, c)
  }

  predicate Least(c: Candidate, cs: seq<Candidate>) {
    c in cs && forall d | d in cs :: !KeyLess(d, c)
  }

  lemma SameMembers(cs: seq<Candidate>)
    ensures |Ordered(cs)| == |cs| && forall c :: c in cs <==> c in Ordered(cs)
  {
    OrderedIsSorted(cs);
    assert |multiset(Ordered(cs))| == |multiset(cs)|;
    forall c ensures c in cs <==> c in Ordered(cs) {
      assert c in cs <==> c in multiset(cs);
      assert c in Ordered(cs) <==> c in multiset(Ordered(cs));
    }
  }

  /** The first that passes, in sorted order, is no greater than any other that is eligible. */
  lemma FirstPassingIsLeast(o: seq<Candidate>, i: nat, t: Terms, now: int)
    requires Sorted(o) && i < |o| && Verdict(o[i], i == 0, t, now).None?
    requires forall k | 0 <= k < i :: Verdict(o[k], k == 0, t, now).Some?
    ensures LeastEligible(o[i], o, t, now) && Eligible(o[i], t, now)
    ensures i == 0 ==> Least(o[i], o)
    ensures i > 0 ==> t.gates.allowFallback && !KeyLess(o[i], o[0])
  {
    hide Reason, KeyLess;
    forall k | i <= k < |o|
      ensures !KeyLess(o[k], o[i])
    {
      KeyIsTotal(o[i], o[k], o[k]);
    }
  }

  /**
   A selection is the least eligible candidate - without fallback, the least candidate of all - and
   it is marked as a fallback exactly when a lesser one was passed over.
  */
  lemma SelectPicksLeast(cs: seq<Candidate>, t: Terms, now: int) returns (c: Candidate)
    requires Select(cs, t, now).Ok?
    ensures var s := Select(cs, t, now).value;
            && s.providerId == c.Provider() && s.profileId == c.profile.profileId
            && LeastEligible(c, cs, t, now)
            && (!t.gates.allowFallback ==> Least(c, cs) && !s.fallbackUsed)
            && (DistinctProviders(cs) ==> (s.fallbackUsed <==> !Least(c, cs)))
            && |s.considered| == |cs|
  {
    var o := Ordered(cs);
    var i := FirstUpTo(o, |o|, t, now).value;
    c := o[i];
    OrderedIsSorted(cs);
    SameMembers(cs);
    FirstPassingIsLeast(o, i, t, now);
    hide Reason, Ordered, KeyLess, FirstUpTo, Sorted, Verdict;
    if DistinctProviders(cs) && i > 0 {
      DistinctOrdered(cs);
      KeyIsTotal(o[0], c, c);
      assert o[0] in cs;
    }
  }

  lemma DistinctOrdered(cs: seq<Candidate>)
    requires DistinctProviders(cs)
    ensures DistinctProviders(Ordered(cs))
  {
    var o := Ordered(cs);
    OrderedIsSorted(cs);
    SameMembers(cs);
    hide Ordered, Sorted;
    forall i, j | 0 <= i < j < |o|
      ensures o[i].Provider() != o[j].Provider()
    {
      OneOfEach(cs, o[i]);
      TwiceCounts(o, i, j);
      assert o[i] in cs && o[j] in cs;
    }
  }

  lemma TwiceCounts(o: seq<Candidate>, i: nat, j: nat)
    requires i < j < |o|
    ensures o[i] == o[j] ==> multiset(o)[o[i]] >= 2
  {
    assert o == o[..i] + [o[i]] + o[i + 1..j] + [o[j]] + o[j + 1..];
  }

  lemma {:induction false} OneOfEach(cs: seq<Candidate>, c: Candidate)
    requires DistinctProviders(cs)
    ensures multiset(cs)[c] <= 1
  {
    if cs != [] {
      assert cs == [cs[0]] + cs[1..];
      OneOfEach(cs[1..], c);
    }
  }

  /** The first of the least candidates in the order given: the head of the stable sort. */
  predicate IsHead(cs: seq<Candidate>, k: nat) {
    k < |cs| && (forall d | d in cs :: !KeyLess(d, cs[k])) && forall j | 0 <= j < k :: KeyLess(cs[k], cs[j])
  }

  lemma {:induction false} OrderedHead(cs: seq<Candidate>) returns (k: nat)
    requires cs != []
    ensures IsHead(cs, k) && Ordered(cs) != [] && Ordered(cs)[0] == cs[k]
  {
    hide KeyLess;
    k := 0;
    SameMembers(cs);
    KeyIsTotal(cs[0], cs[0], cs[0]);
    if |cs| > 1 {
      var rest := cs[1..];
      assert cs == [cs[0]] + rest;
      var j := OrderedHead(rest);
      if KeyLess(rest[j], cs[0]) {
        k := j + 1;
        KeyIsTotal(rest[j], cs[0], cs[0]);
      } else {
        forall d | d in rest ensures !KeyLess(d, cs[0]) {
          KeyIsTotal(cs[0], rest[j], d);
        }
      }
    }
  }

  /** Selection fails exactly when nobody is eligible or, without fallback, when the head is not. */
  lemma SelectFailsExactly(cs: seq<Candidate>, t: Terms, now: int, k: nat)
    requires t.required != [] && (cs != [] ==> IsHead(cs, k))
    ensures Select(cs, t, now).Err? <==>
              if t.gates.allowFallback then forall c | c in cs :: !Eligible(c, t, now)
              else cs == [] || !Eligible(cs[k], t, now)
  {
    var o := Ordered(cs);
    SameMembers(cs);
    hide Reason, Ordered, KeyLess;
    if cs != [] {
      var head := OrderedHead(cs);
      OneHead(cs, head, k);
    }
    assert forall i | 0 <= i < |o| :: o[i] in cs;
    if Select(cs, t, now).Err? {
      forall c | c in cs
        ensures !Eligible(c, t, now) || !t.gates.allowFallback
      {
        var i :| 0 <= i < |o| && o[i] == c;
        assert Verdict(o[i], i == 0, t, now).Some?;
      }
      assert o != [] ==> Verdict(o[0], true, t, now).Some?;
    }
  }

  lemma OneHead(cs: seq<Candidate>, j: nat, k: nat)
    requires IsHead(cs, j) && IsHead(cs, k)
    ensures j == k
  {
    hide KeyLess;
    assert cs[j] in cs && cs[k] in cs;
  }
}
