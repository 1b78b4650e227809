/**
 The fallback producer: try providers in the selector's order until one answers
 validly, recording every attempt. Provider answers come from outside (`World`);
 the canonical hash is injective, so a hash is modelled by what it covers.
*/
module ProviderFallback {
  import opened Wrappers
  import opened Text
  import opened ProviderSelection

  const ARCHITECT_REQUIRED := ["repository-understanding", "structured-output", "reasoning", "context-capacity"]
  const SORTED_REQUIRED := ["context-capacity", "reasoning", "repository-understanding", "structured-output"]

  datatype Outcome =
    PROVIDER_UNAVAILABLE | TRANSPORT_FAILURE | INVALID_PROVIDER_OUTPUT | VALIDATED_RESPONSE | UNKNOWN_OUTCOME
  {
    predicate Failure() { PROVIDER_UNAVAILABLE? || TRANSPORT_FAILURE? || INVALID_PROVIDER_OUTPUT? }
  }

  datatype AttemptId = Derived(request: nat, sequence: int, provider: string, profile: string) | Foreign(text: string)

  datatype Attempt = Attempt(id: AttemptId, sequence: int, providerId: string, profileId: string, profileSha: nat,
                             request: nat, selectionTime: Option<int>, requirements: seq<string>,
                             outcome: Outcome, failure: Option<string>)

  datatype Audit = Audit(isFailure: bool, id: AttemptId, providerId: string, profileId: string,
                         outcome: Outcome, reason: string)

  datatype Request = Request(projectId: string, hash: nat)

  /** A response that passed validation: its raw form, its hash, the outcome it proposes, and the validated payload. */
  datatype Response = Response(raw: nat, hash: nat, outcome: string, payload: nat)

  datatype Reply = Absent | TransportError(text: string) | BadOutput(text: string) | Answer(response: Response)

  /** Which providers are wired up, and what the n-th call of this proposal gets back. */
  datatype World = World(wired: set<string>, reply: nat -> Reply)

  datatype Setup = Setup(candidates: seq<Candidate>, gates: Option<Gates>, now: int, project: string)

  datatype DecisionStatus = SELECTED | BLOCKED | PENDING

  datatype GateView = GateView(policy: bool, privacy: bool, independence: bool, budget: bool, health: bool,
                               evidence: bool, allowFallback: bool)

  /** The part of a decision that is rebuilt from evidence. */
  datatype Core = Core(status: DecisionStatus, providerId: Option<string>, profileId: Option<string>,
                       fallbackUsed: bool, considered: seq<string>, rejected: seq<string>,
                       failures: seq<string>, audit: seq<Audit>, reason: Option<string>)

  datatype Decision = Decision(core: Core, gates: GateView, profileEvidence: seq<Candidate>, required: seq<string>,
                               responseHash: Option<nat>, planningOutcome: Option<string>)

  datatype State = State(selection: Option<Selection>, response: Option<Response>, required: seq<string>,
                         failures: seq<string>, audit: seq<Audit>, attempts: seq<Attempt>,
                         blockedReason: Option<string>)

  const BLANK := State(None, None, [], [], [], [], None)

  // ----- one attempt ---------------------------------------------------------------

  function FirstWith(cs: seq<Candidate>, provider: string): (k: nat)
    ensures k <= |cs| && (k < |cs| ==> cs[k].Provider() == provider)
    ensures forall i | 0 <= i < k :: cs[i].Provider() != provider
  {
    if cs == [] || cs[0].Provider() == provider then 0 else 1 + FirstWith(cs[1..], provider)
  }

  function ReplyTo(world: World, provider: string, sequence: nat): Reply {
    if provider !in world.wired then Absent else world.reply(sequence)
  }

  function OutcomeOf(reply: Reply): Outcome {
    match reply
    case Absent => PROVIDER_UNAVAILABLE
    case TransportError(_) => TRANSPORT_FAILURE
    case BadOutput(_) => INVALID_PROVIDER_OUTPUT
    case Answer(_) => VALIDATED_RESPONSE
  }

  function FailureText(reply: Reply): Option<string> {
    match reply
    case TransportError(text) => Some(text)
    case BadOutput(text) => Some(text)
    case _ => None
  }

  function AttemptAt(c: Candidate, sequence: nat, request: nat, now: int, reply: Reply): Attempt {
    Attempt(Derived(request, sequence, c.Provider(), c.profile.profileId), sequence, c.Provider(), c.profile.profileId,
            c.profile.sha256, request, Some(now), ARCHITECT_REQUIRED, OutcomeOf(reply), FailureText(reply))
  }

  const UNAVAILABLE := "provider unavailable"

  function AuditAt(s: Selection, attempt: Attempt): Audit {
    Audit(true, attempt.id, s.providerId, s.profileId, attempt.outcome, OrElseText(attempt.failure))
  }

  function OrElseText(failure: Option<string>): string {
    if failure.Some? then failure.value else UNAVAILABLE
  }

  function Line(a: Audit): string { a.providerId + ": " + a.reason }

  // ----- the whole proposal -----------------------------------------------------------

  datatype Progress = Progress(remaining: seq<Candidate>, attempts: seq<Attempt>, audit: seq<Audit>,
                               failures: seq<string>)

  lemma SelectedIsPresent(cs: seq<Candidate>, t: Terms, now: int)
    requires Select(cs, t, now).Ok?
    ensures FirstWith(cs, Select(cs, t, now).value.providerId) < |cs|
  {
    hide Select, FirstWith;
    var c := SelectPicksLeast(cs, t, now);
    var k :| 0 <= k < |cs| && cs[k] == c;
  }

  function Without<T>(s: seq<T>, k: nat): seq<T>
    requires k < |s|
  {
    s[..k] + s[k + 1..]
  }

  function Failed(p: Progress, s: Selection, attempt: Attempt, k: nat): Progress
    requires k < |p.remaining|
  {
    var audit := AuditAt(s, attempt);
    Progress(Without(p.remaining, k), p.attempts + [attempt], p.audit + [audit], p.failures + [Line(audit)])
  }

  function Answered(p: Progress, attempt: Attempt, k: nat): Progress
    requires k < |p.remaining|
  {
    p.(remaining := Without(p.remaining, k), attempts := p.attempts + [attempt])
  }

  function Explored(t: Terms, now: int, request: nat, world: World, p: Progress)
    : (Progress, Option<(Selection, Response)>)
    decreases |p.remaining|
  {
    if p.remaining == [] then (p, None)
    else if p.attempts != [] && !t.gates.allowFallback then
      (p.(failures := p.failures + ["fallback is not permitted"]), None)
    else
      match Select(p.remaining, t, now)
      case Err(e) => (p.(failures := p.failures + [e]), None)
      case Ok(s) =>
        SelectedIsPresent(p.remaining, t, now);
        var k := FirstWith(p.remaining, s.providerId);
        var sequence := |p.attempts| + 1;
        var reply := ReplyTo(world, s.providerId, sequence);
        var attempt := AttemptAt(p.remaining[k], sequence, request, now, reply);
        if reply.Answer? then (Answered(p, attempt, k), Some((s, reply.response)))
        else Explored(t, now, request, world, Failed(p, s, attempt, k))
  }

  function ArchitectTerms(project: string, gates: Gates): Terms {
    Terms(project, SORTED_REQUIRED, gates, map[])
  }

  function TermsOf(setup: Setup): Terms
    requires setup.gates.Some?
  {
    ArchitectTerms(setup.project, setup.gates.value)
  }

  function BlockedReason(attempts: seq<Attempt>, failures: seq<string>): string {
    if attempts != [] then "all architect providers failed: " + Join("; ", failures)
    else if failures != [] then failures[0]
    else "provider selection blocked"
  }

  function Concluded(p: Progress, ending: Option<(Selection, Response)>): State {
    match ending
    case Some((s, answer)) => State(Some(s), Some(answer), ARCHITECT_REQUIRED, p.failures, p.audit, p.attempts, None)
    case None =>
      State(None, None, ARCHITECT_REQUIRED, if p.attempts != [] then p.failures else [], p.audit, p.attempts,
            Some(BlockedReason(p.attempts, p.failures)))
  }

  function Proposed(setup: Setup, request: Request, world: World): State {
    if request.projectId != setup.project then BLANK
    else if setup.gates.None? then BLANK.(required := ARCHITECT_REQUIRED)
    else
      var (p, ending) := Explored(TermsOf(setup), setup.now, request.hash, world,
                                  Progress(setup.candidates, [], [], []));
      Concluded(p, ending)
  }

  /** Under a gate that has not passed no provider is asked: the proposal blocks without an attempt. */
  lemma FailedGateBlocks(setup: Setup, request: Request, world: World)
    requires setup.gates.Some? && request.projectId == setup.project && !AllPassed(setup.gates.value)
    ensures var s := Proposed(setup, request, world);
            && s.attempts == [] && s.audit == [] && s.selection.None? && s.response.None? && s.blockedReason.Some?
  {
    var t := TermsOf(setup);
    if Select(setup.candidates, t, setup.now).Ok? {
      var c := SelectPicksLeast(setup.candidates, t, setup.now);
      EligibleExactly(c, t, setup.now);
      assert false;
    }
    hide Select, AllPassed, BlockedReason;
  }

  // ----- the decision ------------------------------------------------------------------

  predicate Passed(gate: Option<bool>) { gate == Some(true) }

  function ViewOf(gates: Option<Gates>): GateView {
    match gates
    case None => GateView(false, false, false, false, false, false, true)
    case Some(g) => GateView(Passed(g.policy), Passed(g.privacy), Passed(g.independence), Passed(g.budget),
                             Passed(g.health), Passed(g.evidence), g.allowFallback)
  }

  function AuditProviders(audit: seq<Audit>): seq<string> {
    seq(|audit|, i requires 0 <= i < |audit| => audit[i].providerId)
  }

  function CoreOf(candidates: seq<Candidate>, s: State): Core {
    match s.selection
    case Some(chosen) =>
      Core(SELECTED, Some(chosen.providerId), Some(chosen.profileId), chosen.fallbackUsed || s.failures != [],
           AuditProviders(s.audit) + chosen.considered, chosen.rejected, s.failures, s.audit, None)
    case None =>
      match s.blockedReason
      case Some(reason) =>
        Core(BLOCKED, None, None, false, Providers(Ordered(candidates)), [reason], s.failures, s.audit, Some(reason))
      case None =>
        Core(PENDING, None, None, false, Providers(candidates), s.failures, [], s.audit, None)
  }

  function DecisionOf(setup: Setup, s: State): Decision {
    var hash := if s.response.Some? then Some(s.response.value.hash) else None;
    var outcome := if s.response.Some? then Some(s.response.value.outcome) else None;
    Decision(CoreOf(setup.candidates, s), ViewOf(setup.gates), setup.candidates, s.required, hash, outcome)
  }

  /** The decision shows exactly which gates have passed; without gates none has. */
  lemma GatesAreShown(setup: Setup, s: State)
    ensures var v := DecisionOf(setup, s).gates;
            match setup.gates
            case None =>
              !v.policy && !v.privacy && !v.independence && !v.budget && !v.health && !v.evidence && v.allowFallback
            case Some(g) =>
              && (v.policy <==> g.policy == Some(true)) && (v.privacy <==> g.privacy == Some(true))
              && (v.independence <==> g.independence == Some(true)) && (v.budget <==> g.budget == Some(true))
              && (v.health <==> g.health == Some(true)) && (v.evidence <==> g.evidence == Some(true))
              && (v.allowFallback <==> g.allowFallback)
  {
  }

  /** A proposal that is refused before it starts decides nothing. */
  lemma RefusedIsPending(setup: Setup, request: Request, world: World)
    requires request.projectId != setup.project || setup.gates.None?
    ensures var d := DecisionOf(setup, Proposed(setup, request, world));
            && d.core.status.PENDING? && d.core.providerId.None? && d.core.profileId.None? && !d.core.fallbackUsed
            && d.core.audit == [] && d.core.reason.None? && d.responseHash.None? && d.planningOutcome.None?
            && |d.core.considered| == |setup.candidates|
            && forall i | 0 <= i < |setup.candidates| :: d.core.considered[i] == setup.candidates[i].Provider()
  {
  }

  // ----- the object ----------------------------------------------------------------------

  class ProviderArchitect {
    const setup: Setup
    var selection: Option<Selection>
    var responseHash: Option<nat>
    var lastResponse: Option<nat>
    var planningOutcome: Option<string>
    var required: seq<string>
    var invocationFailures: seq<string>
    var selectionAudit: seq<Audit>
    var attempts: seq<Attempt>
    var blockedReason: Option<string>

    /** The fields hold what state `s` says; a validated response is kept in three of them. */
    ghost predicate Holds(s: State)
      reads this
    {
      && selection == s.selection && required == s.required && invocationFailures == s.failures
      && selectionAudit == s.audit && attempts == s.attempts && blockedReason == s.blockedReason
      && responseHash == (if s.response.Some? then Some(s.response.value.hash) else None)
      && lastResponse == (if s.response.Some? then Some(s.response.value.raw) else None)
      && planningOutcome == (if s.response.Some? then Some(s.response.value.outcome) else None)
    }

    constructor (setup: Setup)
      ensures this.setup == setup && Holds(BLANK)
    {
      this.setup := setup;
      selection, responseHash, lastResponse, planningOutcome, blockedReason := None, None, None, None, None;
      required, invocationFailures, selectionAudit, attempts := [], [], [], [];
    }

    method Reset()
      modifies this
      ensures Holds(BLANK)
    {
      selection, responseHash, lastResponse, planningOutcome, blockedReason := None, None, None, None, None;
      required, invocationFailures, selectionAudit, attempts := [], [], [], [];
    }

    /** The loop over the providers: attempts and audit are journalled as it goes, the failure lines are returned. */
    method TryProviders(t: Terms, request: Request, world: World)
      returns (answer: Option<Response>, failures: seq<string>)
      requires attempts == [] && selectionAudit == []
      modifies this`selection, this`attempts, this`selectionAudit
      ensures var (p, ending) := Explored(t, setup.now, request.hash, world, Progress(setup.candidates, [], [], []));
              && Progress(p.remaining, attempts, selectionAudit, failures) == p
              && (if ending.None? then answer == None
                  else selection == Some(ending.value.0) && answer == Some(ending.value.1))
    {
      hide Select, Ordered, FirstWith, Join, AttemptAt, ReplyTo, AuditAt, Line;
      var selector := new CapabilitySelector();
      var remaining := setup.candidates;
      failures := [];
      ghost var all := Explored(t, setup.now, request.hash, world, Progress(setup.candidates, [], [], []));
      while remaining != []
        invariant all == Explored(t, setup.now, request.hash, world,
                                  Progress(remaining, attempts, selectionAudit, failures))
        decreases |remaining|
      {
        if attempts != [] && !t.gates.allowFallback {
          failures := failures + ["fallback is not permitted"];
          return None, failures;
        }
        var chosen := selector.SelectProvider(remaining, t, setup.now);
        if chosen.Err? {
          failures := failures + [chosen.error];
          return None, failures;
        }
        var s := chosen.value;
        selection := Some(s);
        SelectedIsPresent(remaining, t, setup.now);
        var k := FirstWith(remaining, s.providerId);
        var reply := ReplyTo(world, s.providerId, |attempts| + 1);
        var attempt := AttemptAt(remaining[k], |attempts| + 1, request.hash, setup.now, reply);
        remaining := Without(remaining, k);
        attempts := attempts + [attempt];
        if reply.Answer? {
          return Some(reply.response), failures;
        }
        var audit := AuditAt(s, attempt);
        selectionAudit := selectionAudit + [audit];
        failures := failures + [Line(audit)];
      }
      return None, failures;
    }

    /** The result is the payload of the validated response; an error is an ArchitectPlanningError's text. */
    method Propose(request: Request, world: World) returns (r: Result<nat, string>)
      modifies this
      ensures var s := Proposed(setup, request, world);
              Holds(s) && (r.Ok? <==> s.response.Some?) && (r.Ok? ==> r.value == s.response.value.payload)
      ensures r.Err? && blockedReason.Some? ==> r.error == blockedReason.value
    {
      hide Explored, Join, BlockedReason;
      Reset();
      if request.projectId != setup.project {
        return Err("architect project binding does not match");
      }
      required := ARCHITECT_REQUIRED;
      if setup.gates.None? {
        return Err("architect selection gates are missing");
      }
      var tried, failures := TryProviders(TermsOf(setup), request, world);
      if tried.Some? {
        var answer := tried.value;
        planningOutcome, responseHash, lastResponse := Some(answer.outcome), Some(answer.hash), Some(answer.raw);
        invocationFailures := failures;
        return Ok(answer.payload);
      }
      invocationFailures := if attempts != [] then failures else [];
      selection := None;
      blockedReason := Some(BlockedReason(attempts, failures));
      assert Holds(Proposed(setup, request, world)) by {
        var (p, ending) := Explored(TermsOf(setup), setup.now, request.hash, world,
                                    Progress(setup.candidates, [], [], []));
        assert Proposed(setup, request, world) == Concluded(p, None);
        assert p.attempts == attempts && p.failures == failures && p.audit == selectionAudit;
      }
      return Err(BlockedReason(attempts, failures));
    }
  }
}
