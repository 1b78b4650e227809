/** Evidence of a proposal, the verifier that rebuilds the decision from it, and what each owes the other. */
module ProviderEvidence {
  import opened Wrappers
  import opened Text
  import opened ProviderSelection
  import opened ProviderFallback

  datatype Header = Header(schema: string, source: string, kind: string, attestation: string)

  const ADAPTER := Header("1.0", "adapter", "observation", "unavailable")

  /** What the caller binds the evidence to. */
  datatype Context = Context(session: string, planPath: Option<string>, planHash: string, targetSha: string)

  datatype Inputs = Inputs(projectId: string, context: Context, request: nat, required: seq<string>,
                           gates: GateView, candidates: seq<Candidate>)

  datatype Evidence = Evidence(header: Header, inputs: Inputs, attempts: seq<Attempt>, audit: seq<Audit>,
                               decisionHash: Decision)

  function InputsFor(request: Request, context: Context, d: Decision): Inputs {
    Inputs(request.projectId, context, request.hash, ARCHITECT_REQUIRED, d.gates, d.profileEvidence)
  }

  function EvidenceOf(request: Request, context: Context, s: State, d: Decision): Evidence {
    Evidence(ADAPTER, InputsFor(request, context, d), s.attempts, d.core.audit, d)
  }

  // ----- the verifier's checks, one predicate a stage ---------------------------------

  predicate BlankId(id: AttemptId) { id.Foreign? && Blank(id.text) }

  predicate AuditShapeOk(a: Audit) {
    && a.isFailure && !BlankId(a.id) && !Blank(a.providerId) && !Blank(a.profileId)
    && a.outcome.Failure() && !Blank(a.reason)
  }

  predicate BindingOk(request: Request, context: Context, e: Evidence, d: Decision) {
    && e.header == ADAPTER && e.inputs == InputsFor(request, context, d)
    && (forall i | 0 <= i < |e.audit| :: AuditShapeOk(e.audit[i]))
    && e.audit == d.core.audit && e.decisionHash == d
  }

  predicate DistinctIds(attempts: seq<Attempt>) {
    forall i, j | 0 <= i < j < |attempts| :: attempts[i].id != attempts[j].id
  }

  predicate AuditMatches(a: Audit, attempt: Attempt) {
    && attempt.id == a.id && attempt.providerId == a.providerId && attempt.profileId == a.profileId
    && attempt.outcome == a.outcome && attempt.outcome.Failure()
    && (if attempt.outcome.PROVIDER_UNAVAILABLE? then Strip(a.reason) == UNAVAILABLE
        else Some(Strip(a.reason)) == attempt.failure)
  }

  predicate Bound(a: Audit, attempts: seq<Attempt>) {
    exists k | 0 <= k < |attempts| :: AuditMatches(a, attempts[k])
  }

  predicate HistoryOk(attempts: seq<Attempt>, audit: seq<Audit>) {
    && (forall k | 0 <= k < |attempts| :: !BlankId(attempts[k].id))
    && DistinctIds(attempts)
    && (forall i | 0 <= i < |audit| :: Bound(audit[i], attempts))
  }

  function Others(cs: seq<Candidate>, provider: string): seq<Candidate> {
    if cs == [] then []
    else (if cs[0].Provider() != provider then [cs[0]] else []) + Others(cs[1..], provider)
  }

  /** The candidates not yet tried before attempt `k`. */
  function Untried(cs: seq<Candidate>, attempts: seq<Attempt>, k: nat): seq<Candidate>
    requires k <= |attempts|
  {
    if k == 0 then cs else Others(Untried(cs, attempts, k - 1), attempts[k - 1].providerId)
  }

  /** A dictionary keyed by provider keeps the last of several. */
  function ById(cs: seq<Candidate>, provider: string): Option<Candidate> {
    if cs == [] then None
    else if cs[|cs| - 1].Provider() == provider then Some(cs[|cs| - 1])
    else ById(cs[..|cs| - 1], provider)
  }

  function TimeOf(attempt: Attempt, now: int): int {
    if attempt.selectionTime.Some? then attempt.selectionTime.value else now
  }

  /** The selector, run on the candidates not yet tried, picks this attempt's provider. */
  predicate ChosenBySelector(cs: seq<Candidate>, t: Terms, attempts: seq<Attempt>, k: nat, now: int)
    requires k < |attempts|
  {
    var r := Select(Untried(cs, attempts, k), t, TimeOf(attempts[k], now));
    r.Ok? && r.value.providerId == attempts[k].providerId
  }

  predicate AttemptOk(cs: seq<Candidate>, t: Terms, request: Request, attempts: seq<Attempt>, k: nat, now: int)
    requires k < |attempts|
  {
    var attempt := attempts[k];
    var c := ById(cs, attempt.providerId);
    && attempt.sequence == k + 1
    && (k > 0 ==> t.gates.allowFallback)
    && c.Some? && attempt.profileId == c.value.profile.profileId
    && attempt.id == Derived(request.hash, attempt.sequence, attempt.providerId, attempt.profileId)
    && attempt.profileSha == c.value.profile.sha256
    && attempt.request == request.hash
    && attempt.requirements == ARCHITECT_REQUIRED
    && ChosenBySelector(cs, t, attempts, k, now)
  }

  predicate OutcomeOk(attempts: seq<Attempt>, k: nat, decided: Option<string>)
    requires k < |attempts|
  {
    if attempts[k].outcome.VALIDATED_RESPONSE? then k + 1 == |attempts| && decided == Some(attempts[k].providerId)
    else attempts[k].outcome.Failure()
  }

  predicate WalkOk(cs: seq<Candidate>, t: Terms, request: Request, attempts: seq<Attempt>, now: int,
                   decided: Option<string>) {
    forall k | 0 <= k < |attempts| ::
      AttemptOk(cs, t, request, attempts, k, now) && OutcomeOk(attempts, k, decided)
  }

  /** Exactly one audit item for every failed attempt, and none for any other. */
  predicate CardinalityOk(attempts: seq<Attempt>, audit: seq<Audit>) {
    && (forall i, j | 0 <= i < j < |audit| :: audit[i].id != audit[j].id)
    && (set i | 0 <= i < |audit| :: audit[i].id) == FailedIds(attempts)
  }

  function FailedIds(attempts: seq<Attempt>): set<AttemptId> {
    set k | 0 <= k < |attempts| && !attempts[k].outcome.VALIDATED_RESPONSE? :: attempts[k].id
  }

  function Lines(audit: seq<Audit>): seq<string> {
    seq(|audit|, i requires 0 <= i < |audit| => Line(audit[i]))
  }

  function BlockedCore(cs: seq<Candidate>, reason: string, failures: seq<string>, audit: seq<Audit>): Core {
    Core(BLOCKED, None, None, false, Providers(Ordered(cs)), [reason], failures, audit, Some(reason))
  }

  predicate Succeeded(attempts: seq<Attempt>) {
    attempts != [] && attempts[|attempts| - 1].outcome.VALIDATED_RESPONSE?
  }

  /** The decision as a function of the authoritative candidates and terms, the attempts and the audit. */
  function Reconstructed(cs: seq<Candidate>, t: Terms, attempts: seq<Attempt>, audit: seq<Audit>,
                         now: int): Option<Core> {
    if Succeeded(attempts) then
      var last := |attempts| - 1;
      match Select(Untried(cs, attempts, last), t, TimeOf(attempts[last], now))
      case Err(_) => None
      case Ok(s) =>
        Some(Core(SELECTED, Some(s.providerId), Some(s.profileId), FailedIds(attempts) != {} || s.fallbackUsed,
                  AuditProviders(audit) + s.considered, s.rejected, Lines(audit), audit, None))
    else if attempts != [] then
      Some(BlockedCore(cs, "all architect providers failed: " + Join("; ", Lines(audit)), Lines(audit), audit))
    else
      match Select(cs, t, now)
      case Err(e) => Some(BlockedCore(cs, e, [], []))
      case Ok(s) => Some(Core(SELECTED, Some(s.providerId), Some(s.profileId), s.fallbackUsed, s.considered,
                              s.rejected, [], [], None))
  }

  predicate Exhausted(cs: seq<Candidate>, attempts: seq<Attempt>, status: DecisionStatus) {
    !(status.BLOCKED? && attempts != [] && Untried(cs, attempts, |attempts|) != [])
  }

  predicate Accepts(e: Evidence, d: Decision, request: Request, context: Context, now: int, cs: seq<Candidate>,
                    gates: Gates)
  {
    var t := ArchitectTerms(request.projectId, gates);
    && BindingOk(request, context, e, d)
    && HistoryOk(e.attempts, e.audit)
    && WalkOk(cs, t, request, e.attempts, now, d.core.providerId)
    && CardinalityOk(e.attempts, e.audit)
    && Exhausted(cs, e.attempts, d.core.status)
    && Reconstructed(cs, t, e.attempts, e.audit, now) == Some(d.core)
  }

  // ----- who is still to be tried ----------------------------------------------------------

  lemma {:induction false} OthersMembers(cs: seq<Candidate>, provider: string)
    ensures forall c :: c in Others(cs, provider) <==> c in cs && c.Provider() != provider
  {
    if cs != [] {
      OthersMembers(cs[1..], provider);
      assert cs == [cs[0]] + cs[1..];
    }
  }

  predicate TriedBefore(attempts: seq<Attempt>, k: nat, provider: string)
    requires k <= |attempts|
  {
    exists j | 0 <= j < k :: attempts[j].providerId == provider
  }

  lemma {:induction false} UntriedMembers(cs: seq<Candidate>, attempts: seq<Attempt>, k: nat)
    requires k <= |attempts|
    ensures forall c :: c in Untried(cs, attempts, k) <==> c in cs && !TriedBefore(attempts, k, c.Provider())
  {
    if k > 0 {
      UntriedMembers(cs, attempts, k - 1);
      OthersMembers(Untried(cs, attempts, k - 1), attempts[k - 1].providerId);
    }
  }

  // ----- soundness -----------------------------------------------------------------------

  /** The attempted provider is that of the least eligible candidate among those not tried before. */
  predicate TriedInTurn(cs: seq<Candidate>, t: Terms, attempts: seq<Attempt>, k: nat, now: int)
    requires k < |attempts|
  {
    exists c | c in cs :: IsTurnOf(c, cs, t, attempts, k, now)
  }

  predicate IsTurnOf(c: Candidate, cs: seq<Candidate>, t: Terms, attempts: seq<Attempt>, k: nat, now: int)
    requires k < |attempts|
  {
    && c in cs && !TriedBefore(attempts, k, c.Provider()) && c.Provider() == attempts[k].providerId
    && Eligible(c, t, TimeOf(attempts[k], now))
    && forall d | d in cs && !TriedBefore(attempts, k, d.Provider()) && Eligible(d, t, TimeOf(attempts[k], now)) ::
         !KeyLess(d, c)
  }

  lemma ChosenIsTurn(cs: seq<Candidate>, t: Terms, attempts: seq<Attempt>, k: nat, now: int) returns (c: Candidate)
    requires k < |attempts| && ChosenBySelector(cs, t, attempts, k, now)
    ensures IsTurnOf(c, cs, t, attempts, k, now)
  {
    hide Select, Eligible, KeyLess, Untried;
    c := SelectPicksLeast(Untried(cs, attempts, k), t, TimeOf(attempts[k], now));
    UntriedMembers(cs, attempts, k);
  }

  /**
   What acceptance is worth: every attempt went to the least eligible candidate not tried before, no
   provider was tried twice, every attempt but possibly the last failed, and each failed attempt has
   exactly one audit item, which agrees with it.
  */
  lemma VerifierIsSound(e: Evidence, d: Decision, request: Request, context: Context, now: int, cs: seq<Candidate>,
                        gates: Gates)
    requires Accepts(e, d, request, context, now, cs, gates)
    ensures var t := ArchitectTerms(request.projectId, gates);
            && (forall k | 0 <= k < |e.attempts| :: TriedInTurn(cs, t, e.attempts, k, now))
            && (forall j, k | 0 <= j < k < |e.attempts| ::
                  e.attempts[j].providerId != e.attempts[k].providerId && e.attempts[j].outcome.Failure())
            && (forall k | 0 <= k < |e.attempts| && e.attempts[k].outcome.Failure() ::
                  exists i | 0 <= i < |e.audit| :: AuditMatches(e.audit[i], e.attempts[k]))
            && (forall i, j | 0 <= i < j < |e.audit| :: e.audit[i].id != e.audit[j].id)
            && (d.core.status.SELECTED? && e.attempts != [] ==>
                  d.core.providerId == Some(e.attempts[|e.attempts| - 1].providerId))
  {
    hide BindingOk, Exhausted, Reconstructed, AttemptOk, AuditMatches;
    var t := ArchitectTerms(request.projectId, gates);
    forall k | 0 <= k < |e.attempts|
      ensures TriedInTurn(cs, t, e.attempts, k, now) && !TriedBefore(e.attempts, k, e.attempts[k].providerId)
    {
      AttemptWasChosen(cs, t, request, e.attempts, k, now);
      var c := ChosenIsTurn(cs, t, e.attempts, k, now);
    }
    forall j, k | 0 <= j < k < |e.attempts|
      ensures e.attempts[j].providerId != e.attempts[k].providerId && e.attempts[j].outcome.Failure()
    {
      assert !TriedBefore(e.attempts, k, e.attempts[k].providerId);
      assert OutcomeOk(e.attempts, j, d.core.providerId);
    }
    forall k | 0 <= k < |e.attempts| && e.attempts[k].outcome.Failure()
      ensures exists i | 0 <= i < |e.audit| :: AuditMatches(e.audit[i], e.attempts[k])
    {
      var i := AuditOfFailure(e.attempts, e.audit, k);
    }
    if d.core.status.SELECTED? && e.attempts != [] {
      SelectedMeansSucceeded(e, d, request, context, now, cs, gates);
    }
  }

  predicate Inked(s: string) { exists i | 0 <= i < |s| :: !IsSpace(s[i]) }

  /** An attempt as it must be recorded: the `n`-th of this request, to a candidate as it stands. */
  predicate Recorded(attempt: Attempt, n: nat, request: Request, cs: seq<Candidate>) {
    && attempt.sequence == n && attempt.request == request.hash && attempt.requirements == ARCHITECT_REQUIRED
    && attempt.id == Derived(request.hash, n, attempt.providerId, attempt.profileId)
    && attempt.outcome in {PROVIDER_UNAVAILABLE, TRANSPORT_FAILURE, INVALID_PROVIDER_OUTPUT, VALIDATED_RESPONSE}
    && exists c | c in cs ::
         c.Provider() == attempt.providerId && c.profile.profileId == attempt.profileId
         && c.profile.sha256 == attempt.profileSha
  }

  /**
   What accepted evidence is bound to: adapter evidence of this request, session, plan and target, over the gates and
   candidates the decision shows; attempts numbered from one, more than one only with fallback, each recorded as it
   must be; and audit items that say something about a failure.
  */
  lemma AcceptanceBinds(e: Evidence, d: Decision, request: Request, context: Context, now: int, cs: seq<Candidate>,
                        gates: Gates)
    requires Accepts(e, d, request, context, now, cs, gates)
    ensures e.header == Header("1.0", "adapter", "observation", "unavailable") && e.decisionHash == d
    ensures e.inputs == Inputs(request.projectId, context, request.hash, ARCHITECT_REQUIRED, d.gates, d.profileEvidence)
    ensures |e.attempts| > 1 ==> gates.allowFallback
    ensures forall k | 0 <= k < |e.attempts| :: Recorded(e.attempts[k], k + 1, request, cs)
    ensures forall i | 0 <= i < |e.audit| ::
              && e.audit[i].isFailure && Inked(e.audit[i].providerId) && Inked(e.audit[i].profileId)
              && Inked(e.audit[i].reason)
              && e.audit[i].outcome in {PROVIDER_UNAVAILABLE, TRANSPORT_FAILURE, INVALID_PROVIDER_OUTPUT}
  {
    hide HistoryOk, CardinalityOk, Exhausted, Reconstructed, ChosenBySelector;
    var t := ArchitectTerms(request.projectId, gates);
    if |e.attempts| > 1 {
      assert AttemptOk(cs, t, request, e.attempts, 1, now);
    }
    forall k | 0 <= k < |e.attempts|
      ensures Recorded(e.attempts[k], k + 1, request, cs)
    {
      assert AttemptOk(cs, t, request, e.attempts, k, now) && OutcomeOk(e.attempts, k, d.core.providerId);
      ByIdIsMember(cs, e.attempts[k].providerId);
    }
    forall i | 0 <= i < |e.audit|
      ensures Inked(e.audit[i].providerId) && Inked(e.audit[i].profileId) && Inked(e.audit[i].reason)
    {
      assert AuditShapeOk(e.audit[i]);
    }
  }

  lemma {:induction false} ByIdIsMember(cs: seq<Candidate>, provider: string)
    ensures ById(cs, provider).Some? ==>
              ById(cs, provider).value in cs && ById(cs, provider).value.Provider() == provider
    decreases |cs|
  {
    if cs != [] {
      ByIdIsMember(cs[..|cs| - 1], provider);
    }
  }

  /** What an accepted decision says, by the last attempt: selected after a valid response, blocked after a failure. */
  lemma AcceptedDecisionExactly(e: Evidence, d: Decision, request: Request, context: Context, now: int,
                                cs: seq<Candidate>, gates: Gates)
    requires Accepts(e, d, request, context, now, cs, gates) && e.attempts != []
    ensures var last := e.attempts[|e.attempts| - 1];
            && d.core.status == (if last.outcome.VALIDATED_RESPONSE? then SELECTED else BLOCKED)
            && d.core.providerId == (if last.outcome.VALIDATED_RESPONSE? then Some(last.providerId) else None)
            && (d.core.reason.Some? <==> d.core.status.BLOCKED?)
            && (d.core.fallbackUsed ==> d.core.status.SELECTED?)
            && (d.core.status.SELECTED? && |e.attempts| > 1 ==> d.core.fallbackUsed)
            && d.core.audit == e.audit && |d.core.failures| == |e.audit|
            && forall i | 0 <= i < |e.audit| ::
                 d.core.failures[i] == e.audit[i].providerId + ": " + e.audit[i].reason
  {
    hide HistoryOk, CardinalityOk, Exhausted, AttemptOk, Select, Ordered, Join, Providers;
    assert OutcomeOk(e.attempts, |e.attempts| - 1, d.core.providerId);
    if |e.attempts| > 1 {
      assert OutcomeOk(e.attempts, 0, d.core.providerId);
      assert e.attempts[0].id in FailedIds(e.attempts);
    }
  }

  lemma AttemptWasChosen(cs: seq<Candidate>, t: Terms, request: Request, attempts: seq<Attempt>, k: nat, now: int)
    requires k < |attempts| && AttemptOk(cs, t, request, attempts, k, now)
    ensures ChosenBySelector(cs, t, attempts, k, now)
  {
  }

  lemma AuditOfFailure(attempts: seq<Attempt>, audit: seq<Audit>, k: nat) returns (i: nat)
    requires HistoryOk(attempts, audit) && CardinalityOk(attempts, audit)
    requires k < |attempts| && attempts[k].outcome.Failure()
    ensures i < |audit| && AuditMatches(audit[i], attempts[k])
  {
    assert attempts[k].id in FailedIds(attempts);
    i :| 0 <= i < |audit| && audit[i].id == attempts[k].id;
    assert Bound(audit[i], attempts);
    var m :| 0 <= m < |attempts| && AuditMatches(audit[i], attempts[m]);
  }

  lemma SelectedMeansSucceeded(e: Evidence, d: Decision, request: Request, context: Context, now: int,
                               cs: seq<Candidate>, gates: Gates)
    requires Accepts(e, d, request, context, now, cs, gates) && d.core.status.SELECTED? && e.attempts != []
    ensures d.core.providerId == Some(e.attempts[|e.attempts| - 1].providerId)
  {
    hide BindingOk, HistoryOk, CardinalityOk, AttemptOk, Select;
    assert OutcomeOk(e.attempts, |e.attempts| - 1, d.core.providerId);
  }

  /** With one shared selection time, the attempts climb strictly in (priority, provider, profile) order. */
  lemma AttemptsClimb(e: Evidence, d: Decision, request: Request, context: Context, now: int, cs: seq<Candidate>,
                      gates: Gates, j: nat, k: nat)
    requires Accepts(e, d, request, context, now, cs, gates) && j < k < |e.attempts|
    requires TimeOf(e.attempts[j], now) == TimeOf(e.attempts[k], now)
    ensures exists a, b | a in cs && b in cs ::
              a.Provider() == e.attempts[j].providerId && b.Provider() == e.attempts[k].providerId && KeyLess(a, b)
  {
    hide BindingOk, HistoryOk, CardinalityOk, AttemptOk, Reconstructed, KeyLess, Eligible;
    var t := ArchitectTerms(request.projectId, gates);
    AttemptWasChosen(cs, t, request, e.attempts, j, now);
    AttemptWasChosen(cs, t, request, e.attempts, k, now);
    var a := ChosenIsTurn(cs, t, e.attempts, j, now);
    var b := ChosenIsTurn(cs, t, e.attempts, k, now);
    assert !TriedBefore(e.attempts, j, b.Provider()) by {
      EarlierTries(e.attempts, j, k, b.Provider());
    }
    assert e.attempts[j].providerId == a.Provider();
    assert TriedBefore(e.attempts, k, a.Provider());
    KeyIsTotal(a, b, b);
  }

  lemma EarlierTries(attempts: seq<Attempt>, j: nat, k: nat, provider: string)
    requires j <= k <= |attempts| && !TriedBefore(attempts, k, provider)
    ensures !TriedBefore(attempts, j, provider)
  {
  }
}
