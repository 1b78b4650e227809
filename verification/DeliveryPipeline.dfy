/** The journal and the pipeline as objects: the review loop, and a delivery as a run of the budget machine. */
module DeliveryPipeline {
  import opened Wrappers
  import opened DeliveryBudget

  datatype ReviewStatus = APPROVE | REQUEST_CHANGES | HUMAN_REQUIRED | REJECT | OTHER

  datatype Finding = Finding(id: nat, severe: bool)

  datatype Review = Review(status: ReviewStatus, findings: seq<Finding>, resolved: Option<seq<nat>>)

  /** What one round gets back from the adapter, the checks and the reviewers. */
  datatype Round = Round(executed: bool, patch: nat, review: Review)

  datatype LoopEnd =
    | Approved | ExecutionFailed | HumanJudgment | Rejected | Unsupported | UnclearResolution | NonConvergence
    | LimitExhausted | NotReady

  // ----- one round -------------------------------------------------------------------------

  function Ids(findings: seq<Finding>): set<nat> {
    set f | f in findings :: f.id
  }

  predicate NoRepeats(ids: seq<nat>) { forall i, j | 0 <= i < j < |ids| :: ids[i] != ids[j] }

  function IdSet(ids: seq<nat>): set<nat> { set id | id in ids }

  /** Every earlier finding is either declared resolved or still reported, and not both. */
  predicate ResolutionClear(review: Review, previous: seq<Finding>) {
    && (review.resolved.Some? ==> NoRepeats(review.resolved.value))
    && (previous != [] ==> review.resolved.Some?)
    && var resolved := if review.resolved.Some? then IdSet(review.resolved.value) else {};
       && resolved <= Ids(previous)
       && forall id | id in Ids(previous) :: id in resolved <==> id !in Ids(review.findings)
  }

  function Severe(findings: seq<Finding>): seq<Finding> {
    if findings == [] then []
    else (if findings[0].severe then [findings[0]] else []) + Severe(findings[1..])
  }

  predicate Stuck(round: Round, previous: seq<Finding>, previousPatch: Option<nat>) {
    previousPatch == Some(round.patch) && Ids(Severe(round.review.findings)) * Ids(previous) != {}
  }

  /** How the round ends the loop; None means another correction is asked for. */
  function RoundEnd(round: Round, previous: seq<Finding>, previousPatch: Option<nat>): Option<LoopEnd> {
    if !round.executed then Some(ExecutionFailed)
    else match round.review.status
         case APPROVE => Some(Approved)
         case HUMAN_REQUIRED => Some(HumanJudgment)
         case REJECT => Some(Rejected)
         case OTHER => Some(Unsupported)
         case REQUEST_CHANGES =>
           if !ResolutionClear(round.review, previous) then Some(UnclearResolution)
           else if Stuck(round, previous, previousPatch) then Some(NonConvergence)
           else None
  }

  // ----- the loop -----------------------------------------------------------------------------

  function LoopFrom(world: nat -> Round, max: nat, r: nat, previous: seq<Finding>,
                    previousPatch: Option<nat>): (LoopEnd, nat)
    requires r <= max
    decreases max - r
  {
    var round := world(r);
    var end := RoundEnd(round, previous, previousPatch);
    if end.Some? then (end.value, r)
    else if r >= max then (LimitExhausted, r)
    else LoopFrom(world, max, r + 1, Severe(round.review.findings), Some(round.patch))
  }

  function Loop(world: nat -> Round, max: nat): (LoopEnd, nat) { LoopFrom(world, max, 0, [], None) }

  predicate Continues(world: nat -> Round, r: nat) {
    world(r).executed && world(r).review.status.REQUEST_CHANGES?
  }

  lemma {:induction false} LoopFromEnds(world: nat -> Round, max: nat, r: nat, previous: seq<Finding>,
                                        previousPatch: Option<nat>)
    requires r <= max
    ensures var (end, last) := LoopFrom(world, max, r, previous, previousPatch);
            && r <= last <= max && (forall k | r <= k < last :: Continues(world, k))
            && (end.Approved? <==> world(last).executed && world(last).review.status.APPROVE?)
            && (end.ExecutionFailed? <==> !world(last).executed)
            && (end.LimitExhausted? ==> last == max)
    decreases max - r
  {
    hide ResolutionClear, Stuck, Severe;
    if r < max && RoundEnd(world(r), previous, previousPatch).None? {
      LoopFromEnds(world, max, r + 1, Severe(world(r).review.findings), Some(world(r).patch));
    }
  }

  /**
   The loop ends normally only on an APPROVE, after asking for changes in every earlier round and
   within the bound.
  */
  lemma LoopEndsOnlyOnApproval(world: nat -> Round, max: nat)
    ensures var (end, last) := Loop(world, max);
            && last <= max && (forall k | 0 <= k < last :: Continues(world, k))
            && (end.Approved? <==> world(last).executed && world(last).review.status.APPROVE?)
            && (end.ExecutionFailed? <==> !world(last).executed)
            && (end.LimitExhausted? ==> last == max)
  {
    LoopFromEnds(world, max, 0, [], None);
  }

  // ----- what the reviews of a loop say, round by round --------------------------------------------

  /** The findings of the round before that a correction was asked for. */
  function AskedFor(world: nat -> Round, k: nat): set<nat> {
    if k == 0 then {} else set f | f in world(k - 1).review.findings && f.severe :: f.id
  }

  function Reported(world: nat -> Round, k: nat): set<nat> { set f | f in world(k).review.findings :: f.id }

  /** The review answers for everything asked for: each is declared resolved, once, or reported again. */
  predicate Answers(world: nat -> Round, k: nat) {
    var asked := AskedFor(world, k);
    match world(k).review.resolved
    case None => asked == {}
    case Some(resolved) =>
      && (forall id | id in resolved :: id in asked && id !in Reported(world, k))
      && (forall id | id in asked :: id in resolved || id in Reported(world, k))
      && |IdSet(resolved)| == |resolved|
  }

  /** The same patch again, and something asked for is still a severe finding. */
  predicate Circles(world: nat -> Round, k: nat) {
    && k > 0 && world(k).patch == world(k - 1).patch
    && exists f :: f in world(k).review.findings && f.severe && f.id in AskedFor(world, k)
  }

  /** How a loop that got as far as round `k` ends there, if it does. */
  function Verdict(world: nat -> Round, k: nat, max: nat): Option<LoopEnd> {
    if !world(k).executed then Some(ExecutionFailed)
    else if world(k).review.status.APPROVE? then Some(Approved)
    else if world(k).review.status.HUMAN_REQUIRED? then Some(HumanJudgment)
    else if world(k).review.status.REJECT? then Some(Rejected)
    else if world(k).review.status.OTHER? then Some(Unsupported)
    else if !Answers(world, k) then Some(UnclearResolution)
    else if Circles(world, k) then Some(NonConvergence)
    else if k == max then Some(LimitExhausted)
    else None
  }

  lemma {:induction false} DistinctExactly(ids: seq<nat>)
    ensures |IdSet(ids)| <= |ids| && (|IdSet(ids)| == |ids| <==> NoRepeats(ids))
  {
    if ids != [] {
      var rest := ids[1..];
      DistinctExactly(rest);
      assert IdSet(ids) == IdSet(rest) + {ids[0]};
      assert forall i | 1 <= i < |ids| :: ids[i] == rest[i - 1];
      if ids[0] in rest {
        assert IdSet(ids) == IdSet(rest);
        var j :| 0 <= j < |rest| && rest[j] == ids[0];
        assert ids[j + 1] == ids[0];
      } else {
        assert |IdSet(ids)| == |IdSet(rest)| + 1;
        assert NoRepeats(rest) ==> NoRepeats(ids);
      }
    }
  }

  lemma {:induction false} SevereMembers(findings: seq<Finding>)
    ensures forall f :: f in Severe(findings) <==> f in findings && f.severe
    ensures Ids(Severe(findings)) == set f | f in findings && f.severe :: f.id
  {
    if findings != [] {
      SevereMembers(findings[1..]);
    }
  }

  lemma RoundFits(world: nat -> Round, k: nat, previous: seq<Finding>, patch: Option<nat>, max: nat)
    requires k <= max && Ids(previous) == AskedFor(world, k)
    requires patch == if k == 0 then None else Some(world(k - 1).patch)
    ensures RoundEnd(world(k), previous, patch)
            == if Verdict(world, k, max) == Some(LimitExhausted) then None else Verdict(world, k, max)
  {
    var round := world(k);
    SevereMembers(round.review.findings);
    if round.review.resolved.Some? {
      DistinctExactly(round.review.resolved.value);
    }
    assert previous == [] <==> Ids(previous) == {} by {
      if previous != [] {
        assert previous[0].id in Ids(previous);
      }
    }
    ClearIsAnswered(world, k, previous);
    StuckIsCircling(world, k, previous, patch);
    hide ResolutionClear, Stuck, Answers, Circles, Severe;
  }

  lemma ClearIsAnswered(world: nat -> Round, k: nat, previous: seq<Finding>)
    requires Ids(previous) == AskedFor(world, k) && (previous == [] <==> Ids(previous) == {})
    ensures ResolutionClear(world(k).review, previous) <==> Answers(world, k)
  {
    var review := world(k).review;
    if review.resolved.Some? {
      DistinctExactly(review.resolved.value);
      assert forall id :: id in IdSet(review.resolved.value) <==> id in review.resolved.value;
    }
    hide NoRepeats;
  }

  lemma StuckIsCircling(world: nat -> Round, k: nat, previous: seq<Finding>, patch: Option<nat>)
    requires Ids(previous) == AskedFor(world, k)
    requires patch == if k == 0 then None else Some(world(k - 1).patch)
    ensures Stuck(world(k), previous, patch) <==> Circles(world, k)
  {
    var severe := Severe(world(k).review.findings);
    SevereMembers(world(k).review.findings);
    if k > 0 {
      if Circles(world, k) {
        var f :| f in world(k).review.findings && f.severe && f.id in AskedFor(world, k);
        assert f.id in Ids(severe) * Ids(previous);
      }
      if Stuck(world(k), previous, patch) {
        var id :| id in Ids(severe) * Ids(previous);
        assert exists f :: f in severe && f.id == id;
      }
    }
  }

  lemma {:induction false} LoopFromExactly(world: nat -> Round, max: nat, k: nat, previous: seq<Finding>,
                                           patch: Option<nat>)
    requires k <= max && Ids(previous) == AskedFor(world, k)
    requires patch == if k == 0 then None else Some(world(k - 1).patch)
    ensures var (end, last) := LoopFrom(world, max, k, previous, patch);
            && k <= last <= max && Verdict(world, last, max) == Some(end)
            && forall r | k <= r < last :: Verdict(world, r, max).None?
    decreases max - k
  {
    RoundFits(world, k, previous, patch, max);
    SevereMembers(world(k).review.findings);
    hide RoundEnd, Answers, Circles, Severe;
    if RoundEnd(world(k), previous, patch).None? && k < max {
      LoopFromExactly(world, max, k + 1, Severe(world(k).review.findings), Some(world(k).patch));
    }
  }

  /**
   The loop ends in the first round that ends it: no execution, a verdict other than a request for changes, a
   review that does not answer for what was asked, the same patch in a circle, or the last round allowed.
  */
  lemma LoopEndsExactly(world: nat -> Round, max: nat)
    ensures var (end, last) := Loop(world, max);
            && last <= max && Verdict(world, last, max) == Some(end)
            && forall r | 0 <= r < last :: Verdict(world, r, max).None?
  {
    LoopFromExactly(world, max, 0, [], None);
  }

  // ----- the journal on disk --------------------------------------------------------------------

  datatype GrantAnswer = AUTHORIZED | ALREADY_AUTHORIZED | REFUSED

  class ExecutionJournal {
    const limit: nat
    var starts: seq<Entry>
    var grant: Option<set<nat>>

    ghost function Contents(): Journal
      reads this
    {
      Journal(limit, starts, grant)
    }

    constructor (limit: nat)
      ensures this.limit == limit && Contents() == Journal(limit, [], None)
    {
      this.limit := limit;
      starts, grant := [], None;
    }

    /** Every start must be integrated or a verified failure; the failures are counted. */
    method RequireReconciled(drifted: set<nat>) returns (r: Result<nat, Error>)
      ensures r == Reconciled(Contents(), drifted)
    {
      var failures := 0;
      for k := 0 to |starts|
        invariant AccountedFor(starts[..k], drifted)
        invariant failures == Failures(starts[..k])
      {
        assert starts[..k + 1][..k] == starts[..k];
        if !starts[k].integrated {
          if !VerifiedFailure(starts[k], k in drifted) {
            assert !AccountedFor(starts, drifted);
            return Err(NeedsReconciliation);
          }
          failures := failures + 1;
        }
      }
      assert starts[..|starts|] == starts;
      return Ok(failures);
    }

    method RemainingAttempts(failures: nat) returns (r: Result<int, Error>)
      ensures r == Remaining(Contents(), failures)
    {
      if grant.None? {
        return Ok(limit - failures);
      }
      var originals := grant.value;
      if |originals| != limit || !Indices(originals, |starts|) || |starts| > limit + 1 || |starts| < |originals| {
        return Err(GrantMismatch);
      }
      var left := limit + 1 - |starts|;
      return Ok(if left >= 0 then left else 0);
    }

    /** The start is on disk before anything is executed. */
    method RecordStart(pipelineMax: nat, drifted: set<nat>) returns (r: Result<int, Error>)
      modifies this`starts
      ensures r == Admission(old(Contents()), drifted)
      ensures Contents() == Next(old(Contents()), Start(pipelineMax, drifted))
    {
      var failures := RequireReconciled(drifted);
      if failures.Err? {
        return Err(failures.error);
      }
      var remaining := RemainingAttempts(failures.value);
      if remaining.Err? {
        return remaining;
      }
      if remaining.value <= 0 {
        return Err(Exhausted);
      }
      starts := starts + [NewEntry(remaining.value, pipelineMax)];
      return remaining;
    }

    method RecordAttempt(entry: nat)
      modifies this`starts
      ensures Contents() == Next(old(Contents()), Attempt(entry))
    {
      if entry < |starts| {
        starts := starts[entry := NextEntry(starts[entry], Attempt(entry))];
      }
    }

    method RecordResult(entry: nat, failedBeforeReview: bool)
      modifies this`starts
      ensures Contents() == Next(old(Contents()), Finish(entry, failedBeforeReview))
    {
      if entry < |starts| {
        starts := starts[entry := NextEntry(starts[entry], Finish(entry, failedBeforeReview))];
      }
    }

    /**
     The owner allows one more dispatch, only when the budget is exactly exhausted by failures; asked again over
     the same dispatches, the grant stands. `eligible` says whether project, target, session status and limits are
     those the session stands at.
    */
    method AuthorizeOneMore(eligible: bool, drifted: set<nat>) returns (answer: GrantAnswer)
      modifies this`grant
      ensures Contents() == if eligible then Next(old(Contents()), Authorize(drifted)) else old(Contents())
      ensures answer.AUTHORIZED? <==> grant != old(grant)
      ensures answer.AUTHORIZED? || answer.ALREADY_AUTHORIZED? <==>
                && eligible && Reconciled(Contents(), drifted) == Ok(limit) && |starts| == limit
                && grant == Some(Numbers(|starts|))
    {
      if !eligible {
        return REFUSED;
      }
      var failures := RequireReconciled(drifted);
      if failures != Ok(limit) || |starts| != limit {
        return REFUSED;
      }
      var dispatches := Numbers(|starts|);
      if grant.Some? {
        return if grant.value == dispatches then ALREADY_AUTHORIZED else REFUSED;
      }
      grant := Some(dispatches);
      return AUTHORIZED;
    }
  }

  // ----- a delivery -----------------------------------------------------------------------------------

  function Attempts(entry: nat, n: nat): seq<Action> {
    if n == 0 then [] else Attempts(entry, n - 1) + [Attempt(entry)]
  }

  /** The steps of a delivery that is not cut short. */
  function DeliveryPlan(entry: nat, pipelineMax: nat, drifted: set<nat>, attempts: nat, failed: bool): seq<Action> {
    [Start(pipelineMax, drifted)] + Attempts(entry, attempts) + [Finish(entry, failed)]
  }

  // ----- deliveries as they really go -------------------------------------------------------------

  /** One delivery: its own cap, whether its checks pass, its rounds, and after how many it is killed, if it is. */
  datatype Delivery = Delivery(cap: nat, ready: bool, world: nat -> Round, drifted: set<nat>, killed: Option<nat>)

  /** How the loop of an admitted delivery goes: its end, the completed corrections, and the rounds made. */
  function Went(d: Delivery, max: nat): (LoopEnd, nat, nat) {
    if !d.ready then (NotReady, 0, 0)
    else
      var (end, corrections) := Loop(d.world, max);
      (end, corrections, corrections + 1)
  }

  /** The journal after it, and the rounds it really made. */
  function Delivered(j: Journal, d: Delivery): (Journal, nat) {
    match Admission(j, d.drifted)
    case Err(_) => (j, 0)
    case Ok(remaining) =>
      var max := Min(d.cap, remaining - 1);
      var (end, corrections, rounds) := Went(d, max);
      var made := if d.killed.Some? then Min(d.killed.value, rounds) else rounds;
      var result := if d.killed.Some? then None else Some(Report(end.ExecutionFailed?, corrections));
      (j.(starts := j.starts + [Entry(remaining, max, made, false, result, false)]), made)
  }

  function DeliverAll(j: Journal, ds: seq<Delivery>): (Journal, nat) {
    if ds == [] then (j, 0)
    else
      var (before, made) := DeliverAll(j, ds[..|ds| - 1]);
      var (after, more) := Delivered(before, ds[|ds| - 1]);
      (after, made + more)
  }

  lemma WentWithin(d: Delivery, max: nat)
    ensures var (end, corrections, rounds) := Went(d, max);
            && rounds <= max + 1 && corrections <= rounds && (end.ExecutionFailed? ==> rounds == corrections + 1)
  {
    LoopEndsOnlyOnApproval(d.world, max);
    hide Loop;
  }

  lemma DeliveredKeepsInv(j: Journal, d: Delivery)
    requires Inv(j) && j.grant.None?
    ensures Inv(Delivered(j, d).0) && Delivered(j, d).0.limit == j.limit && Delivered(j, d).0.grant.None?
  {
    if Admission(j, d.drifted).Ok? {
      AdmittedFits(j, d.cap, d.drifted);
      DeliveredEntry(j, d);
      hide Went, Admission, Failures, Delivered, EntryOk, VerifiedFailure, NewEntry;
      var after := Delivered(j, d).0;
      assert after.starts[..|j.starts|] == j.starts;
    }
  }

  lemma DeliveredEntry(j: Journal, d: Delivery)
    requires Admission(j, d.drifted).Ok?
    ensures var after := Delivered(j, d).0;
            && |after.starts| == |j.starts| + 1 && after == j.(starts := j.starts + [after.starts[|j.starts|]])
            && var e := after.starts[|j.starts|];
               EntryOk(e) && e.rounds == NewEntry(Admission(j, d.drifted).value, d.cap).rounds
  {
    WentWithin(d, Min(d.cap, Admission(j, d.drifted).value - 1));
    hide Went, Admission;
  }

  lemma DeliveredCounts(j: Journal, d: Delivery)
    requires forall k | 0 <= k < |j.starts| :: !j.starts[k].integrated
    ensures var (after, made) := Delivered(j, d);
            && Spent(after.starts) == Spent(j.starts) + made
            && forall k | 0 <= k < |after.starts| :: !after.starts[k].integrated
  {
    hide Went, Admission;
    var after := Delivered(j, d).0;
    if after != j {
      assert after.starts[..|after.starts| - 1] == j.starts;
    }
  }

  lemma {:induction false} AllDeliveredCounts(limit: nat, ds: seq<Delivery>)
    ensures var (end, made) := DeliverAll(Journal(limit, [], None), ds);
            && Inv(end) && end.limit == limit && end.grant.None? && Spent(end.starts) == made
            && forall k | 0 <= k < |end.starts| :: !end.starts[k].integrated
    decreases |ds|
  {
    hide Delivered, Inv;
    if ds == [] {
      assert Inv(Journal(limit, [], None)) by {
        EmptyIsOk(limit);
      }
    } else {
      AllDeliveredCounts(limit, ds[..|ds| - 1]);
      var before := DeliverAll(Journal(limit, [], None), ds[..|ds| - 1]).0;
      DeliveredKeepsInv(before, ds[|ds| - 1]);
      DeliveredCounts(before, ds[|ds| - 1]);
    }
  }

  lemma EmptyIsOk(limit: nat)
    ensures Inv(Journal(limit, [], None))
  {
  }

  /** Over any sequence of deliveries, killed ones included, the rounds really made stay within the limit. */
  lemma RoundsStayWithinLimit(limit: nat, ds: seq<Delivery>)
    ensures DeliverAll(Journal(limit, [], None), ds).1 <= limit
  {
    AllDeliveredCounts(limit, ds);
    SpentIsWithinLimit(DeliverAll(Journal(limit, [], None), ds).0);
  }

  /**
   What an admitted delivery leaves: the next one is admitted exactly if this one was not killed, failed to
   execute in its very first round, and failures leave room; above all a failure after a correction blocks it.
  */
  lemma NextIsAdmittedExactly(j: Journal, d: Delivery)
    requires Inv(j) && j.grant.None? && Admission(j, d.drifted).Ok?
    ensures var (end, corrections, _) := Went(d, Min(d.cap, Admission(j, d.drifted).value - 1));
            Admission(Delivered(j, d).0, {}).Ok? <==>
              && d.killed.None? && end.ExecutionFailed? && corrections == 0
              && Failures(j.starts) + 1 < j.limit
  {
    DeliveredOpens(j, d);
    AdmittedExactly(j, d.drifted);
    AdmittedExactly(Delivered(j, d).0, {});
    FailuresAreOpen(j.starts);
    hide Went, Loop, Admission, Open, Failures, Inv;
  }

  /** The delivery's own start is open beside those before it. */
  lemma DeliveredOpens(j: Journal, d: Delivery)
    requires Admission(j, d.drifted).Ok?
    ensures var after := Delivered(j, d).0;
            var (end, corrections, _) := Went(d, Min(d.cap, Admission(j, d.drifted).value - 1));
            && |Open(after.starts)| == |Open(j.starts)| + 1
            && (AllFailedAtOnce(after.starts, {}) <==> d.killed.None? && end.ExecutionFailed? && corrections == 0)
  {
    AdmittedExactly(j, d.drifted);
    hide Went, Admission;
    var after := Delivered(j, d).0;
    var n := |j.starts|;
    assert forall k | 0 <= k < n :: after.starts[k] == j.starts[k];
    assert Open(after.starts) == Open(j.starts) + {n};
    assert n in Open(after.starts) && n !in Open(j.starts);
  }

  /** A delivery that is not killed takes just these steps of the budget machine. */
  lemma {:induction false} PlanJournals(j: Journal, d: Delivery)
    requires Admission(j, d.drifted).Ok? && d.killed.None?
    ensures var (end, _, rounds) := Went(d, Min(d.cap, Admission(j, d.drifted).value - 1));
            Run(j, DeliveryPlan(|j.starts|, d.cap, d.drifted, rounds, end.ExecutionFailed?)) == Delivered(j, d).0
  {
    var remaining := Admission(j, d.drifted).value;
    var max := Min(d.cap, remaining - 1);
    var (end, corrections, rounds) := Went(d, max);
    WentWithin(d, max);
    StartJournals(j, d.cap, d.drifted);
    DeliveredFinishes(j, d);
    hide Went, Admission, Run, Next, Delivered, DeliveryPlan;
    AttemptsMade(j, Entry(remaining, max, 0, true, None, false), rounds);
    PlanRuns(j, |j.starts|, d.cap, d.drifted, rounds, end.ExecutionFailed?);
  }

  lemma AttemptsMade(j: Journal, e: Entry, n: nat)
    requires e.live && e.attempts == 0 && n <= e.rounds + 1
    ensures Run(j.(starts := j.starts + [e]), Attempts(|j.starts|, n))
            == j.(starts := j.starts + [e.(attempts := n)])
  {
    hide Run;
    var started := j.(starts := j.starts + [e]);
    AttemptsJournal(started, |j.starts|, n);
    assert started.starts[|j.starts| := e.(attempts := n)] == j.starts + [e.(attempts := n)];
  }

  /** What a delivery that is not killed leaves is its rounds, and then its result. */
  lemma DeliveredFinishes(j: Journal, d: Delivery)
    requires Admission(j, d.drifted).Ok? && d.killed.None?
    ensures var remaining := Admission(j, d.drifted).value;
            var max := Min(d.cap, remaining - 1);
            var (end, _, rounds) := Went(d, max);
            Next(j.(starts := j.starts + [Entry(remaining, max, rounds, true, None, false)]),
                 Finish(|j.starts|, end.ExecutionFailed?)) == Delivered(j, d).0
  {
    var remaining := Admission(j, d.drifted).value;
    var max := Min(d.cap, remaining - 1);
    WentExactly(d, max);
    var (end, corrections, rounds) := Went(d, max);
    hide Went, Admission;
    var made := j.(starts := j.starts + [Entry(remaining, max, rounds, true, None, false)]);
    FinishJournals(made, |j.starts|, end.ExecutionFailed?);
    var finished := Finished(made.starts[|j.starts|], end.ExecutionFailed?);
    assert Delivered(j, d).0.starts == made.starts[|j.starts| := finished];
    hide Next;
  }

  lemma StartJournals(j: Journal, cap: nat, drifted: set<nat>)
    requires Admission(j, drifted).Ok?
    ensures var remaining := Admission(j, drifted).value;
            Next(j, Start(cap, drifted))
            == j.(starts := j.starts + [Entry(remaining, Min(cap, remaining - 1), 0, true, None, false)])
  {
  }

  lemma FinishJournals(j: Journal, entry: nat, failed: bool)
    requires entry < |j.starts| && j.starts[entry].live
    ensures Next(j, Finish(entry, failed)) == j.(starts := j.starts[entry := Finished(j.starts[entry], failed)])
  {
  }

  lemma {:induction false} PlanRuns(j: Journal, entry: nat, cap: nat, drifted: set<nat>, rounds: nat, failed: bool)
    ensures Run(j, DeliveryPlan(entry, cap, drifted, rounds, failed))
            == Next(Run(Next(j, Start(cap, drifted)), Attempts(entry, rounds)), Finish(entry, failed))
  {
    hide Next, Run;
    RunOne(j, Start(cap, drifted));
    RunConcat(j, [Start(cap, drifted)], Attempts(entry, rounds));
    RunOne(Run(j, [Start(cap, drifted)] + Attempts(entry, rounds)), Finish(entry, failed));
    RunConcat(j, [Start(cap, drifted)] + Attempts(entry, rounds), [Finish(entry, failed)]);
  }

  lemma WentExactly(d: Delivery, max: nat)
    ensures var (end, corrections, rounds) := Went(d, max);
            if rounds == 0 then corrections == 0 && !end.ExecutionFailed? else corrections == rounds - 1
  {
    hide Loop;
  }

  lemma {:induction false} AttemptsJournal(j: Journal, entry: nat, n: nat)
    requires entry < |j.starts| && j.starts[entry].live && j.starts[entry].attempts + n <= j.starts[entry].rounds + 1
    ensures Run(j, Attempts(entry, n))
            == j.(starts := j.starts[entry := j.starts[entry].(attempts := j.starts[entry].attempts + n)])
    decreases n
  {
    hide Run;
    if n == 0 {
      assert j.starts[entry := j.starts[entry]] == j.starts;
      assert Run(j, []) == j by {
        RunStays(j);
      }
    } else {
      AttemptsJournal(j, entry, n - 1);
      RunConcat(j, Attempts(entry, n - 1), [Attempt(entry)]);
      RunOne(Run(j, Attempts(entry, n - 1)), Attempt(entry));
    }
  }

  lemma RunStays(j: Journal)
    ensures Run(j, []) == j
  {
  }

  lemma {:induction false} RunConcat(j: Journal, p: seq<Action>, q: seq<Action>)
    ensures Run(j, p + q) == Run(Run(j, p), q)
    decreases |p|
  {
    hide Next;
    if p == [] {
      assert p + q == q;
    } else {
      assert (p + q)[1..] == p[1..] + q;
      RunConcat(Next(j, p[0]), p[1..], q);
    }
  }

  lemma RunOne(j: Journal, action: Action)
    ensures Run(j, [action]) == Next(j, action)
  {
    assert Run(Next(j, action), []) == Next(j, action);
  }

  class DeliveryPipeline {
    var maxCorrectionRounds: nat

    constructor (maxCorrectionRounds: nat)
      requires maxCorrectionRounds <= 3
      ensures this.maxCorrectionRounds == maxCorrectionRounds
    {
      this.maxCorrectionRounds := maxCorrectionRounds;
    }

    /** The loop itself: every round is one attempt of the dispatch, and the completed corrections are counted. */
    method ReviewLoop(world: nat -> Round, journal: ExecutionJournal, entry: nat) returns (end: LoopEnd,
                      corrections: nat)
      modifies journal`starts
      ensures (end, corrections) == Loop(world, maxCorrectionRounds)
      ensures journal.Contents() == Run(old(journal.Contents()), Attempts(entry, corrections + 1))
    {
      hide Next, Run, RoundEnd;
      var previous: seq<Finding> := [];
      var previousPatch: Option<nat> := None;
      corrections := 0;
      ghost var before := journal.Contents();
      RunNothing(before, entry);
      while true
        invariant corrections <= maxCorrectionRounds == old(maxCorrectionRounds)
        invariant LoopFrom(world, maxCorrectionRounds, corrections, previous, previousPatch)
                  == Loop(world, maxCorrectionRounds)
        invariant journal.Contents() == Run(before, Attempts(entry, corrections))
        decreases maxCorrectionRounds - corrections
      {
        journal.RecordAttempt(entry);
        RunConcat(before, Attempts(entry, corrections), [Attempt(entry)]);
        RunOne(Run(before, Attempts(entry, corrections)), Attempt(entry));
        var round := world(corrections);
        var ended := RoundEnd(round, previous, previousPatch);
        if ended.Some? {
          return ended.value, corrections;
        }
        if corrections >= maxCorrectionRounds {
          return LimitExhausted, corrections;
        }
        previous := Severe(round.review.findings);
        previousPatch := Some(round.patch);
        corrections := corrections + 1;
      }
    }

    lemma RunNothing(j: Journal, entry: nat)
      ensures Run(j, Attempts(entry, 0)) == j
    {
    }

    /**
     A delivery that does not crash: refused without a trace; or a start and - unless repository, target or
     worktree checks fail first - the attempts of its review loop, never more than it was admitted for, and
     its result.
    */
    method Deliver(journal: ExecutionJournal, ready: bool, world: nat -> Round, drifted: set<nat>)
      returns (r: Result<(LoopEnd, nat), Error>)
      modifies this, journal`starts
      ensures var before := old(journal.Contents());
              match Admission(before, drifted)
              case Err(e) =>
                && r == Err(e) && journal.Contents() == before && maxCorrectionRounds == old(maxCorrectionRounds)
              case Ok(remaining) =>
                && maxCorrectionRounds == Min(old(maxCorrectionRounds), remaining - 1)
                && r == Ok(if ready then Loop(world, maxCorrectionRounds) else (NotReady, 0))
                && var (end, corrections) := r.value;
                   var rounds := if ready then corrections + 1 else 0;
                   && rounds <= remaining
                   && (journal.Contents(), rounds)
                      == Delivered(before, Delivery(old(maxCorrectionRounds), ready, world, drifted, None))
                   && journal.starts == before.starts
                                        + [Entry(remaining, maxCorrectionRounds, rounds, false,
                                                 Some(Report(end.ExecutionFailed?, corrections)), false)]
                   && journal.Contents()
                      == Run(before, DeliveryPlan(|before.starts|, old(maxCorrectionRounds), drifted, rounds,
                                                  end.ExecutionFailed?))
    {
      hide Run, Next, Admission, Loop;
      ghost var before := journal.Contents();
      ghost var cap := maxCorrectionRounds;
      var entry := |journal.starts|;
      var remaining := journal.RecordStart(maxCorrectionRounds, drifted);
      if remaining.Err? {
        RefusedStart(before, cap, drifted);
        return Err(remaining.error);
      }
      maxCorrectionRounds := Min(maxCorrectionRounds, remaining.value - 1);
      var end, corrections, attempts := NotReady, 0, 0;
      ghost var started := journal.Contents();
      RunNothing(started, entry);
      if ready {
        end, corrections := ReviewLoop(world, journal, entry);
        LoopEndsOnlyOnApproval(world, maxCorrectionRounds);
        attempts := corrections + 1;
      }
      journal.RecordResult(entry, end.ExecutionFailed?);
      PlanRuns(before, entry, cap, drifted, attempts, end.ExecutionFailed?);
      PlanJournals(before, Delivery(cap, ready, world, drifted, None));
      return Ok((end, corrections));
    }

    lemma RefusedStart(j: Journal, pipelineMax: nat, drifted: set<nat>)
      requires Admission(j, drifted).Err?
      ensures Next(j, Start(pipelineMax, drifted)) == j
    {
    }
  }
}
