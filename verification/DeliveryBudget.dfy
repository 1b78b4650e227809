/**
 Delivery attempts journalled on disk: every dispatch leaves a start, a finished one an
 outcome, and a dispatch may only start when all earlier ones are accounted for.
*/
module DeliveryBudget {
  import opened Wrappers

  /** `failedBeforeReview`: execution failed, nothing was reviewed, pushed or committed. */
  datatype Report = Report(failedBeforeReview: bool, corrections: nat)

  /**
   `rounds` is the number of corrections the dispatch may make; `attempts` counts those it made, the
   first included.
  */
  datatype Entry = Entry(remaining: int, rounds: nat, attempts: nat, live: bool, result: Option<Report>,
      integrated: bool)

  /** `grant` names the dispatches the owner saw when allowing one more. */
  datatype Journal = Journal(limit: nat, starts: seq<Entry>, grant: Option<set<nat>>)

  datatype Error = NeedsReconciliation | GrantMismatch | Exhausted

  // ----- admission -----------------------------------------------------------------------

  predicate VerifiedFailure(e: Entry, drifted: bool) {
    e.result.Some? && e.result.value.failedBeforeReview && e.result.value.corrections == 0 && !drifted
  }

  predicate AccountedFor(starts: seq<Entry>, drifted: set<nat>) {
    forall k | 0 <= k < |starts| :: starts[k].integrated || VerifiedFailure(starts[k], k in drifted)
  }

  function Failures(starts: seq<Entry>): (n: nat)
    ensures n <= |starts|
  {
    if starts == [] then 0
    else Failures(starts[..|starts| - 1]) + (if starts[|starts| - 1].integrated then 0 else 1)
  }

  function Reconciled(j: Journal, drifted: set<nat>): Result<nat, Error> {
    if AccountedFor(j.starts, drifted) then Ok(Failures(j.starts)) else Err(NeedsReconciliation)
  }

  predicate Indices(originals: set<nat>, n: nat) { forall k | k in originals :: k < n }

  function Remaining(j: Journal, failures: nat): Result<int, Error> {
    match j.grant
    case None => Ok(j.limit - failures)
    case Some(originals) =>
      if |originals| != j.limit || !Indices(originals, |j.starts|) || |j.starts| > j.limit + 1
         || |j.starts| < |originals| then Err(GrantMismatch)
      else Ok(if j.limit + 1 >= |j.starts| then j.limit + 1 - |j.starts| else 0)
  }

  function Admission(j: Journal, drifted: set<nat>): (r: Result<int, Error>)
    ensures r.Ok? ==> r.value >= 1
  {
    match Reconciled(j, drifted)
    case Err(e) => Err(e)
    case Ok(failures) =>
      match Remaining(j, failures)
      case Err(e) => Err(e)
      case Ok(remaining) => if remaining <= 0 then Err(Exhausted) else Ok(remaining)
  }

  /** The starts that no integrated delivery answers for. */
  function Open(starts: seq<Entry>): set<nat> { set k: nat | k < |starts| && !starts[k].integrated }

  lemma {:induction false} FailuresAreOpen(starts: seq<Entry>)
    ensures Failures(starts) == |Open(starts)|
  {
    if starts != [] {
      var front := starts[..|starts| - 1];
      FailuresAreOpen(front);
      assert forall k: nat | k < |front| :: front[k] == starts[k];
      assert Open(starts) == Open(front) + if starts[|front|].integrated then {} else {|front|};
    }
  }

  /** Each open start has a result that reports a failed first execution, and nothing has drifted since. */
  predicate AllFailedAtOnce(starts: seq<Entry>, drifted: set<nat>) {
    forall k | k in Open(starts) :: k !in drifted && starts[k].result == Some(Report(true, 0))
  }

  /**
   Exactly when a dispatch is admitted, and for how many attempts: all open starts failed at once without drift;
   without a grant each counts one against the limit, and with one just the dispatches it names may have started.
  */
  lemma AdmittedExactly(j: Journal, drifted: set<nat>)
    ensures Admission(j, drifted).Ok? <==>
              && AllFailedAtOnce(j.starts, drifted)
              && match j.grant
                 case None => |Open(j.starts)| < j.limit
                 case Some(originals) =>
                   |originals| == j.limit == |j.starts| && forall k | k in originals :: k < |j.starts|
    ensures Admission(j, drifted).Ok? ==>
              Admission(j, drifted).value == if j.grant.None? then j.limit - |Open(j.starts)| else 1
  {
    FailuresAreOpen(j.starts);
    assert AccountedFor(j.starts, drifted) <==> AllFailedAtOnce(j.starts, drifted) by {
      forall k: nat | k < |j.starts| ensures k in Open(j.starts) <==> !j.starts[k].integrated {}
    }
    hide Failures, AllFailedAtOnce, AccountedFor, Open;
  }

  function Min(a: int, b: int): int { if a <= b then a else b }

  function NewEntry(remaining: int, pipelineMax: nat): Entry
    requires remaining >= 1
  {
    Entry(remaining, Min(pipelineMax, remaining - 1), 0, true, None, false)
  }

  function Numbers(n: nat): (s: set<nat>)
    ensures |s| == n && forall k: nat :: k in s <==> k < n
  {
    if n == 0 then {} else Numbers(n - 1) + {n - 1}
  }

  // ----- the machine -------------------------------------------------------------------------

  /** What processes, crashes, reconciliation and the owner can do, each under the session's lock. */
  datatype Action =
    | Start(pipelineMax: nat, drifted: set<nat>)
    | Attempt(entry: nat)
    | Finish(entry: nat, failedBeforeReview: bool)
    | Crash(entry: nat)
    | Integrate(entry: nat)
    | Authorize(drifted: set<nat>)

  function Corrections(e: Entry): nat { if e.attempts == 0 then 0 else e.attempts - 1 }

  function Finished(e: Entry, failedBeforeReview: bool): Entry {
    e.(live := false, result := Some(Report(failedBeforeReview && e.attempts > 0, Corrections(e))))
  }

  function NextEntry(e: Entry, action: Action): Entry {
    match action
    case Attempt(_) => if e.live && e.attempts <= e.rounds then e.(attempts := e.attempts + 1) else e
    case Finish(_, failed) => if e.live then Finished(e, failed) else e
    case Crash(_) => e.(live := false)
    case Integrate(_) => e.(integrated := true)
    case _ => e
  }

  function Next(j: Journal, action: Action): Journal {
    match action
    case Start(pipelineMax, drifted) =>
      if Admission(j, drifted).Err? then j
      else j.(starts := j.starts + [NewEntry(Admission(j, drifted).value, pipelineMax)])
    case Authorize(drifted) =>
      if j.grant.Some? || Reconciled(j, drifted) != Ok(j.limit) || |j.starts| != j.limit then j
      else j.(grant := Some(Numbers(|j.starts|)))
    case _ =>
      if action.entry >= |j.starts| then j
      else j.(starts := j.starts[action.entry := NextEntry(j.starts[action.entry], action)])
  }

  function Run(j: Journal, actions: seq<Action>): Journal
    decreases |actions|
  {
    if actions == [] then j else Run(Next(j, actions[0]), actions[1..])
  }

  // ----- conservation ------------------------------------------------------------------------------

  /** Attempts not yet accounted for by an integrated delivery. */
  function Spent(starts: seq<Entry>): nat {
    if starts == [] then 0
    else Spent(starts[..|starts| - 1]) + (if starts[|starts| - 1].integrated then 0 else starts[|starts| - 1].attempts)
  }

  function TotalAttempts(starts: seq<Entry>): nat {
    if starts == [] then 0 else TotalAttempts(starts[..|starts| - 1]) + starts[|starts| - 1].attempts
  }

  predicate EntryOk(e: Entry) {
    && e.attempts <= e.rounds + 1 <= e.remaining
    && (e.result.Some? ==> !e.live)
    && (VerifiedFailure(e, false) ==> e.attempts == 1)
  }

  /** Everything before the latest dispatch is settled. */
  predicate SettledBut(starts: seq<Entry>, n: nat)
    requires n <= |starts|
  {
    forall k | 0 <= k < n :: starts[k].integrated || VerifiedFailure(starts[k], false)
  }

  predicate Inv(j: Journal) {
    && (forall k | 0 <= k < |j.starts| :: EntryOk(j.starts[k]))
    && (j.starts != [] ==> SettledBut(j.starts, |j.starts| - 1))
    && match j.grant
       case None =>
         j.starts != [] ==> Failures(j.starts[..|j.starts| - 1]) + j.starts[|j.starts| - 1].rounds + 1 <= j.limit
       case Some(originals) =>
         && originals == Numbers(j.limit) && j.limit <= |j.starts| <= j.limit + 1
         && (forall k | 0 <= k < j.limit :: VerifiedFailure(j.starts[k], false))
         && (|j.starts| == j.limit + 1 ==> j.starts[j.limit].rounds == 0)
  }

  lemma {:induction false} FailuresShrink(a: seq<Entry>, b: seq<Entry>)
    requires |a| == |b| && forall k | 0 <= k < |a| :: b[k].integrated ==> a[k].integrated
    ensures Failures(a) <= Failures(b)
  {
    if a != [] {
      FailuresShrink(a[..|a| - 1], b[..|b| - 1]);
    }
  }

  /** Under a grant exactly one more dispatch is admitted: when the journal holds just the original ones. */
  lemma GrantAdmitsOneDispatch(j: Journal, drifted: set<nat>)
    requires Inv(j) && j.grant.Some?
    ensures Admission(j, drifted).Ok? <==> |j.starts| == j.limit && AccountedFor(j.starts, drifted)
    ensures Admission(j, drifted).Ok? ==> Admission(j, drifted).value == 1
  {
  }

  /** What an admitted dispatch may make fits under the limit beside the failures, or is the granted one. */
  lemma AdmittedFits(j: Journal, pipelineMax: nat, drifted: set<nat>)
    requires Inv(j) && Admission(j, drifted).Ok?
    ensures var e := NewEntry(Admission(j, drifted).value, pipelineMax);
            && EntryOk(e) && SettledBut(j.starts, |j.starts|)
            && (j.grant.None? ==> Failures(j.starts) + e.rounds + 1 <= j.limit)
            && (j.grant.Some? ==> e.rounds == 0 && |j.starts| == j.limit)
  {
    if j.grant.Some? {
      GrantAdmitsOneDispatch(j, drifted);
    }
    hide Failures, Inv;
  }

  lemma StartKeepsInv(j: Journal, pipelineMax: nat, drifted: set<nat>)
    requires Inv(j)
    ensures Inv(Next(j, Start(pipelineMax, drifted)))
  {
    hide Admission, Failures, EntryOk, VerifiedFailure, NewEntry;
    if Admission(j, drifted).Ok? {
      AdmittedFits(j, pipelineMax, drifted);
      var starts := j.starts + [NewEntry(Admission(j, drifted).value, pipelineMax)];
      assert starts[..|j.starts|] == j.starts;
    }
  }

  lemma AuthorizeKeepsInv(j: Journal, drifted: set<nat>)
    requires Inv(j)
    ensures Inv(Next(j, Authorize(drifted)))
  {
    if Next(j, Authorize(drifted)) != j {
      AllFailed(j.starts);
    }
  }

  lemma {:induction false} AllFailed(starts: seq<Entry>)
    requires Failures(starts) == |starts|
    ensures forall k | 0 <= k < |starts| :: !starts[k].integrated
  {
    if starts != [] {
      AllFailed(starts[..|starts| - 1]);
      forall k | 0 <= k < |starts| - 1 ensures !starts[k].integrated {
        assert starts[..|starts| - 1][k] == starts[k];
      }
    }
  }

  lemma EntryKeepsOk(e: Entry, action: Action)
    requires EntryOk(e)
    ensures EntryOk(NextEntry(e, action))
    ensures NextEntry(e, action).rounds == e.rounds
    ensures VerifiedFailure(e, false) ==> VerifiedFailure(NextEntry(e, action), false)
    ensures e.integrated ==> NextEntry(e, action).integrated
  {
  }

  lemma ReplaceKeepsInv(j: Journal, i: nat, e: Entry)
    requires Inv(j) && i < |j.starts| && EntryOk(e) && e.rounds == j.starts[i].rounds
    requires VerifiedFailure(j.starts[i], false) ==> VerifiedFailure(e, false)
    requires j.starts[i].integrated ==> e.integrated
    ensures Inv(j.(starts := j.starts[i := e]))
  {
    hide EntryOk, VerifiedFailure, Failures;
    var n := |j.starts| - 1;
    var starts := j.starts[i := e];
    assert forall k | 0 <= k < |starts| && k != i :: starts[k] == j.starts[k];
    FailuresShrink(starts[..n], j.starts[..n]);
  }

  lemma EntryStepKeepsInv(j: Journal, action: Action)
    requires Inv(j) && !action.Start? && !action.Authorize?
    ensures Inv(Next(j, action))
  {
    hide EntryOk, VerifiedFailure, NextEntry;
    if action.entry < |j.starts| {
      assert EntryOk(j.starts[action.entry]);
      hide Inv;
      EntryKeepsOk(j.starts[action.entry], action);
      ReplaceKeepsInv(j, action.entry, NextEntry(j.starts[action.entry], action));
    }
  }

  lemma StepKeepsInv(j: Journal, action: Action)
    requires Inv(j)
    ensures Inv(Next(j, action)) && Next(j, action).limit == j.limit
  {
    match action {
      case Start(pipelineMax, drifted) => StartKeepsInv(j, pipelineMax, drifted);
      case Authorize(drifted) => AuthorizeKeepsInv(j, drifted);
      case _ => EntryStepKeepsInv(j, action);
    }
  }

  lemma {:induction false} RunKeepsInv(j: Journal, actions: seq<Action>)
    requires Inv(j)
    ensures Inv(Run(j, actions)) && Run(j, actions).limit == j.limit
    decreases |actions|
  {
    hide Inv, Next;
    if actions != [] {
      StepKeepsInv(j, actions[0]);
      RunKeepsInv(Next(j, actions[0]), actions[1..]);
    }
  }

  lemma {:induction false} SpentBySettled(starts: seq<Entry>)
    requires forall k | 0 <= k < |starts| ::
               EntryOk(starts[k]) && (starts[k].integrated || VerifiedFailure(starts[k], false))
    ensures Spent(starts) == Failures(starts)
  {
    if starts != [] {
      SpentBySettled(starts[..|starts| - 1]);
    }
  }

  lemma {:induction false} FailedAttemptOnce(starts: seq<Entry>)
    requires forall k | 0 <= k < |starts| :: EntryOk(starts[k]) && VerifiedFailure(starts[k], false)
    ensures TotalAttempts(starts) == |starts|
  {
    if starts != [] {
      FailedAttemptOnce(starts[..|starts| - 1]);
    }
  }

  lemma SpentIsWithinLimit(j: Journal)
    requires Inv(j) && j.grant.None?
    ensures Spent(j.starts) <= j.limit
  {
    if j.starts != [] {
      SpentBySettled(j.starts[..|j.starts| - 1]);
      assert EntryOk(j.starts[|j.starts| - 1]);
    }
  }

  /**
   Over every run with crashes: without a grant, the attempts not accounted for by integrated deliveries
   never exceed the limit - nor do the verified failures plus all the latest dispatch may still make; with
   a grant, starts and all attempts together never exceed the limit plus one.
  */
  lemma AttemptsAreConserved(limit: nat, actions: seq<Action>)
    ensures var end := Run(Journal(limit, [], None), actions);
            if end.grant.None? then
              && Spent(end.starts) <= limit
              && (end.starts != [] ==>
                    Failures(end.starts[..|end.starts| - 1]) + end.starts[|end.starts| - 1].rounds + 1 <= limit)
            else |end.starts| <= limit + 1 && TotalAttempts(end.starts) <= limit + 1
  {
    var start := Journal(limit, [], None);
    RunKeepsInv(start, actions);
    var end := Run(start, actions);
    hide Run;
    if end.grant.None? {
      SpentIsWithinLimit(end);
    } else {
      FailedAttemptOnce(end.starts[..limit]);
      if |end.starts| == limit + 1 {
        assert EntryOk(end.starts[limit]);
        assert end.starts[..|end.starts| - 1] == end.starts[..limit];
      } else {
        assert end.starts[..limit] == end.starts;
      }
    }
  }

  // ----- blocking ---------------------------------------------------------------------------------------

  /** A dispatch that is over - died, or finished otherwise than as a verified failure - and was not integrated. */
  predicate Unresolved(e: Entry) { !e.live && !e.integrated && !VerifiedFailure(e, false) }

  lemma UnresolvedStays(j: Journal, action: Action, i: nat)
    requires i < |j.starts| && Unresolved(j.starts[i]) && action != Integrate(i)
    ensures var next := Next(j, action);
            |next.starts| == |j.starts| && Unresolved(next.starts[i])
  {
    hide Failures, Remaining;
    assert !VerifiedFailure(j.starts[i], i in {});
    match action {
      case Start(_, drifted) => assert !AccountedFor(j.starts, drifted);
      case Authorize(drifted) => assert !AccountedFor(j.starts, drifted);
      case _ =>
    }
  }

  /** It blocks every later dispatch, whatever else happens, until it is integrated. */
  lemma {:induction false} UnresolvedBlocks(j: Journal, actions: seq<Action>, i: nat)
    requires i < |j.starts| && Unresolved(j.starts[i]) && Integrate(i) !in actions
    ensures |Run(j, actions).starts| == |j.starts|
    ensures forall drifted: set<nat> :: Admission(Run(j, actions), drifted).Err?
    decreases |actions|
  {
    hide Next, Failures, Remaining;
    if actions == [] {
      assert !AccountedFor(j.starts, {});
    } else {
      UnresolvedStays(j, actions[0], i);
      UnresolvedBlocks(Next(j, actions[0]), actions[1..], i);
    }
  }
}
