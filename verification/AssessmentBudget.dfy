/** Assessment invocations journalled per campaign: a slot is started before the body runs and finished after it. */
module AssessmentBudget {
  import opened Wrappers

  datatype Outcome = RETURNED | RAISED | OTHER_OUTCOME

  datatype Error = IdentityDiffers | Interrupted | Inconsistent | OrphanOutcome | BudgetExhausted

  /** `identity` stands for campaign, session, project, operation and budget. */
  datatype Started = Started(identity: nat, request: nat)

  /** An outcome names the start it belongs to; the hash is injective. */
  datatype Finished = Finished(start: Started, outcome: Outcome)

  datatype Files = Files(started: map<nat, Started>, finished: map<nat, Finished>)

  /** How the body of an invocation ends; a killed process writes nothing more. */
  datatype Ending = Returns | Raises | Killed

  predicate Matches(f: Finished, s: Started) { f.start == s && !f.outcome.OTHER_OUTCOME? }

  /** What one slot says: an error, or whether it is free. */
  function SlotState(f: Files, identity: nat, k: nat): Result<bool, Error> {
    if k in f.started then
      if f.started[k].identity != identity then Err(IdentityDiffers)
      else if k !in f.finished then Err(Interrupted)
      else if !Matches(f.finished[k], f.started[k]) then Err(Inconsistent)
      else Ok(false)
    else if k in f.finished then Err(OrphanOutcome)
    else Ok(true)
  }

  /** The first slot from `k` on that decides. */
  function SlotFrom(f: Files, identity: nat, budget: nat, k: nat): Result<nat, Error>
    decreases budget + 1 - k
  {
    if k > budget then Err(BudgetExhausted)
    else
      match SlotState(f, identity, k)
      case Err(e) => Err(e)
      case Ok(free) => if free then Ok(k) else SlotFrom(f, identity, budget, k + 1)
  }

  function Slot(f: Files, identity: nat, budget: nat): Result<nat, Error> { SlotFrom(f, identity, budget, 0) }

  function Invoked(f: Files, identity: nat, budget: nat, request: nat, ending: Ending): Files {
    match Slot(f, identity, budget)
    case Err(_) => f
    case Ok(k) =>
      var start := Started(identity, request);
      var begun := f.(started := f.started[k := start]);
      match ending
      case Returns => begun.(finished := begun.finished[k := Finished(start, RETURNED)])
      case Raises => begun.(finished := begun.finished[k := Finished(start, RAISED)])
      case Killed => begun
  }

  function Run(f: Files, identity: nat, budget: nat, calls: seq<(nat, Ending)>): Files
    decreases |calls|
  {
    if calls == [] then f
    else Run(Invoked(f, identity, budget, calls[0].0, calls[0].1), identity, budget, calls[1..])
  }

  /** A contiguous prefix of this campaign's slots, all but possibly the last with a matching outcome. */
  ghost predicate Prefix(f: Files, identity: nat, k: nat) {
    && (forall n: nat :: n in f.started <==> n < k)
    && (forall n | n in f.started :: f.started[n].identity == identity)
    && (forall n | n in f.finished :: n in f.started && Matches(f.finished[n], f.started[n]))
    && (forall n: nat :: n + 1 < k ==> n in f.finished)
  }

  lemma {:induction false} SlotOfPrefix(f: Files, identity: nat, budget: nat, k: nat, from: nat)
    requires Prefix(f, identity, k) && k <= budget + 1 && from <= k && forall n: nat :: n < from ==> n in f.finished
    ensures SlotFrom(f, identity, budget, from)
            == if k > 0 && k - 1 !in f.finished then Err(Interrupted)
               else if k > budget then Err(BudgetExhausted) else Ok(k)
    decreases k - from
  {
    if from < k && from in f.finished {
      SlotOfPrefix(f, identity, budget, k, from + 1);
    }
  }

  /** `k` slots after any run of completions, exceptions and kills: k never exceeds the budget plus one. */
  lemma {:induction false} InvocationsAreBounded(f: Files, identity: nat, budget: nat, k: nat,
                                                calls: seq<(nat, Ending)>)
    returns (end: nat)
    requires Prefix(f, identity, k) && k <= budget + 1
    ensures k <= end <= budget + 1 && Prefix(Run(f, identity, budget, calls), identity, end)
    decreases |calls|
  {
    if calls == [] {
      end := k;
    } else {
      SlotOfPrefix(f, identity, budget, k, 0);
      var next := Invoked(f, identity, budget, calls[0].0, calls[0].1);
      var reached := if Slot(f, identity, budget).Ok? then k + 1 else k;
      end := InvocationsAreBounded(next, identity, budget, reached, calls[1..]);
    }
  }

  /** A killed invocation blocks every later one. */
  lemma {:induction false} KilledBlocks(f: Files, identity: nat, budget: nat, k: nat, request: nat,
                                       calls: seq<(nat, Ending)>)
    requires Prefix(f, identity, k) && k <= budget + 1 && Slot(f, identity, budget).Ok?
    ensures var killed := Invoked(f, identity, budget, request, Killed);
            Run(killed, identity, budget, calls) == killed && Slot(killed, identity, budget) == Err(Interrupted)
    decreases |calls|
  {
    SlotOfPrefix(f, identity, budget, k, 0);
    var killed := Invoked(f, identity, budget, request, Killed);
    SlotOfPrefix(killed, identity, budget, k + 1, 0);
    if calls != [] {
      assert Invoked(killed, identity, budget, calls[0].0, calls[0].1) == killed;
      KilledBlocks(f, identity, budget, k, request, calls[1..]);
    }
  }

  /** A slot that is over: started for this campaign, and ended as its own outcome says. */
  predicate Over(f: Files, identity: nat, n: nat) {
    && n in f.started && n in f.finished && f.started[n].identity == identity
    && f.finished[n] in {Finished(f.started[n], RETURNED), Finished(f.started[n], RAISED)}
  }

  /** An invocation is given slot `k` exactly if that is untouched, within the budget, and all before it are over. */
  lemma SlotExactly(f: Files, identity: nat, budget: nat, k: nat)
    ensures Slot(f, identity, budget) == Ok(k) <==>
              k <= budget && k !in f.started && k !in f.finished && forall n: nat | n < k :: Over(f, identity, n)
  {
    SlotFromExactly(f, identity, budget, 0, k);
  }

  lemma {:induction false} SlotFromExactly(f: Files, identity: nat, budget: nat, from: nat, k: nat)
    ensures SlotFrom(f, identity, budget, from) == Ok(k) <==>
              && from <= k <= budget && k !in f.started && k !in f.finished
              && forall n: nat | from <= n < k :: Over(f, identity, n)
    decreases budget + 1 - from
  {
    assert Over(f, identity, from) <==> SlotState(f, identity, from) == Ok(false);
    hide Over, SlotState;
    assert SlotState(f, identity, from) == Ok(true) <==> from !in f.started && from !in f.finished by {
      FreeExactly(f, identity, from);
    }
    if from <= budget {
      SlotFromExactly(f, identity, budget, from + 1, k);
    }
  }

  lemma FreeExactly(f: Files, identity: nat, k: nat)
    ensures SlotState(f, identity, k) == Ok(true) <==> k !in f.started && k !in f.finished
  {
  }

  class AssessmentStore {
    const identity: nat
    const retryBudget: nat
    var started: map<nat, Started>
    var finished: map<nat, Finished>

    ghost function Contents(): Files
      reads this
    {
      Files(started, finished)
    }

    constructor (identity: nat, retryBudget: nat)
      ensures this.identity == identity && this.retryBudget == retryBudget && Prefix(Contents(), identity, 0)
    {
      this.identity, this.retryBudget := identity, retryBudget;
      started, finished := map[], map[];
    }

    /** Scans the slots in order and starts the first free one; the body then ends in one of three ways. */
    method Invoke(request: nat, ending: Ending) returns (r: Result<nat, Error>)
      modifies this
      ensures r == Slot(old(Contents()), identity, retryBudget)
      ensures Contents() == Invoked(old(Contents()), identity, retryBudget, request, ending)
    {
      for attempt := 0 to retryBudget + 1
        invariant started == old(started) && finished == old(finished)
        invariant SlotFrom(Contents(), identity, retryBudget, attempt) == Slot(Contents(), identity, retryBudget)
      {
        if attempt in started {
          var prior := started[attempt];
          if prior.identity != identity {
            return Err(IdentityDiffers);
          }
          if attempt !in finished {
            return Err(Interrupted);
          }
          if !Matches(finished[attempt], prior) {
            return Err(Inconsistent);
          }
        } else if attempt in finished {
          return Err(OrphanOutcome);
        } else {
          var payload := Started(identity, request);
          started := started[attempt := payload];
          match ending {
            case Returns => finished := finished[attempt := Finished(payload, RETURNED)];
            case Raises => finished := finished[attempt := Finished(payload, RAISED)];
            case Killed =>
          }
          return Ok(attempt);
        }
      }
      return Err(BudgetExhausted);
    }
  }
}
