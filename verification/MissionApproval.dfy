/**
 What a commit rests on: in every run it follows checks and tests that passed in the same attempt; and a task
 none of whose attempts passes is given up after the last one allowed.
*/
module MissionApproval {
  import opened Wrappers
  import opened MissionState
  import opened MissionProtocol
  import opened MissionRace
  import MissionAttempts

  // ----- runs, step by step -------------------------------------------------------------------

  /** The state after `k` actions. */
  function At(m: Mission, s: Sys, schedule: seq<Action>, k: nat): Sys
    requires k <= |schedule|
  {
    Run(m, s, schedule[..k])
  }

  lemma {:induction false} RunSnoc(m: Mission, s: Sys, plan: seq<Action>, a: Action)
    ensures Run(m, s, plan + [a]) == Next(m, Run(m, s, plan), a)
    decreases |plan|
  {
    hide Next;
    if plan == [] {
      assert (plan + [a])[1..] == [] && Run(m, Next(m, s, a), []) == Next(m, s, a);
    } else {
      assert (plan + [a])[1..] == plan[1..] + [a];
      RunSnoc(m, Next(m, s, plan[0]), plan[1..], a);
    }
  }

  lemma AtNext(m: Mission, s: Sys, schedule: seq<Action>, k: nat)
    requires k < |schedule|
    ensures At(m, s, schedule, k + 1) == Next(m, At(m, s, schedule, k), schedule[k])
  {
    hide Next, Run;
    assert schedule[..k + 1] == schedule[..k] + [schedule[k]];
    RunSnoc(m, s, schedule[..k], schedule[k]);
  }

  // ----- what a commit rests on ------------------------------------------------------------------

  /** At step `c` the edits of attempt `a` at task `i` were found safe. */
  predicate FoundSafe(m: Mission, s: Sys, schedule: seq<Action>, c: nat, i: nat, a: nat) {
    && c < |schedule| && At(m, s, schedule, c).pc == Checking(i, a)
    && schedule[c].Exec? && schedule[c].luck.sound && !schedule[c].luck.other
  }

  /** At step `t` the acceptance tests passed and left the worktree as it was. */
  predicate FoundPassing(m: Mission, s: Sys, schedule: seq<Action>, t: nat, i: nat, a: nat) {
    && t < |schedule| && At(m, s, schedule, t).pc == Testing(i, a)
    && schedule[t].Exec? && schedule[t].luck.passes && schedule[t].luck.clean && !schedule[t].luck.other
  }

  /** Between the two steps nothing was edited, nothing was raised, and the executor was there. */
  predicate Undisturbed(m: Mission, s: Sys, schedule: seq<Action>, c: nat, n: nat)
    requires n <= |schedule|
  {
    forall k | c < k <= n ::
      var x := At(m, s, schedule, k);
      x.edits == At(m, s, schedule, c).edits && !x.pc.Off? && !x.pc.Raised? && !x.pc.RaisedFailing?
  }

  /** Safe since step `c`; for the last task the tests passed at step `t` in between. */
  predicate Backed(m: Mission, s: Sys, schedule: seq<Action>, n: nat, i: nat, a: nat, c: nat, t: nat)
    requires n <= |schedule|
  {
    && c < n && FoundSafe(m, s, schedule, c, i, a) && Undisturbed(m, s, schedule, c, n)
    && (i + 1 == |m.tasks| ==> c < t < n && FoundPassing(m, s, schedule, t, i, a))
  }

  predicate Shown(m: Mission, s: Sys, schedule: seq<Action>, n: nat, i: nat, a: nat, c: nat, t: nat)
    requires n <= |schedule|
  {
    match At(m, s, schedule, n).pc
    case Testing(j, b) =>
      j == i && b == a && c < n && FoundSafe(m, s, schedule, c, i, a) && Undisturbed(m, s, schedule, c, n)
    case Judging(j, b, safe) => safe ==> j == i && b == a && Backed(m, s, schedule, n, i, a, c, t)
    case Reading(j, b, safe) => safe ==> j == i && b == a && Backed(m, s, schedule, n, i, a, c, t)
    case Noting(j, b, safe, _) => safe ==> j == i && b == a && Backed(m, s, schedule, n, i, a, c, t)
    case Committing(j) => j == i && Backed(m, s, schedule, n, i, a, c, t)
    case _ => true
  }

  /** From where an executor that is about to commit can have come. */
  predicate Came(m: Mission, x: Sys, action: Action, next: Sys) {
    match next.pc
    case Testing(i, a) =>
      && next.edits == x.edits
      && if !action.Exec? then x.pc == next.pc
         else x.pc == Checking(i, a) && action.luck.sound && !action.luck.other
    case Judging(i, a, safe) =>
      && next.edits == x.edits
      && (safe ==>
            if !action.Exec? then x.pc == next.pc
            else if x.pc == Checking(i, a) then action.luck.sound && !action.luck.other && i + 1 != |m.tasks|
            else x.pc == Testing(i, a) && action.luck.passes && action.luck.clean && !action.luck.other)
    case Reading(i, a, safe) =>
      next.edits == x.edits && (safe ==> if action.Exec? then x.pc == Judging(i, a, true) else x.pc == next.pc)
    case Noting(i, a, safe, _) =>
      next.edits == x.edits && (safe ==> if action.Exec? then x.pc == Reading(i, a, true) else x.pc == next.pc)
    case Committing(i) =>
      next.edits == x.edits && if action.Exec? then x.pc.Noting? && x.pc.i == i && x.pc.safe else x.pc == next.pc
    case _ => true
  }

  predicate Late(pc: Pc) { pc.Checking? || pc.Testing? || pc.Judging? || pc.Reading? || pc.Noting? || pc.Raised? }

  lemma LateCame(m: Mission, x: Sys, luck: Luck)
    requires Late(x.pc)
    ensures Came(m, x, Exec(luck), ExecStep(m, x, luck))
  {
    hide Merge, InspectStep, BeginStep, LoopStep, TryStep, StartStep, ProposeStep, MeterStep, EditStep, FailStep;
    hide CommitStep, CheckpointStep;
  }

  lemma EarlyCame(m: Mission, x: Sys, luck: Luck)
    requires !Late(x.pc)
    ensures Came(m, x, Exec(luck), ExecStep(m, x, luck))
  {
    hide Attempts, Provenance, Reconciled, Merge, CheckStep, TestStep, JudgeStep, RaiseStep, NoteStep;
  }

  lemma CameFrom(m: Mission, x: Sys, action: Action)
    ensures Came(m, x, action, Next(m, x, action))
  {
    hide ExecStep;
    if action.Exec? {
      hide Came;
      if Late(x.pc) {
        LateCame(m, x, action.luck);
      } else {
        EarlyCame(m, x, action.luck);
      }
    }
  }

  lemma UndisturbedOn(m: Mission, s: Sys, schedule: seq<Action>, c: nat, n: nat)
    requires c <= n < |schedule| && Undisturbed(m, s, schedule, c, n)
    requires var x := At(m, s, schedule, n + 1);
             x.edits == At(m, s, schedule, n).edits && !x.pc.Off? && !x.pc.Raised? && !x.pc.RaisedFailing?
    ensures Undisturbed(m, s, schedule, c, n + 1)
  {
    hide At;
  }

  /** Whoever is about to test, judge, note or commit can show what it rests on. */
  lemma {:induction false} ShownAlways(m: Mission, s: Sys, schedule: seq<Action>, n: nat)
    returns (i: nat, a: nat, c: nat, t: nat)
    requires s.pc.Off? && n <= |schedule|
    ensures Shown(m, s, schedule, n, i, a, c, t)
    decreases n
  {
    hide Next, Run;
    if n == 0 {
      i, a, c, t := 0, 0, 0, 0;
      assert At(m, s, schedule, 0) == s by {
        RunStays(m, s);
        assert schedule[..0] == [];
      }
    } else {
      i, a, c, t := ShownAlways(m, s, schedule, n - 1);
      AtNext(m, s, schedule, n - 1);
      CameFrom(m, At(m, s, schedule, n - 1), schedule[n - 1]);
      i, a, c, t := ShownNext(m, s, schedule, n - 1, i, a, c, t);
    }
  }

  lemma RunStays(m: Mission, s: Sys)
    ensures Run(m, s, []) == s
  {
  }

  lemma ShownNext(m: Mission, s: Sys, schedule: seq<Action>, n: nat, i: nat, a: nat, c: nat, t: nat)
    returns (i': nat, a': nat, c': nat, t': nat)
    requires n < |schedule| && Shown(m, s, schedule, n, i, a, c, t)
    requires Came(m, At(m, s, schedule, n), schedule[n], At(m, s, schedule, n + 1))
    ensures Shown(m, s, schedule, n + 1, i', a', c', t')
  {
    hide At;
    i', a', c', t' := i, a, c, t;
    var x, next := At(m, s, schedule, n), At(m, s, schedule, n + 1);
    if next.pc.Testing? || next.pc.Judging? || next.pc.Reading? || next.pc.Noting? || next.pc.Committing? {
      if schedule[n].Exec? && x.pc.Checking? && (next.pc.Testing? || (next.pc.Judging? && next.pc.safe)) {
        i', a', c' := x.pc.i, x.pc.a, n;
        assert FoundSafe(m, s, schedule, n, i', a');
        assert Undisturbed(m, s, schedule, n, n);
        UndisturbedOn(m, s, schedule, n, n);
      } else {
        if schedule[n].Exec? && x.pc.Testing? && next.pc.Judging? && next.pc.safe {
          t' := n;
        }
        if c < n && Undisturbed(m, s, schedule, c, n) {
          UndisturbedOn(m, s, schedule, c, n);
        }
      }
    }
  }

  /** The executor makes a commit only when about to, with a clean tree of its own and over a record not halted. */
  lemma CommitMeans(m: Mission, x: Sys, action: Action)
    requires Next(m, x, action).made > x.made
    ensures x.pc.Committing? && x.pc.i < |m.tasks| && action.Exec? && action.luck.clean && action.luck.passes
    ensures !x.disk.status.Halted() && Next(m, x, action).branch == x.branch + [CommitFor(m, x.pc.i)]
  {
    hide Attempts, Provenance, Reconciled, Merge;
  }

  /**
   Over every run: a step that makes a commit of task `i` comes after a step of the same attempt that found the
   edits safe and, for the last task, one in which the acceptance tests passed and left the tree clean, with no
   edit, no exception and no restart since.
  */
  lemma CommitsOnlyApproved(m: Mission, s: Sys, schedule: seq<Action>, n: nat) returns (a: nat, c: nat, t: nat)
    requires s.pc.Off? && n < |schedule| && At(m, s, schedule, n + 1).made > At(m, s, schedule, n).made
    ensures At(m, s, schedule, n).pc.Committing?
    ensures var i := At(m, s, schedule, n).pc.i;
            && i < |m.tasks| && Backed(m, s, schedule, n, i, a, c, t)
            && At(m, s, schedule, n + 1).branch == At(m, s, schedule, n).branch + [CommitFor(m, i)]
            && schedule[n].Exec? && schedule[n].luck.clean && schedule[n].luck.passes
            && !At(m, s, schedule, n).disk.status.Halted()
  {
    hide Next, Run;
    var i;
    i, a, c, t := ShownAlways(m, s, schedule, n);
    AtNext(m, s, schedule, n);
    CommitMeans(m, At(m, s, schedule, n), schedule[n]);
  }

  // ----- what an attempt that fails under a pause leaves ---------------------------------------------

  /** The worktree is edited in one place only, over a record not halted, and the edit shows in the tree. */
  lemma EditsExactly(m: Mission, x: Sys, action: Action)
    ensures var next := Next(m, x, action);
            && (next.edits != x.edits <==>
                  && action.Exec? && x.pc.Editing? && !x.disk.status.Halted()
                  && (action.luck.passes || action.luck.other))
            && (next.edits != x.edits ==> next.edits == x.edits + 1 && next.dirty)
  {
    hide ExecStep;
    if action.Exec? && !x.pc.Editing? {
      OthersEditNothing(m, x, action.luck);
    } else if action.Exec? {
      assert ExecStep(m, x, action.luck) == EditStep(x, x.pc.i, x.pc.a, action.luck) by {
        EditingEdits(m, x, action.luck);
      }
    }
  }

  lemma EditingEdits(m: Mission, x: Sys, luck: Luck)
    requires x.pc.Editing?
    ensures ExecStep(m, x, luck) == EditStep(x, x.pc.i, x.pc.a, luck)
  {
    hide EditStep;
  }

  lemma OthersEditNothing(m: Mission, x: Sys, luck: Luck)
    requires !x.pc.Editing?
    ensures ExecStep(m, x, luck).edits == x.edits
  {
    hide Attempts, Provenance, Reconciled, Merge, EditStep;
  }

  /** The attempt that is under way since step `p`, and whether it has edited anything since. */
  predicate Since(m: Mission, s: Sys, schedule: seq<Action>, p: nat, n: nat, i: nat, a: nat, edited: bool)
    requires n <= |schedule|
  {
    && p <= n && At(m, s, schedule, p).pc == Proposing(i, a)
    && At(m, s, schedule, p).edits <= At(m, s, schedule, n).edits
    && (edited <==> At(m, s, schedule, p).edits < At(m, s, schedule, n).edits)
    && forall k | p <= k <= n :: !At(m, s, schedule, k).pc.Off?
  }

  /** For each place within an attempt before its verdict: what it means. */
  predicate Underway(m: Mission, s: Sys, schedule: seq<Action>, p: nat, n: nat)
    requires n <= |schedule|
  {
    match At(m, s, schedule, n).pc
    case Proposing(i, a) => Since(m, s, schedule, p, n, i, a, false)
    case Metering(i, a, _) => Since(m, s, schedule, p, n, i, a, false)
    case Editing(i, a) => Since(m, s, schedule, p, n, i, a, false)
    case Checking(i, a) => Since(m, s, schedule, p, n, i, a, true)
    case Testing(i, a) => Since(m, s, schedule, p, n, i, a, true)
    case Judging(i, a, _) => Since(m, s, schedule, p, n, i, a, true)
    case Failing(i, a) => Since(m, s, schedule, p, n, i, a, true)
    case Raised(i, a, edited) => Since(m, s, schedule, p, n, i, a, edited)
    case RaisedFailing(i, a, edited) => Since(m, s, schedule, p, n, i, a, edited)
    case _ => true
  }

  /** From where one can have come within an attempt, and with how many edits more. */
  predicate Stepped(x: Sys, action: Action, next: Sys) {
    match next.pc
    case Proposing(i, a) => action.Exec? || (next.pc == x.pc && next.edits == x.edits)
    case Metering(i, a, _) =>
      next.edits == x.edits && if action.Exec? then x.pc == Proposing(i, a) else next.pc == x.pc
    case Editing(i, a) =>
      && next.edits == x.edits
      && if action.Exec? then
           action.luck.passes && x.pc == (if x.pc.Metering? then Metering(i, a, x.pc.snap) else Proposing(i, a))
         else next.pc == x.pc
    case Checking(i, a) =>
      if action.Exec? then x.pc == Editing(i, a) && next.edits == x.edits + 1
      else next.pc == x.pc && next.edits == x.edits
    case Testing(i, a) => next.edits == x.edits && if action.Exec? then x.pc == Checking(i, a) else next.pc == x.pc
    case Judging(i, a, _) =>
      && next.edits == x.edits
      && if action.Exec? then x.pc == Checking(i, a) || x.pc == Testing(i, a) else next.pc == x.pc
    case Failing(i, a) =>
      next.edits == x.edits && if action.Exec? then x.pc.Judging? && x.pc.i == i && x.pc.a == a else next.pc == x.pc
    case Raised(i, a, edited) =>
      if !action.Exec? then next.pc == x.pc && next.edits == x.edits
      else if x.pc == Editing(i, a) then next.edits == x.edits + if edited then 1 else 0
      else
        && next.edits == x.edits
        && if edited then x.pc == Checking(i, a) || x.pc == Testing(i, a)
           else x.pc == if x.pc.Metering? then Metering(i, a, x.pc.snap) else Proposing(i, a)
    case RaisedFailing(i, a, edited) =>
      next.edits == x.edits && if action.Exec? then x.pc == Raised(i, a, edited) else next.pc == x.pc
    case _ => true
  }

  predicate Mid(pc: Pc) {
    pc.Proposing? || pc.Metering? || pc.Editing? || pc.Checking? || pc.Testing? || pc.Judging? || pc.Raised?
  }

  lemma MidStepped(m: Mission, x: Sys, luck: Luck)
    requires Mid(x.pc)
    ensures Stepped(x, Exec(luck), ExecStep(m, x, luck))
  {
    hide Merge, InspectStep, BeginStep, LoopStep, TryStep, StartStep, FailStep, CommitStep, CheckpointStep, NoteStep;
  }

  lemma OtherStepped(m: Mission, x: Sys, luck: Luck)
    requires !Mid(x.pc)
    ensures Stepped(x, Exec(luck), ExecStep(m, x, luck))
  {
    hide Attempts, Provenance, Reconciled, Merge, ProposeStep, MeterStep, EditStep, CheckStep, TestStep, JudgeStep;
    hide RaiseStep;
  }

  lemma SteppedFrom(m: Mission, x: Sys, action: Action)
    ensures Stepped(x, action, Next(m, x, action))
  {
    hide ExecStep;
    if action.Exec? {
      hide Stepped;
      if Mid(x.pc) {
        MidStepped(m, x, action.luck);
      } else {
        OtherStepped(m, x, action.luck);
      }
    }
  }

  lemma UnderwayNext(m: Mission, s: Sys, schedule: seq<Action>, p: nat, n: nat) returns (p': nat)
    requires n < |schedule| && Underway(m, s, schedule, p, n)
    requires Stepped(At(m, s, schedule, n), schedule[n], At(m, s, schedule, n + 1))
    ensures Underway(m, s, schedule, p', n + 1)
  {
    hide At;
    var x, next := At(m, s, schedule, n), At(m, s, schedule, n + 1);
    p' := if next.pc.Proposing? && schedule[n].Exec? then n + 1 else p;
  }

  lemma {:induction false} UnderwayAlways(m: Mission, s: Sys, schedule: seq<Action>, n: nat) returns (p: nat)
    requires s.pc.Off? && n <= |schedule|
    ensures Underway(m, s, schedule, p, n)
    decreases n
  {
    hide Next, Run;
    if n == 0 {
      p := 0;
      assert At(m, s, schedule, 0) == s by {
        RunStays(m, s);
        assert schedule[..0] == [];
      }
    } else {
      p := UnderwayAlways(m, s, schedule, n - 1);
      AtNext(m, s, schedule, n - 1);
      SteppedFrom(m, At(m, s, schedule, n - 1), schedule[n - 1]);
      p := UnderwayNext(m, s, schedule, p, n - 1);
    }
  }

  lemma FailMeans(m: Mission, x: Sys, luck: Luck)
    requires x.disk.status.PAUSING? && (x.pc.Failing? || x.pc.RaisedFailing?)
    ensures var next := ExecStep(m, x, luck);
            && next.disk == x.disk.(status := next.disk.status,
                                    events := x.disk.events + [AttemptNote(x.pc.i, x.pc.a)])
            && next.disk.status == (if x.pc.Failing? || x.pc.edited then HUMAN_REQUIRED else PAUSED)
            && next.pc.Off? && next.edits == x.edits
  {
  }

  /**
   Over every run: an attempt that ends in flight under a pause is noted, and the mission waits PAUSED if and only
   if the attempt has edited nothing since it started; otherwise it escalates.
  */
  lemma PausedInFlightExactly(m: Mission, s: Sys, schedule: seq<Action>, n: nat) returns (p: nat)
    requires s.pc.Off? && n < |schedule| && schedule[n].Exec?
    requires var x := At(m, s, schedule, n); x.disk.status.PAUSING? && (x.pc.Failing? || x.pc.RaisedFailing?)
    ensures var x, next := At(m, s, schedule, n), At(m, s, schedule, n + 1);
            && p <= n && At(m, s, schedule, p).pc == Proposing(x.pc.i, x.pc.a)
            && (forall k | p <= k <= n :: !At(m, s, schedule, k).pc.Off?)
            && next.disk.status == (if At(m, s, schedule, p).edits == x.edits then PAUSED else HUMAN_REQUIRED)
            && next.disk.events == x.disk.events + [AttemptNote(x.pc.i, x.pc.a)] && next.pc.Off?
  {
    hide Next, Run;
    p := UnderwayAlways(m, s, schedule, n);
    AtNext(m, s, schedule, n);
    hide At;
    NextIsExec(m, At(m, s, schedule, n), schedule[n]);
    FailMeans(m, At(m, s, schedule, n), schedule[n].luck);
    hide ExecStep;
  }

  lemma NextIsExec(m: Mission, x: Sys, action: Action)
    requires action.Exec?
    ensures Next(m, x, action) == ExecStep(m, x, action.luck)
  {
  }

  /** Tests that change the tree, and trees that changed before the commit, end in escalation and not in a commit. */
  lemma UncleanEscalates(m: Mission, x: Sys, luck: Luck)
    requires !x.disk.status.Halted() && !luck.clean
    requires (x.pc.Testing? && !luck.other) || (x.pc.Committing? && x.pc.i < |m.tasks|)
    ensures var next := ExecStep(m, x, luck);
            && next.pc.Off? && next.disk.status.HUMAN_REQUIRED? && next.branch == x.branch && next.made == x.made
            && next.disk.events == x.disk.events + if x.pc.Testing? then [AttemptNote(x.pc.i, x.pc.a)] else []
  {
  }

  /** A pause asked for before the commit takes effect after its checkpoint: recorded, and then waiting. */
  lemma PauseComesAfterCheckpoint(m: Mission, x: Sys, luck: Luck)
    requires x.pc.Checkpointing? && x.mem.status.PAUSING?
    ensures var next := ExecStep(m, x, luck);
            && next.disk.status.PAUSED? && next.pc.Off? && next.branch == x.branch == next.disk.head
            && next.disk.index == x.pc.i + 1 && next.disk.attempt == 0
            && next.disk.events == x.mem.events + [CommitNote(x.pc.i)]
  {
  }

  /** A commit that Git refuses leaves the mission blocked, and nothing on the branch. */
  lemma RefusedCommitBlocks(m: Mission, x: Sys, luck: Luck)
    requires !x.disk.status.Halted() && luck.clean && !luck.passes && x.pc.Committing? && x.pc.i < |m.tasks|
    ensures ExecStep(m, x, luck) == x.(disk := x.disk.(status := BLOCKED), pc := Off)
  {
  }

  // ----- a task none of whose attempts passes -------------------------------------------------------

  /** The executor alone, for `n` steps. */
  function After(m: Mission, x: Sys, lucks: nat -> Luck, n: nat): Sys {
    if n == 0 then x else ExecStep(m, After(m, x, lucks, n - 1), lucks(n - 1))
  }

  /** This step lets no attempt pass, and nothing else but attempts go wrong. */
  predicate NoPass(m: Mission, x: Sys, luck: Luck) {
    match x.pc
    case Opened(_) => luck.sound && !luck.other
    case Checking(i, a) => !luck.sound || luck.other || i + 1 == |m.tasks|
    case Testing(i, a) => luck.other || (luck.clean && !luck.passes)
    case _ => true
  }

  /** Record and copy as the loop has them; `before` is the state in which task `i` was taken up. */
  predicate Looped(before: Sys, x: Sys, i: nat) {
    && x.disk.index == x.mem.index == i && x.disk.status.RUNNING? && x.mem.status.RUNNING?
    && x.branch == before.branch && x.made == before.made && i < |x.tries| == |before.tries|
  }

  /** Attempt `a` is under way, and with it `a - spent` have been started. */
  predicate Trial(before: Sys, x: Sys, i: nat, spent: nat, a: nat) {
    Looped(before, x, i) && a > spent && x.tries[i] == before.tries[i] + (a - spent)
  }

  predicate Failing(m: Mission, before: Sys, x: Sys, i: nat, spent: nat)
    requires i < |before.tries|
  {
    match x.pc
    case Trying(j, a) => j == i && spent < a <= m.maxAttempts + 1 && Looped(before, x, i)
                         && x.tries[i] == before.tries[i] + (a - 1 - spent)
    case Starting(j, a) => j == i && spent < a <= m.maxAttempts && Looped(before, x, i)
                           && x.tries[i] == before.tries[i] + (a - 1 - spent)
    case Proposing(j, a) => j == i && a <= m.maxAttempts && Trial(before, x, i, spent, a)
    case Metering(j, a, snap) =>
      j == i && a <= m.maxAttempts && Trial(before, x, i, spent, a) && snap.status.RUNNING? && snap.index == i
    case Editing(j, a) => j == i && a <= m.maxAttempts && Trial(before, x, i, spent, a)
    case Checking(j, a) => j == i && a <= m.maxAttempts && Trial(before, x, i, spent, a)
    case Testing(j, a) => j == i && a <= m.maxAttempts && Trial(before, x, i, spent, a)
    case Judging(j, a, safe) => j == i && !safe && a <= m.maxAttempts && Trial(before, x, i, spent, a)
    case Reading(j, a, safe) => j == i && !safe && a <= m.maxAttempts && Trial(before, x, i, spent, a)
    case Noting(j, a, safe, snap) =>
      j == i && !safe && a <= m.maxAttempts && Trial(before, x, i, spent, a) && snap.status.RUNNING?
    case Raised(j, a, _) => j == i && a <= m.maxAttempts && Trial(before, x, i, spent, a)
    case Blocking =>
      && x.disk.index == x.mem.index == i && x.disk.status.RUNNING? && x.mem.status.BLOCKED?
      && x.branch == before.branch && x.made == before.made && i < |x.tries|
      && x.tries[i] == before.tries[i] + (m.maxAttempts - spent)
    case Off => GivenUp(m, before, x, i, spent)
    case _ => false
  }

  predicate GivenUp(m: Mission, before: Sys, x: Sys, i: nat, spent: nat)
    requires i < |before.tries|
  {
    && x.pc.Off? && x.disk.status.BLOCKED? && x.disk.index == i
    && x.branch == before.branch && x.made == before.made && i < |x.tries|
    && x.tries[i] == before.tries[i] + (m.maxAttempts - spent)
  }

  /** How many steps are left at most. */
  function Left(m: Mission, x: Sys): int {
    match x.pc
    case Off => 0
    case Blocking => 1
    case Trying(_, a) => 12 * (m.maxAttempts + 1 - a) + 2
    case Starting(_, a) => 12 * (m.maxAttempts - a) + 13
    case Proposing(_, a) => 12 * (m.maxAttempts - a) + 12
    case Metering(_, a, _) => 12 * (m.maxAttempts - a) + 11
    case Editing(_, a) => 12 * (m.maxAttempts - a) + 10
    case Checking(_, a) => 12 * (m.maxAttempts - a) + 9
    case Testing(_, a) => 12 * (m.maxAttempts - a) + 8
    case Judging(_, a, _) => 12 * (m.maxAttempts - a) + 7
    case Raised(_, a, _) => 12 * (m.maxAttempts - a) + 7
    case Reading(_, a, _) => 12 * (m.maxAttempts - a) + 6
    case Noting(_, a, _, _) => 12 * (m.maxAttempts - a) + 5
    case _ => 0
  }

  lemma FailingEarly(m: Mission, before: Sys, x: Sys, i: nat, spent: nat, luck: Luck)
    requires i < |before.tries| && Failing(m, before, x, i, spent) && NoPass(m, x, luck)
    requires x.pc.Trying? || x.pc.Starting? || x.pc.Proposing? || x.pc.Metering? || x.pc.Editing? || x.pc.Blocking?
    ensures Failing(m, before, ExecStep(m, x, luck), i, spent) && 0 <= Left(m, ExecStep(m, x, luck)) < Left(m, x)
  {
    hide InspectStep, BeginStep, LoopStep, CheckStep, TestStep, JudgeStep, FailStep, NoteStep, RaiseStep, CommitStep;
    hide CheckpointStep, ProposeStep, MeterStep, EditStep;
    if x.pc.Proposing? || x.pc.Metering? || x.pc.Editing? {
      FailingProposes(m, before, x, i, spent, luck);
    }
  }

  lemma FailingProposes(m: Mission, before: Sys, x: Sys, i: nat, spent: nat, luck: Luck)
    requires i < |before.tries| && Failing(m, before, x, i, spent)
    requires x.pc.Proposing? || x.pc.Metering? || x.pc.Editing?
    ensures Failing(m, before, ExecStep(m, x, luck), i, spent) && 0 <= Left(m, ExecStep(m, x, luck)) < Left(m, x)
  {
    hide InspectStep, BeginStep, LoopStep, CheckStep, TestStep, JudgeStep, FailStep, NoteStep, RaiseStep, CommitStep;
    hide CheckpointStep, TryStep, StartStep;
  }

  lemma FailingChecks(m: Mission, before: Sys, x: Sys, i: nat, spent: nat, luck: Luck)
    requires i < |before.tries| && Failing(m, before, x, i, spent) && NoPass(m, x, luck)
    requires x.pc.Checking? || x.pc.Testing? || x.pc.Raised?
    ensures Failing(m, before, ExecStep(m, x, luck), i, spent) && 0 <= Left(m, ExecStep(m, x, luck)) < Left(m, x)
  {
    hide InspectStep, BeginStep, LoopStep, TryStep, StartStep, ProposeStep, MeterStep, EditStep, FailStep, CommitStep;
    hide CheckpointStep, JudgeStep, NoteStep;
  }

  lemma FailingNotes(m: Mission, before: Sys, x: Sys, i: nat, spent: nat, luck: Luck)
    requires i < |before.tries| && Failing(m, before, x, i, spent)
    requires x.pc.Judging? || x.pc.Reading? || x.pc.Noting?
    ensures Failing(m, before, ExecStep(m, x, luck), i, spent) && 0 <= Left(m, ExecStep(m, x, luck)) < Left(m, x)
  {
    hide InspectStep, BeginStep, LoopStep, TryStep, StartStep, ProposeStep, MeterStep, EditStep, FailStep, CommitStep;
    hide CheckpointStep, CheckStep, TestStep, RaiseStep;
  }

  /** From within the attempt loop: if no attempt passes, the task is given up after the last one allowed. */
  lemma {:induction false} FailingEnds(m: Mission, before: Sys, x: Sys, i: nat, spent: nat, lucks: nat -> Luck,
                                       k: nat)
    returns (n: nat)
    requires i < |before.tries| && Failing(m, before, After(m, x, lucks, k), i, spent)
    requires 0 <= Left(m, After(m, x, lucks, k))
    requires forall j :: NoPass(m, After(m, x, lucks, j), lucks(j))
    ensures n >= k && GivenUp(m, before, After(m, x, lucks, n), i, spent)
    decreases Left(m, After(m, x, lucks, k))
  {
    hide ExecStep, Left, Failing, NoPass, GivenUp;
    var y := After(m, x, lucks, k);
    if y.pc.Off? {
      n := k;
      assert GivenUp(m, before, y, i, spent) by {
        OffIsGivenUp(m, before, y, i, spent);
      }
    } else {
      assert NoPass(m, y, lucks(k));
      FailingPlaces(m, before, y, i, spent);
      if y.pc.Trying? || y.pc.Starting? || y.pc.Proposing? || y.pc.Metering? || y.pc.Editing? || y.pc.Blocking? {
        FailingEarly(m, before, y, i, spent, lucks(k));
      } else if y.pc.Checking? || y.pc.Testing? || y.pc.Raised? {
        FailingChecks(m, before, y, i, spent, lucks(k));
      } else {
        FailingNotes(m, before, y, i, spent, lucks(k));
      }
      n := FailingEnds(m, before, x, i, spent, lucks, k + 1);
    }
  }

  lemma OffIsGivenUp(m: Mission, before: Sys, x: Sys, i: nat, spent: nat)
    requires i < |before.tries| && Failing(m, before, x, i, spent) && x.pc.Off?
    ensures GivenUp(m, before, x, i, spent)
  {
  }

  lemma FailingPlaces(m: Mission, before: Sys, x: Sys, i: nat, spent: nat)
    requires i < |before.tries| && Failing(m, before, x, i, spent)
    ensures x.pc.Trying? || x.pc.Starting? || x.pc.Proposing? || x.pc.Metering? || x.pc.Editing? || x.pc.Blocking?
            || x.pc.Checking? || x.pc.Testing? || x.pc.Judging? || x.pc.Reading? || x.pc.Noting? || x.pc.Raised?
            || x.pc.Off?
  {
  }

  /**
   A mission none of whose first task's attempts passes: no commit is made, and after exactly the attempts allowed
   the executor leaves it BLOCKED, whatever else its models and tests answer.
  */
  lemma NoPassIsBlocked(m: Mission, s: Sys, a: nat, lucks: nat -> Luck) returns (n: nat)
    requires Idle(m, s, a) && a <= m.maxAttempts
    requires forall j :: NoPass(m, After(m, OpenStep(s), lucks, j), lucks(j))
    ensures var end := After(m, OpenStep(s), lucks, n);
            && end.pc.Off? && end.disk.status.BLOCKED? && end.disk.index == 0
            && end.branch == m.base && end.made == s.made
            && |end.tries| > 0 && end.tries[0] == s.tries[0] + (m.maxAttempts - a)
  {
    var x := OpenStep(s);
    assert NoPass(m, After(m, x, lucks, 0), lucks(0));
    var x1 := ExecStep(m, x, lucks(0));
    assert x1.pc.Beginning?;
    var x2 := ExecStep(m, x1, lucks(1));
    assert x2.pc == Looping(0);
    var x3 := ExecStep(m, x2, lucks(2));
    assert x3 == After(m, x, lucks, 3) by {
      assert After(m, x, lucks, 1) == x1 && After(m, x, lucks, 2) == x2;
    }
    assert Failing(m, s, x3, 0, a);
    hide ExecStep, Failing, After;
    n := FailingEnds(m, s, x, 0, a, lucks, 3);
  }

  // ----- a mission all of whose attempts pass ---------------------------------------------------------

  /** About to take up task `i`, with everything before it recorded and nothing of it begun. */
  ghost predicate TakingUp(m: Mission, s: Sys, i: nat) {
    && s.pc == Looping(i) && i <= |m.tasks| == |s.tries| && s.mem == s.disk && s.disk.status.RUNNING?
    && s.disk.index == i && s.disk.attempt == 0 && forall j: nat | i <= j :: Attempts(s.disk.events, j) == 0
  }

  lemma StepsAdd(m: Mission, s: Sys, k: nat)
    ensures Lucky(m, s, k + 1) == ExecStep(m, Lucky(m, s, k), GOOD)
  {
    LuckyAdds(m, s, k, 1);
    hide ExecStep;
    assert Lucky(m, Lucky(m, s, k), 1) == Lucky(m, ExecStep(m, Lucky(m, s, k), GOOD), 0);
  }

  lemma TaskStarts(m: Mission, s: Sys, i: nat)
    requires TakingUp(m, s, i) && i < |m.tasks|
    ensures var next := Lucky(m, s, 1);
            next == s.(pc := Trying(i, 1), mem := s.disk) && Ready(m, next, i)
  {
    hide Attempts;
    assert Lucky(m, s, 1) == Lucky(m, ExecStep(m, s, GOOD), 0);
  }

  /** One fortunate attempt later the task is committed and recorded. */
  lemma TaskRuns(m: Mission, s: Sys, i: nat)
    requires TakingUp(m, s, i) && i < |m.tasks| && m.maxAttempts >= 1
    ensures var next := Lucky(m, s, AttemptLength(m, i) + 2);
            && TakingUp(m, next, i + 1) && next.branch == next.disk.head == s.branch + [CommitFor(m, i)]
  {
    TaskStarts(m, s, i);
    var tried := Lucky(m, s, 1);
    AttemptRuns(m, tried, i, 1);
    LuckyAdds(m, s, 1, AttemptLength(m, i));
    StepsAdd(m, s, AttemptLength(m, i) + 1);
    var made := Lucky(m, s, AttemptLength(m, i) + 1);
    hide Lucky, Attempts;
    var next := ExecStep(m, made, GOOD);
    forall j: nat | i + 1 <= j ensures Attempts(next.disk.events, j) == 0 {
      MissionAttempts.AttemptsSnoc(s.disk.events, AttemptNote(i, 1), j);
      MissionAttempts.AttemptsSnoc(made.disk.events, CommitNote(i), j);
    }
  }

  lemma {:induction false} TasksRun(m: Mission, s: Sys, i: nat) returns (k: nat)
    requires TakingUp(m, s, i) && m.maxAttempts >= 1
    ensures var end := Lucky(m, s, k);
            && end.pc.Off? && end.disk.status.COMPLETED? && end.disk.index == |m.tasks|
            && end.branch == s.branch + Remaining(m, i)
    decreases |m.tasks| - i
  {
    if i == |m.tasks| {
      k := 2;
      StepsAdd(m, s, 0);
      StepsAdd(m, s, 1);
      assert Remaining(m, i) == [];
    } else {
      TaskRuns(m, s, i);
      var j := AttemptLength(m, i) + 2;
      hide Lucky, TakingUp;
      var rest := TasksRun(m, Lucky(m, s, j), i + 1);
      k := j + rest;
      LuckyAdds(m, s, j, rest);
      assert [CommitFor(m, i)] + Remaining(m, i + 1) == Remaining(m, i);
    }
  }

  function Remaining(m: Mission, i: nat): Branch
    requires i <= |m.tasks|
  {
    seq(|m.tasks| - i, j requires 0 <= j < |m.tasks| - i => CommitFor(m, i + j))
  }

  /** Opened and left to a fortunate run, a mission ends COMPLETED with one commit for each task, in order. */
  lemma FortunateMissionCompletes(m: Mission, s: Sys) returns (k: nat)
    requires Idle(m, s, 0) && m.maxAttempts >= 1
    ensures var end := Lucky(m, OpenStep(s), k);
            && end.pc.Off? && end.disk.status.COMPLETED? && end.disk.index == |m.tasks|
            && end.branch == m.base + CommitsUpTo(m, |m.tasks|)
  {
    var x := OpenStep(s);
    var x1 := ExecStep(m, x, GOOD);
    var x2 := ExecStep(m, x1, GOOD);
    assert x1.pc.Beginning? && TakingUp(m, x2, 0);
    StepsAdd(m, x, 0);
    StepsAdd(m, x, 1);
    hide ExecStep, TakingUp;
    assert Lucky(m, x, 0) == x;
    hide Lucky;
    var rest := TasksRun(m, x2, 0);
    k := 2 + rest;
    LuckyAdds(m, x, 2, rest);
    assert Remaining(m, 0) == CommitsUpTo(m, |m.tasks|);
  }
}
