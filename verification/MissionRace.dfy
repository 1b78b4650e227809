/**
 The race that a pause request can win against a recovering executor: the merge
 rule drops the recovered checkpoint, the executor carries on under PAUSING, and
 the task whose commit it had just recovered is committed a second time.
*/
module MissionRace {
  import opened Wrappers
  import opened MissionState
  import opened MissionProtocol
  import opened MissionSafety

  const GOOD := Luck(true, true, true, false)

  /** `k` executor steps in a row, all of them fortunate. */
  function Lucky(m: Mission, s: Sys, k: nat): Sys
    decreases k
  {
    if k == 0 then s else Lucky(m, ExecStep(m, s, GOOD), k - 1)
  }

  function LuckySchedule(k: nat): seq<Action> {
    if k == 0 then [] else [Exec(GOOD)] + LuckySchedule(k - 1)
  }

  lemma {:induction false} LuckyIsRun(m: Mission, s: Sys, k: nat)
    ensures Run(m, s, LuckySchedule(k)) == Lucky(m, s, k)
    decreases k
  {
    hide ExecStep;
    if k > 0 {
      assert LuckySchedule(k)[1..] == LuckySchedule(k - 1);
      LuckyIsRun(m, ExecStep(m, s, GOOD), k - 1);
    }
  }

  lemma {:induction false} LuckyAdds(m: Mission, s: Sys, j: nat, k: nat)
    ensures Lucky(m, s, j + k) == Lucky(m, Lucky(m, s, j), k)
    decreases j
  {
    hide ExecStep;
    if j > 0 {
      LuckyAdds(m, ExecStep(m, s, GOOD), j - 1, k);
    }
  }

  /** The executor is under way on task `i` and nobody halts it. */
  predicate Ready(m: Mission, s: Sys, i: nat) {
    && i < |m.tasks| == |s.tries| && s.mem.(attempt := s.disk.attempt) == s.disk
    && (s.disk.status.RUNNING? || s.disk.status.PAUSING?)
  }

  /** Besides, its copy of the record is the record. */
  predicate UnderWay(m: Mission, s: Sys, i: nat) {
    Ready(m, s, i) && s.mem == s.disk
  }

  /** Up to its edit, an attempt changes only the attempt number on record. */
  lemma AttemptOpens(m: Mission, s: Sys, i: nat, a: nat)
    requires Ready(m, s, i) && s.pc == Trying(i, a) && a <= m.maxAttempts
    ensures var next := Lucky(m, s, 4);
            && UnderWay(m, next, i) && next.pc == Checking(i, a)
            && next.branch == s.branch && next.disk == s.disk.(attempt := a) && next.made == s.made
  {
    var s1 := ExecStep(m, s, GOOD);
    var s2 := ExecStep(m, s1, GOOD);
    var s3 := ExecStep(m, s2, GOOD);
    var s4 := ExecStep(m, s3, GOOD);
    assert s1.pc == Starting(i, a) && s2.pc == Proposing(i, a) && s3.pc == Editing(i, a);
    hide ExecStep;
    assert Lucky(m, s, 4) == Lucky(m, s1, 3) == Lucky(m, s2, 2) == Lucky(m, s3, 1) == Lucky(m, s4, 0);
  }

  function CheckLength(m: Mission, i: nat): nat { if i + 1 == |m.tasks| then 2 else 1 }

  lemma AttemptPasses(m: Mission, s: Sys, i: nat, a: nat)
    requires UnderWay(m, s, i) && s.pc == Checking(i, a)
    ensures var next := Lucky(m, s, CheckLength(m, i));
            next == s.(pc := Judging(i, a, true))
  {
    var s1 := ExecStep(m, s, GOOD);
    var s2 := ExecStep(m, s1, GOOD);
    assert Lucky(m, s, 1) == Lucky(m, s1, 0);
    assert Lucky(m, s, 2) == Lucky(m, s1, 1) == Lucky(m, s2, 0);
  }

  lemma AttemptNotes(m: Mission, s: Sys, i: nat, a: nat)
    requires UnderWay(m, s, i) && s.pc == Judging(i, a, true)
    ensures var noted := s.disk.(events := s.disk.events + [AttemptNote(i, a)]);
            Lucky(m, s, 3) == s.(pc := Committing(i), disk := noted, mem := noted)
  {
    hide Attempts, InspectStep, BeginStep, StartStep, LoopStep, CommitStep, CheckpointStep, TryStep, ProposeStep;
    hide MeterStep, EditStep, CheckStep, TestStep, FailStep, RaiseStep;
    var s1 := ExecStep(m, s, GOOD);
    var s2 := ExecStep(m, s1, GOOD);
    var s3 := ExecStep(m, s2, GOOD);
    assert s1.pc == Reading(i, a, true) && s2.pc == Noting(i, a, true, s.disk);
    hide ExecStep;
    assert Lucky(m, s, 3) == Lucky(m, s1, 2) == Lucky(m, s2, 1) == Lucky(m, s3, 0);
  }

  lemma AttemptCommits(m: Mission, s: Sys, i: nat, a: nat)
    requires UnderWay(m, s, i) && s.pc == Judging(i, a, true)
    ensures var next := Lucky(m, s, 4);
            && next.pc == Checkpointing(i) && next.branch == s.branch + [CommitFor(m, i)]
            && UnderWay(m, next, i) && !next.dirty && next.made == s.made + 1
            && next.disk == s.disk.(events := s.disk.events + [AttemptNote(i, a)])
  {
    AttemptNotes(m, s, i, a);
    LuckyAdds(m, s, 3, 1);
    var noted := Lucky(m, s, 3);
    assert Lucky(m, noted, 1) == Lucky(m, ExecStep(m, noted, GOOD), 0);
    hide Lucky;
  }

  function AttemptLength(m: Mission, i: nat): nat { 8 + CheckLength(m, i) }

  /** One fortunate attempt, from its first look at the record to the commit. */
  lemma AttemptRuns(m: Mission, s: Sys, i: nat, a: nat)
    requires Ready(m, s, i) && s.pc == Trying(i, a) && a <= m.maxAttempts
    ensures var next := Lucky(m, s, AttemptLength(m, i));
            && next.pc == Checkpointing(i) && next.branch == s.branch + [CommitFor(m, i)]
            && UnderWay(m, next, i) && !next.dirty && next.made == s.made + 1
            && next.disk == s.disk.(attempt := a, events := s.disk.events + [AttemptNote(i, a)])
  {
    hide ExecStep, Lucky, Ready, UnderWay;
    AttemptOpens(m, s, i, a);
    var begun := Lucky(m, s, 4);
    AttemptPasses(m, begun, i, a);
    var passed := Lucky(m, begun, CheckLength(m, i));
    assert UnderWay(m, passed, i) by {
      UnderWayIgnoresPc(m, begun, i, passed.pc);
    }
    AttemptCommits(m, passed, i, a);
    LuckyAdds(m, s, 4, CheckLength(m, i));
    LuckyAdds(m, s, 4 + CheckLength(m, i), 4);
  }

  lemma UnderWayIgnoresPc(m: Mission, s: Sys, i: nat, pc: Pc)
    requires UnderWay(m, s, i)
    ensures UnderWay(m, s.(pc := pc), i)
  {
  }

  /** From the moment the checkpoint is lost, three steps lead into another attempt at the same task. */
  lemma LostCheckpointRetries(m: Mission, s: Sys)
    requires Inv(m, s) && s.pc.Recorded? && s.disk.status.PAUSING?
    ensures var i := s.disk.index;
            var next := Lucky(m, s, 3);
            && Ready(m, next, i) && next.branch == s.branch && next.made == s.made && next.tries == s.tries
            && next.pc == Trying(i, Attempts(s.mem.events, i) + 1)
  {
    hide CommitsUpTo, Attempts;
    var s1 := ExecStep(m, s, GOOD);
    var s2 := ExecStep(m, s1, GOOD);
    var s3 := ExecStep(m, s2, GOOD);
    assert s1.pc.Beginning? && s2.pc == Looping(s.disk.index);
    hide ExecStep;
    assert Lucky(m, s, 3) == Lucky(m, s1, 2) == Lucky(m, s2, 1) == Lucky(m, s3, 0);
  }

  /** The mission made another commit, of a task whose commit was already on top. */
  predicate CommittedAgain(m: Mission, before: Sys, after: Sys, i: nat) {
    after.made > before.made && |after.branch| == |before.branch| + 1 && EndsWithTwice(m, after.branch, i)
  }

  /** A checkpoint lost while the task has an attempt left: some continuation commits the same task twice in a row. */
  lemma LostCheckpointCommitsTwice(m: Mission, s: Sys, action: Action)
    requires Inv(m, s) && LosesCheckpoint(s, action)
    requires Attempts(s.mem.events, s.disk.index) < m.maxAttempts
    ensures exists schedule :: CommittedAgain(m, s, Run(m, Next(m, s, action), schedule), s.disk.index)
  {
    var i := s.disk.index;
    var k := 2 + AttemptLength(m, i);
    LostCheckpointRetries(m, s);
    var retrying := Lucky(m, s, 3);
    AttemptRuns(m, retrying, i, Attempts(s.mem.events, i) + 1);
    LuckyAdds(m, s, 3, AttemptLength(m, i));
    var lost := Next(m, s, action);
    assert lost == ExecStep(m, s, GOOD);
    assert Lucky(m, s, k + 1) == Lucky(m, lost, k);
    LuckyIsRun(m, lost, k);
    hide Lucky, LuckySchedule, ExecStep, Next, CommitsUpTo, Attempts, Run;
    assert Trunk(s) == s.branch;
    assert CommittedAgain(m, s, Run(m, lost, LuckySchedule(k)), i);
  }

  /** With no attempt left, the executor can only give up; the record stays PAUSING until it is stopped or escalated. */
  predicate OutOfAttempts(m: Mission, s: Sys) {
    if s.disk.status.PAUSING? then
      match s.pc
      case Off => true
      case PauseRecovery => true
      case Beginning => s.disk.index < |m.tasks| && Attempts(s.mem.events, s.disk.index) >= m.maxAttempts
      case Looping(i) => i < |m.tasks| && Attempts(s.mem.events, i) >= m.maxAttempts
      case Trying(i, a) => a > m.maxAttempts
      case Blocking => true
      case _ => false
    else (s.disk.status.STOPPED? || s.disk.status.HUMAN_REQUIRED?) && !s.pc.Checkpointing?
  }

  lemma OutOfAttemptsStays(m: Mission, s: Sys, action: Action)
    requires OutOfAttempts(m, s)
    ensures OutOfAttempts(m, Next(m, s, action)) && Next(m, s, action).made == s.made
  {
    hide Attempts, Provenance;
    if !s.disk.status.PAUSING? {
      OwnerStep(m, s, action);
    }
  }

  lemma {:induction false} OutOfAttemptsNeverCommits(m: Mission, s: Sys, schedule: seq<Action>)
    requires OutOfAttempts(m, s)
    ensures Run(m, s, schedule).made == s.made
    decreases |schedule|
  {
    hide Next, OutOfAttempts;
    if schedule != [] {
      OutOfAttemptsStays(m, s, schedule[0]);
      OutOfAttemptsNeverCommits(m, Next(m, s, schedule[0]), schedule[1..]);
    }
  }

  lemma LostWithoutAttempts(m: Mission, s: Sys, action: Action)
    requires Inv(m, s) && LosesCheckpoint(s, action)
    requires Attempts(s.mem.events, s.disk.index) >= m.maxAttempts
    ensures OutOfAttempts(m, Next(m, s, action)) && Next(m, s, action).made == s.made
  {
    hide CommitsUpTo, Attempts;
  }

  /** Exactly when a lost checkpoint does harm: while the task still has an attempt left. */
  lemma LostCheckpointHarmsExactly(m: Mission, s: Sys, action: Action)
    requires Inv(m, s) && LosesCheckpoint(s, action)
    ensures (exists schedule :: CommittedAgain(m, s, Run(m, Next(m, s, action), schedule), s.disk.index))
            <==> Attempts(s.mem.events, s.disk.index) < m.maxAttempts
  {
    hide Next, Run, Inv, OutOfAttempts, EndsWithTwice;
    if Attempts(s.mem.events, s.disk.index) < m.maxAttempts {
      LostCheckpointCommitsTwice(m, s, action);
    } else {
      LostWithoutAttempts(m, s, action);
      forall schedule: seq<Action>
        ensures Run(m, Next(m, s, action), schedule).made == s.made
      {
        OutOfAttemptsNeverCommits(m, Next(m, s, action), schedule);
      }
    }
  }

  predicate EndsWithTwice(m: Mission, branch: Branch, i: nat) {
    && i < |m.tasks| && |branch| >= 2
    && branch[|branch| - 2] == branch[|branch| - 1] == CommitFor(m, i)
  }

  // ----- exactly once, unless a lost checkpoint leaves an attempt -----------------------------

  /** The branch is the base, then the commits of the first `n` tasks in order, then only foreign ones. */
  predicate CarriesTasks(m: Mission, branch: Branch, n: nat) {
    && n <= |m.tasks| && |m.base| + n <= |branch|
    && branch[..|m.base| + n] == m.base + CommitsUpTo(m, n)
    && forall k | |m.base| + n <= k < |branch| :: branch[k].ForeignCommit?
  }

  predicate InOnce(m: Mission, branch: Branch) {
    forall j, k | |m.base| <= j < k < |branch| ::
      branch[j].TaskCommit? && branch[k].TaskCommit? ==> branch[j].taskNo < branch[k].taskNo
  }

  lemma BranchShape(m: Mission, s: Sys)
    requires OnTrunk(m, s) && InOrder(m, s)
    ensures CarriesTasks(m, s.branch, s.disk.index) || CarriesTasks(m, s.branch, s.disk.index + 1)
    ensures InOnce(m, s.branch)
  {
    var n := if Trunk(s) == s.disk.head then s.disk.index else s.disk.index + 1;
    if Trunk(s) != s.disk.head {
      CommitsGrow(m, s.disk.index);
    }
    assert Trunk(s) == m.base + CommitsUpTo(m, n);
    assert s.branch[..|m.base| + n] == Trunk(s);
    forall k | |m.base| <= k < |m.base| + n
      ensures s.branch[k] == CommitFor(m, k - |m.base|)
    {
      assert s.branch[k] == Trunk(s)[k];
    }
  }

  /** A lost checkpoint that leads into another attempt. */
  predicate Retries(m: Mission, s: Sys, action: Action) {
    LosesCheckpoint(s, action) && Attempts(s.mem.events, s.disk.index) < m.maxAttempts
  }

  predicate NeverRetries(m: Mission, s: Sys, schedule: seq<Action>)
    decreases |schedule|
  {
    schedule == [] || (!Retries(m, s, schedule[0]) && NeverRetries(m, Next(m, s, schedule[0]), schedule[1..]))
  }

  /** The branch is in order, and either nothing was lost or nothing can be committed any more. */
  predicate Tidy(m: Mission, s: Sys) {
    InOrder(m, s) && OnTrunk(m, s) && (Inv(m, s) || OutOfAttempts(m, s))
  }

  /** Checkpoint, branch and started attempts are as they were. */
  predicate Still(s: Sys, next: Sys) {
    && next.disk.index == s.disk.index && next.disk.head == s.disk.head
    && next.branch == s.branch && next.foreign == s.foreign && next.tries == s.tries
  }

  lemma HaltedStartsStill(m: Mission, s: Sys, i: nat, a: nat, interrupted: bool, luck: Luck)
    requires s.disk.status.Halted()
    ensures Still(s, InspectStep(m, s, interrupted, luck)) && Still(s, BeginStep(s)) && Still(s, LoopStep(m, s, i))
    ensures Still(s, TryStep(m, s, i, a)) && Still(s, StartStep(s, i, a)) && Still(s, CommitStep(m, s, i, luck))
  {
    hide Attempts, Provenance, Reconciled;
  }

  lemma HaltedAttemptStill(m: Mission, s: Sys, i: nat, a: nat, b: bool, snap: Record, luck: Luck)
    requires s.disk.status.Halted()
    ensures Still(s, ProposeStep(s, i, a, luck)) && Still(s, MeterStep(s, i, a, snap, luck))
    ensures Still(s, EditStep(s, i, a, luck)) && Still(s, CheckStep(m, s, i, a, luck))
    ensures Still(s, TestStep(s, i, a, luck)) && Still(s, JudgeStep(s, i, a, b)) && Still(s, RaiseStep(s, i, a, b))
    ensures Still(s, NoteStep(s, i, a, b, snap)) && forall paused :: Still(s, FailStep(s, i, a, paused))
  {
  }

  /** Over a halted record the executor, wherever it stands, moves nothing. */
  lemma HaltedStill(m: Mission, s: Sys, luck: Luck)
    requires s.disk.status.Halted() && !s.pc.Checkpointing?
    ensures Still(s, ExecStep(m, s, luck))
  {
    hide InspectStep, BeginStep, LoopStep, StartStep, CommitStep, CheckpointStep;
    hide TryStep, ProposeStep, MeterStep, EditStep, CheckStep, TestStep, JudgeStep, FailStep, NoteStep, RaiseStep;
    match s.pc {
      case Opened(interrupted) => HaltedStartsStill(m, s, 0, 0, interrupted, luck);
      case Beginning => HaltedStartsStill(m, s, 0, 0, false, luck);
      case Looping(i) => HaltedStartsStill(m, s, i, 0, false, luck);
      case Trying(i, a) => HaltedStartsStill(m, s, i, a, false, luck);
      case Starting(i, a) => HaltedStartsStill(m, s, i, a, false, luck);
      case Committing(i) => HaltedStartsStill(m, s, i, 0, false, luck);
      case Proposing(i, a) => HaltedAttemptStill(m, s, i, a, false, s.disk, luck);
      case Metering(i, a, snap) => HaltedAttemptStill(m, s, i, a, false, snap, luck);
      case Editing(i, a) => HaltedAttemptStill(m, s, i, a, false, s.disk, luck);
      case Checking(i, a) => HaltedAttemptStill(m, s, i, a, false, s.disk, luck);
      case Testing(i, a) => HaltedAttemptStill(m, s, i, a, false, s.disk, luck);
      case Judging(i, a, safe) => HaltedAttemptStill(m, s, i, a, safe, s.disk, luck);
      case Failing(i, a) => HaltedAttemptStill(m, s, i, a, false, s.disk, luck);
      case Noting(i, a, safe, snap) => HaltedAttemptStill(m, s, i, a, safe, snap, luck);
      case Raised(i, a, edited) => HaltedAttemptStill(m, s, i, a, edited, s.disk, luck);
      case RaisedFailing(i, a, edited) => HaltedAttemptStill(m, s, i, a, edited, s.disk, luck);
      case _ =>
    }
  }

  lemma OutOfAttemptsStill(m: Mission, s: Sys, luck: Luck)
    requires OutOfAttempts(m, s)
    ensures Still(s, ExecStep(m, s, luck))
  {
    if s.disk.status.Halted() {
      HaltedStill(m, s, luck);
    } else {
      hide Attempts, InspectStep, StartStep, CommitStep, CheckpointStep;
      hide ProposeStep, MeterStep, EditStep, CheckStep, TestStep, JudgeStep, FailStep, NoteStep, RaiseStep;
    }
  }

  /** No step but somebody else's commit touches a branch on which nothing can be committed any more. */
  lemma OutOfAttemptsKeepsBranch(m: Mission, s: Sys, action: Action)
    requires OutOfAttempts(m, s) && OnTrunk(m, s) && InOrder(m, s)
    ensures OnTrunk(m, Next(m, s, action)) && InOrder(m, Next(m, s, action))
  {
    hide OutOfAttempts, ExecStep, CommitsUpTo;
    var next := Next(m, s, action);
    if action.Exec? {
      OutOfAttemptsStill(m, s, action.luck);
    }
    assert Trunk(next) == Trunk(s);
  }

  lemma TidyStep(m: Mission, s: Sys, action: Action)
    requires Tidy(m, s) && !Retries(m, s, action)
    ensures Tidy(m, Next(m, s, action))
  {
    hide Next, OutOfAttempts, Attempts, OnTrunk, InOrder;
    if OutOfAttempts(m, s) {
      OutOfAttemptsStays(m, s, action);
      OutOfAttemptsKeepsBranch(m, s, action);
    } else if LosesCheckpoint(s, action) {
      LostWithoutAttempts(m, s, action);
      LosingKeepsBranch(m, s, action);
    } else {
      StepKeepsInv(m, s, action);
      StepKeepsOrder(m, s, action);
    }
  }

  lemma LosingKeepsBranch(m: Mission, s: Sys, action: Action)
    requires Inv(m, s) && InOrder(m, s) && LosesCheckpoint(s, action)
    ensures OnTrunk(m, Next(m, s, action)) && InOrder(m, Next(m, s, action))
  {
    hide CommitsUpTo, Attempts;
    assert Trunk(Next(m, s, action)) == Trunk(s);
  }

  lemma {:induction false} TidyRun(m: Mission, s: Sys, schedule: seq<Action>)
    requires Tidy(m, s) && NeverRetries(m, s, schedule)
    ensures Tidy(m, Run(m, s, schedule))
    decreases |schedule|
  {
    hide Next, Tidy, Retries;
    if schedule != [] {
      TidyStep(m, s, schedule[0]);
      TidyRun(m, Next(m, s, schedule[0]), schedule[1..]);
    }
  }

  /**
   In every run in which no lost checkpoint leaves an attempt, the mission branch is the base followed by one
   commit for each recorded task in order, at most one further commit - that of the next task - not yet
   recorded, and whatever somebody else put on top; so no task is ever committed twice.
  */
  lemma CommitsExactlyOnce(m: Mission, s: Sys, schedule: seq<Action>)
    requires Initial(m, s) && NeverRetries(m, s, schedule)
    ensures var end := Run(m, s, schedule);
            && end.disk.index <= |m.tasks| && end.disk.head == m.base + CommitsUpTo(m, end.disk.index)
            && (CarriesTasks(m, end.branch, end.disk.index) || CarriesTasks(m, end.branch, end.disk.index + 1))
            && InOnce(m, end.branch)
  {
    InitialInv(m, s);
    TidyRun(m, s, schedule);
    BranchShape(m, Run(m, s, schedule));
  }

  lemma {:induction false} KeptIsNeverRetried(m: Mission, s: Sys, schedule: seq<Action>)
    requires KeepsCheckpoints(m, s, schedule)
    ensures NeverRetries(m, s, schedule)
    decreases |schedule|
  {
    hide Next;
    if schedule != [] {
      KeptIsNeverRetried(m, Next(m, s, schedule[0]), schedule[1..]);
    }
  }

  // ----- the race happens ------------------------------------------------------------

  /** Nothing is done yet, `a` attempts at the first task are on record, and the mission may be opened. */
  predicate Idle(m: Mission, s: Sys, a: nat) {
    && |m.tasks| == |s.tries| > 0 && s.pc.Off? && !s.dirty && s.foreign == 0 && s.branch == m.base
    && s.disk == Record(PENDING, 0, a, m.base, [])
  }

  lemma FirstAttempt(m: Mission, s: Sys, a: nat)
    requires Idle(m, s, a)
    ensures var next := Lucky(m, OpenStep(s), 3);
            && Ready(m, next, 0) && next.pc == Trying(0, a + 1) && next.branch == s.branch && !next.dirty
            && next.disk == s.disk.(status := RUNNING) && next.foreign == 0 && next.tries == s.tries
  {
    var s1 := OpenStep(s);
    var s2 := ExecStep(m, s1, GOOD);
    var s3 := ExecStep(m, s2, GOOD);
    var s4 := ExecStep(m, s3, GOOD);
    assert s1.pc == Opened(false) && s2.pc.Beginning? && s3.pc == Looping(0);
    hide ExecStep;
    assert Lucky(m, s1, 3) == Lucky(m, s2, 2) == Lucky(m, s3, 1) == Lucky(m, s4, 0);
  }

  /** Commit the first task, crash before its checkpoint, restart, and stop before recovery writes. */
  function CrashSchedule(m: Mission): seq<Action> {
    [Open] + LuckySchedule(3 + AttemptLength(m, 0)) + [Crash, Open, Exec(GOOD)]
  }

  lemma {:induction false} RunConcat(m: Mission, s: Sys, p: seq<Action>, q: seq<Action>)
    ensures Run(m, s, p + q) == Run(m, Run(m, s, p), q)
    decreases |p|
  {
    hide Next;
    if p == [] {
      assert p + q == q;
    } else {
      assert (p + q)[1..] == p[1..] + q;
      RunConcat(m, Next(m, s, p[0]), p[1..], q);
    }
  }

  lemma {:induction false} LuckyNeverPauses(k: nat)
    ensures PauseCmd !in LuckySchedule(k)
  {
    if k > 0 {
      LuckyNeverPauses(k - 1);
    }
  }

  lemma AfterCrash(m: Mission, s: Sys)
    requires UnderWay(m, s, 0) && s.pc == Checkpointing(0) && !s.dirty && s.disk.status.RUNNING?
    requires s.disk.index == 0 && s.branch == s.disk.head + [CommitFor(m, 0)]
    ensures var end := Run(m, s, [Crash, Open, Exec(GOOD)]);
            end.pc.Recorded? && end.disk == s.disk && end.mem == Reconciled(s.disk, s.branch) && end.branch == s.branch
  {
    var s1 := Next(m, s, Crash);
    var s2 := Next(m, s1, Open);
    assert Provenance(m, s2.mem, s2.branch);
    var s3 := Next(m, s2, Exec(GOOD));
    assert s2.pc == Opened(true) && s3.pc.Recorded?;
    hide Next;
    var plan := [Crash, Open, Exec(GOOD)];
    assert plan[1..] == [Open, Exec(GOOD)] && plan[1..][1..] == [Exec(GOOD)];
    assert Run(m, s, plan) == Run(m, s1, [Open, Exec(GOOD)]) == Run(m, s2, [Exec(GOOD)]) == Run(m, s3, []);
  }

  lemma FirstCommit(m: Mission, s: Sys, a: nat)
    requires Idle(m, s, a) && a < m.maxAttempts
    ensures var next := Run(m, s, [Open] + LuckySchedule(3 + AttemptLength(m, 0)));
            && UnderWay(m, next, 0) && next.pc == Checkpointing(0) && !next.dirty
            && next.branch == s.branch + [CommitFor(m, 0)]
            && next.disk == s.disk.(status := RUNNING, attempt := a + 1, events := [AttemptNote(0, a + 1)])
  {
    var k := AttemptLength(m, 0);
    FirstAttempt(m, s, a);
    AttemptRuns(m, Lucky(m, OpenStep(s), 3), 0, a + 1);
    LuckyAdds(m, OpenStep(s), 3, k);
    LuckyIsRun(m, OpenStep(s), 3 + k);
    hide Lucky, LuckySchedule, ExecStep;
    RunConcat(m, s, [Open], LuckySchedule(3 + k));
    assert Run(m, Next(m, s, Open), []) == Next(m, s, Open) == Run(m, s, [Open]);
    hide Run;
  }

  lemma OneAttemptNoted(a: nat)
    ensures Attempts([AttemptNote(0, a)], 0) == Attempts([AttemptNote(0, a), CommitNote(0)], 0) == 1
  {
    assert [AttemptNote(0, a), CommitNote(0)][..1] == [AttemptNote(0, a)] && [AttemptNote(0, a)][..0] == [];
    assert Attempts([AttemptNote(0, a), CommitNote(0)], 0) == Attempts([AttemptNote(0, a)], 0);
  }

  /** A pause after that crash schedule meets the recovered commit before its checkpoint is written. */
  lemma PauseFindsRecovery(m: Mission, s: Sys, a: nat)
    requires Idle(m, s, a) && a < m.maxAttempts
    ensures PauseCmd !in CrashSchedule(m)
    ensures var end := Run(m, s, CrashSchedule(m) + [PauseCmd]);
            && LosesCheckpoint(end, Exec(GOOD)) && end.disk.index == 0 && end.disk.attempt == a + 1
            && Attempts(end.disk.events, 0) == Attempts(end.mem.events, 0) == 1
            && end.disk.head == m.base && end.branch == m.base + [CommitFor(m, 0)]
  {
    FirstCommit(m, s, a);
    var committed := Run(m, s, [Open] + LuckySchedule(3 + AttemptLength(m, 0)));
    AfterCrash(m, committed);
    RunConcat(m, s, [Open] + LuckySchedule(3 + AttemptLength(m, 0)), [Crash, Open, Exec(GOOD)]);
    var recovered := Run(m, s, CrashSchedule(m));
    LuckyNeverPauses(3 + AttemptLength(m, 0));
    hide ExecStep, LuckySchedule;
    RunConcat(m, s, CrashSchedule(m), [PauseCmd]);
    assert Run(m, Next(m, recovered, PauseCmd), []) == Next(m, recovered, PauseCmd) == Run(m, recovered, [PauseCmd]);
    hide Run;
    OneAttemptNoted(a + 1);
    assert recovered.mem.events == [AttemptNote(0, a + 1), CommitNote(0)];
  }

  /** So every mission has a run into the race, in which nothing was lost before. */
  lemma PauseMeetsRecovery(m: Mission, s: Sys)
    requires Initial(m, s) && !s.dirty && |m.tasks| > 0 && m.maxAttempts >= 1
    ensures var end := Run(m, s, CrashSchedule(m) + [PauseCmd]);
            && KeepsCheckpoints(m, s, CrashSchedule(m)) && Inv(m, end)
            && LosesCheckpoint(end, Exec(GOOD)) && end.disk.index == 0 && Attempts(end.mem.events, 0) == 1
            && |end.branch| == |m.base| + 1
  {
    PauseFindsRecovery(m, s, 0);
    var recovered := Run(m, s, CrashSchedule(m));
    NoPauseIsSafe(m, s, CrashSchedule(m));
    hide KeepsCheckpoints, Inv, ExecStep, CrashSchedule;
    StepKeepsInv(m, recovered, PauseCmd);
    RunConcat(m, s, CrashSchedule(m), [PauseCmd]);
    assert Run(m, Next(m, recovered, PauseCmd), []) == Next(m, recovered, PauseCmd) == Run(m, recovered, [PauseCmd]);
  }

  lemma NoPauseIsSafe(m: Mission, s: Sys, schedule: seq<Action>)
    requires Initial(m, s) && PauseCmd !in schedule
    ensures KeepsCheckpoints(m, s, schedule) && Inv(m, Run(m, s, schedule))
  {
    InitialInv(m, s);
    hide Inv;
    NoPauseNoLoss(m, s, schedule);
    RunKeepsInv(m, s, schedule);
  }

  /** The same task's commit twice, both above the base. */
  predicate TwiceOnTop(m: Mission, branch: Branch, i: nat) {
    |branch| >= |m.base| + 2 && EndsWithTwice(m, branch, i)
  }

  /** So exactly-once does fail: with two attempts allowed, some run of every mission commits its first task twice. */
  lemma ExactlyOnceCanFail(m: Mission, s: Sys)
    requires Initial(m, s) && !s.dirty && |m.tasks| > 0 && m.maxAttempts >= 2
    ensures exists schedule :: TwiceOnTop(m, Run(m, s, schedule).branch, 0)
  {
    PauseMeetsRecovery(m, s);
    var lost := CrashSchedule(m) + [PauseCmd];
    var end := Run(m, s, lost);
    LostCheckpointCommitsTwice(m, end, Exec(GOOD));
    hide Next, Inv;
    var rest :| CommittedAgain(m, end, Run(m, Next(m, end, Exec(GOOD)), rest), 0);
    assert [Exec(GOOD)][1..] == [] && Run(m, end, [Exec(GOOD)]) == Run(m, Next(m, end, Exec(GOOD)), []);
    RunConcat(m, end, [Exec(GOOD)], rest);
    RunConcat(m, s, lost, [Exec(GOOD)] + rest);
    assert TwiceOnTop(m, Run(m, s, lost + ([Exec(GOOD)] + rest)).branch, 0);
  }
}
