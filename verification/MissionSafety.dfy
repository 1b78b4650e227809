/** Owner control over every schedule, and the invariant behind exactly-once commits and bounded attempts. */
module MissionSafety {
  import opened Wrappers
  import opened MissionState
  import opened MissionProtocol

  // ----- owner control wins every race -----------------------------------------

  /** Between commit and checkpoint the control lock is held, so the record cannot have changed. */
  predicate Locked(s: Sys) {
    s.pc.Checkpointing? ==> s.mem == s.disk && !s.disk.status.Halted()
  }

  /** An executor step leaves halted records halted as they are, and edits or commits only otherwise. */
  predicate Respects(s: Sys, next: Sys) {
    && Locked(next)
    && (s.disk.status.Halted() ==>
          next.disk.status == s.disk.status && next.edits == s.edits && next.made == s.made)
  }

  lemma StartupRespects(m: Mission, s: Sys, interrupted: bool, luck: Luck)
    ensures Respects(s, OpenStep(s)) || !s.pc.Off?
    ensures Respects(s, InspectStep(m, s, interrupted, luck))
    ensures Respects(s, BeginStep(s))
  {
    hide Provenance, Reconciled;
  }

  lemma AttemptRespects(m: Mission, s: Sys, i: nat, a: nat, b: bool, snap: Record, luck: Luck)
    ensures Respects(s, StartStep(s, i, a)) && Respects(s, MeterStep(s, i, a, snap, luck))
    ensures Respects(s, EditStep(s, i, a, luck)) && Respects(s, TestStep(s, i, a, luck))
    ensures Respects(s, NoteStep(s, i, a, b, snap))
  {
  }

  lemma ExecRespects(m: Mission, s: Sys, luck: Luck)
    requires Locked(s)
    ensures Respects(s, ExecStep(m, s, luck))
  {
    hide InspectStep, BeginStep, StartStep, MeterStep, EditStep, TestStep, NoteStep, Attempts;
    match s.pc {
      case Opened(interrupted) => StartupRespects(m, s, interrupted, luck);
      case Beginning => StartupRespects(m, s, false, luck);
      case Starting(i, a) => AttemptRespects(m, s, i, a, false, s.disk, luck);
      case Metering(i, a, snap) => AttemptRespects(m, s, i, a, false, snap, luck);
      case Editing(i, a) => AttemptRespects(m, s, i, a, false, s.disk, luck);
      case Testing(i, a) => AttemptRespects(m, s, i, a, false, s.disk, luck);
      case Noting(i, a, safe, snap) => AttemptRespects(m, s, i, a, safe, snap, luck);
      case _ =>
    }
  }

  /** Only `stop` or `resume` moves a paused record; nothing moves a stopped or escalated one. */
  lemma OwnerStep(m: Mission, s: Sys, action: Action)
    requires Locked(s)
    ensures var next := Next(m, s, action);
            && Locked(next)
            && (s.disk.status.STOPPED? || s.disk.status.HUMAN_REQUIRED? ==> next.disk.status == s.disk.status)
            && (s.disk.status.PAUSED? ==>
                  next.disk.status == match action
                                      case StopCmd => STOPPED
                                      case ResumeCmd(gitClean) =>
                                        if !s.pc.Off? then PAUSED
                                        else if gitClean && !s.dirty then PENDING else HUMAN_REQUIRED
                                      case _ => PAUSED)
            && (s.disk.status.Halted() ==> next.edits == s.edits && next.made == s.made)
  {
    hide ExecStep, InspectStep;
    match action {
      case Open => if s.pc.Off? { StartupRespects(m, s, false, Luck(false, false, false, false)); }
      case Exec(luck) => ExecRespects(m, s, luck);
      case _ =>
    }
  }

  /** After STOPPED or HUMAN_REQUIRED is durable it stays, and no further edit or commit is made. */
  lemma {:induction false} StoppedForGood(m: Mission, s: Sys, schedule: seq<Action>)
    requires Locked(s) && (s.disk.status.STOPPED? || s.disk.status.HUMAN_REQUIRED?)
    ensures var end := Run(m, s, schedule);
            end.disk.status == s.disk.status && end.edits == s.edits && end.made == s.made
    decreases |schedule|
  {
    if schedule != [] {
      OwnerStep(m, s, schedule[0]);
      StoppedForGood(m, Next(m, s, schedule[0]), schedule[1..]);
    }
  }

  /** While nobody resumes it, a paused mission stays halted and its worktree and branch are left alone. */
  lemma {:induction false} PausedUntilResumed(m: Mission, s: Sys, schedule: seq<Action>)
    requires Locked(s) && s.disk.status.PAUSED?
    requires forall a | a in schedule :: !a.ResumeCmd?
    ensures var end := Run(m, s, schedule);
            && end.edits == s.edits && end.made == s.made
            && end.disk.status == if StopCmd in schedule then STOPPED else PAUSED
    decreases |schedule|
  {
    if schedule != [] {
      OwnerStep(m, s, schedule[0]);
      var next := Next(m, s, schedule[0]);
      if next.disk.status.STOPPED? {
        StoppedForGood(m, next, schedule[1..]);
      } else {
        PausedUntilResumed(m, next, schedule[1..]);
      }
    }
  }

  /** An executor takes up exactly the missions that wait or were left running; all others it leaves alone. */
  lemma OpensExactly(s: Sys)
    requires s.pc.Off?
    ensures s.disk.status in {COMPLETED, BLOCKED, PAUSED, STOPPED, HUMAN_REQUIRED, PLANNING} ==> OpenStep(s) == s
    ensures s.disk.status in {PENDING, RUNNING} ==>
              OpenStep(s) == s.(mem := s.disk, pc := Opened(s.disk.status == RUNNING))
    ensures s.disk.status == PAUSING ==> OpenStep(s) == s.(mem := s.disk, pc := PauseRecovery)
  {
  }

  /** A pause is granted to missions that wait, plan or run; running ones stop only where the executor looks. */
  lemma PausesExactly(r: Record)
    ensures r.status in {RUNNING, PAUSING} ==> Pause(r) == Ok(r.(status := PAUSING))
    ensures r.status in {PENDING, PLANNING, PAUSED} ==> Pause(r) == Ok(r.(status := PAUSED))
    ensures r.status in {STOPPED, HUMAN_REQUIRED, BLOCKED, COMPLETED} ==> Pause(r).Err?
  {
  }

  /** A stop is granted to all but escalated and completed missions; a resume to paused and blocked ones alone. */
  lemma StopsAndResumesExactly(r: Record, clean: bool)
    ensures Stop(r) == if r.status in {HUMAN_REQUIRED, COMPLETED} then Err(NotPermitted) else Ok(r.(status := STOPPED))
    ensures r.status in {PAUSED, BLOCKED} ==> Resume(r, clean).status == if clean then PENDING else HUMAN_REQUIRED
    ensures Resume(r, clean) == r.(status := Resume(r, clean).status)
    ensures r.status !in {PAUSED, BLOCKED} ==> Resume(r, clean) == r
  {
  }

  /** A run that was cut short and left no commit behind is never taken up again by itself: it escalates. */
  lemma InterruptedRunEscalates(m: Mission, s: Sys, luck: Luck)
    requires s.pc.Off? && s.disk.status.RUNNING? && s.branch == s.disk.head && !luck.other
    ensures var inspected := ExecStep(m, OpenStep(s), luck);
            var written := ExecStep(m, inspected, luck);
            written.pc.Off? && written == s.(disk := s.disk.(status := HUMAN_REQUIRED), mem := written.mem)
  {
    hide Attempts, Provenance, LoopStep, TryStep, StartStep, ProposeStep, MeterStep, EditStep, CheckStep, TestStep;
    hide JudgeStep, FailStep, NoteStep, RaiseStep, CommitStep, CheckpointStep;
  }

  /** The next attempt comes after all those the record counts and all those noted, and the copy counts up to it. */
  lemma NextAttemptFollows(m: Mission, s: Sys, i: nat)
    requires i < |m.tasks|
    ensures var next := LoopStep(m, s, i);
            && next.pc.Trying? && next.pc.i == i && next.mem.attempt + 1 == next.pc.a
            && (next.pc.a == s.mem.attempt + 1 || next.pc.a == Attempts(s.mem.events, i) + 1)
            && next.pc.a > s.mem.attempt && next.pc.a > Attempts(s.mem.events, i)
  {
    hide Attempts;
  }

  /** The commits of a mission name it, count its tasks from one, and carry the task each was made for. */
  lemma CommitsAreNumbered(m: Mission, n: nat)
    requires n <= |m.tasks|
    ensures |CommitsUpTo(m, n)| == n
    ensures forall k | 0 <= k < n :: CommitsUpTo(m, n)[k] == TaskCommit(m.id, k + 1, m.tasks[k])
  {
  }

  // ----- exactly-once commits and bounded attempts ---------------------------------

  /** The branch without the commits somebody else put on top. */
  function Trunk(s: Sys): Branch
    requires s.foreign <= |s.branch|
  {
    s.branch[..|s.branch| - s.foreign]
  }

  /** One commit of the current task sits on the checkpoint, not yet recorded. */
  predicate Pending(m: Mission, s: Sys)
    requires s.foreign <= |s.branch|
  {
    s.disk.index < |m.tasks| && Trunk(s) == s.disk.head + [CommitFor(m, s.disk.index)]
  }

  predicate OnTrunk(m: Mission, s: Sys) {
    && s.foreign <= |s.branch| && s.disk.index <= |m.tasks|
    && (Trunk(s) == s.disk.head || Pending(m, s))
    && forall k | |s.branch| - s.foreign <= k < |s.branch| :: s.branch[k].ForeignCommit?
  }

  predicate Follows(s: Sys, r: Record) {
    r.index == s.disk.index && r.head == s.disk.head && r.attempt >= s.disk.attempt
  }

  /** The executor may work: nothing unrecorded, nothing foreign, its own copy in step. */
  predicate Level(s: Sys) {
    s.foreign == 0 && s.branch == s.disk.head && Follows(s, s.mem)
  }

  predicate AtTask(m: Mission, s: Sys, i: nat, started: nat) {
    Level(s) && i == s.disk.index && i < |m.tasks| == |s.tries| && s.tries[i] <= started
  }

  /** A copy the executor itself read earlier in this attempt. */
  predicate Snapshot(s: Sys, r: Record) {
    r.index == s.disk.index && r.head == s.disk.head && r.attempt == s.disk.attempt
  }

  predicate PcOk(m: Mission, s: Sys)
    requires s.foreign <= |s.branch|
  {
    match s.pc
    case Off => true
    case PauseRecovery => true
    case Finishing => true
    case Opened(_) => Follows(s, s.mem)
    case Escalating => Follows(s, s.mem)
    case Blocking => Follows(s, s.mem)
    case Recorded =>
      s.foreign == 0 && Pending(m, s) && s.mem.index == s.disk.index + 1 && s.mem.head == s.branch
      && s.mem.attempt == 0
    case Beginning => Follows(s, s.mem) && (s.disk.status.Halted() || Level(s))
    case Looping(i) => Level(s) && i == s.disk.index
    case Trying(i, a) => a > 0 && AtTask(m, s, i, a - 1)
    case Starting(i, a) => 0 < a <= m.maxAttempts && AtTask(m, s, i, a - 1)
    case Proposing(i, a) => AtTask(m, s, i, a)
    case Metering(i, a, snap) => AtTask(m, s, i, a) && Snapshot(s, snap)
    case Editing(i, a) => AtTask(m, s, i, a)
    case Checking(i, a) => AtTask(m, s, i, a)
    case Testing(i, a) => AtTask(m, s, i, a)
    case Judging(i, a, _) => AtTask(m, s, i, a)
    case Failing(i, a) => AtTask(m, s, i, a)
    case Reading(i, a, _) => AtTask(m, s, i, a)
    case Noting(i, a, _, snap) => AtTask(m, s, i, a) && Snapshot(s, snap)
    case Raised(i, a, _) => AtTask(m, s, i, a)
    case RaisedFailing(i, a, _) => AtTask(m, s, i, a)
    case Committing(i) => AtTask(m, s, i, m.maxAttempts)
    case Checkpointing(i) => s.foreign == 0 && Pending(m, s) && s.mem == s.disk && i == s.disk.index
  }

  predicate Bounded(m: Mission, s: Sys)
    requires s.foreign <= |s.branch|
  {
    && |s.tries| == |m.tasks|
    && (forall j | 0 <= j < |s.tries| :: s.tries[j] <= m.maxAttempts)
    && (forall j | s.disk.index < j < |s.tries| :: s.tries[j] == 0)
    && (s.disk.index < |s.tries| && Trunk(s) == s.disk.head ==> s.tries[s.disk.index] <= s.disk.attempt)
  }

  predicate Inv(m: Mission, s: Sys) {
    OnTrunk(m, s) && PcOk(m, s) && Bounded(m, s)
  }

  /** The recorded head is the base and then one commit for each recorded task, in order. */
  predicate InOrder(m: Mission, s: Sys) {
    s.disk.index <= |m.tasks| && s.disk.head == m.base + CommitsUpTo(m, s.disk.index)
  }

  /** The one race the merge rule loses: a pause request lands between reconciliation and its checkpoint. */
  predicate LosesCheckpoint(s: Sys, action: Action) {
    action.Exec? && s.pc.Recorded? && s.disk.status.PAUSING?
  }

  predicate KeepsCheckpoints(m: Mission, s: Sys, schedule: seq<Action>)
    decreases |schedule|
  {
    schedule == []
    || (!LosesCheckpoint(s, schedule[0]) && KeepsCheckpoints(m, Next(m, s, schedule[0]), schedule[1..]))
  }

  lemma InitialInv(m: Mission, s: Sys)
    requires Initial(m, s)
    ensures Inv(m, s) && InOrder(m, s)
  {
  }

  lemma CommitsGrow(m: Mission, n: nat)
    requires n < |m.tasks|
    ensures CommitsUpTo(m, n + 1) == CommitsUpTo(m, n) + [CommitFor(m, n)]
  {
  }

  /** A foreign commit on top, or one too many, never passes for the task's own. */
  lemma ProvenanceMeansPending(m: Mission, s: Sys)
    requires OnTrunk(m, s) && Follows(s, s.mem) && Provenance(m, s.mem, s.branch)
    ensures s.foreign == 0 && Pending(m, s)
  {
    assert s.branch[|s.branch| - 1].TaskCommit?;
    assert Trunk(s) == s.branch;
  }

  /** A change of the record that keeps its checkpoint and does not lower its attempt keeps the invariant. */
  lemma SameCheckpointKeepsInv(m: Mission, s: Sys, next: Sys)
    requires Inv(m, s)
    requires next.branch == s.branch && next.foreign == s.foreign && next.tries == s.tries
    requires Follows(s, next.disk) && PcOk(m, next)
    ensures Inv(m, next)
  {
    hide PcOk, CommitsUpTo;
  }

  lemma InspectKeepsInv(m: Mission, s: Sys, interrupted: bool, luck: Luck)
    requires Inv(m, s) && s.pc == Opened(interrupted)
    ensures Inv(m, InspectStep(m, s, interrupted, luck))
  {
    hide CommitsUpTo, OnTrunk, Bounded;
    var next := InspectStep(m, s, interrupted, luck);
    assert OnTrunk(m, s) && Follows(s, s.mem);
    InspectKeepsPc(m, s, interrupted, luck);
    hide InspectStep, Provenance, PcOk;
    SameCheckpointKeepsInv(m, s, next);
  }

  lemma InspectKeepsPc(m: Mission, s: Sys, interrupted: bool, luck: Luck)
    requires OnTrunk(m, s) && Follows(s, s.mem) && s.pc == Opened(interrupted)
    ensures var next := InspectStep(m, s, interrupted, luck);
            && next.branch == s.branch && next.foreign == s.foreign && next.tries == s.tries
            && next.disk == s.disk && next.foreign <= |next.branch| && PcOk(m, next)
  {
    hide CommitsUpTo;
    if s.branch != s.mem.head {
      if Provenance(m, s.mem, s.branch) {
        ProvenanceMeansPending(m, s);
      }
    } else {
      HeadMeansLevel(m, s);
    }
  }

  lemma HeadMeansLevel(m: Mission, s: Sys)
    requires OnTrunk(m, s) && Follows(s, s.mem) && s.branch == s.disk.head
    ensures Level(s)
  {
    assert |Trunk(s)| == |s.branch| - s.foreign;
  }

  lemma RecordedKeepsInv(m: Mission, s: Sys)
    requires Inv(m, s) && s.pc.Recorded? && !s.disk.status.PAUSING?
    ensures Inv(m, Put(s, s.mem).(pc := Beginning))
  {
    var next := Put(s, s.mem);
    assert Trunk(next) == s.branch;
  }

  lemma CheckpointKeepsInv(m: Mission, s: Sys, i: nat)
    requires Inv(m, s) && s.pc == Checkpointing(i)
    ensures Inv(m, CheckpointStep(s, i))
  {
    assert Trunk(s) == s.branch;
    assert Trunk(CheckpointStep(s, i)) == s.branch;
  }

  lemma CommitKeepsInv(m: Mission, s: Sys, i: nat, luck: Luck)
    requires Inv(m, s) && s.pc == Committing(i)
    ensures Inv(m, CommitStep(m, s, i, luck))
  {
    hide CommitsUpTo;
    var next := CommitStep(m, s, i, luck);
    assert Trunk(next) == next.branch;
  }

  lemma StartKeepsInv(m: Mission, s: Sys, i: nat, a: nat)
    requires Inv(m, s) && s.pc == Starting(i, a)
    ensures Inv(m, StartStep(s, i, a))
  {
    hide CommitsUpTo;
  }

  lemma LoopKeepsInv(m: Mission, s: Sys, i: nat)
    requires Inv(m, s) && s.pc == Looping(i)
    ensures Inv(m, LoopStep(m, s, i))
  {
    hide CommitsUpTo, Attempts;
    assert Trunk(s) == s.branch;
  }

  predicate InAttempt(pc: Pc) {
    pc.Trying? || pc.Proposing? || pc.Metering? || pc.Editing? || pc.Checking? || pc.Testing? || pc.Judging?
    || pc.Failing? || pc.Reading? || pc.Noting? || pc.Raised? || pc.RaisedFailing?
  }

  /** Within an attempt only the record's status, events and attempt number can change. */
  lemma AttemptKeepsCheckpoint(m: Mission, s: Sys, luck: Luck)
    requires s.foreign <= |s.branch| && PcOk(m, s) && InAttempt(s.pc)
    ensures var next := ExecStep(m, s, luck);
            && next.branch == s.branch && next.foreign == s.foreign && next.tries == s.tries
            && Follows(s, next.disk)
  {
    hide CommitsUpTo, Attempts, InspectStep, BeginStep, StartStep, LoopStep, CommitStep, CheckpointStep;
    hide JudgeStep, FailStep, NoteStep, RaiseStep;
    if s.pc.Judging? || s.pc.Failing? || s.pc.Reading? || s.pc.Noting? || s.pc.Raised? || s.pc.RaisedFailing? {
      AttemptEndKeepsCheckpoint(m, s, luck);
    }
  }

  lemma AttemptEndKeepsCheckpoint(m: Mission, s: Sys, luck: Luck)
    requires s.foreign <= |s.branch| && PcOk(m, s)
    requires s.pc.Judging? || s.pc.Failing? || s.pc.Reading? || s.pc.Noting? || s.pc.Raised? || s.pc.RaisedFailing?
    ensures var next := ExecStep(m, s, luck);
            && next.branch == s.branch && next.foreign == s.foreign && next.tries == s.tries
            && Follows(s, next.disk)
  {
    hide CommitsUpTo, Attempts, InspectStep, BeginStep, StartStep, LoopStep, CommitStep, CheckpointStep;
    hide TryStep, ProposeStep, MeterStep, EditStep, CheckStep, TestStep;
  }

  lemma AttemptKeepsPc(m: Mission, s: Sys, luck: Luck)
    requires s.foreign <= |s.branch| && PcOk(m, s) && InAttempt(s.pc) && |s.tries| == |m.tasks|
    requires forall j | 0 <= j < |s.tries| :: s.tries[j] <= m.maxAttempts
    ensures var next := ExecStep(m, s, luck);
            next.foreign <= |next.branch| && PcOk(m, next)
  {
    if s.pc.Judging? || s.pc.Failing? || s.pc.Reading? || s.pc.Noting? || s.pc.Raised? || s.pc.RaisedFailing? {
      AttemptEndKeepsPc(m, s, luck);
    } else {
      hide CommitsUpTo, Attempts, InspectStep, BeginStep, StartStep, LoopStep, CommitStep, CheckpointStep;
      hide JudgeStep, FailStep, NoteStep, RaiseStep;
      AttemptKeepsCheckpoint(m, s, luck);
    }
  }

  lemma AttemptEndKeepsPc(m: Mission, s: Sys, luck: Luck)
    requires s.foreign <= |s.branch| && PcOk(m, s) && |s.tries| == |m.tasks|
    requires s.pc.Judging? || s.pc.Failing? || s.pc.Reading? || s.pc.Noting? || s.pc.Raised? || s.pc.RaisedFailing?
    requires forall j | 0 <= j < |s.tries| :: s.tries[j] <= m.maxAttempts
    ensures var next := ExecStep(m, s, luck);
            next.foreign <= |next.branch| && PcOk(m, next)
  {
    hide CommitsUpTo, Attempts, InspectStep, BeginStep, StartStep, LoopStep, CommitStep, CheckpointStep;
    hide TryStep, ProposeStep, MeterStep, EditStep, CheckStep, TestStep;
    AttemptKeepsCheckpoint(m, s, luck);
  }

  lemma AttemptKeepsInv(m: Mission, s: Sys, luck: Luck)
    requires Inv(m, s) && InAttempt(s.pc)
    ensures Inv(m, ExecStep(m, s, luck))
  {
    hide ExecStep, PcOk, CommitsUpTo;
    AttemptKeepsCheckpoint(m, s, luck);
    AttemptKeepsPc(m, s, luck);
    SameCheckpointKeepsInv(m, s, ExecStep(m, s, luck));
  }

  /** The executor's remaining steps: leaving, giving up, finishing, entering the loop. */
  lemma LeavingKeepsInv(m: Mission, s: Sys, luck: Luck)
    requires Inv(m, s)
    requires s.pc.Off? || s.pc.PauseRecovery? || s.pc.Escalating? || s.pc.Beginning? || s.pc.Blocking?
             || s.pc.Finishing?
    ensures Inv(m, ExecStep(m, s, luck))
  {
    hide CommitsUpTo;
    var next := ExecStep(m, s, luck);
    assert PcOk(m, next);
    SameCheckpointKeepsInv(m, s, next);
  }

  lemma ExecKeepsInv(m: Mission, s: Sys, luck: Luck)
    requires Inv(m, s) && !LosesCheckpoint(s, Exec(luck))
    ensures Inv(m, ExecStep(m, s, luck))
  {
    hide Inv, InspectStep, LoopStep, StartStep, CommitStep, CheckpointStep, Put;
    match s.pc {
      case Opened(interrupted) => InspectKeepsInv(m, s, interrupted, luck);
      case Recorded => RecordedKeepsInv(m, s);
      case Looping(i) => LoopKeepsInv(m, s, i);
      case Starting(i, a) => StartKeepsInv(m, s, i, a);
      case Committing(i) => CommitKeepsInv(m, s, i, luck);
      case Checkpointing(i) => CheckpointKeepsInv(m, s, i);
      case _ =>
        if InAttempt(s.pc) {
          AttemptKeepsInv(m, s, luck);
        } else {
          LeavingKeepsInv(m, s, luck);
        }
    }
  }

  lemma ForeignKeepsInv(m: Mission, s: Sys, tag: nat)
    requires Inv(m, s) && s.pc.Off?
    ensures Inv(m, Next(m, s, Foreign(tag)))
  {
    hide CommitsUpTo;
    assert Trunk(Next(m, s, Foreign(tag))) == Trunk(s);
  }

  /** A pending change of status leaves the executor's place in order. */
  lemma StatusKeepsPc(m: Mission, s: Sys, status: Status)
    requires Inv(m, s) && !s.pc.Checkpointing? && (s.pc.Off? || !s.disk.status.Halted() || status.Halted())
    ensures PcOk(m, s.(disk := s.disk.(status := status)))
  {
    hide CommitsUpTo, Bounded;
  }

  lemma OpenKeepsPc(m: Mission, s: Sys)
    requires Inv(m, s)
    ensures PcOk(m, OpenStep(s)) && PcOk(m, Halt(s))
  {
    hide CommitsUpTo, Bounded, OnTrunk;
  }

  lemma OwnerKeepsInv(m: Mission, s: Sys, action: Action)
    requires Inv(m, s) && !action.Exec? && !action.Foreign?
    ensures Inv(m, Next(m, s, action))
  {
    hide ExecStep, PcOk, CommitsUpTo, OnTrunk, Bounded;
    var next := Next(m, s, action);
    OpenKeepsPc(m, s);
    if !s.pc.Checkpointing? && (s.pc.Off? || !s.disk.status.Halted() || next.disk.status.Halted()) {
      StatusKeepsPc(m, s, next.disk.status);
    }
    assert s.foreign <= |s.branch| by {
      TrunkFits(m, s);
    }
    if s.pc.Off? {
      SoilKeepsPc(m, s);
    }
    SameCheckpointKeepsInv(m, s, next);
  }

  lemma TrunkFits(m: Mission, s: Sys)
    requires OnTrunk(m, s)
    ensures s.foreign <= |s.branch|
  {
  }

  lemma SoilKeepsPc(m: Mission, s: Sys)
    requires Inv(m, s) && s.pc.Off?
    ensures PcOk(m, s.(dirty := true))
  {
    hide CommitsUpTo, Bounded, OnTrunk;
  }

  lemma StepKeepsInv(m: Mission, s: Sys, action: Action)
    requires Inv(m, s) && !LosesCheckpoint(s, action)
    ensures Inv(m, Next(m, s, action))
  {
    hide ExecStep, Inv;
    match action {
      case Foreign(tag) =>
        if s.pc.Off? {
          ForeignKeepsInv(m, s, tag);
        }
      case Exec(luck) => ExecKeepsInv(m, s, luck);
      case _ => OwnerKeepsInv(m, s, action);
    }
  }

  lemma {:induction false} RunKeepsInv(m: Mission, s: Sys, schedule: seq<Action>)
    requires Inv(m, s) && KeepsCheckpoints(m, s, schedule)
    ensures Inv(m, Run(m, s, schedule))
    decreases |schedule|
  {
    if schedule != [] {
      StepKeepsInv(m, s, schedule[0]);
      RunKeepsInv(m, Next(m, s, schedule[0]), schedule[1..]);
    }
  }

  predicate MovesAsOne(m: Mission, s: Sys, next: Sys)
    requires s.foreign <= |s.branch|
  {
    next.disk.index != s.disk.index || next.disk.head != s.disk.head ==>
      && next.disk.index == s.disk.index + 1 && Pending(m, s) && s.foreign == 0
      && next.disk.head == next.branch == s.branch
  }

  lemma RecordingMovesAsOne(m: Mission, s: Sys, luck: Luck)
    requires OnTrunk(m, s) && PcOk(m, s) && (s.pc.Recorded? || s.pc.Checkpointing?)
    ensures MovesAsOne(m, s, ExecStep(m, s, luck))
  {
    hide CommitsUpTo;
    assert s.foreign == 0 ==> Trunk(s) == s.branch;
  }

  lemma OtherStepKeepsCheckpoint(m: Mission, s: Sys, luck: Luck)
    requires s.foreign <= |s.branch| && PcOk(m, s) && !InAttempt(s.pc) && !s.pc.Recorded? && !s.pc.Checkpointing?
    ensures var next := ExecStep(m, s, luck);
            next.disk.index == s.disk.index && next.disk.head == s.disk.head
  {
    hide CommitsUpTo, Attempts, Provenance, LoopStep, InspectStep;
    hide TryStep, ProposeStep, MeterStep, EditStep, CheckStep, TestStep, JudgeStep, FailStep, NoteStep, RaiseStep;
    match s.pc {
      case Looping(i) => ReadOnlySteps(m, s, i, false, luck);
      case Opened(interrupted) => ReadOnlySteps(m, s, 0, interrupted, luck);
      case _ =>
    }
  }

  lemma ReadOnlySteps(m: Mission, s: Sys, i: nat, interrupted: bool, luck: Luck)
    ensures LoopStep(m, s, i).disk == s.disk && InspectStep(m, s, interrupted, luck).disk == s.disk
  {
    hide Attempts, Provenance, Reconciled;
  }

  /** The record's index and head advance together, and only onto a branch they then describe. */
  lemma CheckpointMovesAsOne(m: Mission, s: Sys, action: Action)
    requires Inv(m, s)
    ensures MovesAsOne(m, s, Next(m, s, action))
  {
    hide ExecStep, Pending, CommitsUpTo;
    if action.Exec? {
      if InAttempt(s.pc) {
        AttemptKeepsCheckpoint(m, s, action.luck);
      } else {
        if s.pc.Recorded? || s.pc.Checkpointing? {
          RecordingMovesAsOne(m, s, action.luck);
        } else {
          OtherStepKeepsCheckpoint(m, s, action.luck);
        }
      }
    }
  }

  /** So the recorded head stays in order, whatever the step. */
  lemma StepKeepsOrder(m: Mission, s: Sys, action: Action)
    requires Inv(m, s) && InOrder(m, s)
    ensures InOrder(m, Next(m, s, action))
  {
    hide Next, CommitsUpTo, Bounded, PcOk;
    CheckpointMovesAsOne(m, s, action);
    if Next(m, s, action).disk.index != s.disk.index {
      CommitsGrow(m, s.disk.index);
      assert Trunk(s) == s.branch;
      assert m.base + CommitsUpTo(m, s.disk.index + 1)
          == (m.base + CommitsUpTo(m, s.disk.index)) + [CommitFor(m, s.disk.index)];
    }
  }

  lemma PendingProvenance(m: Mission, s: Sys)
    requires OnTrunk(m, s) && Pending(m, s)
    ensures Provenance(m, s.disk, s.branch) <==> s.foreign == 0
    ensures s.branch != s.disk.head
  {
    hide CommitsUpTo;
    assert |Trunk(s)| == |s.branch| - s.foreign;
    if s.foreign == 0 {
      assert Trunk(s) == s.branch;
    } else {
      assert s.branch[|s.branch| - 1].ForeignCommit?;
    }
  }

  /**
   After a crash between commit and checkpoint, a restart records that commit or escalates; it starts no
   attempt. A record the crash left PAUSING always escalates.
  */
  lemma RestartRecordsOrEscalates(m: Mission, s: Sys, luck: Luck)
    requires Inv(m, s) && s.pc.Off? && Pending(m, s)
    requires s.disk.status.PENDING? || s.disk.status.RUNNING? || s.disk.status.PAUSING?
    ensures var inspected := ExecStep(m, OpenStep(s), luck);
            var written := ExecStep(m, inspected, luck);
            if luck.sound && luck.passes && !luck.other && !s.dirty && s.foreign == 0 && !s.disk.status.PAUSING? then
              written.disk.index == s.disk.index + 1 && written.disk.head == s.branch
              && written.disk.attempt == 0 && written.disk.status.PENDING? && written.pc.Beginning?
            else
              && written.pc.Off? && written.disk.index == s.disk.index && written.disk.head == s.disk.head
              && written.disk.status == if luck.other && !s.disk.status.PAUSING? then BLOCKED else HUMAN_REQUIRED
  {
    hide CommitsUpTo, Attempts, Bounded, PcOk;
    PendingProvenance(m, s);
    hide Inv, OnTrunk, Provenance, Pending;
    hide BeginStep, LoopStep, TryStep, StartStep, ProposeStep, MeterStep, EditStep, CheckStep, TestStep, JudgeStep;
    hide FailStep, NoteStep, RaiseStep, CommitStep, CheckpointStep;
  }

  // ----- a mission nobody pauses loses no checkpoint -----------------------------------

  predicate NoPausing(s: Sys) {
    && !s.disk.status.PAUSING? && !s.mem.status.PAUSING?
    && (s.pc.Metering? ==> !s.pc.snap.status.PAUSING?)
    && (s.pc.Noting? ==> !s.pc.snap.status.PAUSING?)
  }

  lemma AttemptNeverPauses(m: Mission, s: Sys, luck: Luck)
    requires NoPausing(s) && InAttempt(s.pc)
    ensures NoPausing(ExecStep(m, s, luck))
  {
    hide Attempts, InspectStep, BeginStep, StartStep, LoopStep, CommitStep, CheckpointStep;
  }

  lemma StartUpNeverPauses(m: Mission, s: Sys, i: nat, interrupted: bool, luck: Luck)
    requires NoPausing(s) && !InAttempt(s.pc)
    ensures NoPausing(InspectStep(m, s, interrupted, luck)) && NoPausing(LoopStep(m, s, i)) && NoPausing(BeginStep(s))
  {
    hide Attempts, Provenance;
  }

  lemma CommitNeverPauses(m: Mission, s: Sys, i: nat, a: nat, luck: Luck)
    requires NoPausing(s) && !InAttempt(s.pc)
    ensures NoPausing(StartStep(s, i, a)) && NoPausing(CommitStep(m, s, i, luck)) && NoPausing(CheckpointStep(s, i))
  {
    hide CommitFor;
  }

  lemma OtherStepNeverPauses(m: Mission, s: Sys, luck: Luck)
    requires NoPausing(s) && !InAttempt(s.pc)
    ensures NoPausing(ExecStep(m, s, luck))
  {
    hide InspectStep, LoopStep, BeginStep, StartStep, CommitStep, CheckpointStep;
    hide TryStep, ProposeStep, MeterStep, EditStep, CheckStep, TestStep, JudgeStep, FailStep, NoteStep, RaiseStep;
    match s.pc {
      case Opened(interrupted) => StartUpNeverPauses(m, s, 0, interrupted, luck);
      case Looping(i) => StartUpNeverPauses(m, s, i, false, luck);
      case Beginning => StartUpNeverPauses(m, s, 0, false, luck);
      case Starting(i, a) => CommitNeverPauses(m, s, i, a, luck);
      case Committing(i) => CommitNeverPauses(m, s, i, 0, luck);
      case Checkpointing(i) => CommitNeverPauses(m, s, i, 0, luck);
      case _ =>
    }
  }

  lemma NoPauseStep(m: Mission, s: Sys, action: Action)
    requires NoPausing(s) && !action.PauseCmd?
    ensures NoPausing(Next(m, s, action)) && !LosesCheckpoint(s, action)
  {
    hide ExecStep;
    if action.Exec? {
      if InAttempt(s.pc) {
        AttemptNeverPauses(m, s, action.luck);
      } else {
        OtherStepNeverPauses(m, s, action.luck);
      }
    }
  }

  /** PAUSING is only ever requested: without a pause command every run keeps its checkpoints. */
  lemma {:induction false} NoPauseNoLoss(m: Mission, s: Sys, schedule: seq<Action>)
    requires NoPausing(s) && PauseCmd !in schedule
    ensures KeepsCheckpoints(m, s, schedule) && NoPausing(Run(m, s, schedule))
    decreases |schedule|
  {
    hide Next;
    if schedule != [] {
      NoPauseStep(m, s, schedule[0]);
      NoPauseNoLoss(m, Next(m, s, schedule[0]), schedule[1..]);
    }
  }
}
