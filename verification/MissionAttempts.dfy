/**
 How many attempts a task is really given: started attempts against the attempt number and the events on
 record, through crashes, pauses, recoveries and lost checkpoints.
*/
module MissionAttempts {
  import opened Wrappers
  import opened MissionState
  import opened MissionProtocol
  import opened MissionSafety
  import opened MissionRace

  // ----- what the record says about the attempts started -----------------------------------

  /** Nothing leaves these. */
  predicate Closed(status: Status) { status.STOPPED? || status.HUMAN_REQUIRED? }

  predicate Going(status: Status) { status.RUNNING? || status.PAUSING? }

  /** The record but for its status. */
  predicate Copy(s: Sys, r: Record) { r.(status := s.disk.status) == s.disk }

  ghost predicate NoneAhead(s: Sys) { forall j: nat | s.disk.index < j :: Attempts(s.disk.events, j) == 0 }

  /** The attempt number on record is the number of started attempts, of which not all need be noted. */
  ghost predicate RecordCounts(m: Mission, s: Sys)
    requires s.foreign <= |s.branch|
  {
    && NoneAhead(s)
    && (s.disk.index < |s.tries| ==>
          var i := s.disk.index;
          && Attempts(s.disk.events, i) <= s.tries[i]
          && (Trunk(s) == s.disk.head || Going(s.disk.status) ==> s.tries[i] == s.disk.attempt)
          && (Trunk(s) != s.disk.head && Going(s.disk.status) ==> Attempts(s.disk.events, i) >= 1))
  }

  predicate InLoop(s: Sys, r: Record) { Copy(s, r) && Going(s.disk.status) && Going(r.status) }

  /** Attempt `a` is the last one started, and not yet noted. */
  predicate Unnoted(s: Sys, i: nat, a: nat) {
    InLoop(s, s.mem) && i < |s.tries| && a == s.tries[i] && Attempts(s.disk.events, i) < a
  }

  predicate PcCounts(s: Sys) {
    match s.pc
    case Off => true
    case PauseRecovery => true
    case Finishing => true
    case Opened(_) => Copy(s, s.mem)
    case Escalating => Copy(s, s.mem) && s.mem.status.HUMAN_REQUIRED?
    case Blocking => Copy(s, s.mem) && s.mem.status.BLOCKED?
    case Recorded => s.mem == Reconciled(s.disk, s.branch)
    case Beginning => Copy(s, s.mem)
    case Looping(i) => InLoop(s, s.mem)
    case Trying(i, a) => InLoop(s, s.mem) && i < |s.tries| && a == s.tries[i] + 1
    case Starting(i, a) => InLoop(s, s.mem) && i < |s.tries| && a == s.tries[i] + 1
    case Proposing(i, a) => Unnoted(s, i, a)
    case Metering(i, a, snap) => Unnoted(s, i, a) && InLoop(s, snap)
    case Editing(i, a) => Unnoted(s, i, a)
    case Checking(i, a) => Unnoted(s, i, a)
    case Testing(i, a) => Unnoted(s, i, a)
    case Judging(i, a, _) => Unnoted(s, i, a)
    case Failing(i, a) => Unnoted(s, i, a)
    case Reading(i, a, _) => Unnoted(s, i, a)
    case Noting(i, a, _, snap) => Unnoted(s, i, a) && InLoop(s, snap)
    case Raised(i, a, _) => Unnoted(s, i, a)
    case RaisedFailing(i, a, _) => Unnoted(s, i, a)
    case Committing(i) => InLoop(s, s.mem) && Attempts(s.disk.events, i) >= 1
    case Checkpointing(i) => InLoop(s, s.mem)
  }

  ghost predicate Counted(m: Mission, s: Sys) {
    && s.foreign <= |s.branch|
    && if Closed(s.disk.status) then !s.pc.Checkpointing? else RecordCounts(m, s) && PcCounts(s)
  }

  ghost predicate Whole(m: Mission, s: Sys) { Inv(m, s) && Counted(m, s) }

  lemma AttemptsSnoc(events: seq<Note>, note: Note, task: nat)
    ensures Attempts(events + [note], task)
         == Attempts(events, task) + if note.AttemptNote? && note.task == task then 1 else 0
  {
    assert (events + [note])[..|events|] == events;
  }

  lemma NoneAheadSnoc(s: Sys, next: Sys, note: Note)
    requires NoneAhead(s) && next.disk.events == s.disk.events + [note] && next.disk.index >= s.disk.index
    requires note.AttemptNote? ==> note.task <= next.disk.index
    ensures NoneAhead(next)
  {
    forall j: nat | next.disk.index < j ensures Attempts(next.disk.events, j) == 0 {
      AttemptsSnoc(s.disk.events, note, j);
    }
  }

  lemma InitialCounts(m: Mission, s: Sys)
    requires Initial(m, s)
    ensures Whole(m, s)
  {
    InitialInv(m, s);
  }

  /** A change of status alone. */
  lemma StatusCounts(m: Mission, s: Sys, next: Sys)
    requires Counted(m, s) && !Closed(s.disk.status)
    requires next == s.(disk := s.disk.(status := next.disk.status))
    requires Going(next.disk.status) <==> Going(s.disk.status)
    ensures Counted(m, next)
  {
    hide Attempts;
    assert Trunk(next) == Trunk(s);
  }

  /** Nothing on record, on the branch or in the counts changes: only the executor's place. */
  lemma OnlyPcCounts(m: Mission, s: Sys, next: Sys)
    requires Counted(m, s)
    requires next.disk == s.disk && next.branch == s.branch && next.foreign == s.foreign && next.tries == s.tries
    requires if Closed(s.disk.status) then !next.pc.Checkpointing? else PcCounts(next)
    ensures Counted(m, next)
  {
    hide Attempts, PcCounts;
    assert Trunk(next) == Trunk(s);
  }

  // ----- every step keeps the count --------------------------------------------------------

  lemma InspectCounts(m: Mission, s: Sys, interrupted: bool, luck: Luck)
    requires Whole(m, s) && !Closed(s.disk.status) && s.pc == Opened(interrupted)
    ensures Counted(m, InspectStep(m, s, interrupted, luck))
  {
    hide Attempts, Inv, CommitFor;
    OnlyPcCounts(m, s, InspectStep(m, s, interrupted, luck));
  }

  lemma RecordedCounts(m: Mission, s: Sys)
    requires Whole(m, s) && !Closed(s.disk.status) && s.pc.Recorded? && !s.disk.status.PAUSING?
    ensures Counted(m, Put(s, s.mem).(pc := Beginning))
  {
    hide Attempts, CommitFor;
    var next := Put(s, s.mem).(pc := Beginning);
    assert Trunk(s) == s.branch && Trunk(next) == s.branch;
    NoneAheadSnoc(s, next, CommitNote(s.disk.index));
    AttemptsSnoc(s.disk.events, CommitNote(s.disk.index), next.disk.index);
  }

  lemma BeginCounts(m: Mission, s: Sys)
    requires Whole(m, s) && !Closed(s.disk.status) && s.pc.Beginning?
    ensures Counted(m, BeginStep(s))
  {
    hide Attempts, CommitFor;
    assert !s.disk.status.Halted() ==> Trunk(s) == s.branch;
    assert Trunk(BeginStep(s)) == Trunk(s);
  }

  lemma LoopCounts(m: Mission, s: Sys, i: nat)
    requires Whole(m, s) && !Closed(s.disk.status) && s.pc == Looping(i)
    ensures Counted(m, LoopStep(m, s, i))
  {
    hide Attempts, CommitFor;
    assert Trunk(s) == s.branch;
    OnlyPcCounts(m, s, LoopStep(m, s, i));
  }

  lemma StartCounts(m: Mission, s: Sys, i: nat, a: nat)
    requires Whole(m, s) && !Closed(s.disk.status) && s.pc == Starting(i, a)
    ensures Counted(m, StartStep(s, i, a))
  {
    hide Attempts, CommitFor;
    assert Trunk(StartStep(s, i, a)) == Trunk(s);
  }

  lemma NoteCounts(m: Mission, s: Sys, i: nat, a: nat, safe: bool, snap: Record)
    requires Whole(m, s) && !Closed(s.disk.status) && s.pc == Noting(i, a, safe, snap)
    ensures Counted(m, NoteStep(s, i, a, safe, snap))
  {
    hide Attempts, CommitFor;
    var next := NoteStep(s, i, a, safe, snap);
    assert Trunk(next) == Trunk(s) == s.branch;
    NoneAheadSnoc(s, next, AttemptNote(i, a));
    AttemptsSnoc(s.disk.events, AttemptNote(i, a), i);
  }

  lemma FailCounts(m: Mission, s: Sys, i: nat, a: nat, paused: Status)
    requires Whole(m, s) && !Closed(s.disk.status) && (s.pc.Failing? || s.pc.RaisedFailing?)
    requires i == s.pc.i && a == s.pc.a && !Going(paused)
    ensures Counted(m, FailStep(s, i, a, paused))
  {
    hide Attempts, CommitFor;
    var next := FailStep(s, i, a, paused);
    assert Trunk(next) == Trunk(s) == s.branch;
    NoneAheadSnoc(s, next, AttemptNote(i, a));
    AttemptsSnoc(s.disk.events, AttemptNote(i, a), i);
  }

  lemma CommitCounts(m: Mission, s: Sys, i: nat, luck: Luck)
    requires Whole(m, s) && !Closed(s.disk.status) && s.pc == Committing(i)
    ensures Counted(m, CommitStep(m, s, i, luck))
  {
    hide Attempts, CommitFor;
    var next := CommitStep(m, s, i, luck);
    assert Trunk(s) == s.branch && Trunk(next) == next.branch;
  }

  lemma CheckpointCounts(m: Mission, s: Sys, i: nat)
    requires Whole(m, s) && !Closed(s.disk.status) && s.pc == Checkpointing(i)
    ensures Counted(m, CheckpointStep(s, i))
  {
    hide Attempts, CommitFor;
    var next := CheckpointStep(s, i);
    assert Trunk(next) == next.branch;
    NoneAheadSnoc(s, next, CommitNote(i));
    AttemptsSnoc(s.disk.events, CommitNote(i), i + 1);
  }

  predicate Reads(pc: Pc) {
    pc.Trying? || pc.Proposing? || pc.Editing? || pc.Checking? || pc.Judging? || pc.Reading? || pc.Raised?
  }

  lemma ReadCounts(m: Mission, s: Sys, luck: Luck)
    requires Whole(m, s) && !Closed(s.disk.status) && Reads(s.pc)
    ensures Counted(m, ExecStep(m, s, luck))
  {
    hide Attempts, CommitFor, Inv, Merge, InspectStep, BeginStep, StartStep, LoopStep, CommitStep, CheckpointStep;
    hide NoteStep, FailStep, MeterStep, TestStep, RecordCounts;
    ReadKeeps(m, s, luck);
    OnlyPcCounts(m, s, ExecStep(m, s, luck));
  }

  lemma ReadKeeps(m: Mission, s: Sys, luck: Luck)
    requires Reads(s.pc) && PcCounts(s)
    ensures var next := ExecStep(m, s, luck);
            && next.disk == s.disk && next.branch == s.branch && next.foreign == s.foreign && next.tries == s.tries
            && PcCounts(next)
  {
    hide Attempts, TryStep, ProposeStep, EditStep, CheckStep, JudgeStep, RaiseStep;
    match s.pc {
      case Trying(i, a) => TryReads(m, s, i, a);
      case Proposing(i, a) => AttemptReads(m, s, i, a, luck);
      case Editing(i, a) => AttemptReads(m, s, i, a, luck);
      case Checking(i, a) => AttemptReads(m, s, i, a, luck);
      case Judging(i, a, _) => AttemptReads(m, s, i, a, luck);
      case Reading(_, _, _) =>
      case Raised(i, a, _) => AttemptReads(m, s, i, a, luck);
    }
  }

  lemma TryReads(m: Mission, s: Sys, i: nat, a: nat)
    requires s.pc == Trying(i, a) && PcCounts(s)
    ensures var next := TryStep(m, s, i, a);
            && next.disk == s.disk && next.branch == s.branch && next.foreign == s.foreign && next.tries == s.tries
            && PcCounts(next)
  {
    hide Attempts;
  }

  predicate SameBut(s: Sys, next: Sys) {
    && next.disk == s.disk && next.branch == s.branch && next.foreign == s.foreign && next.tries == s.tries
    && next.mem == s.mem
  }

  lemma AttemptReads(m: Mission, s: Sys, i: nat, a: nat, luck: Luck)
    requires Unnoted(s, i, a)
    ensures SameBut(s, ProposeStep(s, i, a, luck)) && PcCounts(ProposeStep(s, i, a, luck))
    ensures SameBut(s, EditStep(s, i, a, luck)) && PcCounts(EditStep(s, i, a, luck))
    ensures SameBut(s, CheckStep(m, s, i, a, luck)) && PcCounts(CheckStep(m, s, i, a, luck))
    ensures forall b :: SameBut(s, JudgeStep(s, i, a, b)) && PcCounts(JudgeStep(s, i, a, b))
    ensures forall b :: SameBut(s, RaiseStep(s, i, a, b)) && PcCounts(RaiseStep(s, i, a, b))
  {
    hide Attempts;
  }

  lemma MeterCounts(m: Mission, s: Sys, i: nat, a: nat, snap: Record, luck: Luck)
    requires Whole(m, s) && !Closed(s.disk.status) && s.pc == Metering(i, a, snap)
    ensures Counted(m, MeterStep(s, i, a, snap, luck))
  {
    hide Attempts, CommitFor;
    assert Trunk(MeterStep(s, i, a, snap, luck)) == Trunk(s);
  }

  lemma TestCounts(m: Mission, s: Sys, i: nat, a: nat, luck: Luck)
    requires Whole(m, s) && !Closed(s.disk.status) && s.pc == Testing(i, a)
    ensures Counted(m, TestStep(s, i, a, luck))
  {
    hide Attempts, CommitFor;
    assert Trunk(TestStep(s, i, a, luck)) == Trunk(s);
  }

  lemma LeavingCounts(m: Mission, s: Sys, luck: Luck)
    requires Whole(m, s) && !Closed(s.disk.status)
    requires s.pc.Off? || s.pc.PauseRecovery? || s.pc.Escalating? || s.pc.Blocking? || s.pc.Finishing?
    ensures Counted(m, ExecStep(m, s, luck))
  {
    hide Attempts, CommitFor;
    var next := ExecStep(m, s, luck);
    assert Trunk(next) == Trunk(s);
  }

  predicate Starts(pc: Pc) {
    pc.Opened? || pc.Recorded? || pc.Beginning? || pc.Looping? || pc.Committing? || pc.Checkpointing?
  }

  lemma StartsCounts(m: Mission, s: Sys, luck: Luck)
    requires Whole(m, s) && !Closed(s.disk.status) && Starts(s.pc) && !LosesCheckpoint(s, Exec(luck))
    ensures Counted(m, ExecStep(m, s, luck))
  {
    hide Inv, Counted, InspectStep, LoopStep, StartStep, CommitStep, CheckpointStep, Put, NoteStep, FailStep, BeginStep;
    hide MeterStep, TestStep, TryStep, ProposeStep, EditStep, CheckStep, JudgeStep, RaiseStep;
    match s.pc {
      case Opened(interrupted) => InspectCounts(m, s, interrupted, luck);
      case Recorded => RecordedCounts(m, s);
      case Beginning => BeginCounts(m, s);
      case Looping(i) => LoopCounts(m, s, i);
      case Committing(i) => CommitCounts(m, s, i, luck);
      case Checkpointing(i) => CheckpointCounts(m, s, i);
    }
  }

  lemma ExecCounts(m: Mission, s: Sys, luck: Luck)
    requires Whole(m, s) && !Closed(s.disk.status) && !LosesCheckpoint(s, Exec(luck))
    ensures Whole(m, ExecStep(m, s, luck))
  {
    ExecKeepsInv(m, s, luck);
    hide Inv, Counted, InspectStep, LoopStep, StartStep, CommitStep, CheckpointStep, Put, NoteStep, FailStep, BeginStep;
    hide MeterStep, TestStep, TryStep, ProposeStep, EditStep, CheckStep, JudgeStep, RaiseStep;
    if Starts(s.pc) {
      StartsCounts(m, s, luck);
    } else if Reads(s.pc) {
      ReadCounts(m, s, luck);
    } else {
      WritesCounts(m, s, luck);
    }
  }

  lemma WritesCounts(m: Mission, s: Sys, luck: Luck)
    requires Whole(m, s) && !Closed(s.disk.status) && !Starts(s.pc) && !Reads(s.pc)
    ensures Counted(m, ExecStep(m, s, luck))
  {
    hide Inv, Counted, InspectStep, LoopStep, StartStep, CommitStep, CheckpointStep, Put, NoteStep, FailStep, BeginStep;
    hide MeterStep, TestStep, TryStep, ProposeStep, EditStep, CheckStep, JudgeStep, RaiseStep;
    match s.pc {
      case Starting(i, a) => StartCounts(m, s, i, a);
      case Metering(i, a, snap) => MeterCounts(m, s, i, a, snap, luck);
      case Testing(i, a) => TestCounts(m, s, i, a, luck);
      case Noting(i, a, safe, snap) => NoteCounts(m, s, i, a, safe, snap);
      case Failing(i, a) => FailCounts(m, s, i, a, HUMAN_REQUIRED);
      case RaisedFailing(i, a, edited) => FailCounts(m, s, i, a, if edited then HUMAN_REQUIRED else PAUSED);
      case _ => LeavingCounts(m, s, luck);
    }
  }

  lemma OwnerCounts(m: Mission, s: Sys, action: Action)
    requires Whole(m, s) && !Closed(s.disk.status) && !action.Exec? && !action.Foreign?
    ensures Counted(m, Next(m, s, action))
  {
    hide Inv, ExecStep, RecordCounts;
    var next := Next(m, s, action);
    assert Trunk(next) == Trunk(s);
    if action.PauseCmd? || action.StopCmd? || action.ResumeCmd? {
      if !Closed(next.disk.status) {
        StatusCounts(m, s, next);
      }
    } else {
      SameCounts(m, s, next);
    }
  }

  lemma SameCounts(m: Mission, s: Sys, next: Sys)
    requires Counted(m, s) && !Closed(s.disk.status)
    requires next.disk == s.disk && next.branch == s.branch && next.foreign == s.foreign && next.tries == s.tries
    requires PcCounts(next)
    ensures Counted(m, next)
  {
    hide PcCounts;
    assert Trunk(next) == Trunk(s);
  }

  lemma StepCounts(m: Mission, s: Sys, action: Action)
    requires Whole(m, s) && !LosesCheckpoint(s, action)
    ensures Whole(m, Next(m, s, action))
  {
    StepKeepsInv(m, s, action);
    hide ExecStep, Inv, RecordCounts, PcCounts;
    if Closed(s.disk.status) {
      InvIsLocked(m, s);
      OwnerStep(m, s, action);
    } else {
      match action {
        case Foreign(tag) => ForeignCounts(m, s, tag);
        case Exec(luck) => ExecCounts(m, s, luck);
        case _ => OwnerCounts(m, s, action);
      }
    }
  }

  lemma ForeignCounts(m: Mission, s: Sys, tag: nat)
    requires Whole(m, s) && !Closed(s.disk.status)
    ensures Counted(m, Next(m, s, Foreign(tag)))
  {
    hide Inv;
    assert Trunk(Next(m, s, Foreign(tag))) == Trunk(s);
  }

  lemma InvIsLocked(m: Mission, s: Sys)
    requires Whole(m, s)
    ensures Locked(s)
  {
  }

  // ----- after a lost checkpoint ---------------------------------------------------------------

  /** The record but for its status and attempt number. */
  predicate Near(s: Sys, r: Record) { r.(status := s.disk.status, attempt := s.disk.attempt) == s.disk }

  /** The executor works under PAUSING on the task whose commit is already on top. */
  ghost predicate Again(m: Mission, s: Sys, i: nat) {
    && i == s.disk.index && i < |m.tasks| && s.foreign == 0 && s.branch == s.disk.head + [CommitFor(m, i)]
    && Near(s, s.mem) && NoneAhead(s) && i < |s.tries| && Attempts(s.disk.events, i) <= s.tries[i]
  }

  ghost predicate AgainUnnoted(m: Mission, s: Sys, i: nat) {
    Again(m, s, i) && i < |s.tries| && Attempts(s.disk.events, i) < s.tries[i]
  }

  /** If the record shows an attempt left, one is left. */
  predicate Affordable(m: Mission, s: Sys) {
    && s.disk.attempt == s.mem.attempt == 0 && s.disk.index < |s.tries|
    && (Attempts(s.disk.events, s.disk.index) < m.maxAttempts ==> s.tries[s.disk.index] < m.maxAttempts)
  }

  ghost predicate AgainAt(m: Mission, s: Sys) {
    match s.pc
    case Off => true
    case PauseRecovery => true
    case Blocking => true
    case Beginning => Again(m, s, s.disk.index) && Affordable(m, s)
    case Looping(i) => Again(m, s, i) && Affordable(m, s)
    case Trying(i, a) => Again(m, s, i) && (a <= m.maxAttempts ==> s.tries[i] < m.maxAttempts)
    case Starting(i, a) => Again(m, s, i) && s.tries[i] < m.maxAttempts
    case Proposing(i, a) => AgainUnnoted(m, s, i)
    case Metering(i, a, snap) => AgainUnnoted(m, s, i) && Near(s, snap)
    case Editing(i, a) => AgainUnnoted(m, s, i)
    case Checking(i, a) => AgainUnnoted(m, s, i)
    case Testing(i, a) => AgainUnnoted(m, s, i)
    case Judging(i, a, _) => AgainUnnoted(m, s, i)
    case Failing(i, a) => AgainUnnoted(m, s, i)
    case Reading(i, a, safe) => AgainUnnoted(m, s, i) && safe
    case Noting(i, a, safe, snap) => AgainUnnoted(m, s, i) && safe && snap.status.PAUSING?
    case Raised(i, a, _) => AgainUnnoted(m, s, i)
    case RaisedFailing(i, a, _) => AgainUnnoted(m, s, i)
    case Committing(i) => Again(m, s, i)
    case Checkpointing(i) =>
      i == s.disk.index && i < |m.tasks| && s.foreign == 0 && s.mem == s.disk && NoneAhead(s)
    case _ => false
  }

  predicate WithinLimit(m: Mission, s: Sys) {
    && |s.tries| == |m.tasks| && (forall j | 0 <= j < |s.tries| :: s.tries[j] <= m.maxAttempts)
  }

  /** Once a checkpoint is lost: at most one more attempt, and the executor leaves. */
  ghost predicate Lost(m: Mission, s: Sys) {
    && s.disk.status.PAUSING? && WithinLimit(m, s) && s.disk.index < |m.tasks|
    && (forall j | s.disk.index < j < |s.tries| :: s.tries[j] == 0) && AgainAt(m, s)
  }

  predicate Over(m: Mission, s: Sys) { Closed(s.disk.status) && !s.pc.Checkpointing? && WithinLimit(m, s) }

  /** What holds in every run that forgets no attempt. */
  ghost predicate Sane(m: Mission, s: Sys) { Whole(m, s) || Lost(m, s) || Over(m, s) }

  /** A lost checkpoint resets the record's attempt, the last one allowed, while not all attempts have been noted. */
  predicate Forgets(m: Mission, s: Sys, action: Action) {
    && LosesCheckpoint(s, action) && s.disk.attempt >= m.maxAttempts
    && Attempts(s.disk.events, s.disk.index) < m.maxAttempts
  }

  /** At that write the record's attempt number is still the number of attempts started. */
  lemma LosingWriteCounts(m: Mission, s: Sys, action: Action)
    requires Sane(m, s) && LosesCheckpoint(s, action)
    ensures Whole(m, s) && s.disk.index < |s.tries| && s.tries[s.disk.index] == s.disk.attempt
    ensures s.mem == Reconciled(s.disk, s.branch) && 1 <= Attempts(s.disk.events, s.disk.index) <= s.disk.attempt
  {
    hide Attempts, CommitFor;
  }

  lemma LosingIsLost(m: Mission, s: Sys, action: Action)
    requires Sane(m, s) && LosesCheckpoint(s, action) && !Forgets(m, s, action)
    ensures Lost(m, Next(m, s, action))
  {
    LosingWriteCounts(m, s, action);
    hide Attempts, CommitFor;
    var next := Next(m, s, action);
    assert Trunk(s) == s.branch;
    NoneAheadSnoc(s, next, CommitNote(s.disk.index));
    AttemptsSnoc(s.disk.events, CommitNote(s.disk.index), s.disk.index);
  }

  lemma LostBegin(m: Mission, s: Sys)
    requires Lost(m, s) && (s.pc.Beginning? || s.pc.Looping?)
    ensures s.pc.Beginning? ==> Lost(m, BeginStep(s))
    ensures s.pc.Looping? ==> Lost(m, LoopStep(m, s, s.pc.i))
  {
    hide Attempts, CommitFor;
  }

  lemma LostStart(m: Mission, s: Sys, luck: Luck)
    requires Lost(m, s) && (s.pc.Trying? || s.pc.Starting? || s.pc.Blocking? || s.pc.PauseRecovery? || s.pc.Off?)
    ensures Lost(m, ExecStep(m, s, luck)) || Over(m, ExecStep(m, s, luck))
  {
    hide Attempts, CommitFor, InspectStep, BeginStep, LoopStep, CommitStep, CheckpointStep, NoteStep, FailStep;
    hide MeterStep, TestStep, ProposeStep, EditStep, CheckStep, JudgeStep, RaiseStep;
  }

  lemma LostWork(m: Mission, s: Sys, luck: Luck)
    requires Lost(m, s)
    requires s.pc.Proposing? || s.pc.Metering? || s.pc.Editing? || s.pc.Checking? || s.pc.Testing?
    ensures Lost(m, ExecStep(m, s, luck)) || Over(m, ExecStep(m, s, luck))
  {
    hide Attempts, CommitFor, InspectStep, BeginStep, StartStep, LoopStep, CommitStep, CheckpointStep;
    hide NoteStep, FailStep, TryStep, JudgeStep, RaiseStep;
  }

  lemma LostJudge(m: Mission, s: Sys, luck: Luck)
    requires Lost(m, s) && (s.pc.Judging? || s.pc.Reading? || s.pc.Raised?)
    ensures Lost(m, ExecStep(m, s, luck))
  {
    hide Attempts, CommitFor, InspectStep, BeginStep, StartStep, LoopStep, CommitStep, CheckpointStep;
    hide NoteStep, FailStep, TryStep, MeterStep, TestStep, ProposeStep, EditStep, CheckStep;
  }

  lemma LostNote(m: Mission, s: Sys, i: nat, a: nat, safe: bool, snap: Record)
    requires Lost(m, s) && s.pc == Noting(i, a, safe, snap)
    ensures Lost(m, NoteStep(s, i, a, safe, snap))
  {
    hide Attempts, CommitFor;
    NoneAheadSnoc(s, NoteStep(s, i, a, safe, snap), AttemptNote(i, a));
    AttemptsSnoc(s.disk.events, AttemptNote(i, a), i);
  }

  /** Where the attempt ends without another commit, the record waits with its commit still unrecorded. */
  lemma UnrecordedIsWhole(m: Mission, s: Sys)
    requires WithinLimit(m, s) && s.pc.Off? && !Going(s.disk.status) && Again(m, s.(mem := s.disk), s.disk.index)
    requires forall j | s.disk.index < j < |s.tries| :: s.tries[j] == 0
    ensures Closed(s.disk.status) || Whole(m, s)
  {
    hide Attempts, CommitFor;
    assert Trunk(s) == s.branch != s.disk.head;
  }

  lemma LostFail(m: Mission, s: Sys, i: nat, a: nat, paused: Status)
    requires Lost(m, s) && (s.pc.Failing? || s.pc.RaisedFailing?) && i == s.pc.i && (paused.PAUSED? || Closed(paused))
    ensures Sane(m, FailStep(s, i, a, paused))
  {
    hide Attempts, CommitFor, Whole;
    var next := FailStep(s, i, a, paused);
    NoneAheadSnoc(s, next, AttemptNote(i, a));
    AttemptsSnoc(s.disk.events, AttemptNote(i, a), i);
    if !Closed(paused) {
      UnrecordedIsWhole(m, next);
    }
  }

  lemma LostCommit(m: Mission, s: Sys, i: nat, luck: Luck)
    requires Lost(m, s) && s.pc == Committing(i)
    ensures Sane(m, CommitStep(m, s, i, luck))
  {
    hide Attempts, CommitFor, Whole;
    var next := CommitStep(m, s, i, luck);
    if next.disk.status.BLOCKED? {
      UnrecordedIsWhole(m, next);
    }
  }

  lemma LostCheckpoint(m: Mission, s: Sys, i: nat)
    requires Lost(m, s) && s.pc == Checkpointing(i)
    ensures Sane(m, CheckpointStep(s, i))
  {
    hide Attempts, CommitFor, Lost, Over;
    LostMeans(m, s, i);
    var next := CheckpointStep(s, i);
    assert Trunk(next) == next.branch == s.branch;
    NoneAheadSnoc(s, next, CommitNote(i));
    AttemptsSnoc(s.disk.events, CommitNote(i), i + 1);
  }

  lemma LostMeans(m: Mission, s: Sys, i: nat)
    requires Lost(m, s) && s.pc == Checkpointing(i)
    ensures s.mem == s.disk && s.foreign == 0 && s.disk.status.PAUSING? && WithinLimit(m, s) && NoneAhead(s)
    ensures i == s.disk.index < |m.tasks| && forall j | s.disk.index < j < |s.tries| :: s.tries[j] == 0
  {
  }

  lemma LostExec(m: Mission, s: Sys, luck: Luck)
    requires Lost(m, s)
    ensures Sane(m, ExecStep(m, s, luck))
  {
    hide Whole, Lost, Over, InspectStep, LoopStep, StartStep, CommitStep, CheckpointStep, Put, NoteStep, FailStep;
    hide BeginStep, MeterStep, TestStep, TryStep, ProposeStep, EditStep, CheckStep, JudgeStep, RaiseStep;
    assert !s.pc.Opened? && !s.pc.Escalating? && !s.pc.Recorded? && !s.pc.Finishing? by {
      LostPlaces(m, s);
    }
    match s.pc {
      case Beginning => LostBegin(m, s);
      case Looping(_) => LostBegin(m, s);
      case Noting(i, a, safe, snap) => LostNote(m, s, i, a, safe, snap);
      case Failing(i, a) => LostFail(m, s, i, a, HUMAN_REQUIRED);
      case RaisedFailing(i, a, edited) => LostFail(m, s, i, a, if edited then HUMAN_REQUIRED else PAUSED);
      case Committing(i) => LostCommit(m, s, i, luck);
      case Checkpointing(i) => LostCheckpoint(m, s, i);
      case _ =>
        if s.pc.Judging? || s.pc.Reading? || s.pc.Raised? {
          LostJudge(m, s, luck);
        } else if s.pc.Proposing? || s.pc.Metering? || s.pc.Editing? || s.pc.Checking? || s.pc.Testing? {
          LostWork(m, s, luck);
        } else {
          LostStart(m, s, luck);
        }
    }
  }

  lemma LostPlaces(m: Mission, s: Sys)
    requires Lost(m, s)
    ensures !s.pc.Opened? && !s.pc.Escalating? && !s.pc.Recorded? && !s.pc.Finishing?
  {
    hide Again, AgainUnnoted;
  }

  lemma LostOwner(m: Mission, s: Sys, action: Action)
    requires Lost(m, s) && !action.Exec?
    ensures Lost(m, Next(m, s, action)) || Over(m, Next(m, s, action))
  {
    hide Attempts, CommitFor, ExecStep;
  }

  lemma OverStep(m: Mission, s: Sys, action: Action)
    requires Over(m, s)
    ensures Over(m, Next(m, s, action))
  {
    OwnerStep(m, s, action);
    if action.Exec? {
      HaltedStill(m, s, action.luck);
    }
    hide ExecStep;
  }

  /** Every step but a forgetting one keeps the limit, whatever came before. */
  lemma StepKeepsSane(m: Mission, s: Sys, action: Action)
    requires Sane(m, s) && !Forgets(m, s, action)
    ensures Sane(m, Next(m, s, action))
  {
    hide Whole, Lost, Over, Forgets, ExecStep;
    if LosesCheckpoint(s, action) {
      LosingIsLost(m, s, action);
    } else if Whole(m, s) {
      StepCounts(m, s, action);
    } else if Over(m, s) {
      OverStep(m, s, action);
    } else if action.Exec? {
      LostExec(m, s, action.luck);
    } else {
      LostOwner(m, s, action);
    }
  }

  // ----- over every run --------------------------------------------------------------------------

  predicate Remembers(m: Mission, s: Sys, schedule: seq<Action>)
    decreases |schedule|
  {
    schedule == [] || (!Forgets(m, s, schedule[0]) && Remembers(m, Next(m, s, schedule[0]), schedule[1..]))
  }

  lemma {:induction false} RunKeepsSane(m: Mission, s: Sys, schedule: seq<Action>)
    requires Sane(m, s) && Remembers(m, s, schedule)
    ensures Sane(m, Run(m, s, schedule))
    decreases |schedule|
  {
    hide Next, Sane, Forgets;
    if schedule != [] {
      StepKeepsSane(m, s, schedule[0]);
      RunKeepsSane(m, Next(m, s, schedule[0]), schedule[1..]);
    }
  }

  lemma SaneIsWithinLimit(m: Mission, s: Sys)
    requires Sane(m, s)
    ensures WithinLimit(m, s)
  {
    hide Counted, AgainAt, OnTrunk, PcOk;
  }

  /**
   Across crashes, pauses, resumes, recoveries and lost checkpoints no task gets more than its attempts, as long
   as no lost checkpoint forgets one.
  */
  lemma AttemptsBounded(m: Mission, s: Sys, schedule: seq<Action>, task: nat)
    requires Initial(m, s) && Remembers(m, s, schedule) && task < |m.tasks|
    ensures var end := Run(m, s, schedule);
            |end.tries| == |m.tasks| && end.tries[task] <= m.maxAttempts
  {
    InitialCounts(m, s);
    hide Sane, Whole, Run;
    assert Sane(m, s) by {
      WholeIsSane(m, s);
    }
    RunKeepsSane(m, s, schedule);
    SaneIsWithinLimit(m, Run(m, s, schedule));
  }

  lemma WholeIsSane(m: Mission, s: Sys)
    requires Whole(m, s)
    ensures Sane(m, s)
  {
    hide Whole;
  }

  /** And where one is forgotten, four fortunate steps start one attempt too many. */
  lemma ForgottenAttemptIsExceeded(m: Mission, s: Sys, action: Action)
    requires Sane(m, s) && Forgets(m, s, action)
    ensures var end := Run(m, Next(m, s, action), LuckySchedule(4));
            s.disk.index < |end.tries| && end.tries[s.disk.index] > m.maxAttempts
  {
    LosingWriteCounts(m, s, action);
    var i := s.disk.index;
    LostCheckpointRetries(m, s);
    AttemptsSnoc(s.disk.events, CommitNote(i), i);
    var retrying := Lucky(m, s, 3);
    OneMoreStarts(m, retrying, i, Attempts(s.mem.events, i) + 1);
    LuckyAdds(m, s, 3, 2);
    var lost := Next(m, s, action);
    assert lost == ExecStep(m, s, GOOD);
    assert Lucky(m, s, 5) == Lucky(m, lost, 4);
    LuckyIsRun(m, lost, 4);
  }

  lemma OneMoreStarts(m: Mission, s: Sys, i: nat, a: nat)
    requires Ready(m, s, i) && s.pc == Trying(i, a) && a <= m.maxAttempts
    ensures Lucky(m, s, 2) == s.(pc := Proposing(i, a), disk := s.disk.(attempt := a), mem := s.disk.(attempt := a),
                                 tries := s.tries[i := s.tries[i] + 1])
  {
    var s1 := ExecStep(m, s, GOOD);
    var s2 := ExecStep(m, s1, GOOD);
    assert Lucky(m, s, 2) == Lucky(m, s1, 1) == Lucky(m, s2, 0);
  }

  // ----- the limit can be exceeded ------------------------------------------------------------------

  const GONE := Luck(true, true, true, true)

  /** An attempt killed before it is noted; the worktree is missing at the next start and the owner resumes. */
  function Waste(): seq<Action> {
    [Open] + LuckySchedule(5) + [Crash, Open, Exec(GONE), Exec(GOOD), ResumeCmd(true)]
  }

  function Wasted(k: nat): seq<Action> { if k == 0 then [] else Wasted(k - 1) + Waste() }

  lemma AfterKill(m: Mission, s: Sys, a: nat)
    requires |m.tasks| == |s.tries| > 0 && !s.dirty && s.foreign == 0 && s.branch == m.base
    requires s.disk == Record(RUNNING, 0, a, m.base, []) && !s.pc.Off? && !s.pc.Checkpointing?
    ensures Idle(m, Run(m, s, [Crash, Open, Exec(GONE), Exec(GOOD), ResumeCmd(true)]), a)
  {
    var plan := [Crash, Open, Exec(GONE), Exec(GOOD), ResumeCmd(true)];
    var s1 := Next(m, s, Crash);
    var s2 := Next(m, s1, Open);
    var s3 := Next(m, s2, Exec(GONE));
    assert s2.pc == Opened(true) && s3.pc.Blocking?;
    var s4 := Next(m, s3, Exec(GOOD));
    var s5 := Next(m, s4, ResumeCmd(true));
    assert s4.disk.status.BLOCKED? && Idle(m, s5, a);
    hide Next;
    var p1 := plan[1..];
    var p2 := p1[1..];
    var p3 := p2[1..];
    var p4 := p3[1..];
    assert p4[1..] == [];
    assert Run(m, s, plan) == Run(m, s1, p1) == Run(m, s2, p2) == Run(m, s3, p3) == Run(m, s4, p4) == Run(m, s5, []);
  }

  lemma WasteOne(m: Mission, s: Sys, a: nat)
    requires Idle(m, s, a) && a < m.maxAttempts
    ensures Idle(m, Run(m, s, Waste()), a + 1)
  {
    var start := OpenStep(s);
    FirstAttempt(m, s, a);
    OneMoreStarts(m, Lucky(m, start, 3), 0, a + 1);
    LuckyAdds(m, start, 3, 2);
    LuckyIsRun(m, start, 5);
    hide Lucky, LuckySchedule, ExecStep;
    RunConcat(m, s, [Open], LuckySchedule(5));
    assert Run(m, Next(m, s, Open), []) == Next(m, s, Open) == Run(m, s, [Open]);
    hide Run;
    var killed := Run(m, s, [Open] + LuckySchedule(5));
    AfterKill(m, killed, a + 1);
    RunConcat(m, s, [Open] + LuckySchedule(5), [Crash, Open, Exec(GONE), Exec(GOOD), ResumeCmd(true)]);
  }

  lemma {:induction false} WasteAll(m: Mission, s: Sys, k: nat)
    requires Idle(m, s, 0) && k <= m.maxAttempts
    ensures Idle(m, Run(m, s, Wasted(k)), k) && PauseCmd !in Wasted(k)
    decreases k
  {
    hide Run, Idle;
    if k == 0 {
      assert Run(m, s, []) == s by {
        RunNothing(m, s);
      }
    } else {
      WasteAll(m, s, k - 1);
      WasteOne(m, Run(m, s, Wasted(k - 1)), k - 1);
      RunConcat(m, s, Wasted(k - 1), Waste());
      LuckyNeverPauses(5);
    }
  }

  lemma RunNothing(m: Mission, s: Sys)
    ensures Run(m, s, []) == s
  {
  }

  lemma RunOne(m: Mission, s: Sys, a: Action)
    ensures Run(m, s, [a]) == Next(m, s, a)
  {
    hide Next;
    assert [a][1..] == [] && Run(m, Next(m, s, a), []) == Next(m, s, a);
  }

  /** All attempts but the last killed, the last one committed, and a pause between recovery and its write. */
  function Forgotten(m: Mission): seq<Action>
    requires m.maxAttempts >= 1
  {
    Wasted(m.maxAttempts - 1) + (CrashSchedule(m) + [PauseCmd])
  }

  lemma {:induction false} KeptIsRemembered(m: Mission, s: Sys, schedule: seq<Action>)
    requires KeepsCheckpoints(m, s, schedule)
    ensures Remembers(m, s, schedule)
    decreases |schedule|
  {
    hide Next;
    if schedule != [] {
      KeptIsRemembered(m, Next(m, s, schedule[0]), schedule[1..]);
    }
  }

  lemma NoPauseIsSane(m: Mission, s: Sys, schedule: seq<Action>)
    requires Initial(m, s) && PauseCmd !in schedule
    ensures Sane(m, Run(m, s, schedule))
  {
    InitialCounts(m, s);
    WholeIsSane(m, s);
    NoPauseIsSafe(m, s, schedule);
    KeptIsRemembered(m, s, schedule);
    hide Sane;
    RunKeepsSane(m, s, schedule);
  }

  lemma ForgottenRuns(m: Mission, s: Sys)
    requires m.maxAttempts >= 1
    ensures var k := m.maxAttempts - 1;
            var end := Run(m, s, Forgotten(m));
            && end == Run(m, Run(m, s, Wasted(k)), CrashSchedule(m) + [PauseCmd])
            && end == Next(m, Run(m, s, Wasted(k) + CrashSchedule(m)), PauseCmd)
  {
    hide Run, CrashSchedule, Wasted, Next;
    var k := m.maxAttempts - 1;
    RunConcat(m, s, Wasted(k), CrashSchedule(m) + [PauseCmd]);
    RunConcat(m, s, Wasted(k) + CrashSchedule(m), [PauseCmd]);
    RunOne(m, Run(m, s, Wasted(k) + CrashSchedule(m)), PauseCmd);
    assert (Wasted(k) + CrashSchedule(m)) + [PauseCmd] == Forgotten(m);
  }

  /** An attempt is forgotten in some run of every mission that allows more than one. */
  lemma AttemptCanBeForgotten(m: Mission, s: Sys)
    requires Initial(m, s) && !s.dirty && |m.tasks| > 0 && m.maxAttempts >= 2
    ensures var end := Run(m, s, Forgotten(m));
            Sane(m, end) && Forgets(m, end, Exec(GOOD)) && end.disk.index == 0
  {
    var k := m.maxAttempts - 1;
    WasteAll(m, s, k);
    hide Run, CrashSchedule, Wasted, Forgotten, Sane, Idle, Next;
    ForgottenRuns(m, s);
    PauseFindsRecovery(m, Run(m, s, Wasted(k)), k);
    NoPauseIsSane(m, s, Wasted(k) + CrashSchedule(m));
    StepKeepsSane(m, Run(m, s, Wasted(k) + CrashSchedule(m)), PauseCmd);
  }

  /** With at most one attempt allowed, none is ever forgotten or retried: the one that committed was noted. */
  lemma OneAttemptIsRemembered(m: Mission, s: Sys, action: Action)
    requires Sane(m, s) && (m.maxAttempts <= 1 || m.tasks == [])
    ensures !Forgets(m, s, action) && !Retries(m, s, action)
  {
    hide Attempts;
    if LosesCheckpoint(s, action) {
      LosingWriteCounts(m, s, action);
      SaneIsWithinLimit(m, s);
      hide Sane;
      AttemptsSnoc(s.disk.events, CommitNote(s.disk.index), s.disk.index);
    }
  }

  lemma {:induction false} OneAttemptRemembers(m: Mission, s: Sys, schedule: seq<Action>)
    requires Sane(m, s) && (m.maxAttempts <= 1 || m.tasks == [])
    ensures Remembers(m, s, schedule) && NeverRetries(m, s, schedule)
    decreases |schedule|
  {
    hide Next, Sane, Forgets, Retries;
    if schedule != [] {
      OneAttemptIsRemembered(m, s, schedule[0]);
      StepKeepsSane(m, s, schedule[0]);
      OneAttemptRemembers(m, Next(m, s, schedule[0]), schedule[1..]);
    }
  }

  predicate Exceeds(m: Mission, s: Sys) { exists task | 0 <= task < |s.tries| :: s.tries[task] > m.maxAttempts }

  /** So the limit holds over all runs of a mission exactly if it has no task or allows at most one attempt. */
  lemma AttemptsExceedExactly(m: Mission, s: Sys)
    requires Initial(m, s) && !s.dirty
    ensures (exists schedule :: Exceeds(m, Run(m, s, schedule))) <==> |m.tasks| > 0 && m.maxAttempts >= 2
  {
    InitialCounts(m, s);
    WholeIsSane(m, s);
    hide Sane, Whole, Initial, Run;
    if |m.tasks| > 0 && m.maxAttempts >= 2 {
      AttemptCanBeForgotten(m, s);
      var end := Run(m, s, Forgotten(m));
      ForgottenAttemptIsExceeded(m, end, Exec(GOOD));
      RunOne(m, end, Exec(GOOD));
      RunConcat(m, end, [Exec(GOOD)], LuckySchedule(4));
      RunConcat(m, s, Forgotten(m), [Exec(GOOD)] + LuckySchedule(4));
      assert Exceeds(m, Run(m, s, Forgotten(m) + ([Exec(GOOD)] + LuckySchedule(4))));
    } else {
      forall schedule ensures !Exceeds(m, Run(m, s, schedule)) {
        OneAttemptRemembers(m, s, schedule);
        RunKeepsSane(m, s, schedule);
        SaneIsWithinLimit(m, Run(m, s, schedule));
      }
    }
  }

  /** Exactly-once over all runs of a mission: exactly with no task or at most one attempt allowed. */
  lemma CommitsTwiceExactly(m: Mission, s: Sys)
    requires Initial(m, s) && !s.dirty
    ensures (exists schedule :: !InOnce(m, Run(m, s, schedule).branch)) <==> |m.tasks| > 0 && m.maxAttempts >= 2
  {
    InitialCounts(m, s);
    WholeIsSane(m, s);
    hide Sane, Whole, Run;
    if |m.tasks| > 0 && m.maxAttempts >= 2 {
      ExactlyOnceCanFail(m, s);
      var schedule :| TwiceOnTop(m, Run(m, s, schedule).branch, 0);
      var branch := Run(m, s, schedule).branch;
      assert branch[|branch| - 2] == branch[|branch| - 1];
    } else {
      forall schedule ensures InOnce(m, Run(m, s, schedule).branch) {
        OneAttemptRemembers(m, s, schedule);
        CommitsExactlyOnce(m, s, schedule);
      }
    }
  }
}
