/**
 The project-wide executor as a machine of atomic steps, interleaved with owner
 commands, crashes at any point, and commits made by somebody else while no
 executor runs. Model calls, tests and Git checks come out either way (`Luck`).
*/
module MissionProtocol {
  import opened Wrappers
  import opened MissionState

  /** Where the executor stands: `i` is the task, `a` the attempt number. */
  datatype Pc =
    | Off
    | PauseRecovery
    | Opened(interrupted: bool)
    | Escalating
    | Recorded                                   // reconciliation passed, checkpoint not yet written
    | Beginning
    | Looping(i: nat)
    | Trying(i: nat, a: nat)
    | Starting(i: nat, a: nat)
    | Proposing(i: nat, a: nat)
    | Metering(i: nat, a: nat, snap: Record)     // the usage observer read the record, write pending
    | Editing(i: nat, a: nat)
    | Checking(i: nat, a: nat)
    | Testing(i: nat, a: nat)
    | Judging(i: nat, a: nat, safe: bool)
    | Failing(i: nat, a: nat)
    | Reading(i: nat, a: nat, safe: bool)
    | Noting(i: nat, a: nat, safe: bool, snap: Record)
    | Raised(i: nat, a: nat, edited: bool)
    | RaisedFailing(i: nat, a: nat, edited: bool)
    | Committing(i: nat)
    | Checkpointing(i: nat)                      // committed, control lock still held
    | Blocking
    | Finishing

  /** `tries[i]` counts started attempts of task i; `edits` and `made` count source edits and commits. */
  datatype Sys = Sys(disk: Record, branch: Branch, foreign: nat, dirty: bool, pc: Pc, mem: Record,
                     tries: seq<nat>, edits: nat, made: nat)

  datatype Luck = Luck(sound: bool, passes: bool, clean: bool, other: bool)

  datatype Action =
    | PauseCmd | StopCmd | ResumeCmd(gitClean: bool)
    | Foreign(tag: nat) | Soil                   // somebody commits, or dirties the worktree, while Off
    | Open | Exec(luck: Luck) | Crash

  function Halt(s: Sys): Sys { s.(pc := Off) }

  function Put(s: Sys, r: Record): Sys { s.(disk := Merge(s.disk, r), mem := Merge(s.disk, r)) }

  function Max(a: nat, b: nat): nat { if a >= b then a else b }

  // ----- start-up ---------------------------------------------------------------

  function OpenStep(s: Sys): Sys {
    if !s.pc.Off? || s.disk.status.Final() || s.disk.status.PLANNING? then s
    else if s.disk.status.PAUSING? then s.(mem := s.disk, pc := PauseRecovery)
    else s.(mem := s.disk, pc := Opened(s.disk.status.RUNNING?))
  }

  function Escalate(s: Sys): Sys { s.(mem := s.mem.(status := HUMAN_REQUIRED), pc := Escalating) }

  function InspectStep(m: Mission, s: Sys, interrupted: bool, luck: Luck): Sys {
    if luck.other then s.(mem := s.mem.(status := BLOCKED), pc := Blocking)     // worktree missing
    else if !luck.sound || s.dirty then Escalate(s)
    else if s.branch != s.mem.head then
      if Provenance(m, s.mem, s.branch) && luck.passes
      then s.(mem := Reconciled(s.mem, s.branch), pc := Recorded)
      else Escalate(s)
    else if interrupted then Escalate(s)
    else s.(pc := Beginning)
  }

  function BeginStep(s: Sys): Sys {
    var t := Put(s, s.mem.(status := RUNNING));
    if t.mem.status.Halted() then Halt(t) else t.(pc := Looping(t.mem.index))
  }

  // ----- one attempt --------------------------------------------------------------

  function LoopStep(m: Mission, s: Sys, i: nat): Sys {
    if i >= |m.tasks| then s.(pc := Finishing)
    else
      var spent := Max(s.mem.attempt, Attempts(s.mem.events, i));
      s.(mem := s.mem.(attempt := spent), pc := Trying(i, spent + 1))
  }

  function TryStep(m: Mission, s: Sys, i: nat, a: nat): Sys {
    if a > m.maxAttempts then s.(mem := s.mem.(status := BLOCKED), pc := Blocking)
    else if s.disk.status.STOPPED? || s.disk.status.PAUSED? then Halt(s)
    else s.(pc := Starting(i, a))
  }

  function StartStep(s: Sys, i: nat, a: nat): Sys {
    var t := Put(s, s.mem.(attempt := a));
    if t.mem.status.Halted() || i >= |s.tries| then Halt(t)
    else t.(pc := Proposing(i, a), tries := t.tries[i := t.tries[i] + 1])
  }

  function ProposeStep(s: Sys, i: nat, a: nat, luck: Luck): Sys {
    s.(pc := if luck.other then Metering(i, a, s.disk)
             else if luck.passes then Editing(i, a) else Raised(i, a, false))
  }

  function MeterStep(s: Sys, i: nat, a: nat, snap: Record, luck: Luck): Sys {
    s.(disk := Merge(s.disk, snap), pc := if luck.passes then Editing(i, a) else Raised(i, a, false))
  }

  /** Check and edit share one hold of the control lock. */
  function EditStep(s: Sys, i: nat, a: nat, luck: Luck): Sys {
    if s.disk.status.Halted() then Halt(s)
    else if luck.passes then s.(dirty := true, edits := s.edits + 1, pc := Checking(i, a))
    else if luck.other then s.(dirty := true, edits := s.edits + 1, pc := Raised(i, a, true))
    else s.(pc := Raised(i, a, false))
  }

  function CheckStep(m: Mission, s: Sys, i: nat, a: nat, luck: Luck): Sys {
    s.(pc := if luck.other then Raised(i, a, true)
             else if luck.sound && i + 1 == |m.tasks| then Testing(i, a)
             else Judging(i, a, luck.sound))
  }

  function TestStep(s: Sys, i: nat, a: nat, luck: Luck): Sys {
    if s.disk.status.Halted() then Halt(s)
    else if luck.other then s.(pc := Raised(i, a, true))
    else if !luck.clean then
      Halt(s.(disk := s.disk.(status := HUMAN_REQUIRED, events := s.disk.events + [AttemptNote(i, a)])))
    else s.(pc := Judging(i, a, luck.passes))
  }

  function JudgeStep(s: Sys, i: nat, a: nat, safe: bool): Sys {
    s.(pc := if !safe && (s.disk.status.STOPPED? || s.disk.status.PAUSING?) then Failing(i, a)
             else Reading(i, a, safe))
  }

  /** An in-flight attempt that ended under a pause or stop is noted on the record as it now is. */
  function FailStep(s: Sys, i: nat, a: nat, paused: Status): Sys {
    Halt(s.(disk := s.disk.(status := if s.disk.status.PAUSING? then paused else s.disk.status,
                            events := s.disk.events + [AttemptNote(i, a)])))
  }

  function NoteStep(s: Sys, i: nat, a: nat, safe: bool, snap: Record): Sys {
    var noted := s.mem.(events := s.mem.events + [AttemptNote(i, a)]);
    if snap.status.STOPPED? || snap.status.PAUSED? then
      Halt(s.(disk := Merge(s.disk, snap.(events := noted.events))))
    else Put(s, noted).(pc := if safe then Committing(i) else Trying(i, a + 1))
  }

  function RaiseStep(s: Sys, i: nat, a: nat, edited: bool): Sys {
    s.(pc := if s.disk.status.STOPPED? || s.disk.status.PAUSING? then RaisedFailing(i, a, edited)
             else Reading(i, a, false))
  }

  // ----- commit and checkpoint ------------------------------------------------------

  function CommitStep(m: Mission, s: Sys, i: nat, luck: Luck): Sys {
    if s.disk.status.Halted() || i >= |m.tasks| then Halt(s)
    else if !luck.clean then Halt(s.(disk := s.disk.(status := HUMAN_REQUIRED)))
    else if !luck.passes then Halt(s.(disk := s.disk.(status := BLOCKED)))
    else s.(mem := s.disk, branch := s.branch + [CommitFor(m, i)], made := s.made + 1, dirty := false,
            pc := Checkpointing(i))
  }

  function CheckpointStep(s: Sys, i: nat): Sys {
    var next := s.mem.(index := i + 1, head := s.branch, attempt := 0,
                       events := s.mem.events + [CommitNote(i)]);
    if next.status.PAUSING? then Halt(s.(disk := next.(status := PAUSED)))
    else s.(disk := next, mem := next, pc := Looping(i + 1))
  }

  function ExecStep(m: Mission, s: Sys, luck: Luck): Sys {
    match s.pc
    case Off => s
    case PauseRecovery =>
      Halt(if s.disk.status.PAUSING? then s.(disk := s.disk.(status := HUMAN_REQUIRED)) else s)
    case Opened(interrupted) => InspectStep(m, s, interrupted, luck)
    case Escalating => Halt(Put(s, s.mem))
    case Recorded => Put(s, s.mem).(pc := Beginning)
    case Beginning => BeginStep(s)
    case Looping(i) => LoopStep(m, s, i)
    case Trying(i, a) => TryStep(m, s, i, a)
    case Starting(i, a) => StartStep(s, i, a)
    case Proposing(i, a) => ProposeStep(s, i, a, luck)
    case Metering(i, a, snap) => MeterStep(s, i, a, snap, luck)
    case Editing(i, a) => EditStep(s, i, a, luck)
    case Checking(i, a) => CheckStep(m, s, i, a, luck)
    case Testing(i, a) => TestStep(s, i, a, luck)
    case Judging(i, a, safe) => JudgeStep(s, i, a, safe)
    case Failing(i, a) => FailStep(s, i, a, HUMAN_REQUIRED)
    case Reading(i, a, safe) => s.(pc := Noting(i, a, safe, s.disk))
    case Noting(i, a, safe, snap) => NoteStep(s, i, a, safe, snap)
    case Raised(i, a, edited) => RaiseStep(s, i, a, edited)
    case RaisedFailing(i, a, edited) => FailStep(s, i, a, if edited then HUMAN_REQUIRED else PAUSED)
    case Committing(i) => CommitStep(m, s, i, luck)
    case Checkpointing(i) => CheckpointStep(s, i)
    case Blocking => Halt(Put(s, s.mem))
    case Finishing =>
      Halt(if s.disk.status.Halted() then s else s.(disk := s.disk.(status := COMPLETED)))
  }

  /** Owner commands need the control lock, `resume` also that no executor runs. */
  function Next(m: Mission, s: Sys, action: Action): Sys {
    match action
    case PauseCmd =>
      if s.pc.Checkpointing? || Pause(s.disk).Err? then s else s.(disk := Pause(s.disk).value)
    case StopCmd =>
      if s.pc.Checkpointing? || Stop(s.disk).Err? then s else s.(disk := Stop(s.disk).value)
    case ResumeCmd(gitClean) =>
      if s.pc.Off? then s.(disk := Resume(s.disk, gitClean && !s.dirty)) else s
    case Foreign(tag) =>
      if s.pc.Off? then s.(branch := s.branch + [ForeignCommit(tag)], foreign := s.foreign + 1) else s
    case Soil => if s.pc.Off? then s.(dirty := true) else s
    case Open => OpenStep(s)
    case Exec(luck) => ExecStep(m, s, luck)
    case Crash => Halt(s)
  }

  function Run(m: Mission, s: Sys, schedule: seq<Action>): Sys
    decreases |schedule|
  {
    if schedule == [] then s else Run(m, Next(m, s, schedule[0]), schedule[1..])
  }

  predicate Initial(m: Mission, s: Sys) {
    && s.disk == Record(PENDING, 0, 0, m.base, [])
    && s.branch == m.base && s.foreign == 0 && s.pc.Off? && s.mem == s.disk
    && s.tries == seq(|m.tasks|, i => 0) && s.edits == 0 && s.made == 0
  }
}
