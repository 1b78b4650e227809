/**
 The mission record, the merge rule of `write_json`, and the owner commands: all
 that decides which of two concurrent writers of one record wins.
*/
module MissionState {
  import opened Wrappers

  datatype Status =
    | PENDING | PLANNING | RUNNING | PAUSING | PAUSED | STOPPED | HUMAN_REQUIRED | BLOCKED | COMPLETED
  {
    /** Statuses that a plain write must not overwrite. */
    predicate Control() { PAUSING? || PAUSED? || STOPPED? || HUMAN_REQUIRED? }

    /** Statuses that end the executor at its next look. */
    predicate Halted() { PAUSED? || STOPPED? || HUMAN_REQUIRED? }

    predicate Final() { Halted() || COMPLETED? || BLOCKED? }
  }

  /** An approved task; its digest is taken to be injective, so the task stands for it. */
  datatype Task = Task(content: string)

  /** `taskNo` is the one-based number in the commit message. */
  datatype Commit =
    | TaskCommit(mission: string, taskNo: nat, digest: Task)
    | ForeignCommit(tag: nat)

  /** A commit id names its whole history, so a branch head is modelled by that history. */
  type Branch = seq<Commit>

  datatype Note =
    | AttemptNote(task: nat, attempt: nat)
    | CommitNote(task: nat)

  datatype Record = Record(status: Status, index: nat, attempt: nat, head: Branch, events: seq<Note>)

  datatype Mission = Mission(id: string, base: Branch, tasks: seq<Task>, maxAttempts: nat)

  /** What a plain write leaves on disk (and in the writer's hands). */
  function Merge(current: Record, record: Record): Record {
    if current.status.Control() then current.(events := record.events, attempt := record.attempt)
    else record
  }

  function CommitFor(m: Mission, i: nat): Commit
    requires i < |m.tasks|
  {
    TaskCommit(m.id, i + 1, m.tasks[i])
  }

  /** The commits of tasks [0..n) in order. */
  function CommitsUpTo(m: Mission, n: nat): Branch
    requires n <= |m.tasks|
  {
    seq(n, i requires 0 <= i < n => CommitFor(m, i))
  }

  function Attempts(events: seq<Note>, task: nat): nat {
    if events == [] then 0
    else Attempts(events[..|events| - 1], task)
         + match events[|events| - 1] case AttemptNote(t, _) => (if t == task then 1 else 0) case CommitNote(_) => 0
  }

  // ----- owner commands --------------------------------------------------------

  datatype Refusal = NotPermitted

  function PauseTarget(status: Status): Status {
    if status.RUNNING? || status.PAUSING? then PAUSING else PAUSED
  }

  function Pause(r: Record): Result<Record, Refusal> {
    var target := PauseTarget(r.status);
    if r.status.PENDING? || r.status.PLANNING? || r.status.RUNNING? || r.status == target
    then Ok(r.(status := target))
    else Err(NotPermitted)
  }

  function Stop(r: Record): Result<Record, Refusal> {
    if r.status.HUMAN_REQUIRED? || r.status.COMPLETED? then Err(NotPermitted)
    else Ok(r.(status := STOPPED))
  }

  function Resume(r: Record, clean: bool): Record {
    if r.status.PAUSED? || r.status.BLOCKED? then
      r.(status := if clean then PENDING else HUMAN_REQUIRED)
    else r
  }

  /** Whether the one commit above the checkpoint carries this task's provenance. */
  predicate Provenance(m: Mission, record: Record, branch: Branch) {
    && record.index < |m.tasks|
    && |branch| > 0
    && branch[..|branch| - 1] == record.head
    && branch[|branch| - 1] == CommitFor(m, record.index)
  }

  function Reconciled(record: Record, branch: Branch): Record {
    record.(head := branch, index := record.index + 1, attempt := 0, status := PENDING,
            events := record.events + [CommitNote(record.index)])
  }

  /** The record file as an object, with its writers as methods. */
  class MissionFile {
    var record: Record

    constructor (record: Record)
      ensures this.record == record
    {
      this.record := record;
    }

    /** Writes `mine` under the control lock; the caller goes on with what it gets back. */
    method WriteJson(mine: Record) returns (written: Record)
      modifies this
      ensures record == written == Merge(old(record), mine)
      ensures old(record).status.Control() ==>
                written.status == old(record).status && written.index == old(record).index
                && written.head == old(record).head
      ensures !old(record).status.Control() ==> written == mine
    {
      written := mine;
      if record.status.Control() {
        var current := record;
        current := current.(events := mine.events);
        current := current.(attempt := mine.attempt);
        written := current;
      }
      record := written;
    }

    method PauseCommand() returns (ok: bool)
      modifies this
      ensures ok <==> Pause(old(record)).Ok?
      ensures record == if ok then Pause(old(record)).value else old(record)
      ensures old(record).status.Halted() ==> record == old(record)
    {
      var target := if record.status.RUNNING? || record.status.PAUSING? then PAUSING else PAUSED;
      if record.status != target && !record.status.PENDING? && !record.status.PLANNING? && !record.status.RUNNING? {
        return false;
      }
      record := record.(status := target);
      return true;
    }

    method StopCommand() returns (ok: bool)
      modifies this
      ensures ok <==> !old(record).status.HUMAN_REQUIRED? && !old(record).status.COMPLETED?
      ensures record == if ok then old(record).(status := STOPPED) else old(record)
    {
      match record.status {
        case PENDING | PLANNING | RUNNING | PAUSING | PAUSED | BLOCKED | STOPPED =>
          record := record.(status := STOPPED);
          return true;
        case _ => return false;
      }
    }

    /** `clean`: Git reports no uncommitted change in the mission's worktree. */
    method ResumeCommand(clean: bool)
      modifies this
      ensures record == Resume(old(record), clean)
      ensures old(record).status.STOPPED? || old(record).status.HUMAN_REQUIRED? ==> record == old(record)
    {
      if record.status.PAUSED? || record.status.BLOCKED? {
        if !clean {
          record := record.(status := HUMAN_REQUIRED);
        } else {
          record := record.(status := PENDING);
        }
      }
    }

    /**
     Recovers the one commit that follows `state`'s checkpoint, or refuses. The checkpoint is
     written through the merge rule, so whether it advances depends on what is on disk then.
    */
    method ReconcileCommittedTask(m: Mission, state: Record, branch: Branch, verified: bool)
      returns (r: Option<Record>)
      modifies this
      ensures r.Some? <==> Provenance(m, state, branch) && verified
      ensures r.Some? ==> r.value == record == Merge(old(record), Reconciled(state, branch))
      ensures r.None? ==> record == old(record)
      ensures r.Some? && old(record).index == state.index && old(record).head == state.head ==>
                (record.index == state.index + 1 && record.head == branch <==> !old(record).status.Control())
    {
      if !(state.index < |m.tasks|) || branch == [] || branch[..|branch| - 1] != state.head {
        return None;
      }
      var top := branch[|branch| - 1];
      var task := m.tasks[state.index];
      if top.ForeignCommit? || top.mission != m.id || top.taskNo != state.index + 1 || top.digest != task {
        return None;
      }
      if !verified {
        return None;
      }
      var next := state.(head := branch, index := state.index + 1, attempt := 0, status := PENDING);
      next := next.(events := next.events + [CommitNote(state.index)]);
      next := WriteJson(next);
      return Some(next);
    }
  }
}
