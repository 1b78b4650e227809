/**
 `run_mission` as nested loops over tasks and attempts that rewrite the record, the
 worktree and the branch. Before every step the owner's commands of that moment
 arrive. The execution is exactly the machine's: turn by turn, until it leaves.
*/
module MissionExecutor {
  import opened Wrappers
  import opened MissionState
  import opened MissionProtocol

  datatype Command = PauseIt | StopIt

  /** What the outside does at each moment: models, tests and Git, and the owner's commands just before. */
  datatype World = World(luck: nat -> Luck, owner: nat -> seq<Command>)

  datatype AttemptEnd = Passed | Again | Left

  /** How a part of an attempt ends: it goes on, an exception is raised, or the executor leaves. */
  datatype StepEnd = Going | Raising | Leaving

  // ----- the machine driven by a world ------------------------------------------------------

  function Issued(command: Command): Action {
    match command
    case PauseIt => PauseCmd
    case StopIt => StopCmd
  }

  function IssuedAll(commands: seq<Command>): seq<Action> {
    seq(|commands|, i requires 0 <= i < |commands| => Issued(commands[i]))
  }

  /** Commands take the control lock, so none arrive between commit and checkpoint. */
  function Arriving(world: World, s: Sys, t: nat): seq<Action> {
    if s.pc.Checkpointing? then [] else IssuedAll(world.owner(t))
  }

  function Turn(m: Mission, world: World, s: Sys, t: nat): Sys {
    Next(m, Run(m, s, Arriving(world, s, t)), Exec(world.luck(t)))
  }

  function Turns(m: Mission, world: World, s: Sys, t: nat, n: nat): Sys
    decreases n
  {
    if n == 0 then s else Turns(m, world, Turn(m, world, s, t), t + 1, n - 1)
  }

  /** The executor has not left before the last of these turns. */
  predicate Busy(m: Mission, world: World, s: Sys, t: nat, n: nat)
    decreases n
  {
    n == 0 || (!s.pc.Off? && Busy(m, world, Turn(m, world, s, t), t + 1, n - 1))
  }

  /** From `s` at time `t` the world and the executor lead to `s'` at `t'`, and nowhere else. */
  predicate Led(m: Mission, world: World, s: Sys, t: nat, s': Sys, t': nat) {
    t <= t' && s' == Turns(m, world, s, t, t' - t) && Busy(m, world, s, t, t' - t)
  }

  lemma {:induction false} TurnsAdd(m: Mission, world: World, s: Sys, t: nat, j: nat, k: nat)
    ensures Turns(m, world, s, t, j + k) == Turns(m, world, Turns(m, world, s, t, j), t + j, k)
    ensures Busy(m, world, s, t, j + k)
            <==> Busy(m, world, s, t, j) && Busy(m, world, Turns(m, world, s, t, j), t + j, k)
    decreases j
  {
    hide Turn;
    if j > 0 {
      TurnsAdd(m, world, Turn(m, world, s, t), t + 1, j - 1, k);
    }
  }

  lemma LedNowhere(m: Mission, world: World, s: Sys, t: nat)
    ensures Led(m, world, s, t, s, t)
  {
  }

  lemma LedByTurn(m: Mission, world: World, s: Sys, t: nat)
    requires !s.pc.Off?
    ensures Led(m, world, s, t, Turn(m, world, s, t), t + 1)
  {
    hide Turn;
    assert Busy(m, world, Turn(m, world, s, t), t + 1, 0);
    assert Turns(m, world, Turn(m, world, s, t), t + 1, 0) == Turn(m, world, s, t);
  }

  lemma LedOn(m: Mission, world: World, s: Sys, t: nat, s': Sys, t': nat, s'': Sys, t'': nat)
    requires Led(m, world, s, t, s', t') && Led(m, world, s', t', s'', t'')
    ensures Led(m, world, s, t, s'', t'')
  {
    TurnsAdd(m, world, s, t, t' - t, t'' - t');
  }

  /** Where an execution ends is settled by the world: a step that leaves comes once. */
  lemma LeavesOnce(m: Mission, world: World, s: Sys, t: nat, s': Sys, t': nat, s'': Sys, t'': nat)
    requires Led(m, world, s, t, s', t') && Led(m, world, s, t, s'', t'') && s'.pc.Off? && s''.pc.Off?
    ensures t' == t'' && s' == s''
  {
    if t' < t'' {
      TurnsAdd(m, world, s, t, t' - t, t'' - t');
    } else {
      TurnsAdd(m, world, s, t, t'' - t, t' - t'');
    }
  }

  function Schedule(m: Mission, world: World, s: Sys, t: nat, n: nat): seq<Action>
    decreases n
  {
    if n == 0 then []
    else Arriving(world, s, t) + [Exec(world.luck(t))] + Schedule(m, world, Turn(m, world, s, t), t + 1, n - 1)
  }

  lemma {:induction false} RunConcat(m: Mission, s: Sys, p: seq<Action>, q: seq<Action>)
    ensures Run(m, s, p + q) == Run(m, Run(m, s, p), q)
    decreases |p|
  {
    hide Next;
    if p == [] {
      assert p + q == q;
    } else {
      assert (p + q)[1..] == p[1..] + q;
      RunConcat(m, Next(m, s, p[0]), p[1..], q);
    }
  }

  lemma RunOne(m: Mission, s: Sys, a: Action)
    ensures Run(m, s, [a]) == Next(m, s, a)
  {
    hide Next;
    assert [a][1..] == [] && Run(m, Next(m, s, a), []) == Next(m, s, a);
  }

  /** Executions are runs of executor steps and owner commands: every theorem about runs of the machine holds. */
  lemma {:induction false} TurnsAreRun(m: Mission, world: World, s: Sys, t: nat, n: nat)
    ensures Turns(m, world, s, t, n) == Run(m, s, Schedule(m, world, s, t, n))
    ensures forall a | a in Schedule(m, world, s, t, n) :: a.Exec? || a.PauseCmd? || a.StopCmd?
    decreases n
  {
    hide Next, Run;
    if n == 0 {
      assert Run(m, s, []) == s by {
        RunNothing(m, s);
      }
    } else {
      var arriving, step := Arriving(world, s, t), [Exec(world.luck(t))];
      var next := Turn(m, world, s, t);
      TurnsAreRun(m, world, next, t + 1, n - 1);
      RunOne(m, Run(m, s, arriving), Exec(world.luck(t)));
      RunConcat(m, s, arriving, step);
      RunConcat(m, s, arriving + step, Schedule(m, world, next, t + 1, n - 1));
    }
  }

  lemma RunNothing(m: Mission, s: Sys)
    ensures Run(m, s, []) == s
  {
  }

  // ----- the executor --------------------------------------------------------------------------

  class Executor {
    const m: Mission
    const file: MissionFile
    const world: World
    var branch: Branch
    var dirty: bool
    var state: Record            // the executor's copy of the record
    var clock: nat
    ghost var sys: Sys

    /** The machine stands where the files, the worktree and the executor's copy stand. */
    ghost predicate Synced()
      reads this, file
    {
      && file.record == sys.disk && branch == sys.branch && dirty == sys.dirty
      && (!sys.pc.Off? ==> state == sys.mem) && |sys.tries| == |m.tasks|
    }

    /** A start on files as a crash, an owner or somebody's commits may have left them. */
    constructor (m: Mission, file: MissionFile, world: World, branch: Branch, dirty: bool, clock: nat, ghost sys: Sys)
      requires file.record == sys.disk && branch == sys.branch && dirty == sys.dirty
      requires sys.pc.Off? && |sys.tries| == |m.tasks|
      ensures this.m == m && this.file == file && this.world == world && this.clock == clock
      ensures this.sys == sys && Synced()
    {
      this.m, this.file, this.world, this.sys := m, file, world, sys;
      this.branch, this.dirty, this.clock, state := branch, dirty, clock, file.record;
    }

    lemma Joined(s: Sys, t: nat, s': Sys, t': nat)
      requires Led(m, world, s, t, s', t') && Led(m, world, s', t', sys, clock)
      ensures Led(m, world, s, t, sys, clock)
    {
      LedOn(m, world, s, t, s', t', sys, clock);
    }

    /** The owner's commands of this moment are carried out on the record, and nothing else happens. */
    method Outside()
      requires Synced() && !sys.pc.Checkpointing?
      modifies file, this`sys
      ensures Synced() && sys == old(sys).(disk := file.record)
      ensures sys == Run(m, old(sys), IssuedAll(world.owner(clock)))
    {
      hide Run;
      var commands := world.owner(clock);
      RunNothing(m, sys);
      assert IssuedAll(commands[..0]) == [];
      for k := 0 to |commands|
        invariant Synced() && sys == old(sys).(disk := file.record)
        invariant sys == Run(m, old(sys), IssuedAll(commands[..k]))
      {
        ghost var before := sys;
        if commands[k].PauseIt? {
          var ok := file.PauseCommand();
        } else {
          var ok := file.StopCommand();
        }
        sys := Next(m, sys, Issued(commands[k]));
        assert IssuedAll(commands[..k + 1]) == IssuedAll(commands[..k]) + [Issued(commands[k])];
        RunOne(m, before, Issued(commands[k]));
        RunConcat(m, old(sys), IssuedAll(commands[..k]), [Issued(commands[k])]);
      }
      assert commands[..|commands|] == commands;
    }

    /** The executor's step of this turn has been taken. */
    method EndTurn(ghost s: Sys)
      requires !s.pc.Off? && sys == Run(m, s, Arriving(world, s, clock))
      modifies this`sys, this`clock
      ensures clock == old(clock) + 1 && sys == Next(m, old(sys), Exec(world.luck(old(clock))))
      ensures Led(m, world, s, old(clock), sys, clock)
    {
      LedByTurn(m, world, s, clock);
      sys := Next(m, sys, Exec(world.luck(clock)));
      clock := clock + 1;
    }

    // ----- one attempt ---------------------------------------------------------------

    method LookForStop(i: nat, a: nat) returns (go: bool)
      requires Synced() && sys.pc == Trying(i, a) && a <= m.maxAttempts
      modifies this, file
      ensures Synced() && Led(m, world, old(sys), old(clock), sys, clock)
      ensures sys.pc == if go then Starting(i, a) else Off
    {
      hide Run, Led;
      Outside();
      go := !(file.record.status.STOPPED? || file.record.status.PAUSED?);
      EndTurn(old(sys));
    }

    method WriteAttempt(i: nat, a: nat) returns (go: bool)
      requires Synced() && sys.pc == Starting(i, a) && i < |m.tasks|
      modifies this, file
      ensures Synced() && Led(m, world, old(sys), old(clock), sys, clock)
      ensures sys.pc == if go then Proposing(i, a) else Off
    {
      hide Run, Led;
      Outside();
      state := state.(attempt := a);
      state := file.WriteJson(state);
      EndTurn(old(sys));
      go := !state.status.Halted();
    }

    /** The model call: its usage observer may first read the record, to write it back later. */
    method Propose(i: nat, a: nat) returns (end: StepEnd, snap: Record)
      requires Synced() && sys.pc == Proposing(i, a)
      modifies this, file
      ensures Synced() && Led(m, world, old(sys), old(clock), sys, clock)
      ensures sys.pc == match end
                        case Going => Editing(i, a)
                        case Raising => Raised(i, a, false)
                        case Leaving => Metering(i, a, snap)
    {
      hide Run, Led;
      Outside();
      var luck := world.luck(clock);
      snap := file.record;
      end := if luck.other then Leaving else if luck.passes then Going else Raising;
      EndTurn(old(sys));
    }

    /** The observer's write goes through the merge rule, over whatever the owner did meanwhile. */
    method RecordUsage(i: nat, a: nat, snap: Record) returns (ok: bool)
      requires Synced() && sys.pc == Metering(i, a, snap)
      modifies this, file
      ensures Synced() && Led(m, world, old(sys), old(clock), sys, clock)
      ensures sys.pc == if ok then Editing(i, a) else Raised(i, a, false)
    {
      hide Run, Led;
      Outside();
      ok := world.luck(clock).passes;
      var written := file.WriteJson(snap);
      EndTurn(old(sys));
    }

    /** Check and edit under one hold of the control lock. */
    method Edit(i: nat, a: nat) returns (end: StepEnd, edited: bool)
      requires Synced() && sys.pc == Editing(i, a)
      modifies this, file
      ensures Synced() && Led(m, world, old(sys), old(clock), sys, clock)
      ensures sys.pc == match end case Going => Checking(i, a) case Raising => Raised(i, a, edited) case Leaving => Off
    {
      hide Run, Led;
      Outside();
      var luck := world.luck(clock);
      edited := luck.passes || luck.other;
      if file.record.status.Halted() {
        end := Leaving;
      } else {
        end := if luck.passes then Going else Raising;
        dirty := dirty || edited;
      }
      EndTurn(old(sys));
    }

    method CheckEdits(i: nat, a: nat) returns (end: StepEnd, safe: bool)
      requires Synced() && sys.pc == Checking(i, a)
      modifies this, file
      ensures Synced() && Led(m, world, old(sys), old(clock), sys, clock)
      ensures sys.pc == match end
                        case Going => Judging(i, a, safe)
                        case Raising => Raised(i, a, true)
                        case Leaving => Testing(i, a)
    {
      hide Run, Led;
      Outside();
      var luck := world.luck(clock);
      safe := luck.sound;
      end := if luck.other then Raising else if safe && i + 1 == |m.tasks| then Leaving else Going;
      EndTurn(old(sys));
    }

    /** After the last task the acceptance tests run, and the tree is looked at again, under the control lock. */
    method RunTests(i: nat, a: nat) returns (end: StepEnd, safe: bool)
      requires Synced() && sys.pc == Testing(i, a)
      modifies this, file
      ensures Synced() && Led(m, world, old(sys), old(clock), sys, clock)
      ensures sys.pc
              == match end case Going => Judging(i, a, safe) case Raising => Raised(i, a, true) case Leaving => Off
    {
      hide Run, Led;
      Outside();
      var luck := world.luck(clock);
      safe := luck.passes;
      if file.record.status.Halted() {
        end := Leaving;
      } else if luck.other {
        end := Raising;
      } else if !luck.clean {
        file.record := file.record.(status := HUMAN_REQUIRED, events := file.record.events + [AttemptNote(i, a)]);
        end := Leaving;
      } else {
        end := Going;
      }
      EndTurn(old(sys));
    }

    /** An in-flight attempt that ended under a pause or stop is noted on the record as it is. */
    method FailInFlight(i: nat, a: nat, paused: Status)
      requires Synced() && (sys.pc.Failing? || sys.pc.RaisedFailing?) && sys.pc.i == i && sys.pc.a == a
      requires paused == if sys.pc.Failing? || sys.pc.edited then HUMAN_REQUIRED else PAUSED
      modifies this, file
      ensures Synced() && Led(m, world, old(sys), old(clock), sys, clock) && sys.pc.Off?
    {
      hide Run, Led;
      Outside();
      var current := file.record;
      if current.status.PAUSING? {
        current := current.(status := paused);
      }
      file.record := current.(events := current.events + [AttemptNote(i, a)]);
      EndTurn(old(sys));
    }

    method Judge(i: nat, a: nat, safe: bool) returns (go: bool)
      requires Synced() && sys.pc == Judging(i, a, safe)
      modifies this, file
      ensures Synced() && Led(m, world, old(sys), old(clock), sys, clock)
      ensures sys.pc == if go then Reading(i, a, safe) else Failing(i, a)
    {
      hide Run, Led;
      Outside();
      go := safe || !(file.record.status.STOPPED? || file.record.status.PAUSING?);
      EndTurn(old(sys));
    }

    method Catch(i: nat, a: nat, edited: bool) returns (go: bool)
      requires Synced() && sys.pc == Raised(i, a, edited)
      modifies this, file
      ensures Synced() && Led(m, world, old(sys), old(clock), sys, clock)
      ensures sys.pc == if go then Reading(i, a, false) else RaisedFailing(i, a, edited)
    {
      hide Run, Led;
      Outside();
      go := !(file.record.status.STOPPED? || file.record.status.PAUSING?);
      EndTurn(old(sys));
    }

    method ReadBack(i: nat, a: nat, safe: bool) returns (current: Record)
      requires Synced() && sys.pc == Reading(i, a, safe)
      modifies this, file
      ensures Synced() && Led(m, world, old(sys), old(clock), sys, clock)
      ensures sys.pc == Noting(i, a, safe, current)
    {
      hide Run, Led;
      Outside();
      current := file.record;
      EndTurn(old(sys));
    }

    /** The attempt's own event is written last, through the merge rule. */
    method Note(i: nat, a: nat, safe: bool, snap: Record) returns (end: AttemptEnd)
      requires Synced() && sys.pc == Noting(i, a, safe, snap)
      modifies this, file
      ensures Synced() && Led(m, world, old(sys), old(clock), sys, clock)
      ensures sys.pc == match end case Passed => Committing(i) case Again => Trying(i, a + 1) case Left => Off
    {
      hide Run, Led;
      Outside();
      var noted := state.(events := state.events + [AttemptNote(i, a)]);
      if snap.status.STOPPED? || snap.status.PAUSED? {
        var written := file.WriteJson(snap.(events := noted.events));
        end := Left;
      } else {
        state := file.WriteJson(noted);
        end := if safe then Passed else Again;
      }
      EndTurn(old(sys));
    }

    method StartAttempt(i: nat, a: nat) returns (go: bool)
      requires Synced() && sys.pc == Trying(i, a) && a <= m.maxAttempts && i < |m.tasks|
      modifies this, file
      ensures Synced() && Led(m, world, old(sys), old(clock), sys, clock)
      ensures sys.pc == if go then Proposing(i, a) else Off
    {
      hide Synced, Led;
      go := LookForStop(i, a);
      if go {
        ghost var s, t := sys, clock;
        go := WriteAttempt(i, a);
        Joined(old(sys), old(clock), s, t);
      }
    }

    method ProposeEdits(i: nat, a: nat) returns (ok: bool)
      requires Synced() && sys.pc == Proposing(i, a)
      modifies this, file
      ensures Synced() && Led(m, world, old(sys), old(clock), sys, clock)
      ensures sys.pc == if ok then Editing(i, a) else Raised(i, a, false)
    {
      hide Synced, Led;
      var end, snap := Propose(i, a);
      ok := end.Going?;
      if end.Leaving? {
        ghost var s, t := sys, clock;
        ok := RecordUsage(i, a, snap);
        Joined(old(sys), old(clock), s, t);
      }
    }

    method CheckAndTest(i: nat, a: nat) returns (end: StepEnd, safe: bool)
      requires Synced() && sys.pc == Checking(i, a)
      modifies this, file
      ensures Synced() && Led(m, world, old(sys), old(clock), sys, clock)
      ensures sys.pc
              == match end case Going => Judging(i, a, safe) case Raising => Raised(i, a, true) case Leaving => Off
    {
      hide Synced, Led;
      end, safe := CheckEdits(i, a);
      if end.Leaving? {
        ghost var s, t := sys, clock;
        end, safe := RunTests(i, a);
        Joined(old(sys), old(clock), s, t);
      }
    }

    /** The body of the attempt's try block: propose, edit, check and test. */
    method Work(i: nat, a: nat) returns (end: StepEnd, safe: bool, edited: bool)
      requires Synced() && sys.pc == Proposing(i, a)
      modifies this, file
      ensures Synced() && Led(m, world, old(sys), old(clock), sys, clock)
      ensures sys.pc == match end
                        case Going => Judging(i, a, safe)
                        case Raising => Raised(i, a, edited)
                        case Leaving => Off
    {
      hide Synced, Led;
      end, safe, edited := Raising, false, false;
      var proposed := ProposeEdits(i, a);
      if proposed {
        ghost var s, t := sys, clock;
        end, edited := Edit(i, a);
        Joined(old(sys), old(clock), s, t);
        if end.Going? {
          ghost var s', t' := sys, clock;
          end, safe := CheckAndTest(i, a);
          edited := true;
          Joined(old(sys), old(clock), s', t');
        }
      }
    }

    /** After the work: an attempt that failed under a pause or stop ends the execution there. */
    method Settle(i: nat, a: nat, raised: bool, safe: bool, edited: bool) returns (go: bool)
      requires Synced() && sys.pc == if raised then Raised(i, a, edited) else Judging(i, a, safe)
      modifies this, file
      ensures Synced() && Led(m, world, old(sys), old(clock), sys, clock)
      ensures sys.pc == if go then Reading(i, a, safe && !raised) else Off
    {
      hide Synced, Led;
      if raised {
        go := Catch(i, a, edited);
      } else {
        go := Judge(i, a, safe);
      }
      if !go {
        ghost var s, t := sys, clock;
        FailInFlight(i, a, if raised && !edited then PAUSED else HUMAN_REQUIRED);
        Joined(old(sys), old(clock), s, t);
      }
    }

    method Conclude(i: nat, a: nat, safe: bool) returns (end: AttemptEnd)
      requires Synced() && sys.pc == Reading(i, a, safe)
      modifies this, file
      ensures Synced() && Led(m, world, old(sys), old(clock), sys, clock)
      ensures sys.pc == match end case Passed => Committing(i) case Again => Trying(i, a + 1) case Left => Off
    {
      hide Synced, Led;
      var snap := ReadBack(i, a, safe);
      ghost var s, t := sys, clock;
      end := Note(i, a, safe, snap);
      Joined(old(sys), old(clock), s, t);
    }

    /** One attempt, exactly as the world lets it go. */
    method Attempt(i: nat, a: nat) returns (end: AttemptEnd)
      requires Synced() && sys.pc == Trying(i, a) && i < |m.tasks| && a <= m.maxAttempts
      modifies this, file
      ensures Synced() && Led(m, world, old(sys), old(clock), sys, clock)
      ensures sys.pc == match end case Passed => Committing(i) case Again => Trying(i, a + 1) case Left => Off
    {
      hide Synced, Led;
      var go := StartAttempt(i, a);
      if !go {
        return Left;
      }
      ghost var s1, t1 := sys, clock;
      var step, safe, edited := Work(i, a);
      Joined(old(sys), old(clock), s1, t1);
      if step.Leaving? {
        return Left;
      }
      ghost var s2, t2 := sys, clock;
      go := Settle(i, a, step.Raising?, safe, edited);
      Joined(old(sys), old(clock), s2, t2);
      if !go {
        return Left;
      }
      ghost var s3, t3 := sys, clock;
      end := Conclude(i, a, safe && step.Going?);
      Joined(old(sys), old(clock), s3, t3);
    }

    // ----- one task --------------------------------------------------------------------

    /** Check and commit, keeping the control lock for the checkpoint. */
    method Commit(i: nat) returns (go: bool)
      requires Synced() && sys.pc == Committing(i) && i < |m.tasks|
      modifies this, file
      ensures Synced() && Led(m, world, old(sys), old(clock), sys, clock)
      ensures sys.pc == if go then Checkpointing(i) else Off
    {
      hide Run, Led;
      Outside();
      var luck := world.luck(clock);
      go := !file.record.status.Halted() && luck.clean && luck.passes;
      if go {
        state := file.record;
        branch := branch + [CommitFor(m, i)];
        dirty := false;
      } else if !file.record.status.Halted() {
        file.record := file.record.(status := if luck.clean then BLOCKED else HUMAN_REQUIRED);
      }
      EndTurn(old(sys));
    }

    method Checkpoint(i: nat) returns (go: bool)
      requires Synced() && sys.pc == Checkpointing(i)
      modifies this, file
      ensures Synced() && Led(m, world, old(sys), old(clock), sys, clock)
      ensures sys.pc == if go then Looping(i + 1) else Off
    {
      hide Run, Led;
      RunNothing(m, sys);
      state := state.(index := i + 1, head := branch, attempt := 0, events := state.events + [CommitNote(i)]);
      go := !state.status.PAUSING?;
      file.record := if go then state else state.(status := PAUSED);
      EndTurn(old(sys));
    }

    method CommitTask(i: nat) returns (go: bool)
      requires Synced() && sys.pc == Committing(i) && i < |m.tasks|
      modifies this, file
      ensures Synced() && Led(m, world, old(sys), old(clock), sys, clock)
      ensures sys.pc == if go then Looping(i + 1) else Off
    {
      hide Synced, Led;
      go := Commit(i);
      if go {
        ghost var s, t := sys, clock;
        go := Checkpoint(i);
        Joined(old(sys), old(clock), s, t);
      }
    }

    method RunOut(i: nat, a: nat)
      requires Synced() && sys.pc == Trying(i, a) && a > m.maxAttempts
      modifies this, file
      ensures Synced() && Led(m, world, old(sys), old(clock), sys, clock) && sys.pc.Blocking?
    {
      hide Run, Led;
      Outside();
      state := state.(status := BLOCKED);
      EndTurn(old(sys));
    }

    /** A status the executor gives up with is written through the merge rule. */
    method WriteAndLeave()
      requires Synced() && (sys.pc.Blocking? || sys.pc.Escalating?)
      modifies this, file
      ensures Synced() && Led(m, world, old(sys), old(clock), sys, clock) && sys.pc.Off?
    {
      hide Run, Led;
      Outside();
      state := file.WriteJson(state);
      EndTurn(old(sys));
    }

    method CountAttempts(i: nat)
      requires Synced() && sys.pc == Looping(i) && i < |m.tasks|
      modifies this, file
      ensures Synced() && Led(m, world, old(sys), old(clock), sys, clock)
      ensures sys.pc == Trying(i, state.attempt + 1)
    {
      hide Run, Led, Attempts;
      Outside();
      state := state.(attempt := Max(state.attempt, Attempts(state.events, i)));
      EndTurn(old(sys));
    }

    method RunTask(i: nat) returns (go: bool)
      requires Synced() && sys.pc == Looping(i) && i < |m.tasks|
      modifies this, file
      ensures Synced() && Led(m, world, old(sys), old(clock), sys, clock)
      ensures sys.pc == if go then Looping(i + 1) else Off
    {
      hide Synced, Led;
      CountAttempts(i);
      var attempt := state.attempt + 1;
      var end := Again;
      while attempt <= m.maxAttempts && end.Again?
        invariant Synced() && Led(m, world, old(sys), old(clock), sys, clock)
        invariant sys.pc == match end case Passed => Committing(i) case Again => Trying(i, attempt) case Left => Off
        decreases m.maxAttempts + 1 - attempt, end.Again?
      {
        ghost var s, t := sys, clock;
        end := Attempt(i, attempt);
        Joined(old(sys), old(clock), s, t);
        if end.Again? {
          attempt := attempt + 1;
        }
      }
      ghost var s1, t1 := sys, clock;
      match end {
        case Left => go := false;
        case Passed =>
          go := CommitTask(i);
          Joined(old(sys), old(clock), s1, t1);
        case Again =>
          RunOut(i, attempt);
          Joined(old(sys), old(clock), s1, t1);
          ghost var s2, t2 := sys, clock;
          WriteAndLeave();
          Joined(old(sys), old(clock), s2, t2);
          go := false;
      }
    }

    // ----- the mission -------------------------------------------------------------------

    /** Start-up looks at worktree and branch and decides; a commit to recover has passed verification. */
    method Inspect(interrupted: bool) returns (go: bool, recovered: bool, before: Record)
      requires Synced() && sys.pc == Opened(interrupted)
      modifies this, file
      ensures Synced() && Led(m, world, old(sys), old(clock), sys, clock)
      ensures if !go then sys.pc.Blocking? || sys.pc.Escalating?
              else if recovered then
                sys.pc.Recorded? && state == Reconciled(before, branch) && Provenance(m, before, branch)
              else sys.pc.Beginning?
    {
      hide Run, Led;
      Outside();
      var luck := world.luck(clock);
      before := state;
      go, recovered := true, false;
      if luck.other {
        state := state.(status := BLOCKED);
        go := false;
      } else if !luck.sound || dirty || (branch != state.head && !(Provenance(m, state, branch) && luck.passes))
                || (branch == state.head && interrupted) {
        state := state.(status := HUMAN_REQUIRED);
        go := false;
      } else if branch != state.head {
        state := Reconciled(before, branch);
        recovered := true;
      }
      EndTurn(old(sys));
    }

    /** The recovered checkpoint goes through the merge rule, over whatever the owner did meanwhile. */
    method RecordRecovered(before: Record)
      requires Synced() && sys.pc.Recorded? && state == Reconciled(before, branch) && Provenance(m, before, branch)
      modifies this, file
      ensures Synced() && Led(m, world, old(sys), old(clock), sys, clock) && sys.pc.Beginning?
    {
      hide Run, Led;
      Outside();
      var recovered := file.ReconcileCommittedTask(m, before, branch, true);
      state := recovered.value;
      EndTurn(old(sys));
    }

    method Begin() returns (go: bool)
      requires Synced() && sys.pc.Beginning?
      modifies this, file
      ensures Synced() && Led(m, world, old(sys), old(clock), sys, clock)
      ensures sys.pc == if go then Looping(state.index) else Off
    {
      hide Run, Led;
      Outside();
      state := state.(status := RUNNING);
      state := file.WriteJson(state);
      EndTurn(old(sys));
      go := !state.status.Halted();
    }

    /** Start-up as a whole: recover one commit, go on, or leave escalated or blocked. */
    method StartUp(interrupted: bool) returns (go: bool)
      requires Synced() && sys.pc == Opened(interrupted)
      modifies this, file
      ensures Synced() && Led(m, world, old(sys), old(clock), sys, clock)
      ensures sys.pc == if go then Looping(state.index) else Off
    {
      hide Synced, Led, Reconciled, Provenance;
      var recovered, before;
      go, recovered, before := Inspect(interrupted);
      ghost var s1, t1 := sys, clock;
      if !go {
        WriteAndLeave();
        Joined(old(sys), old(clock), s1, t1);
        return;
      }
      if recovered {
        RecordRecovered(before);
        Joined(old(sys), old(clock), s1, t1);
      }
      ghost var s2, t2 := sys, clock;
      go := Begin();
      Joined(old(sys), old(clock), s2, t2);
    }

    method EnterFinish(index: nat)
      requires Synced() && sys.pc == Looping(index) && index >= |m.tasks|
      modifies this, file
      ensures Synced() && Led(m, world, old(sys), old(clock), sys, clock) && sys.pc.Finishing?
    {
      hide Run, Led;
      Outside();
      EndTurn(old(sys));
    }

    method Complete()
      requires Synced() && sys.pc.Finishing?
      modifies this, file
      ensures Synced() && Led(m, world, old(sys), old(clock), sys, clock) && sys.pc.Off?
    {
      hide Run, Led;
      Outside();
      if !file.record.status.Halted() {
        file.record := file.record.(status := COMPLETED);
      }
      EndTurn(old(sys));
    }

    method RunTasks()
      requires Synced() && sys.pc == Looping(state.index)
      modifies this, file
      ensures Synced() && Led(m, world, old(sys), old(clock), sys, clock) && sys.pc.Off?
    {
      hide Synced, Led;
      var go, index := true, state.index;
      LedNowhere(m, world, sys, clock);
      while go && index < |m.tasks|
        invariant Synced() && Led(m, world, old(sys), old(clock), sys, clock)
        invariant sys.pc == if go then Looping(index) else Off
        decreases |m.tasks| - index, go
      {
        ghost var s, t := sys, clock;
        go := RunTask(index);
        Joined(old(sys), old(clock), s, t);
        index := index + 1;
      }
      if go {
        ghost var s1, t1 := sys, clock;
        EnterFinish(index);
        Joined(old(sys), old(clock), s1, t1);
        ghost var s2, t2 := sys, clock;
        Complete();
        Joined(old(sys), old(clock), s2, t2);
      }
    }

    /** A pause whose executor died is handed to the owner. */
    method EscalateInterruptedPause()
      requires Synced() && sys.pc.PauseRecovery?
      modifies this, file
      ensures Synced() && Led(m, world, old(sys), old(clock), sys, clock) && sys.pc.Off?
    {
      hide Run, Led;
      Outside();
      if file.record.status.PAUSING? {
        file.record := file.record.(status := HUMAN_REQUIRED);
      }
      EndTurn(old(sys));
    }

    method OpenRecord()
      requires Synced() && sys.pc.Off?
      modifies this
      ensures Synced() && clock == old(clock) && sys == Next(m, old(sys), Open)
      ensures branch == old(branch) && dirty == old(dirty)
    {
      state := file.record;
      sys := Next(m, sys, Open);
    }

    /**
     One execution: it opens the record, and if that may be worked on it goes exactly where the world and the
     machine lead, turn by turn, until the step that leaves.
    */
    method RunMission() returns (r: Record)
      requires Synced() && sys.pc.Off?
      modifies this, file
      ensures Synced() && sys.pc.Off? && r == file.record
      ensures Led(m, world, Next(m, old(sys), Open), old(clock), sys, clock)
    {
      OpenRecord();
      ghost var opening := sys;
      LedNowhere(m, world, sys, clock);
      if file.record.status.PAUSING? {
        EscalateInterruptedPause();
      } else if file.record.status.PENDING? || file.record.status.RUNNING? {
        hide Led;
        var go := StartUp(file.record.status.RUNNING?);
        if go {
          ghost var s, t := sys, clock;
          RunTasks();
          Joined(opening, old(clock), s, t);
        }
      }
      return file.record;
    }
  }
}
