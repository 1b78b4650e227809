/**
 The campaign store and the persistent runner, as objects over the two files
 on disk that their methods change. Every runner operation also returns the schedule of
 protocol actions it performed, so each is a run of the interleaving machine.
*/
module CampaignRunner {
  import opened Wrappers
  import opened Text
  import opened CampaignState
  import opened CampaignJournal
  import opened CampaignProtocol

  /** What recovery makes of the campaign file when it finds `side` beside it. */
  function RecoverOutcome(id: Identity, file: Option<Campaign>, side: Option<Deferred>, busy: bool)
    : Result<Option<Campaign>, StoreError>
  {
    if side.None? then Ok(file)
    else if !Readable(id, side.value) then Err(EvidenceInconsistent)
    else if busy then Err(LockBusy)
    else if LoadOutcome(file).Err? then Err(Unreadable)
    else if file == Some(side.value.before) || file == Some(side.value.after) then Ok(Some(side.value.after))
    else Err(EvidenceConflict)
  }

  /** A superseded retry makes recovery refuse, and with it every tick and every scheduled retry. */
  lemma SupersededIsRefused(id: Identity, s: Sys, r: Deferred, busy: bool)
    requires Superseded(id, s, r)
    ensures RecoverOutcome(id, Some(s.file), s.side, busy).Err?
  {
    hide Valid, Readable, Inv;
  }

  class CampaignStore {
    const id: Identity
    var file: Option<Campaign>
    var side: Option<Deferred>

    constructor (id: Identity)
      ensures this.id == id && file == None && side == None
    {
      this.id := id;
      file := None;
      side := None;
    }

    method Create(state: Campaign) returns (r: Result<Campaign, StoreError>)
      modifies this`file
      ensures r.Ok? <==> IdentityOutcome(id, state).Ok? && (old(file) == None || old(file) == Some(state))
      ensures r.Ok? ==> r.value == state && file == Some(state)
      ensures r.Err? ==> file == old(file)
    {
      var checked := IdentityOutcome(id, state);
      if checked.Err? {
        return checked;
      }
      match LoadOutcome(file) {
        case Err(e) => return Err(e);
        case Ok(None) => file := Some(state);
        case Ok(Some(existing)) =>
          if existing != state {
            return Err(AlreadyExists);
          }
      }
      return Ok(state);
    }

    method Load() returns (r: Result<Campaign, StoreError>)
      ensures r.Ok? <==> file.Some? && Valid(file.value)
      ensures r.Ok? ==> file == Some(r.value)
      ensures r.Err? ==> r == Err(if file.None? then NotFound else Unreadable)
    {
      match LoadOutcome(file) {
        case Err(e) => r := Err(e);
        case Ok(None) => r := Err(NotFound);
        case Ok(Some(state)) => r := Ok(state);
      }
    }

    /** `busy`: another process keeps the project lock past the timeout. */
    method Save(state: Campaign, busy: bool) returns (r: Result<Campaign, StoreError>)
      modifies this`file
      ensures IdentityOutcome(id, state).Ok? && busy ==> r == Err(LockBusy)
      ensures IdentityOutcome(id, state).Err? || !busy ==> r == SaveOutcome(id, old(file), state)
      ensures file == if r.Ok? then Some(state) else old(file)
    {
      var checked := IdentityOutcome(id, state);
      if checked.Err? {
        return checked;
      }
      if busy {
        return Err(LockBusy);
      }
      var current := Load();
      match current {
        case Err(e) => return Err(e);
        case Ok(c) =>
          if state.eventSequence < c.eventSequence {
            return Err(SequenceRegressed);
          }
          if state.eventSequence == c.eventSequence && state != c {
            return Err(ChangedConcurrently);
          }
      }
      file := Some(state);
      return Ok(state);
    }

    /** Claims one invocation; a busy or terminal campaign yields no claim and no change. */
    method Claim(worker: string, expiry: Time, now: Time) returns (r: Result<Option<Campaign>, StoreError>)
      modifies this`file
      ensures r.Ok? <==> "runner-" <= worker && '/' !in worker && old(file).Some? && Valid(old(file).value)
      ensures r.Ok? && Claimable(old(file).value, now) ==>
                r.value == file && file == Some(Claimed(old(file).value, worker, expiry, now))
      ensures r.Err? || !Claimable(old(file).value, now) ==> file == old(file) && (r.Ok? ==> r.value == None)
    {
      if !("runner-" <= worker) || '/' in worker {
        return Err(BadWorker);
      }
      var current := Load();
      if current.Err? {
        return Err(current.error);
      }
      var c := current.value;
      if c.status.Terminal() || Leased(c, now) {
        return Ok(None);
      }
      var event := Event(c.eventSequence + 1, EvWorkClaim, c.status, now, "provider/work lease claimed");
      file := Some(c.(leaseOwner := Some(worker), leaseExpiresAt := Some(expiry), updatedAt := now,
                      eventSequence := event.sequence, events := c.events + [event]));
      return Ok(file);
    }

    /** Files a retry that could not be saved; an identical record already filed is left alone. */
    method DeferRetry(before: Campaign, after: Campaign) returns (r: Result<(), StoreError>)
      modifies this`side
      ensures side == if old(side).None? then Some(Sealed(before, after)) else old(side)
      ensures r.Ok? <==> old(side).None? || ReadDeferred(id, old(side).value) == Ok((before, after))
    {
      if side.Some? {
        var filed := ReadDeferred(id, side.value);
        if filed.Err? {
          return Err(filed.error);
        }
        if filed.value != (before, after) {
          return Err(EvidenceConflict);
        }
        return Ok(());
      }
      side := Some(Deferred(before, after, Seal(before, after)));
      return Ok(());
    }

    /** `busy`: the project lock could not be taken in time, which raises and changes nothing. */
    method RecoverDeferredRetry(busy: bool) returns (r: Result<(), StoreError>)
      modifies this
      ensures match RecoverOutcome(id, old(file), old(side), busy)
              case Ok(next) => r == Ok(()) && file == next && side == None
              case Err(e) => r == Err(e) && file == old(file) && side == old(side)
    {
      if side.None? {
        return Ok(());
      }
      var record := ReadDeferred(id, side.value);
      if record.Err? {
        return Err(record.error);
      }
      if busy {
        return Err(LockBusy);
      }
      var (before, after) := record.value;
      if file.Some? && !Valid(file.value) {
        return Err(Unreadable);
      }
      if file == Some(before) {
        file := Some(after);
      } else if file != Some(after) {
        return Err(EvidenceConflict);
      }
      side := None;
      return Ok(());
    }
  }

  // ----- the runner ----------------------------------------------------------

  datatype Probe = Ready | NotReady | ProbeRaised(kind: string)

  datatype StepResult =
    | Continue(note: Option<string>)
    | WaitFor(wait: Wait, note: Option<string>)
    | RetryLater(note: Option<string>)
    | Finish(status: Status, name: string, note: Option<string>)

  datatype Work = Returned(result: StepResult) | WorkRaised(kind: string)

  /** Everything one tick learns from outside: clock readings, the probe, the worker, lock contention. */
  datatype Outside = Outside(
    osLockHeld: bool, recoverBusy: bool,
    now: Time, wakeAt: Time, claimAt: Time, leaseFrom: Time, sinceAt: Time, doneAt: Time,
    probe: Probe, guardPasses: bool, work: Work, saveBusy: bool)

  const LEASE_SECONDS := 300

  /** The move a worker's result asks for. */
  function ResultMove(result: StepResult, since: Time, now: Time): Move {
    match result
    case Continue(note) => Step(RUNNING, "CONTINUE", note, now)
    case WaitFor(wait, note) => Suspend(wait, note, now, since)
    case RetryLater(note) => Retry(OrElse(note, "governed step requested bounded retry"), now)
    case Finish(status, name, note) => Step(status, name, note, now)
  }

  function WorkMove(work: Work, since: Time, now: Time): Move {
    match work
    case WorkRaised(kind) => Retry("work invocation failed: " + kind, now)
    case Returned(result) => ResultMove(result, since, now)
  }

  function ProbeReason(probe: Probe): string {
    if probe.ProbeRaised? then "external probe failed: " + probe.kind else "external condition not satisfied"
  }

  /** What the result constructors already enforce. */
  predicate WellFormed(result: StepResult) {
    (result.WaitFor? ==> result.wait.status.Waiting()) && (result.Finish? ==> result.status.Terminal())
  }

  /**
   Where the two files and the answer end up after the record `m` builds on `state` is
   submitted: refused, saved, or - a retry meeting a held project lock - filed beside it.
  */
  ghost predicate Submitted(b: Backoff, state: Campaign, m: Move, busy: bool, file: Option<Campaign>,
                            side: Option<Deferred>, r: Result<Campaign, StoreError>)
    requires state.retryCount >= 0
  {
    var after := Apply(b, state, m);
    if state.eventSequence >= MAX_EVENTS || !TextsAccepted(m) then
      r.Err? && file == Some(state) && side.None?
    else if !busy then r == Ok(after) && file == Some(after) && side.None?
    else if m.Retry? then r == Ok(after) && file == Some(state) && side == Some(Sealed(state, after))
    else r == Err(LockBusy) && file == Some(state) && side.None?
  }

  /** What a tick does once it may work: claim, invoke the worker once, submit its result. */
  ghost predicate Worked(b: Backoff, worker: string, c: Campaign, o: Outside, file: Option<Campaign>,
                         side: Option<Deferred>, r: Result<Campaign, StoreError>)
    requires c.retryCount >= 0
  {
    if !Claimable(c, o.claimAt) then r == Ok(c) && file == Some(c) && side.None?
    else
      Submitted(b, Claimed(c, worker, o.leaseFrom + LEASE_SECONDS, o.claimAt),
                WorkMove(o.work, o.sinceAt, o.doneAt), o.saveBusy, file, side, r)
  }

  predicate Scheduled(c: Campaign) {
    c.retryCount >= 0 && (c.status.Waiting() ==> c.nextCheckAt.Some?)
  }

  lemma ValidIsScheduled(c: Campaign)
    requires Valid(c)
    ensures Scheduled(c)
  {
  }

  /** One tick on a live campaign: wait, back off, refuse to wake, or wake and work. */
  ghost predicate Ticked(b: Backoff, worker: string, c: Campaign, o: Outside, file: Option<Campaign>,
                         side: Option<Deferred>, r: Result<Campaign, StoreError>)
    requires Scheduled(c)
  {
    if !c.status.Waiting() then Worked(b, worker, c, o, file, side, r)
    else if o.now < c.nextCheckAt.value then r == Ok(c) && file == Some(c) && side.None?
    else if !o.probe.Ready? then
      Submitted(b, c, Retry(ProbeReason(o.probe), o.now), o.saveBusy, file, side, r)
    else if !o.guardPasses || c.eventSequence >= MAX_EVENTS then r.Err? && file == Some(c) && side.None?
    else Worked(b, worker, Apply(b, c, Wake(o.wakeAt)), o, file, side, r)
  }

  /** One tick from any state of the two files: recover a pending retry first, then tick what is there. */
  ghost predicate TickOutcome(id: Identity, b: Backoff, worker: string, oldFile: Option<Campaign>,
                              oldSide: Option<Deferred>, o: Outside, file: Option<Campaign>,
                              side: Option<Deferred>, r: Result<Campaign, StoreError>)
  {
    match RecoverOutcome(id, oldFile, oldSide, o.recoverBusy)
    case Err(e) => r == Err(e) && file == oldFile && side == oldSide
    case Ok(None) => r == Err(NotFound) && file == None && side == None
    case Ok(Some(c)) =>
      if !Valid(c) then r == Err(Unreadable) && file == Some(c) && side.None?
      else if c.status.Terminal() then r == Ok(c) && file == Some(c) && side.None?
      else Scheduled(c) && Ticked(b, worker, c, o, file, side, r)
  }

  // ----- what a tick journals -----------------------------------------------------------------

  /** The kinds of the events after the first `n`. */
  function KindsFrom(events: seq<Event>, n: nat): seq<EventType>
    requires n <= |events|
  {
    seq(|events| - n, i requires 0 <= i < |events| - n => events[n + i].kind)
  }

  function RetryKind(c: Campaign): EventType {
    if c.retryCount < c.binding.retryBudget then EvRetryBackoff else EvRetryExhausted
  }

  function WorkKind(c: Campaign, work: Work): EventType {
    match work
    case WorkRaised(_) => RetryKind(c)
    case Returned(RetryLater(_)) => RetryKind(c)
    case Returned(WaitFor(_, _)) => EvWait
    case Returned(_) => EvStep
  }

  function MoveKind(c: Campaign, m: Move): EventType {
    match m
    case Wake(_) => EvWake
    case Retry(_, _) => RetryKind(c)
    case ResetRetry(_, _, _, _) => EvRetryReset
    case Retire(_, _) => EvStaleBinding
    case Suspend(_, _, _, _) => EvWait
    case Step(_, _, _, _) => EvStep
  }

  lemma WorkMoveFits(c: Campaign, work: Work, since: Time, now: Time)
    requires !c.status.Terminal() && (work.Returned? ==> WellFormed(work.result))
    ensures Enabled(c, WorkMove(work, since, now)) && MoveKind(c, WorkMove(work, since, now)) == WorkKind(c, work)
  {
  }

  predicate LeaseRuns(c: Campaign, now: Time) {
    c.leaseOwner.Some? && c.leaseExpiresAt.Some? && now < c.leaseExpiresAt.value
  }

  /** What the journal gains in a tick: `woken` is the wake event, where the record was waiting. */
  predicate Gains(c: Campaign, o: Outside, gained: seq<EventType>) {
    var woken := if c.status.Waiting() then [EvWake] else [];
    if c.status.Terminal() then gained == []
    else if c.status.Waiting() && c.nextCheckAt.Some? && o.now < c.nextCheckAt.value then gained == []
    else if c.status.Waiting() && !o.probe.Ready? then gained == [] || gained == [RetryKind(c)]
    else if c.status.Waiting() && !o.guardPasses then gained == []
    else if LeaseRuns(c, o.claimAt) then gained == woken || gained == []
    else
      gained == [] || gained == woken + [EvWorkClaim] || gained == woken + [EvWorkClaim, WorkKind(c, o.work)]
  }

  lemma SubmittedGains(b: Backoff, c: Campaign, m: Move, busy: bool, file: Option<Campaign>,
                       side: Option<Deferred>, r: Result<Campaign, StoreError>)
    requires Numbered(c) && Enabled(c, m) && Submitted(b, c, m, busy, file, side, r)
    ensures file == Some(c) || file == Some(Apply(b, c, m))
    ensures |Apply(b, c, m).events| == |c.events| + 1 && Apply(b, c, m).events[..|c.events|] == c.events
    ensures Apply(b, c, m).events[|c.events|].kind == MoveKind(c, m)
  {
    hide TextsAccepted, Delay, OrElse, Strip;
  }

  lemma KindsGrow(a: seq<Event>, b: seq<Event>, n: nat)
    requires n <= |a| <= |b| && b[..|a|] == a
    ensures KindsFrom(b, n) == KindsFrom(a, n) + KindsFrom(b, |a|) && b[..n] == a[..n]
  {
    forall i | n <= i < |a| ensures a[i] == b[i] {
      assert b[..|a|][i] == b[i];
    }
  }

  lemma ClaimGains(c: Campaign, worker: string, expiry: Time, now: Time)
    requires Numbered(c)
    ensures var claimed := Claimed(c, worker, expiry, now);
            && claimed.events[..|c.events|] == c.events && |claimed.events| == |c.events| + 1
            && claimed.events[|c.events|].kind == EvWorkClaim && RetryKind(claimed) == RetryKind(c)
            && Numbered(claimed) && claimed.status == c.status
            && (Claimable(c, now) <==> !c.status.Terminal() && !LeaseRuns(c, now))
  {
  }

  lemma WorkedGains(b: Backoff, worker: string, c: Campaign, o: Outside, file: Option<Campaign>,
                    side: Option<Deferred>, r: Result<Campaign, StoreError>)
    requires Numbered(c) && !c.status.Terminal() && (o.work.Returned? ==> WellFormed(o.work.result))
    requires Worked(b, worker, c, o, file, side, r)
    ensures file.Some? && |c.events| <= |file.value.events| && file.value.events[..|c.events|] == c.events
    ensures var gained := KindsFrom(file.value.events, |c.events|);
            if LeaseRuns(c, o.claimAt) then gained == []
            else gained == [EvWorkClaim] || gained == [EvWorkClaim, WorkKind(c, o.work)]
  {
    var claimed := Claimed(c, worker, o.leaseFrom + LEASE_SECONDS, o.claimAt);
    ClaimGains(c, worker, o.leaseFrom + LEASE_SECONDS, o.claimAt);
    WorkMoveFits(claimed, o.work, o.sinceAt, o.doneAt);
    assert WorkKind(claimed, o.work) == WorkKind(c, o.work);
    hide Claimed, Claimable, Submitted, Apply, LeaseRuns, RetryKind, WorkMove, WorkKind, MoveKind, Enabled;
    if Claimable(c, o.claimAt) {
      var m := WorkMove(o.work, o.sinceAt, o.doneAt);
      SubmittedGains(b, claimed, m, o.saveBusy, file, side, r);
      hide Worked;
      KindsGrow(claimed.events, file.value.events, |c.events|);
      assert KindsFrom(claimed.events, |c.events|) == [EvWorkClaim];
    }
  }

  /**
   A tick journals at most a wake, a claim and one result, and each only in its place: nothing before the next
   check, no wake without a passing probe and guard, no work without a claim of its own, no claim over a lease.
  */
  lemma TickJournals(id: Identity, b: Backoff, worker: string, c: Campaign, o: Outside, file: Option<Campaign>,
                     side: Option<Deferred>, r: Result<Campaign, StoreError>)
    requires Valid(c) && (o.work.Returned? ==> WellFormed(o.work.result))
    requires TickOutcome(id, b, worker, Some(c), None, o, file, side, r)
    ensures file.Some? && |c.events| <= |file.value.events| && file.value.events[..|c.events|] == c.events
    ensures Gains(c, o, KindsFrom(file.value.events, |c.events|))
  {
    ValidFits(c);
    hide Valid, Worked, Submitted, Apply, WorkKind;
    assert c.events[..|c.events|] == c.events;
    if !c.status.Terminal() {
      if !c.status.Waiting() {
        WorkedGains(b, worker, c, o, file, side, r);
      } else if o.now >= c.nextCheckAt.value {
        if !o.probe.Ready? {
          SubmittedGains(b, c, Retry(ProbeReason(o.probe), o.now), o.saveBusy, file, side, r);
        } else if o.guardPasses && c.eventSequence < MAX_EVENTS {
          WokenGains(b, worker, c, o, file, side, r);
        }
      }
    }
  }

  lemma WakeGains(b: Backoff, c: Campaign, now: Time)
    requires Numbered(c)
    ensures var woken := Apply(b, c, Wake(now));
            && woken.events[..|c.events|] == c.events && |woken.events| == |c.events| + 1
            && woken.events[|c.events|].kind == EvWake && woken.status == RUNNING && Numbered(woken)
            && RetryKind(woken) == RetryKind(c)
            && woken.leaseOwner == c.leaseOwner && woken.leaseExpiresAt == c.leaseExpiresAt
  {
  }

  lemma WokenGains(b: Backoff, worker: string, c: Campaign, o: Outside, file: Option<Campaign>,
                   side: Option<Deferred>, r: Result<Campaign, StoreError>)
    requires Numbered(c) && c.status.Waiting() && (o.work.Returned? ==> WellFormed(o.work.result))
    requires Worked(b, worker, Apply(b, c, Wake(o.wakeAt)), o, file, side, r)
    ensures file.Some? && |c.events| <= |file.value.events| && file.value.events[..|c.events|] == c.events
    ensures var gained := KindsFrom(file.value.events, |c.events|);
            if LeaseRuns(c, o.claimAt) then gained == [EvWake]
            else gained == [EvWake, EvWorkClaim] || gained == [EvWake, EvWorkClaim, WorkKind(c, o.work)]
  {
    var woken := Apply(b, c, Wake(o.wakeAt));
    WakeGains(b, c, o.wakeAt);
    hide Worked, Apply, RetryKind;
    WorkedGains(b, worker, woken, o, file, side, r);
    KindsGrow(woken.events, file.value.events, |c.events|);
    assert KindsFrom(woken.events, |c.events|) == [EvWake];
  }

  class CampaignRunner {
    const store: CampaignStore
    const backoff: Backoff
    const workerId: string
    ghost var sys: Sys

    /** A restart constructs a new runner over the same files, wherever the protocol stood. */
    constructor (store: CampaignStore, backoff: Backoff, workerId: string, ghost sys: Sys)
      requires backoff.Bounded() && "runner-" <= workerId && '/' !in workerId
      requires store.file == Some(sys.file) && store.side == sys.side
      requires Inv(store.id, sys) && sys.lock.None? && sys.locals == map[]
      ensures this.store == store && this.backoff == backoff && this.sys == sys && Idle()
    {
      this.store, this.backoff, this.workerId, this.sys := store, backoff, workerId, sys;
    }

    /** The protocol machine stands where the two files stand. */
    ghost predicate Synced()
      reads this, store
    {
      store.file == Some(sys.file) && store.side == sys.side
    }

    ghost predicate Idle()
      reads this, store
    {
      && backoff.Bounded() && "runner-" <= workerId && '/' !in workerId
      && Synced() && Inv(store.id, sys) && sys.lock.None? && sys.locals == map[]
    }

    /** Mid-operation: this process alone is at work and what it last loaded or saved is on disk. */
    ghost predicate Working()
      reads this, store
    {
      && backoff.Bounded() && "runner-" <= workerId && '/' !in workerId
      && Synced() && Inv(store.id, sys)
      && (sys.lock.None? || Holds(sys, 0)) && sys.locals.Keys <= {0}
    }

    ghost predicate Viewing(state: Campaign)
      reads this, store
    {
      Working() && store.file == Some(state) && LocalOf(sys, 0).view == Some(state)
    }

    lemma AgreesNow()
      requires Working()
      ensures sys.file.retryCount >= 0 && sys.file.eventSequence == |sys.file.events|
    {
    }

    ghost method Act(a: Action, plan: seq<(nat, Action)>, start: Sys) returns (longer: seq<(nat, Action)>)
      requires Inv(store.id, sys) && sys == Run(store.id, start, plan)
      modifies this`sys
      ensures Inv(store.id, sys)
      ensures sys == Next(store.id, old(sys), 0, a) == Run(store.id, start, longer)
    {
      hide Inv, Next;
      StepKeepsInv(store.id, sys, 0, a);
      RunSnoc(store.id, start, plan, 0, a);
      longer := plan + [(0, a)];
      sys := Next(store.id, sys, 0, a);
    }

    ghost method Finish(plan: seq<(nat, Action)>, start: Sys) returns (longer: seq<(nat, Action)>)
      requires Working() && sys == Run(store.id, start, plan)
      modifies this`sys
      ensures Idle() && sys == Run(store.id, start, longer)
    {
      hide Inv;
      longer := Act(Done, plan, start);
      assert sys.locals.Keys == {};
    }

    method LoadView(ghost plan: seq<(nat, Action)>, ghost start: Sys)
      returns (r: Result<Campaign, StoreError>, ghost longer: seq<(nat, Action)>)
      requires Working() && sys == Run(store.id, start, plan)
      modifies this`sys
      ensures Working() && sys == Run(store.id, start, longer)
      ensures sys.lock == old(sys.lock) && sys.side == old(sys.side)
      ensures r.Ok? <==> Valid(store.file.value)
      ensures if r.Ok? then Viewing(r.value) else r == Err(Unreadable)
    {
      hide Inv, Valid;
      r := store.Load();
      longer := Act(Load, plan, start);
    }

    /** Saves the record `m` builds on the loaded one; accepted exactly when that record is valid. */
    method SaveMove(m: Move, state: Campaign, updated: Campaign, busy: bool,
                    ghost plan: seq<(nat, Action)>, ghost start: Sys)
      returns (r: Result<Campaign, StoreError>, ghost longer: seq<(nat, Action)>)
      requires Viewing(state) && Enabled(state, m) && state.retryCount >= 0 && updated == Apply(backoff, state, m)
      requires sys == Run(store.id, start, plan)
      modifies this`sys, store`file
      ensures Working() && sys == Run(store.id, start, longer) && sys.side == old(sys.side)
      ensures r.Ok? <==> !busy && state.eventSequence < MAX_EVENTS && TextsAccepted(m)
      ensures r.Ok? ==> r.value == updated && Viewing(updated) && Valid(updated) && sys.lock == old(sys.lock)
      ensures r.Err? ==> store.file == old(store.file)
      ensures r == Err(LockBusy) <==> busy && state.eventSequence < MAX_EVENTS && TextsAccepted(m)
      ensures r == Err(LockBusy) ==> sys == old(sys) && IdentityOutcome(store.id, updated).Ok?
    {
      hide Apply, Valid, Inv, SaveStep;
      SaveOnCurrent(store.id, sys, 0, backoff, m);
      r := store.Save(updated, busy);
      longer := plan;
      if r != Err(LockBusy) {
        longer := Act(Action.Save(backoff, m), plan, start);
      }
    }

    method RetryRecord(state: Campaign, reason: string, now: Time) returns (updated: Campaign)
      requires state.retryCount >= 0
      ensures updated == Apply(backoff, state, Retry(reason, now)) == RetryMove(backoff, state, reason, now)
    {
      var count := state.retryCount + 1;
      if count > state.binding.retryBudget {
        updated := Unleased(Append(state, EvRetryExhausted, BLOCKED_NON_RETRYABLE, reason, now));
        updated := updated.(status := BLOCKED_NON_RETRYABLE, reason := Some(reason),
                            waitingSince := None, nextCheckAt := None, retryCount := count - 1);
      } else {
        var delay := Delay(backoff, count);
        updated := Unleased(Append(state, EvRetryBackoff, RETRY_BACKOFF, reason, now));
        updated := updated.(status := RETRY_BACKOFF, reason := Some(reason),
                            resource := Some(OrElse(state.resource, "campaign-external-boundary")),
                            expectedCondition := Some(OrElse(state.expectedCondition, "retry budget remains")),
                            waitingSince := Some(updated.updatedAt),
                            nextCheckAt := Some(updated.updatedAt + delay), retryCount := count);
      }
    }

    /** Journals one bounded backoff, or the exhaustion of the budget. */
    method ScheduleRetryFrom(state: Campaign, reason: string, now: Time, busy: bool,
                             ghost plan: seq<(nat, Action)>, ghost start: Sys)
      returns (r: Result<Campaign, StoreError>, ghost longer: seq<(nat, Action)>)
      requires Viewing(state) && Holds(sys, 0) && !state.status.Terminal() && state.retryCount >= 0
      requires store.side.None? && sys == Run(store.id, start, plan)
      modifies this`sys, store
      ensures Working() && sys == Run(store.id, start, longer)
      ensures Submitted(backoff, state, Retry(reason, now), busy, store.file, store.side, r)
    {
      hide Valid, Inv, TextsAccepted, Readable, Apply, RetryMove;
      var updated := RetryRecord(state, reason, now);
      r, longer := SaveMove(Retry(reason, now), state, updated, busy, plan, start);
      if r == Err(LockBusy) {
        var filed := store.DeferRetry(state, updated);
        longer := Act(Defer(backoff, reason, now), longer, start);
        r := Ok(updated);
      }
    }

    /** Owner action: clear the retry count once the technical cause is repaired. */
    method ResetRetry(reason: string, now: Time, since: Time, check: Time, busy: bool)
      returns (r: Result<Campaign, StoreError>, ghost plan: seq<(nat, Action)>)
      requires Idle()
      modifies this`sys, store`file
      ensures Idle() && sys == Run(store.id, old(sys), plan)
      ensures r.Ok? <==>
              && Valid(old(store.file).value) && old(store.file).value.status.RETRY_BACKOFF? && !Blank(reason)
              && old(store.file).value.eventSequence < MAX_EVENTS && |Strip(reason)| <= MAX_TEXT && !busy
      ensures r.Ok? ==>
                && store.file == Some(r.value) && r.value.retryCount == 0
                && r.value.status.WAITING_EXTERNAL? && r.value.resource == old(store.file).value.resource
                && ExtendsByOne(old(store.file).value, r.value)
      ensures r.Err? ==> store.file == old(store.file)
    {
      hide Inv, Valid;
      AgreesNow();
      plan := [];
      var loaded;
      loaded, plan := LoadView(plan, old(sys));
      if loaded.Err? {
        plan := Finish(plan, old(sys));
        return loaded, plan;
      }
      var state := loaded.value;
      if !state.status.RETRY_BACKOFF? || Blank(reason) {
        plan := Finish(plan, old(sys));
        return Err(if state.status.RETRY_BACKOFF? then ReasonRequired else NotRetryable), plan;
      }
      var m := Move.ResetRetry(reason, now, since, check);
      var updated := Unleased(Append(state, EvRetryReset, WAITING_EXTERNAL, reason, now))
        .(status := WAITING_EXTERNAL, reason := Some(Strip(reason)),
          expectedCondition := Some("external probe after repaired driver"), resource := state.resource,
          waitingSince := Some(since), nextCheckAt := Some(check), retryCount := 0);
      r, plan := SaveMove(m, state, updated, busy, plan, old(sys));
      plan := Finish(plan, old(sys));
    }

    /** Retires a campaign whose target binding is no longer valid; terminal records are returned as they are. */
    method InvalidateBinding(reason: string, now: Time, busy: bool)
      returns (r: Result<Campaign, StoreError>, ghost plan: seq<(nat, Action)>)
      requires Idle()
      modifies this`sys, store`file
      ensures Idle() && sys == Run(store.id, old(sys), plan)
      ensures var c := old(store.file).value;
              if !Valid(c) then r == Err(Unreadable) && store.file == Some(c)
              else if c.status.Terminal() then r == Ok(c) && store.file == Some(c)
              else if Blank(reason) || c.eventSequence >= MAX_EVENTS || |Strip(reason)| > MAX_TEXT || busy then
                r.Err? && store.file == Some(c)
              else
                && r.Ok? && store.file == Some(r.value) && ExtendsByOne(c, r.value)
                && r.value.status.BLOCKED_NON_RETRYABLE? && r.value.reason == Some(Strip(reason))
                && r.value.retryCount == c.retryCount && r.value.leaseOwner == None
    {
      hide Inv, Valid;
      AgreesNow();
      plan := [];
      var loaded;
      loaded, plan := LoadView(plan, old(sys));
      if loaded.Err? || loaded.value.status.Terminal() || Blank(reason) {
        plan := Finish(plan, old(sys));
        r := if loaded.Ok? && !loaded.value.status.Terminal() then Err(ReasonRequired) else loaded;
        return;
      }
      var state := loaded.value;
      var m := Retire(reason, now);
      var updated := Unleased(Append(state, EvStaleBinding, BLOCKED_NON_RETRYABLE, reason, now))
        .(status := BLOCKED_NON_RETRYABLE, reason := Some(Strip(reason)), waitingSince := None, nextCheckAt := None);
      r, plan := SaveMove(m, state, updated, busy, plan, old(sys));
      plan := Finish(plan, old(sys));
    }

    method Recover(busy: bool, ghost plan: seq<(nat, Action)>, ghost start: Sys)
      returns (r: Result<(), StoreError>, ghost longer: seq<(nat, Action)>)
      requires Working() && Holds(sys, 0) && sys.locals == map[] && sys == Run(store.id, start, plan)
      modifies this`sys, store
      ensures Working() && sys == Run(store.id, start, longer)
      ensures match RecoverOutcome(store.id, old(store.file), old(store.side), busy)
              case Ok(next) => r == Ok(()) && store.file == next && store.side == None && Holds(sys, 0)
              case Err(e) => r == Err(e) && store.file == old(store.file) && store.side == old(store.side)
    {
      SideIsReadable();
      hide Inv, Valid, Readable, Next;
      r := store.RecoverDeferredRetry(busy);
      longer := plan;
      if r.Ok? && old(store.side).Some? {
        longer := ReplayRecovery(old(store.side).value, longer, start);
      }
    }

    ghost method ReplayRecovery(record: Deferred, plan: seq<(nat, Action)>, start: Sys)
      returns (longer: seq<(nat, Action)>)
      requires Inv(store.id, sys) && sys == Run(store.id, start, plan) && Recovering(sys, record, 0, 1)
      requires Readable(store.id, record) && Valid(record.before) && Valid(record.after) && sys.side.Some?
      modifies this`sys
      ensures sys.locals.Keys <= old(sys.locals.Keys) + {0}
      ensures Inv(store.id, sys) && sys == Run(store.id, start, longer) && Recovering(sys, record, 0, 4)
    {
      hide Inv, Valid, Readable, Next;
      RecoveryStep(store.id, sys, record, 0, 1);
      longer := Act(ReadSide, plan, start);
      RecoveryStep(store.id, sys, record, 0, 2);
      longer := Act(ApplySide, longer, start);
      RecoveryStep(store.id, sys, record, 0, 3);
      longer := Act(UnlinkSide, longer, start);
    }

    lemma SideIsReadable()
      requires Working()
      ensures store.side.Some? ==> Readable(store.id, store.side.value)
      ensures store.side.Some? ==> Valid(store.side.value.before) && Valid(store.side.value.after)
    {
    }

    method ApplyResult(state: Campaign, result: StepResult, since: Time, now: Time, busy: bool,
                       ghost plan: seq<(nat, Action)>, ghost start: Sys)
      returns (r: Result<Campaign, StoreError>, ghost longer: seq<(nat, Action)>)
      requires Viewing(state) && Holds(sys, 0) && !state.status.Terminal() && state.retryCount >= 0
      requires WellFormed(result) && store.side.None? && sys == Run(store.id, start, plan)
      modifies this`sys, store
      ensures Working() && sys == Run(store.id, start, longer)
      ensures Submitted(backoff, state, ResultMove(result, since, now), busy, store.file, store.side, r)
    {
      hide Inv, Valid, Readable;
      var m := ResultMove(result, since, now);
      var updated;
      match result {
        case RetryLater(note) =>
          r, longer := ScheduleRetryFrom(state, OrElse(note, "governed step requested bounded retry"), now, busy,
                                         plan, start);
          return;
        case WaitFor(wait, note) =>
          updated := Unleased(Append(state, EvWait, wait.status, OrElse(note, wait.reason), now))
            .(status := wait.status, reason := Some(wait.reason), resource := Some(wait.resource),
              expectedCondition := Some(wait.expected), waitingSince := Some(since),
              nextCheckAt := wait.nextCheckAt);
        case Continue(note) =>
          updated := Unleased(Append(state, EvStep, RUNNING, OrElse(note, "CONTINUE"), now))
            .(status := RUNNING, reason := note, waitingSince := None, nextCheckAt := None);
        case Finish(status, name, note) =>
          updated := Unleased(Append(state, EvStep, status, OrElse(note, name), now))
            .(status := status, reason := note, waitingSince := None, nextCheckAt := None);
      }
      assert updated == Apply(backoff, state, m);
      hide Apply;
      r, longer := SaveMove(m, state, updated, busy, plan, start);
    }

    /** Persists bounded backoff for a transient dependency, after applying any retry left pending. */
    method ScheduleRetry(reason: string, now: Time, recoverBusy: bool, busy: bool)
      returns (r: Result<Campaign, StoreError>, ghost plan: seq<(nat, Action)>)
      requires Idle()
      modifies this`sys, store
      ensures Idle() && sys == Run(store.id, old(sys), plan)
      ensures match RecoverOutcome(store.id, old(store.file), old(store.side), recoverBusy)
              case Err(e) => r == Err(e) && store.file == old(store.file) && store.side == old(store.side)
              case Ok(next) =>
                var c := next.value;
                if !Valid(c) || c.status.Terminal() || Blank(reason) then
                  store.file == next && store.side.None?
                  && r == if !Valid(c) then Err(Unreadable) else if c.status.Terminal() then Ok(c)
                          else Err(ReasonRequired)
                else Submitted(backoff, c, Retry(Strip(reason), now), busy, store.file, store.side, r)
    {
      hide Inv, Valid, Readable, Apply, TextsAccepted;
      plan := Act(Acquire, [], old(sys));
      var recovered;
      recovered, plan := Recover(recoverBusy, plan, old(sys));
      if recovered.Err? {
        plan := Finish(plan, old(sys));
        return Err(recovered.error), plan;
      }
      var loaded;
      loaded, plan := LoadView(plan, old(sys));
      AgreesNow();
      if loaded.Err? || loaded.value.status.Terminal() || Blank(reason) {
        plan := Finish(plan, old(sys));
        r := if loaded.Ok? && !loaded.value.status.Terminal() then Err(ReasonRequired) else loaded;
        return;
      }
      r, plan := ScheduleRetryFrom(loaded.value, Strip(reason), now, busy, plan, old(sys));
      plan := Finish(plan, old(sys));
    }

    method ClaimView(state: Campaign, o: Outside, ghost plan: seq<(nat, Action)>, ghost start: Sys)
      returns (claim: Option<Campaign>, ghost longer: seq<(nat, Action)>)
      requires Viewing(state) && Holds(sys, 0) && Valid(state)
      requires store.side.None? && sys == Run(store.id, start, plan)
      modifies this`sys, store
      ensures Working() && Holds(sys, 0) && store.side.None? && sys == Run(store.id, start, longer)
      ensures claim == if Claimable(state, o.claimAt)
                       then Some(Claimed(state, workerId, o.leaseFrom + LEASE_SECONDS, o.claimAt)) else None
      ensures if claim.Some? then Viewing(claim.value) else store.file == Some(state)
    {
      hide Inv, Valid, Readable;
      var answer := store.Claim(workerId, o.leaseFrom + LEASE_SECONDS, o.claimAt);
      longer := Act(ClaimWork(workerId, o.leaseFrom + LEASE_SECONDS, o.claimAt), plan, start);
      claim := answer.value;
    }

    /** Claims the campaign, invokes the worker at most once, and submits what it returned. */
    method ClaimAndWork(state: Campaign, o: Outside, ghost plan: seq<(nat, Action)>, ghost start: Sys)
      returns (r: Result<Campaign, StoreError>, ghost longer: seq<(nat, Action)>)
      requires Viewing(state) && Holds(sys, 0) && Valid(state) && state.retryCount >= 0
      requires store.side.None? && sys == Run(store.id, start, plan)
      requires o.work.Returned? ==> WellFormed(o.work.result)
      modifies this`sys, store
      ensures Working() && sys == Run(store.id, start, longer)
      ensures Worked(backoff, workerId, state, o, store.file, store.side, r)
    {
      hide Inv, Valid, Readable, Apply, TextsAccepted, Submitted;
      var claim;
      claim, longer := ClaimView(state, o, plan, start);
      if claim.None? {
        return Ok(state), longer;
      }
      var claimed := claim.value;
      match o.work {
        case WorkRaised(kind) =>
          r, longer := ScheduleRetryFrom(claimed, "work invocation failed: " + kind, o.doneAt, o.saveBusy,
                                         longer, start);
        case Returned(result) =>
          r, longer := ApplyResult(claimed, result, o.sinceAt, o.doneAt, o.saveBusy, longer, start);
      }
    }

    method TickLoaded(state: Campaign, o: Outside, ghost plan: seq<(nat, Action)>, ghost start: Sys)
      returns (r: Result<Campaign, StoreError>, ghost longer: seq<(nat, Action)>)
      requires Viewing(state) && Holds(sys, 0) && Valid(state) && Scheduled(state)
      requires store.side.None? && !state.status.Terminal() && sys == Run(store.id, start, plan)
      requires o.work.Returned? ==> WellFormed(o.work.result)
      modifies this`sys, store
      ensures Working() && sys == Run(store.id, start, longer)
      ensures Ticked(backoff, workerId, state, o, store.file, store.side, r)
    {
      hide Inv, Valid, Readable, Submitted, Worked;
      longer := plan;
      var current := state;
      if state.status.Waiting() {
        if o.now < state.nextCheckAt.value {
          return Ok(state), plan;
        }
        if !o.probe.Ready? {
          r, longer := ScheduleRetryFrom(state, ProbeReason(o.probe), o.now, o.saveBusy, plan, start);
          return;
        }
        if !o.guardPasses {
          return Err(GuardRefused), plan;
        }
        current := Append(state, EvWake, RUNNING, "external condition satisfied", o.wakeAt)
          .(status := RUNNING, reason := None, resource := None, expectedCondition := None,
            waitingSince := None, nextCheckAt := None);
        r, longer := SaveMove(Wake(o.wakeAt), state, current, false, plan, start);
        if r.Err? {
          return;
        }
      }
      r, longer := ClaimAndWork(current, o, longer, start);
    }

    /** One tick: recover, then at most one probe and one worker invocation. */
    method Tick(o: Outside) returns (r: Result<Campaign, StoreError>, ghost plan: seq<(nat, Action)>)
      requires Idle()
      requires o.work.Returned? ==> WellFormed(o.work.result)
      modifies this`sys, store
      ensures Idle() && sys == Run(store.id, old(sys), plan)
      ensures if o.osLockHeld then
                && store.file == old(store.file) && store.side == old(store.side)
                && r == if Valid(store.file.value) then Ok(store.file.value) else Err(Unreadable)
              else TickOutcome(store.id, backoff, workerId, old(store.file), old(store.side), o,
                               store.file, store.side, r)
    {
      hide Inv, Valid, Readable, Ticked;
      if o.osLockHeld {
        r, plan := LoadView([], old(sys));
        plan := Finish(plan, old(sys));
        return;
      }
      plan := Act(Acquire, [], old(sys));
      var recovered;
      recovered, plan := Recover(o.recoverBusy, plan, old(sys));
      if recovered.Err? {
        plan := Finish(plan, old(sys));
        return Err(recovered.error), plan;
      }
      r, plan := LoadView(plan, old(sys));
      AgreesNow();
      if r.Ok? && !r.value.status.Terminal() {
        ValidIsScheduled(r.value);
        r, plan := TickLoaded(r.value, o, plan, old(sys));
      }
      plan := Finish(plan, old(sys));
    }
  }
}
