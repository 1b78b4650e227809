/**
 Any number of runners, daemons and owner commands working on one campaign.
 Loading, saving, claiming, and each step of the deferred-retry side journal are
 separate atomic steps; a process may crash between any two of them. A run is a
 schedule: a sequence of (process, action) pairs in any order whatever.
 */
module CampaignProtocol {
  import opened Wrappers
  import opened Text
  import opened CampaignState
  import opened CampaignJournal

  datatype Identity = Identity(projectId: string, campaignId: string)

  datatype StoreError =
    | InvalidState | WrongIdentity | NotFound | Unreadable | SequenceRegressed | ChangedConcurrently
    | AlreadyExists | BadWorker | LockBusy | EvidenceInconsistent | EvidenceConflict
    | ReasonRequired | NotRetryable | GuardRefused

  predicate Owns(id: Identity, c: Campaign) {
    c.binding.projectId == id.projectId && c.binding.campaignId == id.campaignId
  }

  // ----- the atomic operations on the two files ------------------------------

  function LoadOutcome(file: Option<Campaign>): Result<Option<Campaign>, StoreError> {
    if file.Some? && !Valid(file.value) then Err(Unreadable) else Ok(file)
  }

  function IdentityOutcome(id: Identity, c: Campaign): Result<Campaign, StoreError> {
    if !Valid(c) then Err(InvalidState)
    else if !Owns(id, c) then Err(WrongIdentity)
    else Ok(c)
  }

  /** The sequence-checked save: what it writes, or why it refuses. */
  function SaveOutcome(id: Identity, file: Option<Campaign>, next: Campaign): Result<Campaign, StoreError> {
    if IdentityOutcome(id, next).Err? then IdentityOutcome(id, next)
    else
      match LoadOutcome(file)
      case Err(e) => Err(e)
      case Ok(None) => Err(NotFound)
      case Ok(Some(current)) =>
        if next.eventSequence < current.eventSequence then Err(SequenceRegressed)
        else if next.eventSequence == current.eventSequence && next != current then Err(ChangedConcurrently)
        else Ok(next)
  }

  /** A save is accepted exactly for a valid record of this campaign that is the durable one or is numbered past it. */
  lemma SavesExactly(id: Identity, file: Option<Campaign>, next: Campaign)
    ensures SaveOutcome(id, file, next).Ok? <==>
              && Valid(next) && next.binding.projectId == id.projectId && next.binding.campaignId == id.campaignId
              && file.Some? && Valid(file.value)
              && (next == file.value || next.eventSequence > file.value.eventSequence)
    ensures SaveOutcome(id, file, next).Ok? ==> SaveOutcome(id, file, next) == Ok(next)
  {
    hide Valid;
  }

  // ----- the deferred-retry record -------------------------------------------

  /** A digest is as good as the content it covers: the hash is taken to be injective. */
  datatype Digest = Seal(before: Campaign, after: Campaign) | Unsealed

  datatype Deferred = Deferred(before: Campaign, after: Campaign, digest: Digest)

  function Sealed(before: Campaign, after: Campaign): Deferred {
    Deferred(before, after, Seal(before, after))
  }

  /** The record the reader rebuilds from `before` and the variable parts of `after`. */
  function Rebuilt(before: Campaign, after: Campaign): Campaign
    requires after.reason.Some?
  {
    var exhausted := before.retryCount >= before.binding.retryBudget;
    var status := if exhausted then BLOCKED_NON_RETRYABLE else RETRY_BACKOFF;
    var event := Event(before.eventSequence + 1, if exhausted then EvRetryExhausted else EvRetryBackoff,
                       status, after.updatedAt, after.reason.value);
    before.(
      status := status, reason := after.reason, updatedAt := after.updatedAt,
      waitingSince := if exhausted then None else Some(after.updatedAt),
      nextCheckAt := if exhausted then None else after.nextCheckAt,
      retryCount := if exhausted then before.retryCount else before.retryCount + 1,
      leaseOwner := None, leaseExpiresAt := None, eventSequence := event.sequence,
      events := before.events + [event],
      resource := if exhausted then before.resource
                  else Some(OrElse(before.resource, "campaign-external-boundary")),
      expectedCondition := if exhausted then before.expectedCondition
                           else Some(OrElse(before.expectedCondition, "retry budget remains")))
  }

  predicate Readable(id: Identity, r: Deferred) {
    && r.digest == Seal(r.before, r.after)
    && Valid(r.before) && Valid(r.after) && Owns(id, r.before) && Owns(id, r.after)
    && !r.before.status.Terminal()
    && r.after.reason.Some?
    && r.after == Rebuilt(r.before, r.after)
    && (r.before.retryCount < r.before.binding.retryBudget ==>
          r.after.nextCheckAt.Some? && r.after.nextCheckAt.value > r.after.updatedAt)
  }

  function ReadDeferred(id: Identity, r: Deferred): Result<(Campaign, Campaign), StoreError> {
    if Readable(id, r) then Ok((r.before, r.after)) else Err(EvidenceInconsistent)
  }

  /** The pair could have been deferred by some runner with legal backoff bounds. */
  ghost predicate IsRetryOf(before: Campaign, after: Campaign) {
    exists b: Backoff, reason: string, now: Time ::
      b.Bounded() && before.retryCount >= 0 && after == RetryMove(b, before, reason, now)
  }

  lemma RetryIsRebuilt(b: Backoff, before: Campaign, reason: string, now: Time)
    requires b.Bounded() && before.retryCount >= 0
    ensures var after := RetryMove(b, before, reason, now);
            after.reason == Some(reason) && after == Rebuilt(before, after)
    ensures var after := RetryMove(b, before, reason, now);
            !Exhausted(before) ==> after.nextCheckAt.Some? && after.nextCheckAt.value > after.updatedAt
  {
    if !Exhausted(before) {
      BackoffBoundedAndMonotone(b, before.retryCount + 1, before.retryCount + 1);
    }
  }

  /** Every pair a runner defers is read back unchanged. */
  lemma DeferredPairReadsBack(id: Identity, b: Backoff, before: Campaign, reason: string, now: Time)
    requires b.Bounded() && Valid(before) && Owns(id, before) && !before.status.Terminal()
    requires Valid(RetryMove(b, before, reason, now))
    ensures var after := RetryMove(b, before, reason, now);
            ReadDeferred(id, Sealed(before, after)) == Ok((before, after))
  {
    RetryIsRebuilt(b, before, reason, now);
  }

  lemma ReadableIsRetry(id: Identity, r: Deferred)
    requires Readable(id, r)
    ensures IsRetryOf(r.before, r.after)
  {
    hide ValidText, ValidBinding, ValidJournal;
    var delay := if Exhausted(r.before) then 1 else r.after.nextCheckAt.value - r.after.updatedAt;
    var b := Backoff(delay, delay);
    BackoffBoundedAndMonotone(b, r.before.retryCount + 1, r.before.retryCount + 1);
    assert r.after == RetryMove(b, r.before, r.after.reason.value, r.after.updatedAt);
  }

  /** And nothing else is: the reader accepts exactly the sealed retry transitions of this campaign. */
  lemma ReaderAcceptsExactlyRetries(id: Identity, r: Deferred)
    ensures ReadDeferred(id, r).Ok? <==>
            && r == Sealed(r.before, r.after) && Owns(id, r.before)
            && Valid(r.before) && Valid(r.after) && !r.before.status.Terminal()
            && IsRetryOf(r.before, r.after)
  {
    if Readable(id, r) {
      ReadableIsRetry(id, r);
    } else if r == Sealed(r.before, r.after) && Owns(id, r.before) && Valid(r.before) && Valid(r.after)
       && !r.before.status.Terminal() && IsRetryOf(r.before, r.after) {
      hide Valid, Rebuilt, RetryMove;
      var b: Backoff, reason: string, now: Time :|
        b.Bounded() && r.before.retryCount >= 0 && r.after == RetryMove(b, r.before, reason, now);
      DeferredPairReadsBack(id, b, r.before, reason, now);
    }
  }

  // ----- the interleaving machine --------------------------------------------

  datatype Local = Local(view: Option<Campaign>, record: Option<Deferred>, applied: bool)

  /** `log` lists the distinct durable records in the order in which they became durable. */
  datatype Sys = Sys(file: Campaign, side: Option<Deferred>, lock: Option<nat>,
                     locals: map<nat, Local>, log: seq<Campaign>)

  datatype Action =
    | Acquire                     // take the campaign's OS lock
    | Done                        // finish, raise, or crash: the OS lock is released
    | ReadSide | ApplySide | UnlinkSide
    | Load
    | ClaimWork(worker: string, expiry: Time, now: Time)
    | Save(backoff: Backoff, move: Move)
    | Defer(backoff: Backoff, reason: string, now: Time)

  const Fresh := Local(None, None, false)

  function LocalOf(s: Sys, w: nat): Local {
    if w in s.locals then s.locals[w] else Fresh
  }

  function SetLocal(s: Sys, w: nat, l: Local): Sys {
    s.(locals := s.locals[w := l])
  }

  function Write(s: Sys, next: Campaign): Sys {
    s.(file := next, log := if next == s.file then s.log else s.log + [next])
  }

  function Stop(s: Sys, w: nat): Sys {
    s.(locals := s.locals - {w}, lock := if s.lock == Some(w) then None else s.lock)
  }

  predicate Holds(s: Sys, w: nat) { s.lock == Some(w) }

  function ReadStep(id: Identity, s: Sys, w: nat): Sys {
    if Holds(s, w) && s.side.Some? && Readable(id, s.side.value)
    then SetLocal(s, w, LocalOf(s, w).(record := s.side, applied := false))
    else s
  }

  function ApplyStep(s: Sys, w: nat): Sys {
    var l := LocalOf(s, w);
    if !Holds(s, w) || l.record.None? || !Valid(s.file) then s
    else if s.file == l.record.value.before then
      SetLocal(Write(s, l.record.value.after), w, l.(applied := true))
    else if s.file == l.record.value.after then SetLocal(s, w, l.(applied := true))
    else Stop(s, w)
  }

  function UnlinkStep(s: Sys, w: nat): Sys {
    if Holds(s, w) && LocalOf(s, w).applied
    then SetLocal(s.(side := None), w, LocalOf(s, w).(record := None, applied := false))
    else s
  }

  function ClaimStep(s: Sys, w: nat, worker: string, expiry: Time, now: Time): Sys {
    if Valid(s.file) && Claimable(s.file, now) then
      var claimed := Claimed(s.file, worker, expiry, now);
      SetLocal(Write(s, claimed), w, LocalOf(s, w).(view := Some(claimed)))
    else s
  }

  predicate MaySave(s: Sys, w: nat, b: Backoff, m: Move) {
    var view := LocalOf(s, w).view;
    b.Bounded() && view.Some? && view.value.retryCount >= 0 && Enabled(view.value, m)
  }

  function SaveStep(id: Identity, s: Sys, w: nat, b: Backoff, m: Move): Sys {
    if MaySave(s, w, b, m) then
      match SaveOutcome(id, Some(s.file), Apply(b, LocalOf(s, w).view.value, m))
      case Ok(next) => SetLocal(Write(s, next), w, LocalOf(s, w).(view := Some(next)))
      case Err(_) => Stop(s, w)
    else s
  }

  /** The save found the project lock held, so the retry is filed beside the campaign instead. */
  function DeferStep(id: Identity, s: Sys, w: nat, b: Backoff, reason: string, now: Time): Sys {
    if MaySave(s, w, b, Retry(reason, now)) && Holds(s, w) && s.side.None? then
      var before := LocalOf(s, w).view.value;
      var after := RetryMove(b, before, reason, now);
      if IdentityOutcome(id, after).Ok?
      then SetLocal(s.(side := Some(Sealed(before, after))), w, Fresh)
      else s
    else s
  }

  function Next(id: Identity, s: Sys, w: nat, a: Action): Sys {
    match a
    case Acquire => if s.lock.None? then s.(lock := Some(w)) else s
    case Done => Stop(s, w)
    case Load => SetLocal(s, w, LocalOf(s, w).(view := if Valid(s.file) then Some(s.file) else None))
    case ReadSide => ReadStep(id, s, w)
    case ApplySide => ApplyStep(s, w)
    case UnlinkSide => UnlinkStep(s, w)
    case ClaimWork(worker, expiry, now) => ClaimStep(s, w, worker, expiry, now)
    case Save(b, m) => SaveStep(id, s, w, b, m)
    case Defer(b, reason, now) => DeferStep(id, s, w, b, reason, now)
  }

  function Run(id: Identity, s: Sys, schedule: seq<(nat, Action)>): Sys
    decreases |schedule|
  {
    if schedule == [] then s
    else Run(id, Next(id, s, schedule[0].0, schedule[0].1), schedule[1..])
  }

  /** A campaign just created (or found idle) on disk, with no side journal and no process at work. */
  predicate Initial(id: Identity, s: Sys) {
    && Valid(s.file) && Owns(id, s.file)
    && s == Sys(s.file, None, None, map[], [s.file])
  }

  // ----- the invariant ---------------------------------------------------------

  /** `c` was durable at some point: it sits in the log at the place its sequence number names. */
  predicate Logged(log: seq<Campaign>, c: Campaign)
    requires log != []
  {
    var i := c.eventSequence - log[0].eventSequence;
    0 <= i < |log| && log[i] == c
  }

  predicate Link(before: Campaign, after: Campaign) {
    KeepsAgreement(before, after) && !before.status.Terminal()
  }

  /** What even a record past the journal limit keeps of validity. */
  predicate Sound(c: Campaign) { Numbered(c) && ValidSchedule(c) }

  predicate Chained(id: Identity, log: seq<Campaign>) {
    && log != []
    && (forall i | 0 <= i < |log| :: Sound(log[i]) && Owns(id, log[i]))
    && (forall i | 0 <= i < |log| :: log[i].eventSequence == log[0].eventSequence + i)
    && (forall i | 0 <= i < |log| - 1 :: Link(log[i], log[i + 1]))
  }

  /** A durable record is invalid only by the one event that `claim` adds past the journal limit. */
  predicate Roomy(c: Campaign) {
    Valid(c) <==> c.eventSequence <= MAX_EVENTS
  }

  predicate LocalOk(id: Identity, s: Sys, w: nat)
    requires s.log != []
  {
    var l := LocalOf(s, w);
    && (l.view.Some? ==> Logged(s.log, l.view.value) && Roomy(l.view.value))
    && (l.record.Some? ==> Holds(s, w) && s.side == l.record)
    && (l.applied ==> l.record.Some? && Logged(s.log, l.record.value.after))
  }

  predicate SideOk(id: Identity, s: Sys)
    requires s.log != []
  {
    s.side.Some? ==> Readable(id, s.side.value) && Logged(s.log, s.side.value.before)
  }

  predicate Inv(id: Identity, s: Sys) {
    && Chained(id, s.log)
    && s.file == s.log[|s.log| - 1]
    && Roomy(s.file)
    && SideOk(id, s)
    && forall w | w in s.locals :: LocalOk(id, s, w)
  }

  lemma LogGrows(id: Identity, log: seq<Campaign>, next: Campaign)
    requires Chained(id, log)
    requires Link(log[|log| - 1], next) && Sound(next) && Owns(id, next)
    ensures Chained(id, log + [next])
    ensures Logged(log + [next], next)
    ensures forall c | Logged(log, c) :: Logged(log + [next], c)
  {
  }

  /** A view that is not stale is the durable record itself: sequence numbers are never reused. */
  lemma FreshViewIsCurrent(id: Identity, s: Sys, view: Campaign)
    requires Inv(id, s) && Logged(s.log, view)
    ensures view.eventSequence <= s.file.eventSequence
    ensures view.eventSequence == s.file.eventSequence ==> view == s.file
  {
  }

  /** What a sequence-checked save may write: nothing new, or one event on top of the durable record. */
  lemma SaveExtendsCurrent(id: Identity, s: Sys, b: Backoff, view: Campaign, m: Move)
    requires Inv(id, s) && Logged(s.log, view) && b.Bounded() && Enabled(view, m)
    requires SaveOutcome(id, Some(s.file), Apply(b, view, m)).Ok?
    ensures Apply(b, view, m) == s.file || (view == s.file && Link(s.file, Apply(b, view, m)))
    ensures Sound(Apply(b, view, m))
  {
    MoveExtends(b, view, m);
    FreshViewIsCurrent(id, s, view);
  }

  lemma WriteKeepsInv(id: Identity, s: Sys, next: Campaign)
    requires Inv(id, s)
    requires next == s.file || (Link(s.file, next) && Sound(next) && Owns(id, next)
                                && Roomy(next))
    ensures Inv(id, Write(s, next)) && Logged(Write(s, next).log, next)
    ensures s.log <= Write(s, next).log
  {
    if next != s.file {
      LogGrows(id, s.log, next);
    }
  }

  lemma ClaimKeepsInv(id: Identity, s: Sys, worker: string, expiry: Time, now: Time)
    requires Inv(id, s) && Valid(s.file) && Claimable(s.file, now)
    ensures var next := Claimed(s.file, worker, expiry, now);
            Inv(id, Write(s, next)) && Logged(Write(s, next).log, next) && s.log <= Write(s, next).log
  {
    ClaimExtends(s.file, worker, expiry, now);
    ClaimValidExactly(s.file, worker, expiry, now);
    WriteKeepsInv(id, s, Claimed(s.file, worker, expiry, now));
  }

  lemma ApplyKeepsInv(id: Identity, s: Sys, r: Deferred)
    requires Inv(id, s) && s.side == Some(r) && s.file == r.before
    ensures Inv(id, Write(s, r.after)) && Logged(Write(s, r.after).log, r.after)
    ensures s.log <= Write(s, r.after).log
  {
    RetryLinks(id, r);
    WriteKeepsInv(id, s, r.after);
  }

  lemma RetryLinks(id: Identity, r: Deferred)
    requires Readable(id, r)
    ensures Link(r.before, r.after) && Sound(r.after)
  {
    ReadableIsRetry(id, r);
    var b: Backoff, reason: string, now: Time :|
      b.Bounded() && r.before.retryCount >= 0 && r.after == RetryMove(b, r.before, reason, now);
    hide Valid;
    MoveExtends(b, r.before, Retry(reason, now));
  }

  lemma SetLocalKeepsInv(id: Identity, s: Sys, w: nat, l: Local)
    requires Inv(id, s)
    requires l.view.Some? ==> Logged(s.log, l.view.value) && Roomy(l.view.value)
    requires l.record.Some? ==> Holds(s, w) && s.side == l.record
    requires l.applied ==> l.record.Some? && Logged(s.log, l.record.value.after)
    ensures Inv(id, SetLocal(s, w, l))
  {
  }

  lemma StopKeepsInv(id: Identity, s: Sys, w: nat)
    requires Inv(id, s)
    ensures Inv(id, Stop(s, w))
  {
    forall v | v in Stop(s, w).locals
      ensures LocalOk(id, Stop(s, w), v)
    {
      assert LocalOk(id, s, v);
    }
  }

  lemma SaveKeepsInv(id: Identity, s: Sys, w: nat, b: Backoff, m: Move)
    requires Inv(id, s)
    ensures Inv(id, SaveStep(id, s, w, b, m))
    ensures s.log <= SaveStep(id, s, w, b, m).log
  {
    hide Valid, Apply, Readable;
    var l := LocalOf(s, w);
    if MaySave(s, w, b, m) {
      var next := Apply(b, l.view.value, m);
      if SaveOutcome(id, Some(s.file), next).Ok? {
        SaveExtendsCurrent(id, s, b, l.view.value, m);
        ValidFits(next);
        WriteKeepsInv(id, s, next);
        SetLocalKeepsInv(id, Write(s, next), w, l.(view := Some(next)));
      } else {
        StopKeepsInv(id, s, w);
      }
    }
  }

  lemma LocalIsOk(id: Identity, s: Sys, w: nat)
    requires Inv(id, s)
    ensures s.log != [] && LocalOk(id, s, w)
  {
    hide Valid, Readable, Link, Sound;
  }

  lemma ApplySideKeepsInv(id: Identity, s: Sys, w: nat)
    requires Inv(id, s)
    ensures Inv(id, ApplyStep(s, w))
    ensures s.log <= ApplyStep(s, w).log
  {
    hide Inv, Valid, Readable, Roomy;
    var l := LocalOf(s, w);
    LocalIsOk(id, s, w);
    if Holds(s, w) && l.record.Some? && Valid(s.file) {
      if s.file == l.record.value.before {
        ApplyKeepsInv(id, s, l.record.value);
        KeepsLogged(s.log, Write(s, l.record.value.after).log, l);
        SetLocalKeepsInv(id, Write(s, l.record.value.after), w, l.(applied := true));
      } else if s.file == l.record.value.after {
        FileIsLogged(id, s);
        SetLocalKeepsInv(id, s, w, l.(applied := true));
      } else {
        StopKeepsInv(id, s, w);
      }
    }
  }

  lemma FileIsLogged(id: Identity, s: Sys)
    requires Inv(id, s)
    ensures s.log != [] && Logged(s.log, s.file)
  {
    hide Valid, Readable, Link, Sound;
  }

  lemma KeepsLogged(log: seq<Campaign>, longer: seq<Campaign>, l: Local)
    requires log != [] && log <= longer
    ensures l.view.Some? && Logged(log, l.view.value) ==> Logged(longer, l.view.value)
  {
  }

  lemma DeferredIsReadable(id: Identity, b: Backoff, before: Campaign, reason: string, now: Time)
    requires b.Bounded() && Numbered(before) && Owns(id, before) && Roomy(before)
    requires !before.status.Terminal() && IdentityOutcome(id, RetryMove(b, before, reason, now)).Ok?
    ensures Readable(id, Sealed(before, RetryMove(b, before, reason, now)))
  {
    MoveExtends(b, before, Retry(reason, now));
    ValidFits(RetryMove(b, before, reason, now));
    assert Valid(before);
    DeferredPairReadsBack(id, b, before, reason, now);
  }

  lemma DeferKeepsInv(id: Identity, s: Sys, w: nat, b: Backoff, reason: string, now: Time)
    requires Inv(id, s)
    ensures Inv(id, DeferStep(id, s, w, b, reason, now)) && DeferStep(id, s, w, b, reason, now).log == s.log
  {
    hide Valid, Readable, RetryMove;
    var l := LocalOf(s, w);
    if MaySave(s, w, b, Retry(reason, now)) && Holds(s, w) && s.side.None?
       && IdentityOutcome(id, RetryMove(b, l.view.value, reason, now)).Ok? {
      var after := RetryMove(b, l.view.value, reason, now);
      DeferredIsReadable(id, b, l.view.value, reason, now);
      var filed := s.(side := Some(Sealed(l.view.value, after)));
      assert Inv(id, filed);
      SetLocalKeepsInv(id, filed, w, Fresh);
    }
  }

  lemma ClaimStepKeepsInv(id: Identity, s: Sys, w: nat, worker: string, expiry: Time, now: Time)
    requires Inv(id, s)
    ensures Inv(id, ClaimStep(s, w, worker, expiry, now))
    ensures s.log <= ClaimStep(s, w, worker, expiry, now).log
  {
    if Valid(s.file) && Claimable(s.file, now) {
      var next := Claimed(s.file, worker, expiry, now);
      ClaimKeepsInv(id, s, worker, expiry, now);
      SetLocalKeepsInv(id, Write(s, next), w, LocalOf(s, w).(view := Some(next)));
    }
  }

  lemma UnlinkKeepsInv(id: Identity, s: Sys, w: nat)
    requires Inv(id, s)
    ensures Inv(id, UnlinkStep(s, w))
  {
    hide Valid, Readable;
    if Holds(s, w) && LocalOf(s, w).applied {
      forall v | v in UnlinkStep(s, w).locals
        ensures LocalOk(id, UnlinkStep(s, w), v)
      {
        assert v != w ==> LocalOk(id, s, v);
      }
    }
  }

  lemma LoadKeepsInv(id: Identity, s: Sys, w: nat)
    requires Inv(id, s)
    ensures Inv(id, SetLocal(s, w, LocalOf(s, w).(view := if Valid(s.file) then Some(s.file) else None)))
  {
    hide Valid, Readable;
  }

  lemma ReadKeepsInv(id: Identity, s: Sys, w: nat)
    requires Inv(id, s)
    ensures Inv(id, ReadStep(id, s, w))
  {
    hide Valid, Readable;
  }

  lemma AcquireKeepsInv(id: Identity, s: Sys, w: nat)
    requires Inv(id, s) && s.lock.None?
    ensures Inv(id, s.(lock := Some(w)))
  {
    hide Valid, Readable;
    forall v | v in s.locals
      ensures LocalOk(id, s.(lock := Some(w)), v)
    {
      assert LocalOk(id, s, v);
    }
  }

  /** Every action of every process, a crash included, keeps the invariant and only extends the log. */
  lemma StepKeepsInv(id: Identity, s: Sys, w: nat, a: Action)
    requires Inv(id, s)
    ensures Inv(id, Next(id, s, w, a))
    ensures s.log <= Next(id, s, w, a).log
  {
    hide Inv, Valid, Readable, SaveStep, ApplyStep, DeferStep, ClaimStep;
    match a {
      case Acquire =>
        if s.lock.None? {
          AcquireKeepsInv(id, s, w);
        }
      case Load => LoadKeepsInv(id, s, w);
      case ReadSide => ReadKeepsInv(id, s, w);
      case UnlinkSide => UnlinkKeepsInv(id, s, w);
      case Done => StopKeepsInv(id, s, w);
      case ClaimWork(worker, expiry, now) => ClaimStepKeepsInv(id, s, w, worker, expiry, now);
      case Save(b, m) => SaveKeepsInv(id, s, w, b, m);
      case ApplySide => ApplySideKeepsInv(id, s, w);
      case Defer(b, reason, now) => DeferKeepsInv(id, s, w, b, reason, now);
    }
  }

  lemma {:induction false} RunKeepsInv(id: Identity, s: Sys, schedule: seq<(nat, Action)>)
    requires Inv(id, s)
    ensures Inv(id, Run(id, s, schedule))
    ensures s.log <= Run(id, s, schedule).log
    decreases |schedule|
  {
    if schedule != [] {
      StepKeepsInv(id, s, schedule[0].0, schedule[0].1);
      RunKeepsInv(id, Next(id, s, schedule[0].0, schedule[0].1), schedule[1..]);
    }
  }

  lemma InitialInv(id: Identity, s: Sys)
    requires Initial(id, s)
    ensures Inv(id, s)
  {
  }

  // ----- no lost update ----------------------------------------------------------

  lemma {:induction false} JournalsNest(id: Identity, log: seq<Campaign>, i: nat, j: nat)
    requires Chained(id, log) && i <= j < |log|
    ensures log[i].events <= log[j].events
    decreases j - i
  {
    if i < j {
      JournalsNest(id, log, i, j - 1);
      assert Link(log[j - 1], log[j]);
    }
  }

  /**
   In every interleaving, the durable record is the last of a chain in which each
   accepted change added exactly one event to the one before it; no accepted event
   is ever dropped from the journal.
  */
  lemma NoLostUpdate(id: Identity, s: Sys, schedule: seq<(nat, Action)>)
    requires Initial(id, s)
    ensures var end := Run(id, s, schedule);
            && end.log != [] && end.log[0] == s.file && end.file == end.log[|end.log| - 1]
            && (forall i | 0 <= i < |end.log| - 1 :: ExtendsByOne(end.log[i], end.log[i + 1]))
            && (forall i | 0 <= i < |end.log| :: end.log[i].events <= end.file.events)
            && |end.file.events| == |s.file.events| + |end.log| - 1
  {
    InitialInv(id, s);
    RunKeepsInv(id, s, schedule);
    var end := Run(id, s, schedule);
    forall i | 0 <= i < |end.log| - 1
      ensures ExtendsByOne(end.log[i], end.log[i + 1])
    {
      assert Link(end.log[i], end.log[i + 1]);
    }
    forall i | 0 <= i < |end.log|
      ensures end.log[i].events <= end.file.events
    {
      JournalsNest(id, end.log, i, |end.log| - 1);
    }
  }

  /** A writer whose record is no longer the durable one changes nothing. */
  lemma StaleWriterChangesNothing(id: Identity, s: Sys, w: nat, b: Backoff, m: Move)
    requires Inv(id, s)
    requires LocalOf(s, w).view.Some? && LocalOf(s, w).view.value != s.file
    ensures Next(id, s, w, Save(b, m)).file == s.file
    ensures Next(id, s, w, Save(b, m)).log == s.log
  {
    hide Valid, Apply, Readable;
    var v := LocalOf(s, w).view.value;
    if b.Bounded() && Enabled(v, m) {
      var next := Apply(b, v, m);
      if SaveOutcome(id, Some(s.file), next).Ok? {
        SaveExtendsCurrent(id, s, b, v, m);
        assert Write(s, next).file == s.file && Write(s, next).log == s.log;
      }
    }
  }

  /** A writer holding the durable record is accepted exactly when the record it built is valid. */
  lemma CurrentWriterAccepted(id: Identity, s: Sys, b: Backoff, m: Move)
    requires Inv(id, s) && b.Bounded() && Enabled(s.file, m)
    ensures SaveOutcome(id, Some(s.file), Apply(b, s.file, m)).Ok? <==>
            s.file.eventSequence < MAX_EVENTS && TextsAccepted(m)
  {
    MoveExtends(b, s.file, m);
    if Valid(s.file) {
      MoveValidExactly(b, s.file, m);
    }
  }

  /** Saving on top of the record just loaded, as store and machine agree on it. */
  lemma SaveOnCurrent(id: Identity, s: Sys, w: nat, b: Backoff, m: Move)
    requires Inv(id, s) && b.Bounded() && LocalOf(s, w).view == Some(s.file) && Enabled(s.file, m)
    ensures s.file.retryCount >= 0
    ensures var next := Apply(b, s.file, m);
            var accepted := s.file.eventSequence < MAX_EVENTS && TextsAccepted(m);
            && (accepted <==> SaveOutcome(id, Some(s.file), next).Ok?)
            && (accepted <==> IdentityOutcome(id, next).Ok?)
            && (accepted ==> SaveOutcome(id, Some(s.file), next) == Ok(next) && Valid(next))
            && SaveStep(id, s, w, b, m)
               == if accepted then SetLocal(Write(s, next), w, LocalOf(s, w).(view := Some(next))) else Stop(s, w)
  {
    hide Apply, Valid, Readable;
    CurrentWriterAccepted(id, s, b, m);
    MoveExtends(b, s.file, m);
    if IdentityOutcome(id, Apply(b, s.file, m)).Ok? {
      ValidFits(Apply(b, s.file, m));
    }
  }

  /** Once a terminal record is durable, nothing any process still has in flight replaces it. */
  lemma TerminalIsNeverLeft(id: Identity, s: Sys, schedule: seq<(nat, Action)>)
    requires Inv(id, s) && s.file.status.Terminal()
    ensures Run(id, s, schedule).file == s.file
  {
    RunKeepsInv(id, s, schedule);
    var log := Run(id, s, schedule).log;
    assert |log| > |s.log| ==> !Link(log[|s.log| - 1], log[|s.log|]);
  }

  // ----- the journal determines the record ------------------------------------------

  /** From a record that agrees with its journal, every reachable one does, and it keeps its identity and schedule. */
  lemma JournalDeterminesRecord(id: Identity, s: Sys, schedule: seq<(nat, Action)>)
    requires Initial(id, s)
    ensures var c := Run(id, s, schedule).file;
            && (Agrees(s.file) ==>
                  && c.status == LastStatus(c.events)
                  && c.wakeGeneration == Wakes(c.events)
                  && c.retryCount == RetriesSinceReset(c.events) <= c.binding.retryBudget)
            && c.binding == s.file.binding
            && ValidSchedule(c) && (Valid(c) <==> |c.events| <= MAX_EVENTS)
  {
    InitialInv(id, s);
    RunKeepsInv(id, s, schedule);
    var log := Run(id, s, schedule).log;
    BindingIsFixed(id, log, |log| - 1);
    if Agrees(s.file) {
      AgreementIsKept(id, log, |log| - 1);
    }
  }

  lemma {:induction false} AgreementIsKept(id: Identity, log: seq<Campaign>, i: nat)
    requires Chained(id, log) && i < |log| && Agrees(log[0])
    ensures Agrees(log[i])
  {
    if i > 0 {
      AgreementIsKept(id, log, i - 1);
      assert Link(log[i - 1], log[i]);
    }
  }

  lemma {:induction false} BindingIsFixed(id: Identity, log: seq<Campaign>, i: nat)
    requires Chained(id, log) && i < |log|
    ensures log[i].binding == log[0].binding
  {
    if i > 0 {
      BindingIsFixed(id, log, i - 1);
      assert Link(log[i - 1], log[i]);
    }
  }

  /** A campaign whose journal is full can never be brought to a terminal status, not even by its owner. */
  lemma {:induction false} FullJournalNeverEnds(id: Identity, s: Sys, schedule: seq<(nat, Action)>)
    requires Inv(id, s) && s.file.eventSequence >= MAX_EVENTS && !s.file.status.Terminal()
    ensures Run(id, s, schedule).file.status == s.file.status
    ensures s.file.eventSequence > MAX_EVENTS ==> Run(id, s, schedule).file == s.file
    decreases |schedule|
  {
    if schedule != [] {
      var (w, a) := schedule[0];
      FullJournalStep(id, s, w, a);
      StepKeepsInv(id, s, w, a);
      FullJournalNeverEnds(id, Next(id, s, w, a), schedule[1..]);
    }
  }

  lemma FullJournalStep(id: Identity, s: Sys, w: nat, a: Action)
    requires Inv(id, s) && s.file.eventSequence >= MAX_EVENTS
    ensures Next(id, s, w, a).file.status == s.file.status
    ensures s.file.eventSequence > MAX_EVENTS ==> Next(id, s, w, a).file == s.file
    ensures Next(id, s, w, a).file.eventSequence >= s.file.eventSequence
  {
    hide Valid, Apply, Readable;
    var l := LocalOf(s, w);
    match a {
      case Save(b, m) =>
        if MaySave(s, w, b, m) && SaveOutcome(id, Some(s.file), Apply(b, l.view.value, m)).Ok? {
          SaveExtendsCurrent(id, s, b, l.view.value, m);
          ValidFits(Apply(b, l.view.value, m));
        }
      case ApplySide =>
        if Holds(s, w) && l.record.Some? && Valid(s.file) && s.file == l.record.value.before {
          RetryLinks(id, l.record.value);
          ReadableFits(id, l.record.value);
        }
      case _ =>
    }
  }

  lemma ReadableFits(id: Identity, r: Deferred)
    requires Readable(id, r)
    ensures r.after.eventSequence <= MAX_EVENTS
  {
    ValidFits(r.after);
  }

  // ----- the deferred retry --------------------------------------------------------------

  /** `after` became durable immediately on top of `before`. */
  ghost predicate AppliedIn(log: seq<Campaign>, r: Deferred) {
    exists i :: 0 <= i < |log| - 1 && log[i] == r.before && log[i + 1] == r.after
  }

  lemma AppliedAtMostOnce(id: Identity, log: seq<Campaign>, r: Deferred, i: nat, j: nat)
    requires Chained(id, log) && i < |log| - 1 && j < |log| - 1
    requires log[i] == r.before && log[i + 1] == r.after && log[j] == r.before && log[j + 1] == r.after
    ensures i == j
  {
    assert log[i].eventSequence == log[0].eventSequence + i;
  }

  lemma LoggedPairIsApplied(id: Identity, log: seq<Campaign>, r: Deferred)
    requires Chained(id, log) && Readable(id, r) && Logged(log, r.before) && Logged(log, r.after)
    ensures AppliedIn(log, r)
  {
    RetryLinks(id, r);
    hide Readable;
    var i := r.before.eventSequence - log[0].eventSequence;
    assert log[i] == r.before && log[i + 1] == r.after;
  }

  lemma AppliedStays(log: seq<Campaign>, longer: seq<Campaign>, r: Deferred)
    requires log <= longer && AppliedIn(log, r)
    ensures AppliedIn(longer, r)
  {
    var i :| 0 <= i < |log| - 1 && log[i] == r.before && log[i + 1] == r.after;
    assert longer[i] == r.before && longer[i + 1] == r.after;
  }

  lemma SideStep(id: Identity, s: Sys, w: nat, a: Action)
    requires Inv(id, s) && s.side.Some?
    ensures Next(id, s, w, a).side == s.side || AppliedIn(s.log, s.side.value)
  {
    if a.UnlinkSide? && Holds(s, w) && LocalOf(s, w).applied {
      LoggedPairIsApplied(id, s.log, s.side.value);
    }
  }

  /** A deferred retry is never lost: its record stays until its transition is in the journal. */
  lemma {:induction false} DeferredNeverLost(id: Identity, s: Sys, r: Deferred, schedule: seq<(nat, Action)>)
    requires Inv(id, s) && (s.side == Some(r) || AppliedIn(s.log, r))
    ensures var end := Run(id, s, schedule);
            end.side == Some(r) || AppliedIn(end.log, r)
    decreases |schedule|
  {
    if schedule != [] {
      var (w, a) := schedule[0];
      var next := Next(id, s, w, a);
      StepKeepsInv(id, s, w, a);
      if s.side == Some(r) {
        SideStep(id, s, w, a);
      }
      if AppliedIn(s.log, r) {
        AppliedStays(s.log, next.log, r);
      }
      DeferredNeverLost(id, next, r, schedule[1..]);
    }
  }

  /** Recovery never overwrites a durable record other than the one the retry was computed from. */
  lemma RecoveryOverwritesOnlyBefore(id: Identity, s: Sys, w: nat)
    requires Inv(id, s) && Next(id, s, w, ApplySide).file != s.file
    ensures s.side.Some? && s.file == s.side.value.before
    ensures Next(id, s, w, ApplySide).file == s.side.value.after
  {
  }

  /** One recovery by process `w`, cut short by a crash after `steps` of its five steps. */
  function Recovery(w: nat): seq<(nat, Action)> {
    [(w, Acquire), (w, ReadSide), (w, ApplySide), (w, UnlinkSide), (w, Done)]
  }

  function Interrupted(w: nat, steps: nat): seq<(nat, Action)> {
    (if steps < 4 then Recovery(w)[..steps] else Recovery(w)[..4]) + [(w, Done)]
  }

  /** The durable record is still where the retry found it, or where the retry left it. */
  predicate Timely(s: Sys, r: Deferred) { s.file == r.before || s.file == r.after }

  /** The retry `r` is either still pending on top of its own base, or already applied. */
  predicate Settling(id: Identity, s: Sys, r: Deferred) {
    && Inv(id, s) && s.lock.None? && Readable(id, r)
    && (if s.side.Some? then s.side == Some(r) && Timely(s, r) else s.file == r.after)
  }

  /** Where process `w` stands after `k` steps of recovering `r`. */
  predicate Recovering(s: Sys, r: Deferred, w: nat, k: nat) {
    var l := LocalOf(s, w);
    && s.lock == (if k == 0 then None else Some(w))
    && (if s.side.Some? then
          && s.side == Some(r) && Timely(s, r)
          && k <= 3 && (k >= 2 ==> l.record == Some(r))
          && (k == 3 ==> l.applied && s.file == r.after)
        else s.file == r.after && l.record.None? && !l.applied)
  }

  lemma RecoveryStep(id: Identity, s: Sys, r: Deferred, w: nat, k: nat)
    requires Recovering(s, r, w, k) && Readable(id, r) && Valid(s.file) && k < 4
    ensures var next := Next(id, s, w, Recovery(w)[k].1);
            && Recovering(next, r, w, k + 1) && (s.file == r.after ==> next.file == r.after)
            && next.locals.Keys <= s.locals.Keys + {w}
  {
    hide Valid, Readable;
  }

  lemma RecoveringFileValid(id: Identity, s: Sys, r: Deferred, w: nat, k: nat)
    requires Recovering(s, r, w, k) && Readable(id, r)
    ensures Valid(s.file)
  {
    hide ValidId, ValidText, ValidSchedule, ValidJournal, Rebuilt;
  }

  /** With the lock free, no process has a side record in hand. */
  lemma NothingInHand(id: Identity, s: Sys, w: nat)
    requires Inv(id, s) && s.lock.None?
    ensures LocalOf(s, w).record.None? && !LocalOf(s, w).applied
  {
    hide Valid, Readable, Chained;
  }

  lemma {:induction false} RecoveryAdvances(id: Identity, s: Sys, r: Deferred, w: nat, k: nat)
    requires Settling(id, s, r) && k <= 4
    ensures var mid := Run(id, s, Recovery(w)[..k]);
            && Inv(id, mid) && Recovering(mid, r, w, k)
            && (s.file == r.after ==> mid.file == r.after)
  {
    hide Inv, Readable, Valid, Next;
    if k == 0 {
      NothingInHand(id, s, w);
    } else {
      RecoveryAdvances(id, s, r, w, k - 1);
      var mid := Run(id, s, Recovery(w)[..k - 1]);
      RecoveringFileValid(id, mid, r, w, k - 1);
      StepKeepsInv(id, mid, w, Recovery(w)[k - 1].1);
      RecoveryStep(id, mid, r, w, k - 1);
      RunSnoc(id, s, Recovery(w)[..k - 1], w, Recovery(w)[k - 1].1);
      assert Recovery(w)[..k] == Recovery(w)[..k - 1] + [Recovery(w)[k - 1]];
    }
  }

  lemma {:induction false} RunSnoc(id: Identity, s: Sys, plan: seq<(nat, Action)>, w: nat, a: Action)
    ensures Run(id, s, plan + [(w, a)]) == Next(id, Run(id, s, plan), w, a)
    decreases |plan|
  {
    hide Next;
    if plan == [] {
      assert Run(id, Next(id, s, w, a), []) == Next(id, s, w, a);
      assert (plan + [(w, a)])[1..] == [];
    } else {
      assert (plan + [(w, a)])[1..] == plan[1..] + [(w, a)];
      RunSnoc(id, Next(id, s, plan[0].0, plan[0].1), plan[1..], w, a);
    }
  }

  /** A recovery cut short anywhere leaves the retry pending or applied; a full one leaves it applied. */
  lemma RecoverySettles(id: Identity, s: Sys, r: Deferred, w: nat, steps: nat)
    requires Settling(id, s, r)
    ensures var end := Run(id, s, Interrupted(w, steps));
            && Settling(id, end, r)
            && (s.file == r.after ==> end.file == r.after)
            && (steps >= 4 ==> end.side.None? && end.file == r.after)
  {
    hide Readable, Valid, Chained;
    var k := if steps < 4 then steps else 4;
    RecoveryAdvances(id, s, r, w, k);
    var mid := Run(id, s, Recovery(w)[..k]);
    StepKeepsInv(id, mid, w, Done);
    RunSnoc(id, s, Recovery(w)[..k], w, Done);
    hide Inv, Run;
  }

  function InterruptedAll(attempts: seq<(nat, nat)>): seq<(nat, Action)> {
    if attempts == [] then []
    else Interrupted(attempts[0].0, attempts[0].1) + InterruptedAll(attempts[1..])
  }

  lemma {:induction false} RunConcat(id: Identity, s: Sys, p: seq<(nat, Action)>, q: seq<(nat, Action)>)
    ensures Run(id, s, p + q) == Run(id, Run(id, s, p), q)
    decreases |p|
  {
    hide Next;
    if p == [] {
      assert p + q == q;
    } else {
      assert (p + q)[1..] == p[1..] + q;
      RunConcat(id, Next(id, s, p[0].0, p[0].1), p[1..], q);
    }
  }

  lemma {:induction false} InterruptionsSettle(id: Identity, s: Sys, r: Deferred, attempts: seq<(nat, nat)>)
    requires Settling(id, s, r)
    ensures Settling(id, Run(id, s, InterruptedAll(attempts)), r)
    decreases |attempts|
  {
    hide Settling;
    if attempts != [] {
      var first := Interrupted(attempts[0].0, attempts[0].1);
      RecoverySettles(id, s, r, attempts[0].0, attempts[0].1);
      RunConcat(id, s, first, InterruptedAll(attempts[1..]));
      InterruptionsSettle(id, Run(id, s, first), r, attempts[1..]);
    }
  }

  lemma TimelyIsSettling(id: Identity, s: Sys, r: Deferred)
    requires Inv(id, s) && s.side == Some(r) && s.lock.None? && Timely(s, r)
    ensures Settling(id, s, r)
  {
  }

  // ----- exactly when recovery settles a deferred retry ---------------------------------------

  /** The retry is filed, but the durable record has moved on without it or past it. */
  predicate Superseded(id: Identity, s: Sys, r: Deferred) {
    && Inv(id, s) && s.side == Some(r) && !Timely(s, r)
    && forall w | w in s.locals :: !s.locals[w].applied
  }

  /** A record that has moved past the retry's base, and is not the retry's own result, never becomes either again. */
  lemma PastStaysPast(id: Identity, s: Sys, next: Sys, r: Deferred)
    requires Inv(id, s) && Inv(id, next) && s.log <= next.log
    requires s.side == next.side == Some(r) && !Timely(s, r)
    ensures !Timely(next, r)
  {
    FilingHadRoom(id, r);
    LastIsDurable(id, s);
    LastIsDurable(id, next);
    SideIsLogged(id, s, r);
    FreshViewIsCurrent(id, s, r.before);
    hide Inv, Valid, Readable, Chained;
    assert s.log[0] == next.log[0] && next.log[|s.log| - 1] == s.file;
  }

  lemma LastIsDurable(id: Identity, s: Sys)
    requires Inv(id, s)
    ensures s.log != [] && s.file == s.log[|s.log| - 1]
    ensures s.file.eventSequence == s.log[0].eventSequence + |s.log| - 1
  {
    hide Valid, Readable, Link, Sound, Owns;
  }

  /** With nothing applied in hand and the file elsewhere, no step unfiles the retry or claims to have applied it. */
  lemma NobodyUnfiles(id: Identity, s: Sys, r: Deferred, w: nat, a: Action)
    requires s.side == Some(r) && !Timely(s, r)
    requires forall v | v in s.locals :: !s.locals[v].applied
    requires forall v | v in s.locals && s.locals[v].record.Some? :: s.locals[v].record == Some(r)
    ensures var next := Next(id, s, w, a);
            && next.side == s.side && (forall v | v in next.locals :: !next.locals[v].applied)
            && (!a.Save? && !a.ClaimWork? ==> next.file == s.file)
  {
    hide Valid, Readable, Apply, RetryMove, SaveOutcome, IdentityOutcome, Claimed, Claimable, MaySave;
  }

  lemma RecordsAreFiled(id: Identity, s: Sys, r: Deferred)
    requires Inv(id, s) && s.side == Some(r)
    ensures forall v | v in s.locals && s.locals[v].record.Some? :: s.locals[v].record == Some(r)
  {
    hide Valid, Readable, Chained;
    forall v | v in s.locals ensures LocalOk(id, s, v) {}
  }

  lemma SupersededStep(id: Identity, s: Sys, r: Deferred, w: nat, a: Action)
    requires Superseded(id, s, r)
    ensures Superseded(id, Next(id, s, w, a), r)
    ensures !a.Save? && !a.ClaimWork? ==> Next(id, s, w, a).file == s.file
  {
    hide Inv, Next, Timely;
    StepKeepsInv(id, s, w, a);
    RecordsAreFiled(id, s, r);
    NobodyUnfiles(id, s, r, w, a);
    PastStaysPast(id, s, Next(id, s, w, a), r);
  }

  lemma {:induction false} SupersededRun(id: Identity, s: Sys, r: Deferred, schedule: seq<(nat, Action)>)
    requires Superseded(id, s, r)
    ensures Superseded(id, Run(id, s, schedule), r)
    ensures (forall step | step in schedule :: !step.1.Save? && !step.1.ClaimWork?)
            ==> Run(id, s, schedule).file == s.file
    decreases |schedule|
  {
    hide Superseded, Next;
    if schedule != [] {
      SupersededStep(id, s, r, schedule[0].0, schedule[0].1);
      SupersededRun(id, Next(id, s, schedule[0].0, schedule[0].1), r, schedule[1..]);
    }
  }

  /** Once superseded, a deferred retry stays filed under every schedule and is never applied any more. */
  lemma SupersededForGood(id: Identity, s: Sys, r: Deferred, schedule: seq<(nat, Action)>)
    requires Superseded(id, s, r)
    ensures var end := Run(id, s, schedule);
            end.side == Some(r) && !Timely(end, r) && (AppliedIn(end.log, r) <==> AppliedIn(s.log, r))
  {
    SupersededRun(id, s, r, schedule);
    RunKeepsInv(id, s, schedule);
    var end := Run(id, s, schedule);
    FreshViewIsCurrent(id, s, r.before);
    hide Run, Valid, Readable, Link, Sound;
    if AppliedIn(s.log, r) {
      AppliedStays(s.log, end.log, r);
    }
    if AppliedIn(end.log, r) {
      var i :| 0 <= i < |end.log| - 1 && end.log[i] == r.before && end.log[i + 1] == r.after;
      assert end.log[i].eventSequence == end.log[0].eventSequence + i;
      assert s.log[i] == r.before && s.log[i + 1] == r.after;
    }
  }

  /**
   Whatever other processes are doing, with the lock free a full recovery unfiles the retry if and only if
   the durable record is still the retry's base or its result - and then the retry is in the history; otherwise
   recovery changes nothing, and so will every later one.
  */
  lemma RecoveryUnfilesExactly(id: Identity, s: Sys, r: Deferred, w: nat)
    requires Inv(id, s) && s.side == Some(r) && s.lock.None?
    ensures var end := Run(id, s, Interrupted(w, 4));
            && (end.side.None? <==> Timely(s, r))
            && (Timely(s, r) ==> end.file == r.after && AppliedIn(end.log, r))
            && (!Timely(s, r) ==> end.file == s.file && Superseded(id, end, r))
  {
    hide Valid, Chained, Readable;
    if Timely(s, r) {
      TimelyIsSettling(id, s, r);
      hide Inv, Settling;
      RecoverySettles(id, s, r, w, 4);
      DeferredNeverLost(id, s, r, Interrupted(w, 4));
    } else {
      SupersededWhenFree(id, s, r);
      hide Inv, Superseded, Run;
      SupersededRun(id, s, r, Interrupted(w, 4));
      SupersededKeepsSide(id, Run(id, s, Interrupted(w, 4)), r);
    }
  }

  /**
   A recovery cut short after any step, whatever else is under way: a timely retry stays filed and timely or is
   unfiled with its result durable, and a superseded one stays just as it is.
  */
  lemma InterruptedRecoverySettles(id: Identity, s: Sys, r: Deferred, w: nat, steps: nat)
    requires Inv(id, s) && s.side == Some(r) && s.lock.None?
    ensures var end := Run(id, s, Interrupted(w, steps));
            if Timely(s, r) then
              && (if end.side.Some? then steps < 4 && end.side == Some(r) && Timely(end, r) else end.file == r.after)
              && (s.file == r.after ==> end.file == r.after)
            else end.file == s.file && Superseded(id, end, r)
  {
    hide Readable, Run, Interrupted, InterruptedAll, Superseded, Inv;
    if Timely(s, r) {
      TimelyIsSettling(id, s, r);
      RecoverySettles(id, s, r, w, steps);
    } else {
      SupersededWhenFree(id, s, r);
      OnlyRecovery([(w, steps)]);
      JustOne(w, steps);
      SupersededRun(id, s, r, Interrupted(w, steps));
    }
  }

  lemma SupersededKeepsSide(id: Identity, s: Sys, r: Deferred)
    requires Superseded(id, s, r)
    ensures s.side == Some(r)
  {
    hide Inv;
  }

  /**
   Any number of recoveries, by any processes, each cut short after any step, followed by one that finishes:
   a timely retry ends up applied and unfiled, any other stays filed for good.
  */
  lemma RecoveryAppliesRetry(id: Identity, s: Sys, r: Deferred, attempts: seq<(nat, nat)>, w: nat)
    requires Inv(id, s) && s.side == Some(r) && s.lock.None?
    ensures var end := Run(id, s, InterruptedAll(attempts) + Interrupted(w, 4));
            if Timely(s, r) then end.file == r.after && end.side.None? && AppliedIn(end.log, r)
            else end.file == s.file && Superseded(id, end, r)
  {
    hide Inv, Superseded, Settling, Run, Interrupted, InterruptedAll, Readable;
    if Timely(s, r) {
      TimelyIsSettling(id, s, r);
      InterruptionsSettle(id, s, r, attempts);
      RunConcat(id, s, InterruptedAll(attempts), Interrupted(w, 4));
      RecoverySettles(id, Run(id, s, InterruptedAll(attempts)), r, w, 4);
      DeferredNeverLost(id, s, r, InterruptedAll(attempts) + Interrupted(w, 4));
    } else {
      SupersededWhenFree(id, s, r);
      OnlyRecovery(attempts);
      OnlyRecovery([(w, 4)]);
      JustOne(w, 4);
      SupersededRun(id, s, r, InterruptedAll(attempts) + Interrupted(w, 4));
    }
  }

  lemma JustOne(w: nat, steps: nat)
    ensures InterruptedAll([(w, steps)]) == Interrupted(w, steps)
  {
    assert [(w, steps)][1..] == [] && InterruptedAll([]) == [];
  }

  lemma {:induction false} OnlyRecovery(attempts: seq<(nat, nat)>)
    ensures forall step | step in InterruptedAll(attempts) :: !step.1.Save? && !step.1.ClaimWork?
  {
    if attempts != [] {
      OnlyRecovery(attempts[1..]);
    }
  }

  // ----- how a retry comes to be superseded ------------------------------------------------------

  function FileRetry(w: nat, b: Backoff, reason: string, now: Time): seq<(nat, Action)> {
    [(w, Acquire), (w, Load), (w, Defer(b, reason, now)), (w, Done)]
  }

  function OwnerSaves(w: nat, b: Backoff, m: Move): seq<(nat, Action)> { [(w, Load), (w, Save(b, m))] }

  lemma CurrentIsValid(id: Identity, s: Sys)
    requires Inv(id, s) && s.file.eventSequence <= MAX_EVENTS
    ensures Valid(s.file) && Numbered(s.file)
  {
    hide Valid, Readable, Link;
  }

  lemma TwoSteps(id: Identity, s: Sys, w: nat, a: Action, a': Action)
    ensures Run(id, s, [(w, a), (w, a')]) == Next(id, Next(id, s, w, a), w, a')
  {
    hide Next;
    var s1 := Next(id, s, w, a);
    assert [(w, a), (w, a')][1..] == [(w, a')] && [(w, a')][1..] == [];
    assert Run(id, s1, [(w, a')]) == Run(id, Next(id, s1, w, a'), []);
  }

  lemma LoadsCurrent(id: Identity, s: Sys, w: nat)
    requires Inv(id, s) && s.file.eventSequence <= MAX_EVENTS
    ensures var loaded := Next(id, s, w, Load);
            && Inv(id, loaded) && LocalOf(loaded, w).view == Some(s.file)
            && loaded.file == s.file && loaded.log == s.log && loaded.side == s.side && loaded.lock == s.lock
  {
    CurrentIsValid(id, s);
    StepKeepsInv(id, s, w, Load);
    hide Inv, Valid;
  }

  /** A save on the record as loaded, when nobody came in between. */
  lemma OwnerSavesRuns(id: Identity, s: Sys, w: nat, b: Backoff, m: Move)
    requires Inv(id, s) && b.Bounded() && Enabled(s.file, m)
    requires s.file.eventSequence < MAX_EVENTS && TextsAccepted(m)
    ensures Numbered(s.file)
    ensures var end := Run(id, s, OwnerSaves(w, b, m));
            && Inv(id, end) && end.side == s.side && end.lock == s.lock
            && end.file == Apply(b, s.file, m) && end.log == s.log + [end.file]
            && end.file.eventSequence == s.file.eventSequence + 1
  {
    hide Inv, Apply, Enabled, Valid, TextsAccepted, Run, Next;
    CurrentIsValid(id, s);
    LoadsCurrent(id, s, w);
    SavesOnLoaded(id, Next(id, s, w, Load), w, b, m);
    TwoSteps(id, s, w, Load, Save(b, m));
  }

  lemma SavesOnLoaded(id: Identity, s: Sys, w: nat, b: Backoff, m: Move)
    requires Inv(id, s) && b.Bounded() && LocalOf(s, w).view == Some(s.file) && Enabled(s.file, m)
    requires s.file.eventSequence < MAX_EVENTS && TextsAccepted(m)
    ensures Numbered(s.file)
    ensures var next := Next(id, s, w, Save(b, m));
            && Inv(id, next) && next.side == s.side && next.lock == s.lock
            && next.file == Apply(b, s.file, m) && next.log == s.log + [next.file]
            && next.file.eventSequence == s.file.eventSequence + 1
  {
    hide Inv, Apply, Enabled, Valid, TextsAccepted, SaveStep, SaveOutcome, IdentityOutcome;
    CurrentIsValid(id, s);
    StepKeepsInv(id, s, w, Save(b, m));
    SaveOnCurrent(id, s, w, b, m);
    MoveExtends(b, s.file, m);
    hide Agrees;
  }

  lemma NotAppliedElsewhere(id: Identity, log: seq<Campaign>, r: Deferred, k: nat)
    requires Chained(id, log) && k < |log| - 1 && log[k] == r.before && log[k + 1] != r.after
    ensures !AppliedIn(log, r)
  {
    hide Link, Sound, Owns;
    forall i | 0 <= i < |log| - 1
      ensures !(log[i] == r.before && log[i + 1] == r.after)
    {
      assert log[i].eventSequence == log[0].eventSequence + i;
    }
  }

  /** An owner who retires the campaign while a retry is filed supersedes it: it is never applied. */
  lemma RetirementSupersedes(id: Identity, s: Sys, r: Deferred, w: nat, b: Backoff, reason: string, now: Time)
    requires Inv(id, s) && s.side == Some(r) && s.lock.None? && s.file == r.before && b.Bounded()
    requires !Blank(reason) && |Strip(reason)| <= MAX_TEXT
    ensures var end := Run(id, s, OwnerSaves(w, b, Retire(reason, now)));
            Superseded(id, end, r) && !AppliedIn(end.log, r) && end.file.status.Terminal()
  {
    var m := Retire(reason, now);
    FilingHadRoom(id, r);
    OwnerSavesRuns(id, s, w, b, m);
    var end := Run(id, s, OwnerSaves(w, b, m));
    RetiredIsNoRetry(id, r, b, reason, now);
    hide Run, Apply, Valid, Readable;
    SupersededWhenFree(id, end, r);
    assert s.log[|s.log| - 1] == s.file;
    NotAppliedElsewhere(id, end.log, r, |s.log| - 1);
  }

  lemma FilingHadRoom(id: Identity, r: Deferred)
    requires Readable(id, r)
    ensures r.before.eventSequence < MAX_EVENTS && !r.before.status.Terminal() && r.before.retryCount >= 0
    ensures r.after.eventSequence == r.before.eventSequence + 1
  {
    ValidFits(r.after);
    hide Valid;
  }

  lemma RetiredIsNoRetry(id: Identity, r: Deferred, b: Backoff, reason: string, now: Time)
    requires Readable(id, r)
    ensures r.before.retryCount >= 0 && Apply(b, r.before, Retire(reason, now)) != r.after
    ensures Apply(b, r.before, Retire(reason, now)).status.Terminal()
  {
    var retired := Apply(b, r.before, Retire(reason, now));
    assert retired.events[|r.before.events|].kind.EvStaleBinding?;
    assert !r.after.events[|r.before.events|].kind.EvStaleBinding?;
  }

  lemma SupersededWhenFree(id: Identity, s: Sys, r: Deferred)
    requires Inv(id, s) && s.lock.None? && s.side == Some(r) && !Timely(s, r)
    ensures Superseded(id, s, r)
  {
    hide Inv;
    forall v | v in s.locals ensures !s.locals[v].applied {
      NothingInHand(id, s, v);
    }
  }

  /** An owner's reset after a recovery that crashed before unfiling: applied, but filed for good. */
  lemma ResetSupersedes(id: Identity, s: Sys, r: Deferred, w: nat, b: Backoff, reason: string, now: Time, since: Time,
                        check: Time)
    requires Inv(id, s) && s.side == Some(r) && s.lock.None? && s.file == r.after && b.Bounded()
    requires s.file.status.RETRY_BACKOFF? && s.file.eventSequence < MAX_EVENTS
    requires !Blank(reason) && |Strip(reason)| <= MAX_TEXT
    ensures var end := Run(id, s, OwnerSaves(w, b, ResetRetry(reason, now, since, check)));
            Superseded(id, end, r) && AppliedIn(end.log, r)
  {
    var m := ResetRetry(reason, now, since, check);
    FilingHadRoom(id, r);
    OwnerSavesRuns(id, s, w, b, m);
    var end := Run(id, s, OwnerSaves(w, b, m));
    SideIsLogged(id, s, r);
    hide Run, Apply, Inv, Readable, Valid;
    SupersededWhenFree(id, end, r);
    LoggedPairIsApplied(id, s.log, r);
    AppliedStays(s.log, end.log, r);
  }

  lemma SideIsLogged(id: Identity, s: Sys, r: Deferred)
    requires Inv(id, s) && s.side == Some(r)
    ensures Chained(id, s.log) && Readable(id, r) && Logged(s.log, r.before) && Logged(s.log, s.file)
  {
    hide Readable, Valid, Link, Sound, Owns;
  }

  /** Filing a retry from an idle campaign, as a runner does when the project lock is held. */
  lemma RetryIsFiled(id: Identity, s: Sys, w: nat, b: Backoff, reason: string, now: Time)
    requires Initial(id, s) && b.Bounded() && !s.file.status.Terminal() && s.file.eventSequence < MAX_EVENTS
    requires ValidText(Some(reason))
    ensures var end := Run(id, s, FileRetry(w, b, reason, now));
            && Inv(id, end) && end.lock.None? && end.file == s.file
            && end.side == Some(Sealed(s.file, RetryMove(b, s.file, reason, now)))
  {
    InitialInv(id, s);
    var plan: seq<(nat, Action)> := FileRetry(w, b, reason, now);
    var p1: seq<(nat, Action)> := plan[1..];
    var p2: seq<(nat, Action)> := p1[1..];
    var p3: seq<(nat, Action)> := p2[1..];
    RunKeepsInv(id, s, plan);
    CurrentWriterAccepted(id, s, b, Retry(reason, now));
    var s1 := Next(id, s, w, Acquire);
    var s2 := Next(id, s1, w, Load);
    var s3 := Next(id, s2, w, Defer(b, reason, now));
    hide Inv, RetryMove, Readable;
    assert s3.side == Some(Sealed(s.file, RetryMove(b, s.file, reason, now)));
    assert |p3[1..]| == 0;
    assert Run(id, s, plan) == Run(id, s1, p1) == Run(id, s2, p2) == Run(id, s3, p3) == Next(id, s3, w, Done);
  }

  /** So from every live campaign with room some run strands a deferred retry for good, unapplied. */
  lemma RetryCanBeStranded(id: Identity, s: Sys)
    requires Initial(id, s) && !s.file.status.Terminal() && s.file.eventSequence < MAX_EVENTS
    ensures exists schedule, r :: Superseded(id, Run(id, s, schedule), r) && !AppliedIn(Run(id, s, schedule).log, r)
  {
    var b := Backoff(1, 1);
    InkAtStart("x");
    var file := FileRetry(0, b, "x", 0);
    RetryIsFiled(id, s, 0, b, "x", 0);
    var filed := Run(id, s, file);
    assert Strip("x") == "x";
    hide Inv, Readable, Valid, RetryMove, Superseded, Run;
    var r := filed.side.value;
    var retire := OwnerSaves(1, b, Retire("x", 0));
    RetirementSupersedes(id, filed, r, 1, b, "x", 0);
    RunConcat(id, s, file, retire);
    assert Superseded(id, Run(id, s, file + retire), r) && !AppliedIn(Run(id, s, file + retire).log, r);
  }
}
