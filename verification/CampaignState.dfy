/**
 The durable campaign record, its validation, and the transitions that every
 writer builds by appending exactly one event to the record it loaded.
 Timestamps are whole seconds: the text form is a one-to-one encoding of them.
 */
module CampaignState {
  import opened Wrappers
  import opened Text

  type Time = int

  const MAX_TEXT := 4000
  const MAX_EVENTS := 500
  const MAX_RETRY_BUDGET := 1000

  datatype Status =
    | RUNNING | WAITING_CI | WAITING_REVIEW | WAITING_GITHUB | WAITING_ARTIFACT
    | WAITING_DEPLOYMENT | WAITING_PROVIDER | WAITING_EXTERNAL | RETRY_BACKOFF
    | COMPLETE | NO_JUSTIFIED_WORK | HUMAN_REQUIRED | BLOCKED_NON_RETRYABLE | CANCELLED
  {
    predicate Waiting() {
      WAITING_CI? || WAITING_REVIEW? || WAITING_GITHUB? || WAITING_ARTIFACT?
      || WAITING_DEPLOYMENT? || WAITING_PROVIDER? || WAITING_EXTERNAL? || RETRY_BACKOFF?
    }

    predicate Terminal() {
      COMPLETE? || NO_JUSTIFIED_WORK? || HUMAN_REQUIRED? || BLOCKED_NON_RETRYABLE? || CANCELLED?
    }
  }

  datatype EventType =
    | EvWake | EvWait | EvStep | EvRetryBackoff | EvRetryExhausted | EvRetryReset
    | EvStaleBinding | EvWorkClaim

  datatype Event = Event(sequence: int, kind: EventType, status: Status, at: Time, summary: string)

  /** The fields no transition ever changes. */
  datatype Binding = Binding(
    campaignId: string, projectId: string, sessionId: string, operationId: string,
    phase: string, createdAt: Time, retryBudget: int, targetSha: string, lineageBinding: string,
    policyBinding: Option<string>, authorityGeneration: Option<int>)

  datatype Campaign = Campaign(
    binding: Binding,
    status: Status, reason: Option<string>, resource: Option<string>, expectedCondition: Option<string>,
    updatedAt: Time, waitingSince: Option<Time>, nextCheckAt: Option<Time>,
    leaseOwner: Option<string>, leaseExpiresAt: Option<Time>,
    retryCount: int, wakeGeneration: int, eventSequence: int, events: seq<Event>)

  // ----- validation ---------------------------------------------------------

  predicate ValidId(value: string, prefix: string) {
    prefix <= value && '/' !in value && '\\' !in value
  }

  predicate ValidText(o: Option<string>) {
    o.None? || (!Blank(o.value) && |o.value| <= MAX_TEXT)
  }

  predicate ValidSha(s: string) {
    |s| == 40 && forall c | c in s :: '0' <= c <= '9' || 'a' <= c <= 'f'
  }

  predicate ValidSchedule(s: Campaign) {
    if s.status.Waiting() then
      s.reason.Some? && s.resource.Some? && s.expectedCondition.Some?
      && s.waitingSince.Some? && s.nextCheckAt.Some?
    else
      s.waitingSince.None? && s.nextCheckAt.None?
  }

  predicate ValidJournal(s: Campaign) {
    && |s.events| <= MAX_EVENTS
    && |s.events| == s.eventSequence
    && forall i | 0 <= i < |s.events| ::
        s.events[i].sequence == i + 1 && !Blank(s.events[i].summary)
  }

  predicate ValidBinding(b: Binding) {
    && ValidId(b.campaignId, "campaign-") && ValidId(b.projectId, "project-")
    && ValidId(b.sessionId, "session-") && ValidId(b.operationId, "operation-")
    && !Blank(b.phase) && |b.phase| <= MAX_TEXT
    && 0 <= b.retryBudget <= MAX_RETRY_BUDGET
    && ValidSha(b.targetSha) && !Blank(b.lineageBinding)
    && (b.policyBinding.None? || !Blank(b.policyBinding.value))
    && (b.authorityGeneration.None? || b.authorityGeneration.value >= 1)
  }

  /** Every check of the record validator; a record that fails one is refused. */
  predicate Valid(s: Campaign) {
    && ValidBinding(s.binding)
    && ValidText(s.reason) && ValidText(s.resource) && ValidText(s.expectedCondition)
    && (s.leaseOwner.None? <==> s.leaseExpiresAt.None?)
    && ValidSchedule(s)
    && 0 <= s.retryCount <= s.binding.retryBudget
    && s.wakeGeneration >= 0
    && ValidJournal(s)
  }

  // ----- transitions --------------------------------------------------------

  datatype Backoff = Backoff(base: int, max: int) {
    predicate Bounded() { 1 <= base <= max }
  }

  function Pow2(n: nat): (p: nat)
    ensures p >= 1
  {
    if n == 0 then 1 else 2 * Pow2(n - 1)
  }

  function Min(a: int, b: int): int { if a <= b then a else b }

  function Delay(b: Backoff, count: int): int
    requires count >= 1
  {
    Min(b.max, b.base * Pow2(Min(count - 1, 10)))
  }

  function Append(s: Campaign, kind: EventType, status: Status, summary: string, now: Time): Campaign {
    var event := Event(s.eventSequence + 1, kind, status, now, summary);
    s.(updatedAt := now, eventSequence := event.sequence, events := s.events + [event],
       wakeGeneration := s.wakeGeneration + if kind.EvWake? then 1 else 0)
  }

  /** What a probe, a worker or an owner asks to be written next. */
  datatype Wait = Wait(status: Status, reason: string, resource: string, expected: string,
                       nextCheckAt: Option<Time>)

  datatype Move =
    | Wake(now: Time)
    | Retry(reason: string, now: Time)
    | ResetRetry(reason: string, now: Time, since: Time, check: Time)
    | Retire(reason: string, now: Time)
    | Suspend(wait: Wait, note: Option<string>, now: Time, since: Time)
    | Step(target: Status, name: string, note: Option<string>, now: Time)

  /** The guard each operation evaluates on the record it loaded. */
  predicate Enabled(s: Campaign, m: Move) {
    match m
    case Wake(_) => s.status.Waiting()
    case Retry(_, _) => !s.status.Terminal()
    case ResetRetry(reason, _, _, _) => s.status.RETRY_BACKOFF? && !Blank(reason)
    case Retire(reason, _) => !s.status.Terminal() && !Blank(reason)
    case Suspend(wait, _, _, _) => !s.status.Terminal() && wait.status.Waiting()
    case Step(target, _, _, _) => !s.status.Terminal() && (target.RUNNING? || target.Terminal())
  }

  function Unleased(s: Campaign): Campaign {
    s.(leaseOwner := None, leaseExpiresAt := None)
  }

  predicate Exhausted(s: Campaign) { s.retryCount + 1 > s.binding.retryBudget }

  function RetryMove(b: Backoff, s: Campaign, reason: string, now: Time): Campaign
    requires Exhausted(s) || s.retryCount >= 0
  {
    if Exhausted(s) then
      Unleased(Append(s, EvRetryExhausted, BLOCKED_NON_RETRYABLE, reason, now))
      .(status := BLOCKED_NON_RETRYABLE, reason := Some(reason), waitingSince := None, nextCheckAt := None)
    else
      Unleased(Append(s, EvRetryBackoff, RETRY_BACKOFF, reason, now))
      .(status := RETRY_BACKOFF, reason := Some(reason),
        resource := Some(OrElse(s.resource, "campaign-external-boundary")),
        expectedCondition := Some(OrElse(s.expectedCondition, "retry budget remains")),
        waitingSince := Some(now), nextCheckAt := Some(now + Delay(b, s.retryCount + 1)),
        retryCount := s.retryCount + 1)
  }

  function Apply(b: Backoff, s: Campaign, m: Move): Campaign
    requires s.retryCount >= 0
  {
    match m
    case Wake(now) =>
      Append(s, EvWake, RUNNING, "external condition satisfied", now)
      .(status := RUNNING, reason := None, resource := None, expectedCondition := None,
        waitingSince := None, nextCheckAt := None)
    case Retry(reason, now) => RetryMove(b, s, reason, now)
    case ResetRetry(reason, now, since, check) =>
      Unleased(Append(s, EvRetryReset, WAITING_EXTERNAL, reason, now))
      .(status := WAITING_EXTERNAL, reason := Some(Strip(reason)),
        expectedCondition := Some("external probe after repaired driver"),
        waitingSince := Some(since), nextCheckAt := Some(check), retryCount := 0)
    case Retire(reason, now) =>
      Unleased(Append(s, EvStaleBinding, BLOCKED_NON_RETRYABLE, reason, now))
      .(status := BLOCKED_NON_RETRYABLE, reason := Some(Strip(reason)),
        waitingSince := None, nextCheckAt := None)
    case Suspend(wait, note, now, since) =>
      Unleased(Append(s, EvWait, wait.status, OrElse(note, wait.reason), now))
      .(status := wait.status, reason := Some(wait.reason), resource := Some(wait.resource),
        expectedCondition := Some(wait.expected),
        waitingSince := Some(since), nextCheckAt := wait.nextCheckAt)
    case Step(target, name, note, now) =>
      Unleased(Append(s, EvStep, target, OrElse(note, name), now))
      .(status := target, reason := note, waitingSince := None, nextCheckAt := None)
  }

  predicate Leased(s: Campaign, now: Time) {
    s.leaseOwner.Some? && s.leaseExpiresAt.Some? && s.leaseExpiresAt.value > now
  }

  predicate Claimable(s: Campaign, now: Time) {
    !s.status.Terminal() && !Leased(s, now)
  }

  function Claimed(s: Campaign, worker: string, expiry: Time, now: Time): Campaign {
    Append(s, EvWorkClaim, s.status, "provider/work lease claimed", now)
    .(leaseOwner := Some(worker), leaseExpiresAt := Some(expiry))
  }
}
