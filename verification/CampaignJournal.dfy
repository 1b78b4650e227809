/**
 What the event journal says about a campaign, computed from the events alone,
 and the proof that every transition keeps the record in agreement with it.
 */
module CampaignJournal {
  import opened Wrappers
  import opened Text
  import opened CampaignState

  function LastStatus(events: seq<Event>): Status {
    if events == [] then RUNNING else events[|events| - 1].status
  }

  function Wakes(events: seq<Event>): nat {
    if events == [] then 0
    else Wakes(events[..|events| - 1]) + if events[|events| - 1].kind.EvWake? then 1 else 0
  }

  /** Backoffs journalled after the last owner reset. */
  function RetriesSinceReset(events: seq<Event>): nat {
    if events == [] then 0
    else
      var earlier := events[..|events| - 1];
      match events[|events| - 1].kind
      case EvRetryReset => 0
      case EvRetryBackoff => RetriesSinceReset(earlier) + 1
      case _ => RetriesSinceReset(earlier)
  }

  /** The record is a function of its journal (and of its fixed retry budget). */
  predicate Agrees(s: Campaign) {
    && s.status == LastStatus(s.events)
    && s.wakeGeneration == Wakes(s.events)
    && s.retryCount == RetriesSinceReset(s.events)
    && s.retryCount <= s.binding.retryBudget
    && s.eventSequence == |s.events|
  }

  /** Events are numbered by position and no count is negative; every valid record is so. */
  predicate Numbered(s: Campaign) {
    s.eventSequence == |s.events| && s.retryCount >= 0
  }

  /** `after` is `before` with one more event, under the same identity. */
  predicate ExtendsByOne(before: Campaign, after: Campaign) {
    && |after.events| == |before.events| + 1
    && after.events[..|before.events|] == before.events
    && after.eventSequence == before.eventSequence + 1
    && before.binding == after.binding
  }

  lemma JournalGrows(events: seq<Event>, e: Event)
    ensures LastStatus(events + [e]) == e.status
    ensures Wakes(events + [e]) == Wakes(events) + if e.kind.EvWake? then 1 else 0
    ensures RetriesSinceReset(events + [e]) ==
            if e.kind.EvRetryReset? then 0
            else RetriesSinceReset(events) + if e.kind.EvRetryBackoff? then 1 else 0
  {
    assert (events + [e])[..|events|] == events;
  }

  /** One event is added, and a record that agrees with its journal goes on doing so. */
  predicate KeepsAgreement(before: Campaign, after: Campaign) {
    ExtendsByOne(before, after) && Numbered(after) && (Agrees(before) ==> Agrees(after))
  }

  /** One event on top, and the counters move as that event says. */
  predicate Records(before: Campaign, after: Campaign, e: Event) {
    && after.events == before.events + [e] && after.eventSequence == before.eventSequence + 1
    && after.binding == before.binding && after.status == e.status
    && after.wakeGeneration == before.wakeGeneration + (if e.kind.EvWake? then 1 else 0)
    && after.retryCount == (if e.kind.EvRetryReset? then 0
                            else before.retryCount + if e.kind.EvRetryBackoff? then 1 else 0)
    && (e.kind.EvRetryBackoff? ==> !Exhausted(before))
  }

  lemma RecordsKeepsAgreement(before: Campaign, after: Campaign, e: Event)
    requires Numbered(before) && Records(before, after, e)
    ensures KeepsAgreement(before, after)
  {
    JournalGrows(before.events, e);
  }

  lemma MoveRecords(b: Backoff, s: Campaign, m: Move) returns (e: Event)
    requires Numbered(s) && Enabled(s, m)
    ensures Records(s, Apply(b, s, m), e)
  {
    hide Pow2, Delay, Strip, OrElse, Blank;
    e := Apply(b, s, m).events[|s.events|];
  }

  lemma MoveExtends(b: Backoff, s: Campaign, m: Move)
    requires Numbered(s) && Enabled(s, m)
    ensures KeepsAgreement(s, Apply(b, s, m))
  {
    var e := MoveRecords(b, s, m);
    RecordsKeepsAgreement(s, Apply(b, s, m), e);
  }

  lemma ClaimExtends(s: Campaign, worker: string, expiry: Time, now: Time)
    requires Numbered(s)
    ensures KeepsAgreement(s, Claimed(s, worker, expiry, now))
  {
    var after := Claimed(s, worker, expiry, now);
    RecordsKeepsAgreement(s, after, after.events[|s.events|]);
  }

  /** A reset waits from and until the times given, with the count back at zero; only waking keeps the lease. */
  lemma MovesLeave(b: Backoff, s: Campaign, m: Move)
    requires Numbered(s) && Enabled(s, m)
    ensures var after := Apply(b, s, m);
            && after.updatedAt == after.events[|after.events| - 1].at
            && (m.Wake? ==> after.leaseOwner == s.leaseOwner && after.leaseExpiresAt == s.leaseExpiresAt)
            && (!m.Wake? ==> after.leaseOwner.None? && after.leaseExpiresAt.None?)
            && (m.ResetRetry? ==>
                  after.status.WAITING_EXTERNAL? && after.retryCount == 0
                  && after.waitingSince == Some(m.since) && after.nextCheckAt == Some(m.check))
            && (m.Suspend? ==> after.status == m.wait.status && after.nextCheckAt == m.wait.nextCheckAt)
            && (m.Step? ==> after.status == m.target)
            && (m.Retire? ==> after.status.BLOCKED_NON_RETRYABLE?)
            && (m.Wake? ==> after.status.RUNNING?)
            && (m.Wake? || m.Step? || m.Retire? ==> after.nextCheckAt.None? && after.waitingSince.None?)
  {
    hide Delay, Pow2, OrElse, Strip, Blank;
  }

  // ----- what a valid record says --------------------------------------------

  const WAITS := {WAITING_CI, WAITING_REVIEW, WAITING_GITHUB, WAITING_ARTIFACT, WAITING_DEPLOYMENT,
                  WAITING_PROVIDER, WAITING_EXTERNAL, RETRY_BACKOFF}

  const ENDS := {COMPLETE, NO_JUSTIFIED_WORK, HUMAN_REQUIRED, BLOCKED_NON_RETRYABLE, CANCELLED}

  /** A status runs, waits or ends, and only one of them. */
  lemma StatusKinds(s: Status)
    ensures s.Waiting() <==> s in WAITS
    ensures s.Terminal() <==> s in ENDS
    ensures s == RUNNING <==> s !in WAITS && s !in ENDS
    ensures !(s in WAITS && s in ENDS)
  {
  }

  predicate Says(s: string, most: nat) { |s| <= most && exists i | 0 <= i < |s| :: !IsSpace(s[i]) }

  predicate Names(s: string, prefix: string) {
    && |s| >= |prefix| && s[..|prefix|] == prefix
    && forall i | 0 <= i < |s| :: s[i] != '/' && s[i] != '\\'
  }

  predicate HexDigits(s: string, n: nat) {
    |s| == n && forall i | 0 <= i < n :: ('0' <= s[i] && s[i] <= '9') || ('a' <= s[i] && s[i] <= 'f')
  }

  predicate Identified(b: Binding) {
    && Names(b.campaignId, "campaign-") && Names(b.projectId, "project-") && Names(b.sessionId, "session-")
    && Names(b.operationId, "operation-") && Says(b.phase, 4000) && HexDigits(b.targetSha, 40)
    && b.retryBudget >= 0 && b.retryBudget <= 1000 && Says(b.lineageBinding, |b.lineageBinding|)
    && (b.policyBinding.Some? ==> Says(b.policyBinding.value, |b.policyBinding.value|))
    && (b.authorityGeneration.Some? ==> b.authorityGeneration.value > 0)
  }

  predicate Told(o: Option<string>) { o.Some? ==> Says(o.value, 4000) }

  /** A record is valid exactly if it identifies its campaign, keeps its counts, and its journal is numbered through. */
  lemma ValidExactly(c: Campaign)
    ensures Valid(c) <==>
              && Identified(c.binding) && Told(c.reason) && Told(c.resource) && Told(c.expectedCondition)
              && (c.leaseOwner.Some? <==> c.leaseExpiresAt.Some?)
              && (c.status in WAITS ==>
                    c.reason.Some? && c.resource.Some? && c.expectedCondition.Some?
                    && c.waitingSince.Some? && c.nextCheckAt.Some?)
              && (c.status !in WAITS ==> c.waitingSince.None? && c.nextCheckAt.None?)
              && 0 <= c.retryCount && c.retryCount <= c.binding.retryBudget && c.wakeGeneration >= 0
              && |c.events| == c.eventSequence && |c.events| <= 500
              && forall i | 0 <= i < |c.events| ::
                   c.events[i].sequence == i + 1 && Says(c.events[i].summary, |c.events[i].summary|)
  {
    StatusKinds(c.status);
    BindingExactly(c.binding);
    hide ValidBinding, Identified;
  }

  lemma NamesExactly(s: string, prefix: string)
    ensures ValidId(s, prefix) <==> Names(s, prefix)
  {
  }

  lemma BindingExactly(b: Binding)
    ensures ValidBinding(b) <==> Identified(b)
  {
    NamesExactly(b.campaignId, "campaign-");
    NamesExactly(b.projectId, "project-");
    NamesExactly(b.sessionId, "session-");
    NamesExactly(b.operationId, "operation-");
    ShaExactly(b.targetSha);
    hide ValidId, Names, ValidSha, HexDigits;
  }

  lemma ShaExactly(s: string)
    ensures ValidSha(s) <==> HexDigits(s, 40)
  {
    assert forall i | 0 <= i < |s| :: s[i] in s;
  }

  // ----- backoff ------------------------------------------------------------

  lemma {:induction false} Pow2Monotone(a: nat, b: nat)
    requires a <= b
    ensures Pow2(a) <= Pow2(b)
  {
    if a < b {
      Pow2Monotone(a, b - 1);
    }
  }

  lemma ScaleMonotone(k: nat, x: nat, y: nat)
    requires x <= y
    ensures k * x <= k * y
  {
  }

  /** Delays stay in [base, max] and never shrink as the retry count grows. */
  lemma BackoffBoundedAndMonotone(b: Backoff, i: int, j: int)
    requires b.Bounded() && 1 <= i <= j
    ensures b.base <= Delay(b, i) <= Delay(b, j) <= b.max
  {
    var p, q := Pow2(Min(i - 1, 10)), Pow2(Min(j - 1, 10));
    Pow2Monotone(Min(i - 1, 10), Min(j - 1, 10));
    hide Pow2;
    ScaleMonotone(b.base, 1, p);
    ScaleMonotone(b.base, p, q);
  }

  /** The first wait is the base; up to the eleventh each doubles the one before, within the maximum; then it stays. */
  lemma DelayDoubles(b: Backoff, k: int)
    requires b.Bounded() && k >= 1
    ensures Delay(b, 1) == b.base
    ensures k <= 10 ==> Delay(b, k + 1) == if 2 * Delay(b, k) <= b.max then 2 * Delay(b, k) else b.max
    ensures k > 10 ==> Delay(b, k + 1) == Delay(b, k)
  {
    if k <= 10 {
      assert Pow2(k) == 2 * Pow2(k - 1);
      var p := Pow2(k - 1);
      assert b.base * (2 * p) == 2 * (b.base * p);
    }
  }

  /** The k-th wait since the last reset, told by doubling. */
  function NthWait(b: Backoff, k: nat): int {
    if k <= 1 then b.base
    else
      var before := NthWait(b, k - 1);
      if k > 11 then before else if 2 * before <= b.max then 2 * before else b.max
  }

  lemma {:induction false} DelayIsNthWait(b: Backoff, k: nat)
    requires b.Bounded() && k >= 1
    ensures Delay(b, k) == NthWait(b, k)
  {
    hide Delay;
    DelayDoubles(b, 1);
    if k > 1 {
      DelayIsNthWait(b, k - 1);
      DelayDoubles(b, k - 1);
    }
  }

  /**
   A retry within the budget is one backoff more since the last reset: the record sleeps for exactly that many
   doublings of the base. Beyond the budget it ends the campaign.
  */
  lemma RetrySchedules(b: Backoff, s: Campaign, reason: string, now: Time)
    requires Agrees(s) && b.Bounded() && Enabled(s, Retry(reason, now))
    ensures var after := Apply(b, s, Retry(reason, now));
            var k := RetriesSinceReset(s.events) + 1;
            if k <= s.binding.retryBudget then
              && after.status.RETRY_BACKOFF? && RetriesSinceReset(after.events) == k
              && after.waitingSince == Some(now) && after.nextCheckAt == Some(now + NthWait(b, k))
            else after.status.BLOCKED_NON_RETRYABLE? && after.nextCheckAt.None?
  {
    DelayIsNthWait(b, s.retryCount + 1);
    RetryFields(b, s, reason, now);
    hide *;
    assert s.retryCount == RetriesSinceReset(s.events) && s.eventSequence == |s.events| by {
      AgreesMeans(s);
    }
    var after := Apply(b, s, Retry(reason, now));
    JournalGrows(s.events, after.events[|s.events|]);
  }

  lemma AgreesMeans(s: Campaign)
    requires Agrees(s)
    ensures s.retryCount == RetriesSinceReset(s.events) && s.eventSequence == |s.events|
  {
  }

  /** The record and the event a retry leaves. */
  lemma RetryFields(b: Backoff, s: Campaign, reason: string, now: Time)
    requires s.retryCount >= 0
    ensures var after := Apply(b, s, Retry(reason, now));
            && |after.events| == |s.events| + 1 && after.events == s.events + [after.events[|s.events|]]
            && if s.retryCount + 1 <= s.binding.retryBudget then
                 && after.status.RETRY_BACKOFF? && after.events[|s.events|].kind.EvRetryBackoff?
                 && after.waitingSince == Some(now) && after.nextCheckAt == Some(now + Delay(b, s.retryCount + 1))
               else after.status.BLOCKED_NON_RETRYABLE? && after.nextCheckAt.None?
  {
    hide Delay, OrElse;
  }

  // ----- exactly when a transition yields a valid record --------------------

  lemma TrimKeepsInk(s: string, i: int)
    requires 0 <= i < |s| && !IsSpace(s[i])
    ensures !Blank(TrimLeft(s)) && !Blank(TrimRight(s))
    decreases |s|
  {
    if IsSpace(s[0]) {
      TrimKeepsInk(s[1..], i - 1);
    }
    if IsSpace(s[|s| - 1]) {
      TrimKeepsInk(s[..|s| - 1], i);
    }
  }

  lemma StripKeepsInk(s: string)
    requires !Blank(s)
    ensures !Blank(Strip(s))
  {
    var i :| 0 <= i < |s| && !IsSpace(s[i]);
    TrimKeepsInk(s, i);
    var j :| 0 <= j < |TrimLeft(s)| && !IsSpace(TrimLeft(s)[j]);
    TrimKeepsInk(TrimLeft(s), j);
  }

  /** The texts a writer supplies, as the validator will judge them. */
  predicate TextsAccepted(m: Move) {
    match m
    case Wake(_) => true
    case Retry(reason, _) => ValidText(Some(reason))
    case ResetRetry(reason, _, _, _) => |Strip(reason)| <= MAX_TEXT
    case Retire(reason, _) => |Strip(reason)| <= MAX_TEXT
    case Suspend(wait, note, _, _) =>
      ValidText(Some(wait.reason)) && ValidText(Some(wait.resource)) && ValidText(Some(wait.expected))
      && wait.nextCheckAt.Some? && !Blank(OrElse(note, wait.reason))
    case Step(_, name, note, _) => ValidText(note) && !Blank(OrElse(note, name))
  }

  function LastSummary(c: Campaign): string {
    if c.events == [] then "" else c.events[|c.events| - 1].summary
  }

  lemma JournalValidity(s: Campaign, after: Campaign)
    requires ValidJournal(s)
    requires ExtendsByOne(s, after) && after.events[|s.events|].sequence == s.eventSequence + 1
    ensures ValidJournal(after) <==>
            s.eventSequence < MAX_EVENTS && !Blank(LastSummary(after))
  {
    forall i | 0 <= i < |s.events|
      ensures after.events[i] == s.events[i]
    {
      assert after.events[i] == after.events[..|s.events|][i];
    }
  }

  lemma InkAtStart(s: string)
    requires s != "" && !IsSpace(s[0])
    ensures !Blank(s)
  {
  }

  lemma ValidFits(s: Campaign)
    requires Valid(s)
    ensures |s.events| == s.eventSequence <= MAX_EVENTS
  {
  }

  /** What no move can spoil. */
  predicate RestValid(c: Campaign) {
    && ValidBinding(c.binding) && (c.leaseOwner.None? <==> c.leaseExpiresAt.None?)
    && 0 <= c.retryCount <= c.binding.retryBudget && c.wakeGeneration >= 0
  }

  lemma MoveKeepsRest(b: Backoff, s: Campaign, m: Move)
    requires Valid(s) && Enabled(s, m)
    ensures RestValid(Apply(b, s, m))
  {
    hide ValidText, ValidSchedule, ValidJournal, ValidBinding, Pow2, Strip, Blank, OrElse, Delay;
  }

  /** What every move leaves to the validator: its schedule, its texts and the new event. */
  lemma MoveValidParts(b: Backoff, s: Campaign, m: Move)
    requires Valid(s) && Enabled(s, m)
    ensures var after := Apply(b, s, m);
            Valid(after) <==>
            && ValidText(after.reason) && ValidText(after.resource) && ValidText(after.expectedCondition)
            && ValidSchedule(after) && s.eventSequence < MAX_EVENTS
            && !Blank(LastSummary(after))
  {
    MoveKeepsRest(b, s, m);
    MoveExtends(b, s, m);
    hide Apply, ValidText, ValidSchedule;
    JournalValidity(s, Apply(b, s, m));
    hide ValidJournal, ValidBinding, Blank;
  }

  lemma FixedTextsAccepted()
    ensures ValidText(Some("campaign-external-boundary"))
    ensures ValidText(Some("retry budget remains"))
    ensures ValidText(Some("external probe after repaired driver"))
    ensures !Blank("external condition satisfied") && !Blank("provider/work lease claimed")
  {
    InkAtStart("campaign-external-boundary");
    InkAtStart("retry budget remains");
    InkAtStart("external probe after repaired driver");
    InkAtStart("external condition satisfied");
    InkAtStart("provider/work lease claimed");
  }

  lemma RetryTexts(b: Backoff, s: Campaign, reason: string, now: Time)
    requires Valid(s)
    ensures var after := RetryMove(b, s, reason, now);
            && ValidText(after.resource) && ValidText(after.expectedCondition)
            && LastSummary(after) == reason && after.reason == Some(reason)
            && (ValidSchedule(after) || s.status.Terminal())
  {
    FixedTextsAccepted();
  }

  lemma OwnerTexts(b: Backoff, s: Campaign, m: Move)
    requires Valid(s) && Enabled(s, m) && (m.ResetRetry? || m.Retire?)
    requires |s.events| == s.eventSequence
    ensures var after := Apply(b, s, m);
            && ValidText(after.resource) && ValidText(after.expectedCondition) && ValidSchedule(after)
            && after.reason == Some(Strip(m.reason)) && !Blank(Strip(m.reason))
            && LastSummary(after) == m.reason
  {
    StripKeepsInk(m.reason);
    FixedTextsAccepted();
  }

  lemma WorkTexts(b: Backoff, s: Campaign, m: Move)
    requires Valid(s) && Enabled(s, m) && (m.Wake? || m.Suspend? || m.Step?)
    requires |s.events| == s.eventSequence
    ensures var after := Apply(b, s, m);
            && ValidText(after.reason) && ValidText(after.resource) && ValidText(after.expectedCondition)
            && ValidSchedule(after) && !Blank(LastSummary(after))
            <==> TextsAccepted(m)
  {
    FixedTextsAccepted();
  }

  /** A transition of a valid record is valid exactly when the journal has room and its texts pass. */
  lemma MoveValidExactly(b: Backoff, s: Campaign, m: Move)
    requires Valid(s) && Enabled(s, m)
    ensures Valid(Apply(b, s, m)) <==> s.eventSequence < MAX_EVENTS && TextsAccepted(m)
  {
    MoveValidParts(b, s, m);
    match m {
      case Retry(reason, now) => RetryTexts(b, s, reason, now);
      case ResetRetry(_, _, _, _) => OwnerTexts(b, s, m);
      case Retire(_, _) => OwnerTexts(b, s, m);
      case _ => WorkTexts(b, s, m);
    }
  }

  /** `claim` does not validate what it saves: the record it writes is valid exactly when there was room. */
  lemma ClaimValidExactly(s: Campaign, worker: string, expiry: Time, now: Time)
    requires Valid(s)
    ensures Valid(Claimed(s, worker, expiry, now)) <==> s.eventSequence < MAX_EVENTS
  {
    ClaimExtends(s, worker, expiry, now);
    JournalValidity(s, Claimed(s, worker, expiry, now));
    FixedTextsAccepted();
  }
}
