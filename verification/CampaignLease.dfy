/** Work leases over every schedule: nobody is granted one while another still runs. */
module CampaignLease {
  import opened Wrappers
  import opened CampaignState
  import opened CampaignJournal
  import opened CampaignProtocol

  /** The record just after a claim. */
  predicate Granted(c: Campaign) { c.events != [] && c.events[|c.events| - 1].kind.EvWorkClaim? }

  function GrantedAt(c: Campaign): Time
    requires Granted(c)
  {
    c.events[|c.events| - 1].at
  }

  predicate SameLease(a: Campaign, b: Campaign) {
    a.leaseOwner == b.leaseOwner && a.leaseExpiresAt == b.leaseExpiresAt
  }

  predicate Free(c: Campaign) { c.leaseOwner.None? && c.leaseExpiresAt.None? }

  /** One change: a grant over no lease or an expired one, or anything else, which keeps the lease or frees it. */
  predicate LeaseStep(before: Campaign, after: Campaign) {
    if Granted(after) then
      && after.leaseOwner.Some? && after.leaseExpiresAt.Some?
      && (before.leaseExpiresAt.Some? && before.leaseOwner.Some? ==> before.leaseExpiresAt.value <= GrantedAt(after))
    else SameLease(before, after) || Free(after)
  }

  predicate Leases(log: seq<Campaign>) {
    forall i | 0 <= i < |log| - 1 :: LeaseStep(log[i], log[i + 1])
  }

  lemma MoveLeases(b: Backoff, c: Campaign, m: Move)
    requires c.retryCount >= 0 && c.eventSequence == |c.events|
    ensures LeaseStep(c, Apply(b, c, m))
  {
    hide Delay, Pow2;
  }

  lemma ClaimLeases(c: Campaign, worker: string, expiry: Time, now: Time)
    requires Claimable(c, now)
    ensures LeaseStep(c, Claimed(c, worker, expiry, now))
    ensures Claimed(c, worker, expiry, now).leaseOwner == Some(worker)
    ensures Claimed(c, worker, expiry, now).leaseExpiresAt == Some(expiry)
    ensures GrantedAt(Claimed(c, worker, expiry, now)) == now
  {
  }

  lemma RetryLeases(id: Identity, r: Deferred)
    requires Readable(id, r)
    ensures LeaseStep(r.before, r.after)
  {
    ReadableIsRetry(id, r);
    hide Valid, Readable, Delay, Pow2;
    var b: Backoff, reason: string, now: Time :|
      b.Bounded() && r.before.retryCount >= 0 && r.after == RetryMove(b, r.before, reason, now);
  }

  lemma Extended(log: seq<Campaign>, next: Campaign)
    requires log != [] && Leases(log) && LeaseStep(log[|log| - 1], next)
    ensures Leases(log + [next])
  {
    hide LeaseStep;
  }

  lemma StepKeepsLeases(id: Identity, s: Sys, w: nat, a: Action)
    requires Inv(id, s) && Leases(s.log)
    ensures Leases(Next(id, s, w, a).log)
  {
    hide Valid, Readable, Apply, LeaseStep, Leases, Claimed, Claimable;
    match a {
      case ClaimWork(worker, expiry, now) =>
        if Claimable(s.file, now) {
          ClaimLeases(s.file, worker, expiry, now);
          Extended(s.log, Claimed(s.file, worker, expiry, now));
        }
      case Save(b, m) =>
        if MaySave(s, w, b, m) && SaveOutcome(id, Some(s.file), Apply(b, LocalOf(s, w).view.value, m)).Ok? {
          SavedLeases(id, s, b, LocalOf(s, w).view.value, m);
        }
      case ApplySide =>
        var l := LocalOf(s, w);
        if l.record.Some? {
          SideIsReadable(id, s, w);
          RetryLeases(id, l.record.value);
          if s.file == l.record.value.before {
            Extended(s.log, l.record.value.after);
          }
        }
      case _ =>
    }
  }

  lemma SavedLeases(id: Identity, s: Sys, b: Backoff, view: Campaign, m: Move)
    requires Inv(id, s) && Leases(s.log) && Logged(s.log, view) && b.Bounded() && Enabled(view, m)
    requires view.retryCount >= 0 && SaveOutcome(id, Some(s.file), Apply(b, view, m)).Ok?
    ensures SaveOutcome(id, Some(s.file), Apply(b, view, m)) == Ok(Apply(b, view, m))
    ensures Leases(Write(s, Apply(b, view, m)).log)
  {
    SaveExtendsCurrent(id, s, b, view, m);
    hide Valid, Readable, Apply, LeaseStep, Leases, Owns;
    var next := Apply(b, view, m);
    if next != s.file {
      MoveLeases(b, s.file, m);
      Extended(s.log, next);
    }
  }

  lemma SideIsReadable(id: Identity, s: Sys, w: nat)
    requires Inv(id, s) && LocalOf(s, w).record.Some?
    ensures Readable(id, LocalOf(s, w).record.value)
  {
    hide Valid, Readable, Chained;
  }

  lemma {:induction false} RunKeepsLeases(id: Identity, s: Sys, schedule: seq<(nat, Action)>)
    requires Inv(id, s) && Leases(s.log)
    ensures Leases(Run(id, s, schedule).log)
    decreases |schedule|
  {
    hide Inv, Leases, Next;
    if schedule != [] {
      StepKeepsInv(id, s, schedule[0].0, schedule[0].1);
      StepKeepsLeases(id, s, schedule[0].0, schedule[0].1);
      RunKeepsLeases(id, Next(id, s, schedule[0].0, schedule[0].1), schedule[1..]);
    }
  }

  lemma {:induction false} LeaseLasts(log: seq<Campaign>, i: nat, j: nat)
    requires Leases(log) && i <= j < |log| && log[i].leaseOwner.Some?
    requires forall k | i < k <= j :: !Granted(log[k]) && log[k].leaseOwner.Some?
    ensures SameLease(log[i], log[j])
    decreases j - i
  {
    if i < j {
      LeaseLasts(log, i, j - 1);
      assert LeaseStep(log[j - 1], log[j]);
    }
  }

  /**
   Whatever the schedule: a lease that was not given back runs until it expires - the next one granted, to any
   worker by any process, is granted at its expiry at the earliest.
  */
  lemma NoSecondLease(id: Identity, s: Sys, schedule: seq<(nat, Action)>, i: nat, j: nat)
    requires Initial(id, s) && i < j < |Run(id, s, schedule).log|
    requires var log := Run(id, s, schedule).log;
             && log[i].leaseOwner.Some? && log[i].leaseExpiresAt.Some? && Granted(log[j])
             && forall k | i < k < j :: !Granted(log[k]) && log[k].leaseOwner.Some?
    ensures var log := Run(id, s, schedule).log;
            log[i].leaseExpiresAt.value <= GrantedAt(log[j])
  {
    InitialInv(id, s);
    assert Leases(s.log);
    RunKeepsLeases(id, s, schedule);
    var log := Run(id, s, schedule).log;
    hide Run;
    LeaseLasts(log, i, j - 1);
    assert LeaseStep(log[j - 1], log[j]);
  }
}
