/** The verifier's own loops, proved to decide acceptance, and what they leave open. */
module ProviderVerifier {
  import opened Wrappers
  import opened Text
  import opened ProviderSelection
  import opened ProviderFallback
  import opened ProviderEvidence
  import opened ProviderHonesty

  method CheckShapes(audit: seq<Audit>) returns (ok: bool)
    ensures ok <==> forall i | 0 <= i < |audit| :: AuditShapeOk(audit[i])
  {
    for i := 0 to |audit|
      invariant forall j | 0 <= j < i :: AuditShapeOk(audit[j])
    {
      if !AuditShapeOk(audit[i]) {
        return false;
      }
    }
    return true;
  }

  /** Attempts are looked up by identifier, which is what makes a repeated identifier visible. */
  method CheckHistory(attempts: seq<Attempt>, audit: seq<Audit>) returns (ok: bool)
    ensures ok <==> HistoryOk(attempts, audit)
  {
    hide BlankId, AuditMatches;
    var byId: map<AttemptId, Attempt> := map[];
    for k := 0 to |attempts|
      invariant forall j | 0 <= j < k :: attempts[j].id in byId && byId[attempts[j].id] == attempts[j]
      invariant forall id | id in byId :: exists j | 0 <= j < k :: attempts[j].id == id
      invariant forall j | 0 <= j < k :: !BlankId(attempts[j].id)
      invariant DistinctIds(attempts[..k])
    {
      if BlankId(attempts[k].id) {
        return false;
      }
      if attempts[k].id in byId {
        var j :| 0 <= j < k && attempts[j].id == attempts[k].id;
        assert !DistinctIds(attempts);
        return false;
      }
      byId := byId[attempts[k].id := attempts[k]];
    }
    assert attempts[..|attempts|] == attempts;
    for i := 0 to |audit|
      invariant forall j | 0 <= j < i :: Bound(audit[j], attempts)
    {
      if audit[i].id !in byId || !AuditMatches(audit[i], byId[audit[i].id]) {
        assert !Bound(audit[i], attempts) by {
          MatchNeedsId(audit[i], attempts);
        }
        return false;
      }
      assert Bound(audit[i], attempts);
    }
    return true;
  }

  lemma MatchNeedsId(a: Audit, attempts: seq<Attempt>)
    ensures forall k | 0 <= k < |attempts| && AuditMatches(a, attempts[k]) :: attempts[k].id == a.id
  {
  }

  /** One pass over the attempts, the candidates still untried shrinking with it. */
  method Walk(cs: seq<Candidate>, t: Terms, request: Request, attempts: seq<Attempt>, now: int, decided: Option<string>)
    returns (ok: bool)
    ensures ok <==> WalkOk(cs, t, request, attempts, now, decided)
  {
    hide Select, ById, OutcomeOk;
    var selector := new CapabilitySelector();
    var remaining := cs;
    for k := 0 to |attempts|
      invariant remaining == Untried(cs, attempts, k)
      invariant forall j | 0 <= j < k ::
                  AttemptOk(cs, t, request, attempts, j, now) && OutcomeOk(attempts, j, decided)
    {
      var attempt := attempts[k];
      var chosen := selector.SelectProvider(remaining, t, TimeOf(attempt, now));
      var c := ById(cs, attempt.providerId);
      if attempt.sequence != k + 1 || (k > 0 && !t.gates.allowFallback)
         || c.None? || attempt.profileId != c.value.profile.profileId
         || attempt.id != Derived(request.hash, k + 1, attempt.providerId, attempt.profileId)
         || attempt.profileSha != c.value.profile.sha256 || attempt.request != request.hash
         || attempt.requirements != ARCHITECT_REQUIRED
         || chosen.Err? || chosen.value.providerId != attempt.providerId
      {
        assert !AttemptOk(cs, t, request, attempts, k, now);
        return false;
      }
      if !OutcomeOk(attempts, k, decided) {
        return false;
      }
      remaining := Others(remaining, attempt.providerId);
    }
    return true;
  }

  method CheckCardinality(attempts: seq<Attempt>, audit: seq<Audit>) returns (ok: bool)
    ensures ok <==> CardinalityOk(attempts, audit)
  {
    var auditIds: set<AttemptId> := {};
    for i := 0 to |audit|
      invariant auditIds == set j | 0 <= j < i :: audit[j].id
      invariant forall j, k | 0 <= j < k < i :: audit[j].id != audit[k].id
    {
      if audit[i].id in auditIds {
        var j :| 0 <= j < i && audit[j].id == audit[i].id;
        return false;
      }
      auditIds := auditIds + {audit[i].id};
    }
    var failed: set<AttemptId> := {};
    for k := 0 to |attempts|
      invariant failed == set j | 0 <= j < k && !attempts[j].outcome.VALIDATED_RESPONSE? :: attempts[j].id
    {
      if !attempts[k].outcome.VALIDATED_RESPONSE? {
        failed := failed + {attempts[k].id};
      }
    }
    return auditIds == failed;
  }

  /** The second pass: the selection behind the last attempt, and whom it leaves untried. */
  method Terminal(cs: seq<Candidate>, t: Terms, attempts: seq<Attempt>, now: int)
    returns (terminal: Option<Result<Selection, string>>, remaining: seq<Candidate>)
    ensures remaining == Untried(cs, attempts, |attempts|)
    ensures terminal == if attempts == [] then None
                        else var last := |attempts| - 1;
                             Some(Select(Untried(cs, attempts, last), t, TimeOf(attempts[last], now)))
  {
    hide Select;
    var selector := new CapabilitySelector();
    terminal, remaining := None, cs;
    for k := 0 to |attempts|
      invariant remaining == Untried(cs, attempts, k)
      invariant terminal == if k == 0 then None
                            else Some(Select(Untried(cs, attempts, k - 1), t, TimeOf(attempts[k - 1], now)))
    {
      var chosen := selector.SelectProvider(remaining, t, TimeOf(attempts[k], now));
      terminal := Some(chosen);
      remaining := Others(remaining, attempts[k].providerId);
    }
  }

  method VerifyProviderEvidence(e: Evidence, d: Decision, request: Request, context: Context, now: int,
                                cs: seq<Candidate>, gates: Gates) returns (accepted: bool)
    ensures accepted <==> Accepts(e, d, request, context, now, cs, gates)
  {
    hide Select, HistoryOk, WalkOk, CardinalityOk, AuditShapeOk, Untried, Ordered, Join, Providers, FailedIds;
    if e.header != ADAPTER || e.inputs != InputsFor(request, context, d) {
      return false;
    }
    var shapes := CheckShapes(e.audit);
    if !shapes || e.audit != d.core.audit || e.decisionHash != d {
      return false;
    }
    var t := ArchitectTerms(request.projectId, gates);
    var history := CheckHistory(e.attempts, e.audit);
    if !history {
      return false;
    }
    var walked := Walk(cs, t, request, e.attempts, now, d.core.providerId);
    if !walked {
      return false;
    }
    var counted := CheckCardinality(e.attempts, e.audit);
    if !counted {
      return false;
    }
    var terminal, remaining := Terminal(cs, t, e.attempts, now);
    if d.core.status.BLOCKED? && e.attempts != [] && remaining != [] {
      return false;
    }
    var reconstructed: Core;
    if terminal.Some? && e.attempts[|e.attempts| - 1].outcome.VALIDATED_RESPONSE? {
      if terminal.value.Err? {
        return false;
      }
      var s := terminal.value.value;
      reconstructed := Core(SELECTED, Some(s.providerId), Some(s.profileId),
                            FailedIds(e.attempts) != {} || s.fallbackUsed,
                            AuditProviders(e.audit) + s.considered, s.rejected, Lines(e.audit), e.audit, None);
    } else if e.attempts != [] {
      var failures := Lines(e.audit);
      reconstructed := BlockedCore(cs, "all architect providers failed: " + Join("; ", failures), failures, e.audit);
    } else {
      var selector := new CapabilitySelector();
      var first := selector.SelectProvider(cs, t, now);
      match first {
        case Err(error) => reconstructed := BlockedCore(cs, error, [], []);
        case Ok(s) =>
          reconstructed := Core(SELECTED, Some(s.providerId), Some(s.profileId), s.fallbackUsed, s.considered,
                                s.rejected, [], [], None);
      }
    }
    return d.core == reconstructed;
  }

  // ----- how far the decision is determined ------------------------------------------------

  /** Two audit lists that differ only in order and in white space around the reasons. */
  predicate SameFailures(a: seq<Audit>, b: seq<Audit>) {
    forall i | 0 <= i < |a| :: HasCounterpart(a[i], b)
  }

  predicate HasCounterpart(a: Audit, b: seq<Audit>) {
    exists j | 0 <= j < |b| ::
      a.(reason := Strip(a.reason)) == b[j].(reason := Strip(b[j].reason))
  }

  /**
   Two accepted decisions over the same attempts, candidates, gates and time agree on status, provider and
   profile, and their audits tell of the same failures; order and padding of the audit are not settled.
  */
  lemma DecisionDeterminedUpToAudit(e: Evidence, d: Decision, e': Evidence, d': Decision, request: Request,
                                    context: Context,
                                    now: int, cs: seq<Candidate>, gates: Gates)
    requires Accepts(e, d, request, context, now, cs, gates) && Accepts(e', d', request, context, now, cs, gates)
    requires e.attempts == e'.attempts
    ensures d.core.status == d'.core.status && d.core.providerId == d'.core.providerId
    ensures d.core.profileId == d'.core.profileId && d.core.fallbackUsed == d'.core.fallbackUsed
    ensures SameFailures(d.core.audit, d'.core.audit)
    ensures d.core.audit == d'.core.audit ==> d.core == d'.core
  {
    CoreFollowsAudit(e, d, e', d', request, context, now, cs, gates);
    hide WalkOk, Reconstructed, Exhausted, AuditShapeOk, InputsFor;
    forall i | 0 <= i < |e.audit|
      ensures HasCounterpart(e.audit[i], e'.audit)
    {
      Counterpart(e.attempts, e.audit, e'.audit, i);
    }
  }

  lemma CoreFollowsAudit(e: Evidence, d: Decision, e': Evidence, d': Decision, request: Request, context: Context,
                         now: int, cs: seq<Candidate>, gates: Gates)
    requires Accepts(e, d, request, context, now, cs, gates) && Accepts(e', d', request, context, now, cs, gates)
    requires e.attempts == e'.attempts
    ensures d.core.status == d'.core.status && d.core.providerId == d'.core.providerId
    ensures d.core.profileId == d'.core.profileId && d.core.fallbackUsed == d'.core.fallbackUsed
    ensures d.core.audit == d'.core.audit ==> d.core == d'.core
  {
    hide WalkOk, HistoryOk, CardinalityOk, Exhausted, AuditShapeOk, Select, FailedIds, Ordered, Providers;
    hide Untried, Join;
  }

  lemma Counterpart(attempts: seq<Attempt>, a: seq<Audit>, b: seq<Audit>, i: nat)
    requires HistoryOk(attempts, a) && HistoryOk(attempts, b)
    requires CardinalityOk(attempts, a) && CardinalityOk(attempts, b)
    requires i < |a| && (forall j | 0 <= j < |a| :: AuditShapeOk(a[j]))
    requires (forall j | 0 <= j < |b| :: AuditShapeOk(b[j]))
    ensures HasCounterpart(a[i], b)
  {
    hide Strip, BlankId, Blank;
    assert Bound(a[i], attempts) && a[i].id in FailedIds(attempts);
    var j :| 0 <= j < |b| && b[j].id == a[i].id;
    assert Bound(b[j], attempts);
    var k :| 0 <= k < |attempts| && AuditMatches(a[i], attempts[k]);
    var m :| 0 <= m < |attempts| && AuditMatches(b[j], attempts[m]);
    assert k == m;
    assert AuditShapeOk(a[i]) && AuditShapeOk(b[j]);
  }

  // ----- the audit's order is not checked ------------------------------------------------------

  function Swapped(audit: seq<Audit>, i: nat, j: nat): seq<Audit>
    requires i < j < |audit|
  {
    audit[i := audit[j]][j := audit[i]]
  }

  lemma SwapKeepsHistory(attempts: seq<Attempt>, audit: seq<Audit>, i: nat, j: nat)
    requires i < j < |audit| && HistoryOk(attempts, audit) && CardinalityOk(attempts, audit)
    ensures HistoryOk(attempts, Swapped(audit, i, j)) && CardinalityOk(attempts, Swapped(audit, i, j))
  {
    hide Bound, BlankId, FailedIds;
    var swapped := Swapped(audit, i, j);
    var before, after := set k | 0 <= k < |audit| :: audit[k].id, set k | 0 <= k < |swapped| :: swapped[k].id;
    forall id ensures id in before <==> id in after {
      if id in before {
        var k :| 0 <= k < |audit| && audit[k].id == id;
        assert swapped[if k == i then j else if k == j then i else k].id == id;
      }
    }
  }

  /**
   Exchanging two audit items, and the decision fields with them, goes unnoticed: the decision is not a
   function of candidates, gates and attempts alone.
  */
  lemma AuditOrderGoesUnnoticed(e: Evidence, d: Decision, request: Request, context: Context, now: int,
                                cs: seq<Candidate>, gates: Gates, i: nat, j: nat)
    requires Accepts(e, d, request, context, now, cs, gates) && i < j < |e.audit|
    ensures var audit := Swapped(e.audit, i, j);
            var core := Reconstructed(cs, ArchitectTerms(request.projectId, gates), e.attempts, audit, now);
            && core.Some? && core.value != d.core
            && var d' := d.(core := core.value);
               Accepts(e.(audit := audit, decisionHash := d'), d', request, context, now, cs, gates)
  {
    SwapStages(e, d, request, context, now, cs, gates, i, j);
    SwapDiffers(e.attempts, e.audit, i, j);
    RebuiltIsAccepted(e, d, request, context, now, cs, gates, Swapped(e.audit, i, j));
  }

  predicate AllShapesOk(audit: seq<Audit>) {
    forall i | 0 <= i < |audit| :: AuditShapeOk(audit[i])
  }

  /** Any audit that passes the history's stages yields, with the decision rebuilt from it, another accepted pair. */
  lemma RebuiltIsAccepted(e: Evidence, d: Decision, request: Request, context: Context, now: int,
                          cs: seq<Candidate>, gates: Gates, audit: seq<Audit>)
    requires Accepts(e, d, request, context, now, cs, gates) && e.attempts != []
    requires AllShapesOk(audit) && HistoryOk(e.attempts, audit) && CardinalityOk(e.attempts, audit)
    ensures var core := Reconstructed(cs, ArchitectTerms(request.projectId, gates), e.attempts, audit, now);
            && core.Some? && core.value.audit == audit
            && var d' := d.(core := core.value);
               Accepts(e.(audit := audit, decisionHash := d'), d', request, context, now, cs, gates)
  {
    var t := ArchitectTerms(request.projectId, gates);
    hide HistoryOk, CardinalityOk, WalkOk, Reconstructed, AuditShapeOk;
    ReconstructedFollowsAudit(cs, t, e.attempts, e.audit, audit, now);
    InputsIgnoreCore(request, context, d, Reconstructed(cs, t, e.attempts, audit, now).value);
    hide InputsFor;
  }

  lemma SwapDiffers(attempts: seq<Attempt>, audit: seq<Audit>, i: nat, j: nat)
    requires i < j < |audit| && CardinalityOk(attempts, audit)
    ensures Swapped(audit, i, j) != audit && attempts != []
  {
    assert Swapped(audit, i, j)[i].id != audit[i].id;
    assert audit[0].id in FailedIds(attempts);
  }

  lemma SwapStages(e: Evidence, d: Decision, request: Request, context: Context, now: int,
                   cs: seq<Candidate>, gates: Gates, i: nat, j: nat)
    requires Accepts(e, d, request, context, now, cs, gates) && i < j < |e.audit|
    ensures var audit := Swapped(e.audit, i, j);
            AllShapesOk(audit) && HistoryOk(e.attempts, audit) && CardinalityOk(e.attempts, audit)
  {
    hide HistoryOk, CardinalityOk, WalkOk, Reconstructed, AuditShapeOk;
    SwapKeepsHistory(e.attempts, e.audit, i, j);
  }

  lemma InputsIgnoreCore(request: Request, context: Context, d: Decision, core: Core)
    ensures InputsFor(request, context, d.(core := core)) == InputsFor(request, context, d)
  {
  }

  lemma ReconstructedFollowsAudit(cs: seq<Candidate>, t: Terms, attempts: seq<Attempt>, a: seq<Audit>,
                                  b: seq<Audit>, now: int)
    requires attempts != [] && Reconstructed(cs, t, attempts, a, now).Some?
    ensures var before, after := Reconstructed(cs, t, attempts, a, now), Reconstructed(cs, t, attempts, b, now);
            && after.Some? && after.value.audit == b && before.value.audit == a
            && after.value.status == before.value.status && after.value.providerId == before.value.providerId
  {
    hide Select, FailedIds, Ordered, Providers, Untried, Join;
  }

  // ----- nor is white space around its reasons -------------------------------------------------

  function Padded(audit: seq<Audit>, i: nat): seq<Audit>
    requires i < |audit|
  {
    audit[i := audit[i].(reason := " " + audit[i].reason)]
  }

  lemma PaddingIsStripped(text: string)
    ensures Strip(" " + text) == Strip(text) && (Blank(" " + text) <==> Blank(text))
  {
    assert (" " + text)[1..] == text;
    if Blank(" " + text) {
      forall k | 0 <= k < |text| ensures IsSpace(text[k]) {
        assert (" " + text)[k + 1] == text[k];
      }
    }
  }

  lemma PaddedItem(a: Audit, attempts: seq<Attempt>)
    ensures var padded := a.(reason := " " + a.reason);
            (AuditShapeOk(padded) <==> AuditShapeOk(a)) && (Bound(a, attempts) ==> Bound(padded, attempts))
  {
    PaddingIsStripped(a.reason);
    hide Strip, Blank, BlankId;
    if Bound(a, attempts) {
      var k :| 0 <= k < |attempts| && AuditMatches(a, attempts[k]);
      assert AuditMatches(a.(reason := " " + a.reason), attempts[k]);
    }
  }

  lemma PaddingKeepsStages(attempts: seq<Attempt>, audit: seq<Audit>, i: nat)
    requires i < |audit| && AllShapesOk(audit) && HistoryOk(attempts, audit) && CardinalityOk(attempts, audit)
    ensures AllShapesOk(Padded(audit, i)) && HistoryOk(attempts, Padded(audit, i))
    ensures CardinalityOk(attempts, Padded(audit, i))
    ensures Padded(audit, i) != audit && attempts != []
  {
    hide AuditShapeOk, Bound, BlankId, FailedIds;
    var padded := Padded(audit, i);
    PaddedItem(audit[i], attempts);
    assert forall k | 0 <= k < |audit| :: padded[k].id == audit[k].id;
    assert |padded[i].reason| > |audit[i].reason|;
    assert Bound(audit[i], attempts);
    BoundNeedsAttempt(audit[i], attempts);
  }

  lemma BoundNeedsAttempt(a: Audit, attempts: seq<Attempt>)
    requires Bound(a, attempts)
    ensures attempts != []
  {
  }

  /** A blank in front of one recorded reason, and in the decision fields that quote it, goes unnoticed. */
  lemma PaddingGoesUnnoticed(e: Evidence, d: Decision, request: Request, context: Context, now: int,
                             cs: seq<Candidate>, gates: Gates, i: nat)
    requires Accepts(e, d, request, context, now, cs, gates) && i < |e.audit|
    ensures var audit := Padded(e.audit, i);
            var core := Reconstructed(cs, ArchitectTerms(request.projectId, gates), e.attempts, audit, now);
            && core.Some? && core.value != d.core
            && var d' := d.(core := core.value);
               Accepts(e.(audit := audit, decisionHash := d'), d', request, context, now, cs, gates)
  {
    StagesHold(e, d, request, context, now, cs, gates);
    PaddingKeepsStages(e.attempts, e.audit, i);
    RebuiltIsAccepted(e, d, request, context, now, cs, gates, Padded(e.audit, i));
  }

  lemma StagesHold(e: Evidence, d: Decision, request: Request, context: Context, now: int, cs: seq<Candidate>,
                   gates: Gates)
    requires Accepts(e, d, request, context, now, cs, gates)
    ensures AllShapesOk(e.audit) && HistoryOk(e.attempts, e.audit) && CardinalityOk(e.attempts, e.audit)
    ensures d.core.audit == e.audit
  {
    hide HistoryOk, CardinalityOk, WalkOk, Reconstructed, AuditShapeOk;
  }

  // ----- exactly when the attempts settle the decision ---------------------------------------------

  /** Every accepted decision over these attempts is the same. */
  ghost predicate DecisionIsUnique(e: Evidence, d: Decision, request: Request, context: Context, now: int,
                                   cs: seq<Candidate>, gates: Gates)
  {
    forall e', d' | Accepts(e', d', request, context, now, cs, gates) && e'.attempts == e.attempts :: d'.core == d.core
  }

  lemma FailuresHaveAudit(attempts: seq<Attempt>, audit: seq<Audit>)
    requires CardinalityOk(attempts, audit)
    ensures FailedIds(attempts) == {} <==> audit == []
  {
    hide FailedIds;
    if audit != [] {
      assert audit[0].id in FailedIds(attempts);
    }
  }

  /** The decision is a function of candidates, gates and attempts if and only if no attempt failed. */
  lemma DecisionUniqueExactly(e: Evidence, d: Decision, request: Request, context: Context, now: int,
                              cs: seq<Candidate>, gates: Gates)
    requires Accepts(e, d, request, context, now, cs, gates)
    ensures DecisionIsUnique(e, d, request, context, now, cs, gates) <==> FailedIds(e.attempts) == {}
  {
    hide Accepts, FailedIds, Reconstructed;
    StagesHold(e, d, request, context, now, cs, gates);
    FailuresHaveAudit(e.attempts, e.audit);
    if FailedIds(e.attempts) == {} {
      forall e', d' | Accepts(e', d', request, context, now, cs, gates) && e'.attempts == e.attempts
        ensures d'.core == d.core
      {
        StagesHold(e', d', request, context, now, cs, gates);
        FailuresHaveAudit(e'.attempts, e'.audit);
        DecisionDeterminedUpToAudit(e, d, e', d', request, context, now, cs, gates);
      }
    } else {
      PaddingGoesUnnoticed(e, d, request, context, now, cs, gates, 0);
      var terms := ArchitectTerms(request.projectId, gates);
      var core := Reconstructed(cs, terms, e.attempts, Padded(e.audit, 0), now).value;
      var d' := d.(core := core);
      var e' := e.(audit := Padded(e.audit, 0), decisionHash := d');
      assert Accepts(e', d', request, context, now, cs, gates) && e'.attempts == e.attempts && d'.core != d.core;
    }
  }

  // ----- a history with a failure is accepted ---------------------------------------------------------

  const GOOD_GATES := Gates(Some(true), Some(true), Some(true), Some(true), Some(true), Some(true), true)

  const LONE_CANDIDATE := Candidate(
    Profile("project-a", "profile-a", "provider-a", 1, None,
            [Observation("repository-understanding", SUPPORTED, Some("yes")),
             Observation("structured-output", SUPPORTED, Some("yes")),
             Observation("reasoning", SUPPORTED, Some("yes")),
             Observation("context-capacity", SUPPORTED, Some("yes"))], None),
    0, false)

  const LONE_SETUP := Setup([LONE_CANDIDATE], Some(GOOD_GATES), 0, "project-a")

  lemma LoneSupports(capability: string)
    requires capability in SORTED_REQUIRED
    ensures Supports(LONE_CANDIDATE.profile, capability)
  {
    var p := LONE_CANDIDATE.profile;
    assert p.capabilities[0].name == "repository-understanding" && p.capabilities[1].name == "structured-output";
    assert p.capabilities[2].name == "reasoning" && p.capabilities[3].name == "context-capacity";
  }

  lemma {:induction false} AllSupported(p: Profile, required: seq<string>)
    requires forall capability | capability in required :: Supports(p, capability)
    ensures FirstUnsupported(p, required) == None
  {
    hide Supports;
    if required != [] {
      AllSupported(p, required[1..]);
    }
  }

  lemma LoneIsEligible()
    ensures Eligible(LONE_CANDIDATE, TermsOf(LONE_SETUP), 0)
  {
    forall capability | capability in SORTED_REQUIRED
      ensures Supports(LONE_CANDIDATE.profile, capability)
    {
      LoneSupports(capability);
    }
    hide Supports;
    AllSupported(LONE_CANDIDATE.profile, SORTED_REQUIRED);
    hide FirstUnsupported;
    assert FailedGates(GOOD_GATES) == [];
  }

  /** One eligible provider that is not wired up: the run blocks after one failed attempt, and is accepted. */
  lemma FailureIsAccepted(context: Context, request: Request, world: World, later: int)
    requires request.projectId == "project-a" && "provider-a" !in world.wired
    ensures var st := Proposed(LONE_SETUP, request, world);
            var d := DecisionOf(LONE_SETUP, st);
            var e := EvidenceOf(request, context, st, d);
            && Accepts(e, d, request, context, later, [LONE_CANDIDATE], GOOD_GATES) && FailedIds(e.attempts) != {}
            && !DecisionIsUnique(e, d, request, context, later, [LONE_CANDIDATE], GOOD_GATES)
  {
    var cs, t := [LONE_CANDIDATE], TermsOf(LONE_SETUP);
    var st := Proposed(LONE_SETUP, request, world);
    LoneFails(request, world);
    HonestEvidenceAcceptedExactly(LONE_SETUP, request, world, context, later);
    var d := DecisionOf(LONE_SETUP, st);
    var e := EvidenceOf(request, context, st, d);
    assert e.attempts == st.attempts;
    assert st.attempts[0].id in FailedIds(st.attempts);
    hide Accepts, Proposed, FailedIds, EvidenceOf, DecisionOf;
    DecisionUniqueExactly(e, d, request, context, later, cs, GOOD_GATES);
  }

  lemma LoneFails(request: Request, world: World)
    requires request.projectId == "project-a" && "provider-a" !in world.wired
    ensures var st := Proposed(LONE_SETUP, request, world);
            && |st.attempts| == 1 && st.attempts[0].outcome.PROVIDER_UNAVAILABLE?
            && AllTrimmed(st.audit) && Untried([LONE_CANDIDATE], st.attempts, 1) == []
            && DistinctProviders([LONE_CANDIDATE])
  {
    hide Explored, Eligible, ById, Others, Untried, Trimmed, ArchitectTerms;
    var next := LoneExplored(request, world);
    UnavailableIsTrimmed();
    LoneIsExhausted(next.attempts);
  }

  lemma {:induction false} LoneIsExhausted(attempts: seq<Attempt>)
    requires |attempts| == 1 && attempts[0].providerId == "provider-a"
    ensures Untried([LONE_CANDIDATE], attempts, 1) == []
  {
    var cs := [LONE_CANDIDATE];
    assert cs[1..] == [] && Others(cs[1..], "provider-a") == [];
    assert Untried(cs, attempts, 1) == Others(Untried(cs, attempts, 0), "provider-a") == Others(cs, "provider-a") == [];
  }

  lemma LoneExplored(request: Request, world: World) returns (next: Progress)
    requires "provider-a" !in world.wired
    ensures Explored(TermsOf(LONE_SETUP), 0, request.hash, world, Progress([LONE_CANDIDATE], [], [], []))
            == (next, None)
    ensures |next.attempts| == 1 && next.attempts[0].outcome.PROVIDER_UNAVAILABLE?
    ensures next.attempts[0].providerId == "provider-a"
    ensures |next.audit| == 1 && next.audit[0].reason == UNAVAILABLE
  {
    var cs, t := [LONE_CANDIDATE], TermsOf(LONE_SETUP);
    var selection := LoneSelected();
    var start := Progress(cs, [], [], []);
    var a := AttemptAt(LONE_CANDIDATE, 1, request.hash, 0, Absent);
    next := ProviderFallback.Failed(start, selection, a, 0);
    LoneStandsFirst();
    hide Select, TermsOf, Line, FirstWith, Without;
    assert Explored(t, 0, request.hash, world, next) == (next, None);
  }

  lemma LoneStandsFirst()
    ensures FirstWith([LONE_CANDIDATE], "provider-a") == 0 && Without([LONE_CANDIDATE], 0) == []
  {
  }

  lemma LoneSelected() returns (s: Selection)
    ensures Select([LONE_CANDIDATE], TermsOf(LONE_SETUP), 0) == Ok(s) && s.providerId == "provider-a"
  {
    var cs, t := [LONE_CANDIDATE], TermsOf(LONE_SETUP);
    LoneIsEligible();
    assert IsHead(cs, 0) by {
      KeyIsTotal(LONE_CANDIDATE, LONE_CANDIDATE, LONE_CANDIDATE);
    }
    hide Eligible, KeyLess;
    SelectFailsExactly(cs, t, 0, 0);
    assert LONE_CANDIDATE in cs;
    s := Select(cs, t, 0).value;
    var c := SelectPicksLeast(cs, t, 0);
  }
}
