/** Exactly which honest proposals the verifier accepts. */
module ProviderHonesty {
  import opened Wrappers
  import opened Text
  import opened ProviderSelection
  import opened ProviderFallback
  import opened ProviderEvidence

  // ----- what a proposal in progress looks like -------------------------------------------

  function AuditOf(a: Attempt): Audit {
    Audit(true, a.id, a.providerId, a.profileId, a.outcome, OrElseText(a.failure))
  }

  predicate AuditedInOrder(attempts: seq<Attempt>, audit: seq<Audit>) {
    && |audit| <= |attempts|
    && forall k | 0 <= k < |audit| ::
         && audit[k] == AuditOf(attempts[k]) && attempts[k].outcome.Failure()
         && (attempts[k].outcome.PROVIDER_UNAVAILABLE? <==> attempts[k].failure.None?)
         && !Blank(attempts[k].providerId) && !Blank(attempts[k].profileId)
  }

  predicate Recorded(cs: seq<Candidate>, t: Terms, request: Request, now: int, attempts: seq<Attempt>) {
    forall k | 0 <= k < |attempts| ::
      AttemptOk(cs, t, request, attempts, k, now) && attempts[k].selectionTime == Some(now)
  }

  predicate Honest(cs: seq<Candidate>, t: Terms, request: Request, now: int, p: Progress) {
    && p.remaining == Untried(cs, p.attempts, |p.attempts|)
    && Recorded(cs, t, request, now, p.attempts)
    && AuditedInOrder(p.attempts, p.audit) && |p.audit| == |p.attempts|
    && p.failures == Lines(p.audit)
  }

  lemma {:induction false} OthersDropsOne(cs: seq<Candidate>, k: nat)
    requires DistinctProviders(cs) && k < |cs|
    ensures Others(cs, cs[k].Provider()) == Without(cs, k)
    ensures FirstWith(cs, cs[k].Provider()) == k
  {
    if k == 0 {
      OthersKeepsAll(cs[1..], cs[0].Provider());
    } else {
      OthersDropsOne(cs[1..], k - 1);
      assert Without(cs, k) == [cs[0]] + Without(cs[1..], k - 1);
    }
  }

  lemma {:induction false} OthersKeepsAll(cs: seq<Candidate>, provider: string)
    requires forall i | 0 <= i < |cs| :: cs[i].Provider() != provider
    ensures Others(cs, provider) == cs
  {
    if cs != [] {
      OthersKeepsAll(cs[1..], provider);
      assert cs == [cs[0]] + cs[1..];
    }
  }

  lemma {:induction false} OthersStayDistinct(cs: seq<Candidate>, provider: string)
    requires DistinctProviders(cs)
    ensures DistinctProviders(Others(cs, provider))
  {
    if cs != [] {
      OthersStayDistinct(cs[1..], provider);
      OthersMembers(cs[1..], provider);
      var rest := Others(cs[1..], provider);
      forall i | 0 <= i < |rest| ensures rest[i].Provider() != cs[0].Provider() {
        assert rest[i] in cs[1..];
      }
    }
  }

  lemma {:induction false} UntriedStayDistinct(cs: seq<Candidate>, attempts: seq<Attempt>, k: nat)
    requires DistinctProviders(cs) && k <= |attempts|
    ensures DistinctProviders(Untried(cs, attempts, k))
  {
    if k > 0 {
      UntriedStayDistinct(cs, attempts, k - 1);
      OthersStayDistinct(Untried(cs, attempts, k - 1), attempts[k - 1].providerId);
    }
  }

  lemma {:induction false} UntriedIgnoresLater(cs: seq<Candidate>, attempts: seq<Attempt>, more: seq<Attempt>, k: nat)
    requires k <= |attempts|
    ensures Untried(cs, attempts + more, k) == Untried(cs, attempts, k)
  {
    if k > 0 {
      UntriedIgnoresLater(cs, attempts, more, k - 1);
    }
  }

  lemma {:induction false} ByIdFinds(cs: seq<Candidate>, c: Candidate)
    requires DistinctProviders(cs) && c in cs
    ensures ById(cs, c.Provider()) == Some(c)
  {
    var n := |cs|;
    assert cs == cs[..n - 1] + [cs[n - 1]];
    var k :| 0 <= k < n && cs[k] == c;
    if k < n - 1 {
      assert cs[..n - 1][k] == c;
      ByIdFinds(cs[..n - 1], c);
    }
  }

  lemma IdNotBlank(id: string)
    requires IdOk(id)
    ensures !Blank(id)
  {
    assert !IsSpace(id[0]);
  }

  lemma EligibleHasIds(c: Candidate, t: Terms, now: int)
    requires Eligible(c, t, now)
    ensures !Blank(c.Provider()) && !Blank(c.profile.profileId)
  {
    IdNotBlank(c.Provider());
    IdNotBlank(c.profile.profileId);
  }

  /** The candidate an attempt goes to is the one selected, with its own profile. */
  lemma SelectedCandidate(cs: seq<Candidate>, rest: seq<Candidate>, t: Terms, now: int)
    requires DistinctProviders(cs) && DistinctProviders(rest) && Select(rest, t, now).Ok?
    requires forall c | c in rest :: c in cs
    ensures var s := Select(rest, t, now).value;
            var k := FirstWith(rest, s.providerId);
            && k < |rest| && rest[k].Provider() == s.providerId && rest[k].profile.profileId == s.profileId
            && ById(cs, s.providerId) == Some(rest[k])
            && Without(rest, k) == Others(rest, s.providerId)
            && !Blank(s.providerId) && !Blank(s.profileId)
  {
    hide Select, Eligible;
    var c := SelectPicksLeast(rest, t, now);
    var k :| 0 <= k < |rest| && rest[k] == c;
    OthersDropsOne(rest, k);
    ByIdFinds(cs, c);
    EligibleHasIds(c, t, now);
  }

  lemma RecordedGrows(cs: seq<Candidate>, t: Terms, request: Request, now: int, attempts: seq<Attempt>, a: Attempt)
    requires Recorded(cs, t, request, now, attempts) && a.selectionTime == Some(now)
    requires AttemptOk(cs, t, request, attempts + [a], |attempts|, now)
    ensures Recorded(cs, t, request, now, attempts + [a])
  {
    hide Select, ById;
    var grown := attempts + [a];
    forall k | 0 <= k < |attempts|
      ensures AttemptOk(cs, t, request, grown, k, now)
    {
      assert AttemptOk(cs, t, request, attempts, k, now);
      UntriedIgnoresLater(cs, attempts, [a], k);
    }
  }

  /**
   `a` is the attempt that follows `p`: the selection `s` made among the remaining, where it stands,
   and its reply.
  */
  predicate Follows(cs: seq<Candidate>, t: Terms, request: Request, now: int, p: Progress, s: Selection, k: nat,
                    a: Attempt, reply: Reply)
  {
    && DistinctProviders(cs) && Honest(cs, t, request, now, p)
    && (p.attempts == [] || t.gates.allowFallback)
    && Select(p.remaining, t, now) == Ok(s)
    && k == FirstWith(p.remaining, s.providerId) && k < |p.remaining|
    && a == AttemptAt(p.remaining[k], |p.attempts| + 1, request.hash, now, reply)
  }

  lemma NextCandidate(cs: seq<Candidate>, t: Terms, now: int, attempts: seq<Attempt>, s: Selection, k: nat)
    requires DistinctProviders(cs) && Select(Untried(cs, attempts, |attempts|), t, now) == Ok(s)
    requires k == FirstWith(Untried(cs, attempts, |attempts|), s.providerId)
    ensures var rest := Untried(cs, attempts, |attempts|);
            && k < |rest| && rest[k].Provider() == s.providerId && rest[k].profile.profileId == s.profileId
            && ById(cs, s.providerId) == Some(rest[k]) && Without(rest, k) == Others(rest, s.providerId)
            && !Blank(s.providerId) && !Blank(s.profileId)
  {
    hide Select, ById, FirstWith, Blank, Untried;
    UntriedStayDistinct(cs, attempts, |attempts|);
    UntriedMembers(cs, attempts, |attempts|);
    SelectedCandidate(cs, Untried(cs, attempts, |attempts|), t, now);
  }

  /** One more attempt, whatever its reply, is recorded as the verifier expects. */
  lemma NextAttemptOk(cs: seq<Candidate>, t: Terms, request: Request, now: int, p: Progress, s: Selection, k: nat,
                      a: Attempt, reply: Reply)
    requires Follows(cs, t, request, now, p, s, k, a, reply)
    ensures Recorded(cs, t, request, now, p.attempts + [a])
    ensures a.providerId == s.providerId && a.profileId == s.profileId
    ensures !Blank(s.providerId) && !Blank(s.profileId)
    ensures Without(p.remaining, k) == Untried(cs, p.attempts + [a], |p.attempts| + 1)
    ensures Untried(cs, p.attempts + [a], |p.attempts|) == p.remaining
  {
    hide Select, ById, FirstWith, Blank, DistinctProviders, Others, AuditedInOrder, Lines, Recorded, Without, AttemptOk;
    NextCandidate(cs, t, now, p.attempts, s, k);
    NextUntried(cs, p.attempts, a);
    AttemptFits(cs, t, request, now, p, s, k, a, reply);
    hide Untried;
    RecordedGrows(cs, t, request, now, p.attempts, a);
  }

  lemma NextUntried(cs: seq<Candidate>, attempts: seq<Attempt>, a: Attempt)
    ensures Untried(cs, attempts + [a], |attempts|) == Untried(cs, attempts, |attempts|)
    ensures Untried(cs, attempts + [a], |attempts| + 1) == Others(Untried(cs, attempts, |attempts|), a.providerId)
  {
    UntriedIgnoresLater(cs, attempts, [a], |attempts|);
  }

  lemma AttemptFits(cs: seq<Candidate>, t: Terms, request: Request, now: int, p: Progress, s: Selection, k: nat,
                    a: Attempt, reply: Reply)
    requires Follows(cs, t, request, now, p, s, k, a, reply)
    ensures AttemptOk(cs, t, request, p.attempts + [a], |p.attempts|, now) && a.selectionTime == Some(now)
  {
    NextCandidate(cs, t, now, p.attempts, s, k);
    NextUntried(cs, p.attempts, a);
    hide Select, ById, FirstWith, Blank, DistinctProviders, Others, AuditedInOrder, Lines, Recorded, Without, Untried;
  }

  lemma LinesGrow(audit: seq<Audit>, a: Audit)
    ensures Lines(audit + [a]) == Lines(audit) + [Line(a)]
  {
  }

  lemma AuditGrows(attempts: seq<Attempt>, audit: seq<Audit>, a: Attempt)
    requires AuditedInOrder(attempts, audit) && |audit| == |attempts| && a.outcome.Failure()
    requires a.outcome.PROVIDER_UNAVAILABLE? <==> a.failure.None?
    requires !Blank(a.providerId) && !Blank(a.profileId)
    ensures AuditedInOrder(attempts + [a], audit + [AuditOf(a)])
  {
    hide Blank;
  }

  lemma AuditStands(attempts: seq<Attempt>, audit: seq<Audit>, a: Attempt)
    requires AuditedInOrder(attempts, audit)
    ensures AuditedInOrder(attempts + [a], audit)
  {
    hide Blank;
  }

  lemma FailedStaysHonest(cs: seq<Candidate>, t: Terms, request: Request, now: int, p: Progress, s: Selection, k: nat,
                          a: Attempt, reply: Reply)
    requires Follows(cs, t, request, now, p, s, k, a, reply) && !reply.Answer?
    ensures Honest(cs, t, request, now, Failed(p, s, a, k))
  {
    NextAttemptOk(cs, t, request, now, p, s, k, a, reply);
    hide Select, FirstWith, Untried, Recorded, Blank, Lines, AuditedInOrder, Without;
    assert AuditAt(s, a) == AuditOf(a);
    AuditGrows(p.attempts, p.audit, a);
    LinesGrow(p.audit, AuditOf(a));
  }

  // ----- how a proposal ends -------------------------------------------------------------

  predicate EndsWell(cs: seq<Candidate>, t: Terms, request: Request, now: int, q: Progress, s: Selection) {
    var n := |q.attempts| - 1;
    && n >= 0 && Recorded(cs, t, request, now, q.attempts)
    && AuditedInOrder(q.attempts, q.audit) && |q.audit| == n && q.failures == Lines(q.audit)
    && q.attempts[n].outcome.VALIDATED_RESPONSE? && q.attempts[n].providerId == s.providerId
    && Select(Untried(cs, q.attempts, n), t, now) == Ok(s)
  }

  predicate EndsBlocked(cs: seq<Candidate>, t: Terms, request: Request, now: int, q: Progress) {
    && q.remaining == Untried(cs, q.attempts, |q.attempts|)
    && Recorded(cs, t, request, now, q.attempts)
    && AuditedInOrder(q.attempts, q.audit) && |q.audit| == |q.attempts|
    && (q.remaining == [] ==> q.failures == Lines(q.audit))
    && (q.remaining != [] && q.attempts == [] ==>
          q.failures != [] && Select(cs, t, now) == Err(q.failures[0]))
  }

  lemma AnsweredEndsWell(cs: seq<Candidate>, t: Terms, request: Request, now: int, p: Progress, s: Selection, k: nat,
                         a: Attempt, reply: Reply)
    requires Follows(cs, t, request, now, p, s, k, a, reply) && reply.Answer?
    ensures EndsWell(cs, t, request, now, Answered(p, a, k), s)
  {
    NextAttemptOk(cs, t, request, now, p, s, k, a, reply);
    hide Select, FirstWith, Untried, Recorded, Blank, Lines, AuditedInOrder, Without;
    AuditStands(p.attempts, p.audit, a);
  }

  lemma StopsBlocked(cs: seq<Candidate>, t: Terms, request: Request, now: int, p: Progress, text: string)
    requires Honest(cs, t, request, now, p) && p.remaining != []
    requires p.attempts == [] ==> Select(p.remaining, t, now) == Err(text)
    ensures EndsBlocked(cs, t, request, now, p.(failures := p.failures + [text]))
  {
    hide Select, Recorded, AuditedInOrder;
    if p.attempts == [] {
      assert p.audit == [] && p.failures == [];
    }
  }

  lemma {:induction false} ExploredHonestly(cs: seq<Candidate>, t: Terms, request: Request, now: int,
                                            world: World, p: Progress)
    requires DistinctProviders(cs) && Honest(cs, t, request, now, p)
    ensures var (q, ending) := Explored(t, now, request.hash, world, p);
            if ending.Some? then EndsWell(cs, t, request, now, q, ending.value.0)
            else EndsBlocked(cs, t, request, now, q)
    decreases |p.remaining|
  {
    hide Select, FirstWith, EndsWell, EndsBlocked, AttemptAt, Honest, ReplyTo, DistinctProviders;
    if p.remaining == [] {
      NothingLeft(cs, t, request, now, p);
    } else if p.attempts != [] && !t.gates.allowFallback {
      StopsBlocked(cs, t, request, now, p, "fallback is not permitted");
    } else if Select(p.remaining, t, now).Err? {
      StopsBlocked(cs, t, request, now, p, Select(p.remaining, t, now).error);
    } else {
      var s := Select(p.remaining, t, now).value;
      SelectedIsPresent(p.remaining, t, now);
      var k := FirstWith(p.remaining, s.providerId);
      var reply := ReplyTo(world, s.providerId, |p.attempts| + 1);
      var a := AttemptAt(p.remaining[k], |p.attempts| + 1, request.hash, now, reply);
      assert Follows(cs, t, request, now, p, s, k, a, reply);
      if reply.Answer? {
        AnsweredEndsWell(cs, t, request, now, p, s, k, a, reply);
      } else {
        FailedStaysHonest(cs, t, request, now, p, s, k, a, reply);
        ExploredHonestly(cs, t, request, now, world, Failed(p, s, a, k));
      }
    }
  }

  lemma NothingLeft(cs: seq<Candidate>, t: Terms, request: Request, now: int, p: Progress)
    requires Honest(cs, t, request, now, p) && p.remaining == []
    ensures EndsBlocked(cs, t, request, now, p)
  {
    hide Recorded, AuditedInOrder, Untried;
  }

  // ----- what the verifier makes of it -----------------------------------------------------

  predicate Trimmed(text: string) { !Blank(text) && Strip(text) == text }

  predicate AllTrimmed(audit: seq<Audit>) {
    forall i | 0 <= i < |audit| :: Trimmed(audit[i].reason)
  }

  lemma UnavailableIsTrimmed()
    ensures Trimmed(UNAVAILABLE)
  {
    assert !IsSpace(UNAVAILABLE[0]) && !IsSpace(UNAVAILABLE[|UNAVAILABLE| - 1]);
  }

  lemma RecordedIds(cs: seq<Candidate>, t: Terms, request: Request, now: int, attempts: seq<Attempt>)
    requires Recorded(cs, t, request, now, attempts)
    ensures DistinctIds(attempts) && forall k | 0 <= k < |attempts| :: !BlankId(attempts[k].id)
  {
    hide Select, Untried, ById;
    forall k | 0 <= k < |attempts|
      ensures attempts[k].id.Derived? && attempts[k].id.sequence == k + 1
    {
      assert AttemptOk(cs, t, request, attempts, k, now);
    }
  }

  predicate ShapesOk(audit: seq<Audit>) {
    forall i | 0 <= i < |audit| :: AuditShapeOk(audit[i])
  }

  /** The shape and history checks come down to the failure texts being trimmed. */
  lemma HistoryIsTrimmed(attempts: seq<Attempt>, audit: seq<Audit>)
    requires DistinctIds(attempts) && AuditedInOrder(attempts, audit)
    requires forall k | 0 <= k < |attempts| :: !BlankId(attempts[k].id)
    ensures ShapesOk(audit) && HistoryOk(attempts, audit) <==> AllTrimmed(audit)
  {
    hide BlankId, Blank, Strip;
    UnavailableIsTrimmed();
    if HistoryOk(attempts, audit) && ShapesOk(audit) {
      forall i | 0 <= i < |audit| ensures Trimmed(audit[i].reason) {
        assert AuditShapeOk(audit[i]) && Bound(audit[i], attempts);
        var k :| 0 <= k < |attempts| && AuditMatches(audit[i], attempts[k]);
        assert k == i;
      }
    }
    if AllTrimmed(audit) {
      forall i | 0 <= i < |audit|
        ensures AuditShapeOk(audit[i]) && Bound(audit[i], attempts)
      {
        assert Trimmed(audit[i].reason) && audit[i] == AuditOf(attempts[i]);
        assert AuditMatches(audit[i], attempts[i]);
      }
    }
  }

  lemma CardinalityHolds(attempts: seq<Attempt>, audit: seq<Audit>)
    requires DistinctIds(attempts) && AuditedInOrder(attempts, audit)
    requires forall k | |audit| <= k < |attempts| :: attempts[k].outcome.VALIDATED_RESPONSE?
    ensures CardinalityOk(attempts, audit) && (FailedIds(attempts) != {} <==> audit != [])
  {
    hide Blank;
    forall id ensures id in FailedIds(attempts) <==> exists i | 0 <= i < |audit| :: audit[i].id == id {
      if id in FailedIds(attempts) {
        var k :| 0 <= k < |attempts| && !attempts[k].outcome.VALIDATED_RESPONSE? && attempts[k].id == id;
        assert audit[k].id == id;
      }
      if i :| 0 <= i < |audit| && audit[i].id == id {
        assert attempts[i].id == id;
      }
    }
    if audit != [] {
      assert audit[0].id in FailedIds(attempts);
    }
  }

  lemma RecordedAtAnyTime(cs: seq<Candidate>, t: Terms, request: Request, now: int, later: int,
                          attempts: seq<Attempt>, k: nat)
    requires Recorded(cs, t, request, now, attempts) && k < |attempts|
    ensures AttemptOk(cs, t, request, attempts, k, later)
  {
    assert AttemptOk(cs, t, request, attempts, k, now);
  }

  lemma WalkHolds(cs: seq<Candidate>, t: Terms, request: Request, now: int, later: int, attempts: seq<Attempt>,
                  decided: Option<string>)
    requires Recorded(cs, t, request, now, attempts)
    requires forall k | 0 <= k < |attempts| :: OutcomeOk(attempts, k, decided)
    ensures WalkOk(cs, t, request, attempts, later, decided)
  {
    hide AttemptOk;
    forall k | 0 <= k < |attempts|
      ensures AttemptOk(cs, t, request, attempts, k, later)
    {
      RecordedAtAnyTime(cs, t, request, now, later, attempts, k);
    }
  }

  lemma LinesLength(audit: seq<Audit>)
    ensures |Lines(audit)| == |audit|
  {
  }

  lemma SelectionReconstructs(cs: seq<Candidate>, t: Terms, request: Request, now: int, later: int, q: Progress,
                              s: Selection, answer: Response)
    requires EndsWell(cs, t, request, now, q, s)
    requires FailedIds(q.attempts) != {} <==> q.audit != []
    ensures Reconstructed(cs, t, q.attempts, q.audit, later) == Some(CoreOf(cs, Concluded(q, Some((s, answer)))))
  {
    hide Select, Untried, AuditedInOrder, FailedIds, AttemptOk;
    assert q.attempts[|q.attempts| - 1].selectionTime == Some(now);
    LinesLength(q.audit);
    hide Lines;
  }

  /** The verifier's stages on the evidence of a state: its binding checks hold but for the audit's shape. */
  lemma AcceptanceMeans(setup: Setup, request: Request, context: Context, later: int, st: State)
    requires setup.gates.Some? && request.projectId == setup.project
    ensures var cs, t := setup.candidates, TermsOf(setup);
            var d := DecisionOf(setup, st);
            Accepts(EvidenceOf(request, context, st, d), d, request, context, later, cs, setup.gates.value)
            <==>
            && ShapesOk(d.core.audit) && HistoryOk(st.attempts, d.core.audit)
            && WalkOk(cs, t, request, st.attempts, later, d.core.providerId)
            && CardinalityOk(st.attempts, d.core.audit)
            && Exhausted(cs, st.attempts, d.core.status)
            && Reconstructed(cs, t, st.attempts, d.core.audit, later) == Some(d.core)
  {
    hide HistoryOk, WalkOk, CardinalityOk, Exhausted, Reconstructed, AuditShapeOk, CoreOf;
  }

  /** The stages that concern the history alone. */
  lemma HistoryStages(cs: seq<Candidate>, t: Terms, request: Request, now: int, attempts: seq<Attempt>,
                      audit: seq<Audit>)
    requires Recorded(cs, t, request, now, attempts) && AuditedInOrder(attempts, audit)
    requires forall k | |audit| <= k < |attempts| :: attempts[k].outcome.VALIDATED_RESPONSE?
    ensures ShapesOk(audit) && HistoryOk(attempts, audit) <==> AllTrimmed(audit)
    ensures CardinalityOk(attempts, audit) && (FailedIds(attempts) != {} <==> audit != [])
  {
    hide Recorded, AuditedInOrder, HistoryOk, CardinalityOk, FailedIds, ShapesOk, AllTrimmed;
    RecordedIds(cs, t, request, now, attempts);
    HistoryIsTrimmed(attempts, audit);
    CardinalityHolds(attempts, audit);
  }

  lemma SelectedStages(cs: seq<Candidate>, t: Terms, request: Request, now: int, later: int, q: Progress, s: Selection)
    requires EndsWell(cs, t, request, now, q, s)
    ensures ShapesOk(q.audit) && HistoryOk(q.attempts, q.audit) <==> AllTrimmed(q.audit)
    ensures CardinalityOk(q.attempts, q.audit) && (FailedIds(q.attempts) != {} <==> q.audit != [])
    ensures WalkOk(cs, t, request, q.attempts, later, Some(s.providerId))
  {
    hide Select, Recorded, AuditedInOrder, HistoryOk, CardinalityOk, FailedIds, ShapesOk, AllTrimmed, WalkOk, OutcomeOk;
    hide Untried, Lines;
    HistoryStages(cs, t, request, now, q.attempts, q.audit);
    OutcomesOfSelected(q);
    WalkHolds(cs, t, request, now, later, q.attempts, Some(s.providerId));
  }

  lemma SelectedAccepted(setup: Setup, request: Request, context: Context, later: int, q: Progress,
                         s: Selection, answer: Response)
    requires setup.gates.Some? && request.projectId == setup.project
    requires EndsWell(setup.candidates, TermsOf(setup), request, setup.now, q, s)
    ensures var st := Concluded(q, Some((s, answer)));
            var d := DecisionOf(setup, st);
            Accepts(EvidenceOf(request, context, st, d), d, request, context, later,
                    setup.candidates, setup.gates.value)
            <==> AllTrimmed(st.audit)
  {
    hide EndsWell, HistoryOk, ShapesOk, AllTrimmed, CardinalityOk, FailedIds, Reconstructed, WalkOk, Accepts;
    hide EvidenceOf;
    hide TermsOf;
    var cs, t := setup.candidates, TermsOf(setup);
    SelectedStages(cs, t, request, setup.now, later, q, s);
    SelectionReconstructs(cs, t, request, setup.now, later, q, s, answer);
    AcceptanceMeans(setup, request, context, later, Concluded(q, Some((s, answer))));
  }

  lemma OutcomesOfSelected(q: Progress)
    requires q.attempts != [] && AuditedInOrder(q.attempts, q.audit) && |q.audit| == |q.attempts| - 1
    requires q.attempts[|q.attempts| - 1].outcome.VALIDATED_RESPONSE?
    ensures var decided := Some(q.attempts[|q.attempts| - 1].providerId);
            forall k | 0 <= k < |q.attempts| :: OutcomeOk(q.attempts, k, decided)
  {
  }

  lemma BlockedStages(cs: seq<Candidate>, t: Terms, request: Request, now: int, later: int, q: Progress)
    requires EndsBlocked(cs, t, request, now, q) && q.attempts != []
    ensures ShapesOk(q.audit) && HistoryOk(q.attempts, q.audit) <==> AllTrimmed(q.audit)
    ensures CardinalityOk(q.attempts, q.audit) && !Succeeded(q.attempts)
    ensures WalkOk(cs, t, request, q.attempts, later, None)
  {
    hide Select, Recorded, HistoryOk, CardinalityOk, FailedIds, ShapesOk, AllTrimmed, WalkOk;
    hide Untried, Lines, Blank;
    HistoryStages(cs, t, request, now, q.attempts, q.audit);
    assert forall k | 0 <= k < |q.attempts| :: OutcomeOk(q.attempts, k, None);
    WalkHolds(cs, t, request, now, later, q.attempts, None);
  }

  lemma BlockedAccepted(setup: Setup, request: Request, context: Context, later: int, q: Progress)
    requires setup.gates.Some? && request.projectId == setup.project
    requires EndsBlocked(setup.candidates, TermsOf(setup), request, setup.now, q) && q.attempts != []
    ensures var st := Concluded(q, None);
            var d := DecisionOf(setup, st);
            Accepts(EvidenceOf(request, context, st, d), d, request, context, later,
                    setup.candidates, setup.gates.value)
            <==> AllTrimmed(st.audit) && q.remaining == []
  {
    hide HistoryOk, ShapesOk, AllTrimmed, CardinalityOk, FailedIds, WalkOk, Accepts, EvidenceOf, Recorded;
    hide AuditedInOrder;
    hide Select, Untried, Lines, Providers, Ordered, Join, TermsOf, Succeeded;
    var cs, t := setup.candidates, TermsOf(setup);
    BlockedStages(cs, t, request, setup.now, later, q);
    AcceptanceMeans(setup, request, context, later, Concluded(q, None));
  }

  lemma UnattemptedAccepted(setup: Setup, request: Request, context: Context, later: int, q: Progress)
    requires setup.gates.Some? && request.projectId == setup.project
    requires EndsBlocked(setup.candidates, TermsOf(setup), request, setup.now, q) && q.attempts == []
    ensures var st := Concluded(q, None);
            var d := DecisionOf(setup, st);
            Accepts(EvidenceOf(request, context, st, d), d, request, context, later,
                    setup.candidates, setup.gates.value)
            <==> setup.candidates != []
                 && Select(setup.candidates, TermsOf(setup), later)
                    == Select(setup.candidates, TermsOf(setup), setup.now)
  {
    hide Blank, Providers, Join, Reason;
    var t := TermsOf(setup);
    assert q.audit == [] && q.remaining == setup.candidates;
    if setup.candidates == [] {
      assert Select([], t, later) == Err("no eligible capability candidate: " + Join("; ", []));
      assert Concluded(q, None).blockedReason == Some("provider selection blocked");
      assert "provider selection blocked"[0] != ("no eligible capability candidate: " + Join("; ", []))[0];
    }
    hide Select;
    assert FailedIds([]) == {};
  }

  /**
   With distinct providers, the verifier accepts the evidence of a proposal exactly when every recorded
   failure text is trimmed and non-blank, no candidate was left untried after an attempt unless a provider
   answered, and - where nobody was even tried - there was a candidate and the selector still says the same.
  */
  lemma HonestEvidenceAcceptedExactly(setup: Setup, request: Request, world: World, context: Context, later: int)
    requires DistinctProviders(setup.candidates) && setup.gates.Some? && request.projectId == setup.project
    ensures var st := Proposed(setup, request, world);
            var d := DecisionOf(setup, st);
            Accepts(EvidenceOf(request, context, st, d), d, request, context, later,
                    setup.candidates, setup.gates.value)
            <==>
            && AllTrimmed(st.audit)
            && (st.selection.Some? || st.attempts == [] || Untried(setup.candidates, st.attempts, |st.attempts|) == [])
            && (st.attempts == [] ==>
                  setup.candidates != []
                  && Select(setup.candidates, TermsOf(setup), later)
                     == Select(setup.candidates, TermsOf(setup), setup.now))
  {
    var start := Progress(setup.candidates, [], [], []);
    var (q, ending) := Explored(TermsOf(setup), setup.now, request.hash, world, start);
    assert Honest(setup.candidates, TermsOf(setup), request, setup.now, start);
    ExploredHonestly(setup.candidates, TermsOf(setup), request, setup.now, world, start);
    hide Explored, Accepts, Recorded, Select, DecisionOf, EvidenceOf, AuditedInOrder, Lines, Join, Trimmed;
    match ending {
      case Some((s, answer)) => SelectedAccepted(setup, request, context, later, q, s, answer);
      case None =>
        if q.attempts == [] {
          UnattemptedAccepted(setup, request, context, later, q);
          assert |q.audit| == 0;
        } else {
          BlockedAccepted(setup, request, context, later, q);
        }
    }
  }
}
