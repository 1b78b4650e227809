/** Monotone, unreplayable activation over every run with crashes, and exactly when a step succeeds. */
module AuthoritySafety {
  import opened Wrappers
  import opened AuthorityDisk

  /** `log` lists, in order, the generations whose activation became durable. */
  datatype Sys = Sys(disk: Disk, log: seq<Generation>)

  /** Owner steps, serialised by the project lock; each may crash after `power` writes. */
  datatype Action =
    | PrepareStep(generation: Generation, power: nat)
    | ActivateStep(id: nat, signature: Option<Signature>, power: nat)
    | ActiveStep(power: nat)

  /** An activation is durable once its transition record is on disk. */
  function Durable(d: Disk, id: nat, signature: Option<Signature>, power: nat): Option<Generation> {
    match Load(d, id)
    case Err(_) => None
    case Ok(g) =>
      if !g.u.status.VERIFIED? || !Survives(d, power) || CutoverError(Settled(d), g, signature).Some?
         || PowerLeft(d, power) == 0 then None
      else Some(Activated(g, signature))
  }

  function Next(s: Sys, action: Action): Sys {
    match action
    case PrepareStep(g, power) => s.(disk := Prepare(s.disk, g, power).0)
    case ActivateStep(id, signature, power) =>
      Sys(Activate(s.disk, id, signature, power).0,
          s.log + match Durable(s.disk, id, signature, power) case Some(g) => [g] case None => [])
    case ActiveStep(power) => s.(disk := Active(s.disk, power).0)
  }

  function Run(s: Sys, actions: seq<Action>): Sys
    decreases |actions|
  {
    if actions == [] then s else Run(Next(s, actions[0]), actions[1..])
  }

  const EMPTY := Sys(Disk(map[], None, None, None), [])

  function Last(log: seq<Generation>): Generation
    requires log != []
  {
    log[|log| - 1]
  }

  function FloorOfLog(log: seq<Generation>): int { if log == [] then 0 else Last(log).u.number }

  // ----- the invariant --------------------------------------------------------------

  /** Every generation file is loadable; an ACTIVE one is a generation that was activated. */
  predicate FilesOk(d: Disk, log: seq<Generation>) {
    forall id | id in d.gens ::
      && id >= 1 && Load(d, id).Ok? && !d.gens[id].u.status.SUPERSEDED?
      && (d.gens[id].u.status.ACTIVE? ==> d.gens[id] in log)
  }

  /** The selected file is the last activated generation, or a 1.0 file prepared over it since. */
  predicate Kept(d: Disk, last: Generation) {
    && last.u.id in d.gens
    && (d.gens[last.u.id] == last || (last.u.schema.V1? && !d.gens[last.u.id].u.status.ACTIVE?))
  }

  predicate LogOk(log: seq<Generation>) {
    && (forall i | 0 <= i < |log| :: Valid(log[i]) && log[i].u.status.ACTIVE? && log[i].u.id >= 1)
    && (forall i, j | 0 <= i < j < |log| ::
          log[i].u.number < log[j].u.number && (log[i].u.schema.V2? ==> log[j].u.schema.V2?))
    && (forall i | 0 <= i < |log| :: log[i].u.schema.V2? && log[i].u.predecessor.Some? ==>
          i > 0 && log[i].u.predecessor == Some(log[i - 1].u.id)
          && log[i].u.predecessorHash == Some(log[i - 1].manifest))
  }

  predicate MetadataOk(d: Disk, log: seq<Generation>) {
    if log == [] then d.selector.None? && d.floor.None?
    else
      && d.selector == Some(Selector(Last(log).u.id, Last(log).manifest))
      && d.floor == Some(Last(log).u.number)
      && Kept(d, Last(log))
  }

  predicate Inv(s: Sys) {
    && LogOk(s.log)
    && FilesOk(s.disk, s.log)
    && (s.disk.transition.Some? ==> s.log != [] && s.disk.transition.value == TransitionTo(Last(s.log)))
    && MetadataOk(Settled(s.disk), s.log)
  }

  lemma SettledFilesOk(s: Sys)
    requires Inv(s)
    ensures FilesOk(Settled(s.disk), s.log)
  {
    if s.disk.transition.Some? {
      var last := Last(s.log);
      assert last in s.log;
      var d := Settled(s.disk);
      forall id | id in d.gens
        ensures id >= 1 && Load(d, id).Ok? && !d.gens[id].u.status.SUPERSEDED?
        ensures d.gens[id].u.status.ACTIVE? ==> d.gens[id] in s.log
      {
        if id != last.u.id {
          assert id in s.disk.gens && Load(s.disk, id).Ok?;
        }
      }
    }
  }

  /** On a settled disk the floor is the number of the last activation. */
  lemma FloorIsLast(d: Disk, log: seq<Generation>)
    requires LogOk(log) && FilesOk(d, log) && MetadataOk(d, log)
    ensures FloorOf(d) == Ok(FloorOfLog(log))
  {
    forall id | id in d.gens && Committedly(d.gens[id].u.status)
      ensures log != [] && d.gens[id].u.number <= Last(log).u.number
    {
      var k :| 0 <= k < |log| && log[k] == d.gens[id];
      assert k == |log| - 1 || log[k].u.number < log[|log| - 1].u.number;
    }
  }

  /** And the selected generation is the last activated one exactly while its file still holds it. */
  lemma ActiveIsLast(d: Disk, log: seq<Generation>)
    requires LogOk(log) && FilesOk(d, log) && MetadataOk(d, log)
    ensures log == [] ==> ActiveOf(d) == Err(SelectorMissing)
    ensures log != [] && d.gens[Last(log).u.id] == Last(log) ==> ActiveOf(d) == Ok(Last(log))
    ensures log != [] && d.gens[Last(log).u.id] != Last(log) ==> ActiveOf(d).Err?
  {
    hide FloorOf, LogOk;
    FloorIsLast(d, log);
    if log != [] {
      var last := Last(log);
      LogEntry(log, |log| - 1);
      assert Load(d, last.u.id).Ok?;
      assert d.gens[last.u.id] != last ==> d.gens[last.u.id].u != last.u;
    }
  }

  lemma LogEntry(log: seq<Generation>, i: nat)
    requires LogOk(log) && i < |log|
    ensures Valid(log[i]) && log[i].u.status.ACTIVE? && log[i].u.id >= 1
  {
  }

  // ----- every step keeps it ---------------------------------------------------------

  lemma InitialInv()
    ensures Inv(EMPTY)
  {
  }

  lemma PrepareKeepsInv(s: Sys, g: Generation, power: nat)
    requires Inv(s)
    ensures Inv(Next(s, PrepareStep(g, power)))
  {
    hide LogOk, Valid;
    var next := Next(s, PrepareStep(g, power));
    if next.disk != s.disk {
      assert next.disk == s.disk.(gens := s.disk.gens[g.u.id := g]);
      forall id | id in next.disk.gens
        ensures Load(next.disk, id).Ok?
      {
        if id != g.u.id {
          assert Load(s.disk, id).Ok?;
        }
      }
    }
  }

  /** Recovering, wholly or in part, changes nothing that a later recovery will not. */
  lemma RecoveryKeepsInv(s: Sys, power: nat)
    requires Inv(s)
    ensures Inv(s.(disk := Recovered(s.disk, power)))
  {
    var d := Recovered(s.disk, power);
    InterruptionsDoNotMatter(s.disk, [power]);
    assert Interrupted(s.disk, [power]) == Interrupted(d, []) == d;
    SettledFilesOk(s);
    hide LogOk, Valid;
    if s.disk.transition.Some? {
      assert d.gens == s.disk.gens || d.gens == Settled(s.disk).gens;
      if d.gens == s.disk.gens {
        SameFilesOk(s.disk, d, s.log);
      } else {
        SameFilesOk(Settled(s.disk), d, s.log);
      }
    }
  }

  lemma SameFilesOk(d: Disk, d': Disk, log: seq<Generation>)
    requires FilesOk(d, log) && d'.gens == d.gens
    ensures FilesOk(d', log)
  {
    forall id | id in d'.gens
      ensures id >= 1 && Load(d', id).Ok?
    {
      assert Load(d, id).Ok?;
    }
  }

  /** What the cutover checks have established once they pass. */
  lemma CutoverMeans(s: Sys, g: Generation, signature: Option<Signature>)
    requires Inv(s) && CutoverError(Settled(s.disk), g, signature).None?
    ensures Valid(Activated(g, signature)) && g.u.number > FloorOfLog(s.log)
    ensures s.log != [] && Last(s.log).u.schema.V2? ==> g.u.schema.V2?
    ensures g.u.schema.V2? && g.u.predecessor.Some? ==>
              s.log != [] && g.u.predecessor == Some(Last(s.log).u.id)
              && g.u.predecessorHash == Some(Last(s.log).manifest)
  {
    hide FloorOf, ActiveOf, Valid, LogOk, FilesOk;
    SettledFilesOk(s);
    FloorIsLast(Settled(s.disk), s.log);
    ActiveIsLast(Settled(s.disk), s.log);
  }

  lemma LogGrows(log: seq<Generation>, g: Generation)
    requires LogOk(log) && Valid(g) && g.u.status.ACTIVE? && g.u.id >= 1 && g.u.number > FloorOfLog(log)
    requires log != [] && Last(log).u.schema.V2? ==> g.u.schema.V2?
    requires g.u.schema.V2? && g.u.predecessor.Some? ==>
               log != [] && g.u.predecessor == Some(Last(log).u.id) && g.u.predecessorHash == Some(Last(log).manifest)
    ensures LogOk(log + [g])
  {
    hide Valid;
    var grown := log + [g];
    forall i, j | 0 <= i < j < |grown|
      ensures grown[i].u.number < grown[j].u.number && (grown[i].u.schema.V2? ==> grown[j].u.schema.V2?)
    {
      if j == |log| {
        assert i == |log| - 1 || log[i].u.number < log[|log| - 1].u.number;
      }
    }
  }

  lemma CommitKeepsInv(s: Sys, g: Generation, left: nat)
    requires Inv(s) && s.disk.transition.None? && LogOk(s.log + [g]) && left >= 1
    ensures Inv(Sys(Committed(s.disk, TransitionTo(g), left), s.log + [g]))
  {
    var log := s.log + [g];
    LogEntry(log, |s.log|);
    hide LogOk;
    assert g in log;
    var d := s.disk.(transition := Some(TransitionTo(g)));
    SameFilesOk(s.disk, d, s.log);
    assert FilesOk(d, log);
    assert Settled(d).gens[g.u.id] == g;
    RecoveryKeepsInv(Sys(d, log), left - 1);
  }

  lemma ActivateKeepsInv(s: Sys, id: nat, signature: Option<Signature>, power: nat)
    requires Inv(s)
    ensures Inv(Next(s, ActivateStep(id, signature, power)))
  {
    hide CutoverError, LogOk, Valid, FilesOk, MetadataOk, Replayed;
    RecoveryKeepsInv(s, power);
    RecoveryKeepsInv(s, 4);
    if Load(s.disk, id).Ok? && Durable(s.disk, id, signature, power).Some? {
      var g := Load(s.disk, id).value;
      var settled := s.(disk := Settled(s.disk));
      SettledHasNoTransition(s.disk);
      CutoverMeans(s, g, signature);
      LogGrows(s.log, Activated(g, signature));
      CommitKeepsInv(settled, Activated(g, signature), PowerLeft(s.disk, power));
    } else {
      assert s.log + [] == s.log;
    }
  }

  lemma SettledHasNoTransition(d: Disk)
    ensures Settled(d).transition.None?
  {
  }

  lemma StepKeepsInv(s: Sys, action: Action)
    requires Inv(s)
    ensures Inv(Next(s, action))
  {
    hide Inv;
    match action {
      case PrepareStep(g, power) => PrepareKeepsInv(s, g, power);
      case ActivateStep(id, signature, power) => ActivateKeepsInv(s, id, signature, power);
      case ActiveStep(power) =>
        RecoveryKeepsInv(s, power);
        RecoveryKeepsInv(s, 4);
    }
  }

  lemma {:induction false} RunKeepsInv(s: Sys, actions: seq<Action>)
    requires Inv(s)
    ensures Inv(Run(s, actions)) && s.log <= Run(s, actions).log
    decreases |actions|
  {
    hide Inv;
    if actions != [] {
      StepKeepsInv(s, actions[0]);
      RunKeepsInv(Next(s, actions[0]), actions[1..]);
    }
  }

  // ----- the guarantees -----------------------------------------------------------------

  /**
   Over every run with crashes, activations strictly raise the number - so none is activated
   twice -, a 2.0 generation is never followed by a 1.0 one, and a 2.0 generation that records a
   predecessor follows exactly that generation.
  */
  lemma ActivationsAreMonotone(actions: seq<Action>)
    ensures var log := Run(EMPTY, actions).log;
            && (forall i, j | 0 <= i < j < |log| :: log[i].u.number < log[j].u.number)
            && (forall i, j | 0 <= i < j < |log| :: log[i].u.schema.V2? ==> log[j].u.schema.V2?)
            && (forall i | 0 <= i < |log| :: log[i].u.schema.V2? && log[i].u.predecessor.Some? ==>
                  i > 0 && log[i].u.predecessor.value == log[i - 1].u.id
                  && log[i].u.predecessorHash == Some(HashOf(log[i - 1].u)))
  {
    InitialInv();
    RunKeepsInv(EMPTY, actions);
  }

  /** The floor a completed recovery leaves is the number of the last durable activation. */
  lemma FloorFollowsLog(actions: seq<Action>)
    ensures var end := Run(EMPTY, actions); FloorOf(Settled(end.disk)) == Ok(FloorOfLog(end.log))
  {
    InitialInv();
    RunKeepsInv(EMPTY, actions);
    SettledFilesOk(Run(EMPTY, actions));
    FloorIsLast(Settled(Run(EMPTY, actions).disk), Run(EMPTY, actions).log);
  }

  /** Nobody has prepared another 1.0 generation under the selected one's identity since its activation. */
  predicate Intact(s: Sys) {
    s.log != [] && Last(s.log).u.id in Settled(s.disk).gens && Settled(s.disk).gens[Last(s.log).u.id] == Last(s.log)
  }

  /** `active` returns the last activated generation if its file is intact, and otherwise fails; never anything else. */
  lemma ActiveReturnsLastOrFails(s: Sys, power: nat)
    requires Inv(s)
    ensures var outcome := Active(s.disk, power).1;
            if !Survives(s.disk, power) then outcome.Crashed?
            else if Intact(s) then outcome == Done(Last(s.log))
            else outcome.Refused?
  {
    SettledFilesOk(s);
    hide FloorOf, LogOk, FilesOk, ActiveOf;
    ActiveIsLast(Settled(s.disk), s.log);
  }

  /** A 2.0 generation, once activated, stays readable until the next activation. */
  lemma ObjectiveAuthorityStaysReadable(s: Sys)
    requires Inv(s) && s.log != [] && Last(s.log).u.schema.V2?
    ensures Intact(s)
  {
  }

  /**
   Exactly when an activation that is not cut short completes: the file is there, VERIFIED, may follow what was
   activated before, and the owner has signed its content as ACTIVE. Then file, selector and floor say just that.
  */
  lemma ActivatesExactly(s: Sys, id: nat, signature: Option<Signature>, power: nat)
    requires Inv(s) && power >= if s.disk.transition.Some? then 9 else 5
    ensures var (disk, answer) := Activate(s.disk, id, signature, power);
            && (answer.Done? <==>
                  && id in s.disk.gens && s.disk.gens[id].u.status.VERIFIED? && MayFollow(s, s.disk.gens[id])
                  && signature == Some(SignedOver(s.disk.gens[id].u.(status := ACTIVE))))
            && (answer.Done? ==>
                  var u := s.disk.gens[id].u.(status := ACTIVE);
                  && answer.value == Generation(u, HashOf(u), SignedOver(u))
                  && id in disk.gens && disk.gens[id] == answer.value && disk.transition.None?
                  && disk.selector == Some(Selector(id, HashOf(u))) && disk.floor == Some(u.number))
  {
    CompletesExactly(s, id, signature, power);
    if id in s.disk.gens && s.disk.gens[id].u.status.VERIFIED? {
      LoadedIsValid(s, id);
      ActiveContent(s.disk.gens[id], signature);
      CommitIsAllOrNothing(Settled(s.disk), TransitionTo(Activated(s.disk.gens[id], signature)),
                           PowerLeft(s.disk, power), []);
    }
    hide FloorOf, ActiveOf, Valid, LogOk, Activated, Load, Inv, MayFollow, CutoverError, Replayed;
    SettledHasNoTransition(s.disk);
  }

  lemma CompletesExactly(s: Sys, id: nat, signature: Option<Signature>, power: nat)
    requires Inv(s) && power >= if s.disk.transition.Some? then 9 else 5
    ensures var answer := Activate(s.disk, id, signature, power).1;
            && (answer.Done? <==>
                  && id in s.disk.gens && s.disk.gens[id].u.status.VERIFIED?
                  && MayFollow(s, s.disk.gens[id]) && Valid(Activated(s.disk.gens[id], signature)))
            && (answer.Done? ==>
                  && answer.value == Activated(s.disk.gens[id], signature)
                  && Activate(s.disk, id, signature, power).0
                     == Committed(Settled(s.disk), TransitionTo(answer.value), PowerLeft(s.disk, power)))
  {
    hide FloorOf, ActiveOf, Valid, LogOk;
    SettledFilesOk(s);
    FloorIsLast(Settled(s.disk), s.log);
    ActiveIsLast(Settled(s.disk), s.log);
    hide Replayed;
  }

  lemma LoadedIsValid(s: Sys, id: nat)
    requires Inv(s) && id in s.disk.gens
    ensures Load(s.disk, id) == Ok(s.disk.gens[id]) && Valid(s.disk.gens[id]) && s.disk.gens[id].u.id == id
  {
    hide MetadataOk, LogOk;
  }

  /** A VERIFIED content becomes a valid ACTIVE one under the signature over the ACTIVE content and no other. */
  lemma ActiveContent(g: Generation, signature: Option<Signature>)
    requires Valid(g) && g.u.status.VERIFIED?
    ensures var u := g.u.(status := ACTIVE);
            && (Valid(Activated(g, signature)) <==> signature == Some(SignedOver(u)))
            && (signature == Some(SignedOver(u)) ==> Activated(g, signature) == Generation(u, HashOf(u), SignedOver(u)))
  {
  }

  /** What the owner has sealed: hash and signature are over just this content. */
  function Sealed(u: Unsigned): Generation { Generation(u, HashOf(u), SignedOver(u)) }

  /**
   On any disk, a preparation is accepted exactly for a sound, sealed, uncommitted content, over a file that can be
   read if there is one; and 2.0 files are written once.
  */
  lemma PreparesExactly(d: Disk, g: Generation, power: nat)
    requires power >= 1
    ensures var (disk, answer) := Prepare(d, g, power);
            && (answer.Done? <==>
                  && g == Sealed(g.u) && g.u.sound && g.u.number >= 1 && g.u.id >= 1
                  && (g.u.predecessor.Some? ==> g.u.predecessorHash.Some?)
                  && g.u.status in {PREPARING, PREPARED, VERIFIED}
                  && (g.u.id in d.gens ==>
                        && Load(d, g.u.id).Ok?
                        && (g.u.schema.V2? || d.gens[g.u.id].u.schema.V2? ==> d.gens[g.u.id] == g)))
            && disk == if answer.Done? then d.(gens := d.gens[g.u.id := g]) else d
  {
  }

  /** The floor as any reader finds it: none without committed files, and never below one. */
  lemma FloorAnswersExactly(d: Disk, n: int)
    ensures FloorOf(d) == Ok(n) <==>
              && (forall id | id in d.gens :: Load(d, id).Ok?)
              && (forall id | id in d.gens && d.gens[id].u.status in {ACTIVE, SUPERSEDED} ::
                    d.floor.Some? && d.gens[id].u.number <= n)
              && n == (if d.floor.Some? then d.floor.value else 0) && n >= 0
  {
    hide Valid, Load;
  }

  /** The writes of a replay, one after the other: generation, selector, floor, and the record of it away. */
  lemma ReplayWritesInOrder(d: Disk, t: Transition, k: nat)
    ensures Replayed(d, t, k)
            == Disk(if k == 0 then d.gens else d.gens[t.generation.u.id := t.generation],
                    if k <= 1 then d.selector else Some(t.selector),
                    if k <= 2 then d.floor else Some(t.floor),
                    if k <= 3 then d.transition else None)
    ensures Committed(d, t, 0) == d && Committed(d, t, k + 1) == Replayed(d.(transition := Some(t)), t, k)
  {
  }

  /** What each operation must be able to write: four files to recover, five to commit. */
  lemma WritesNeeded(d: Disk, id: nat, signature: Option<Signature>, power: nat)
    ensures Active(d, power).1.Crashed? <==> d.transition.Some? && power < 4
    ensures Activate(d, id, signature, power).1.Done? ==> power >= if d.transition.Some? then 9 else 5
  {
    hide ActiveOf, CutoverError, Load, Replayed;
  }

  /** Prepared, signed as ACTIVE and activated on an empty store, a generation is what readers then get. */
  lemma FirstGenerationIsActivated(u: Unsigned)
    requires u.sound && u.number >= 1 && u.id >= 1 && u.predecessor.None? && u.status.VERIFIED?
    ensures var active := Sealed(u.(status := ACTIVE));
            var end := Run(EMPTY, [PrepareStep(Sealed(u), 1), ActivateStep(u.id, Some(active.signature), 5)]);
            end.log == [active] && forall power: nat :: Active(end.disk, power) == (end.disk, Done(active))
  {
    var active := Sealed(u.(status := ACTIVE));
    var prepare, activate := PrepareStep(Sealed(u), 1), ActivateStep(u.id, Some(active.signature), 5);
    var s1 := Next(EMPTY, prepare);
    StepKeepsInv(EMPTY, prepare);
    PreparesExactly(EMPTY.disk, Sealed(u), 1);
    StepKeepsInv(s1, activate);
    ActivatesExactly(s1, u.id, Some(active.signature), 5);
    var s2 := Next(s1, activate);
    assert s2.log == [active] by {
      ActivateLogs(s1, u.id, Some(active.signature), 5);
    }
    assert Intact(s2);
    forall power: nat ensures Active(s2.disk, power) == (s2.disk, Done(active)) {
      ActiveReturnsLastOrFails(s2, power);
      hide ActiveOf;
      assert Settled(s2.disk) == s2.disk;
    }
    var plan := [prepare, activate];
    assert plan[1..] == [activate] && plan[1..][1..] == [];
    hide Next, Inv;
    assert Run(EMPTY, plan) == Run(s1, [activate]) == Run(s2, []);
  }

  /** A completed activation is the one added to the history. */
  lemma ActivateLogs(s: Sys, id: nat, signature: Option<Signature>, power: nat)
    requires Activate(s.disk, id, signature, power).1.Done?
    ensures Next(s, ActivateStep(id, signature, power)).log == s.log + [Activate(s.disk, id, signature, power).1.value]
  {
    hide CutoverError, Activated, Replayed, Load;
  }

  /** Whatever is on the disk: a reader is given the sealed ACTIVE file of the selector, the highest one committed. */
  lemma ActiveAnswersExactly(d: Disk, g: Generation)
    ensures ActiveOf(d) == Ok(g) <==>
              && d.selector == Some(Selector(g.u.id, HashOf(g.u))) && g.u.id in d.gens && d.gens[g.u.id] == g
              && g.u.status.ACTIVE? && d.floor == Some(g.u.number)
              && (forall id | id in d.gens :: Load(d, id).Ok?)
              && (forall id | id in d.gens && d.gens[id].u.status in {ACTIVE, SUPERSEDED} ::
                    d.gens[id].u.number <= g.u.number)
  {
    LoadsExactly(d, g.u.id);
    if d.selector.Some? {
      LoadsExactly(d, d.selector.value.id);
    }
    hide Valid, Load;
    if g.u.id in d.gens && Load(d, g.u.id).Ok? && g.u.status.ACTIVE? && FloorOf(d).Ok? && d.gens[g.u.id] == g {
      assert g.u.number >= 1 && Committedly(d.gens[g.u.id].u.status);
      assert d.floor.Some? && g.u.number <= d.floor.value;
    }
  }

  lemma LoadsExactly(d: Disk, id: nat)
    ensures Load(d, id).Ok? <==>
              && id >= 1 && id in d.gens && d.gens[id].u.id == id
              && d.gens[id] == Sealed(d.gens[id].u) && d.gens[id].u.sound && d.gens[id].u.number >= 1
              && (d.gens[id].u.predecessor.Some? ==> d.gens[id].u.predecessorHash.Some?)
    ensures Load(d, id).Ok? ==> Load(d, id).value == d.gens[id]
  {
  }

  predicate MayFollow(s: Sys, g: Generation) {
    && g.u.number > FloorOfLog(s.log)
    && (s.log != [] ==> Intact(s) && (Last(s.log).u.schema.V2? ==> g.u.schema.V2?))
    && (g.u.schema.V2? && g.u.predecessor.Some? ==>
          && s.log != [] && g.u.predecessor.value == Last(s.log).u.id
          && g.u.predecessorHash == Some(Last(s.log).manifest))
  }

  // ----- preparing over the selected 1.0 generation ------------------------------------------

  predicate Bricked(s: Sys) { s.log != [] && !Intact(s) }

  lemma BrickedIsRecovered(s: Sys)
    requires Inv(s) && Bricked(s)
    ensures s.disk.transition.None? && Settled(s.disk) == s.disk && Survives(s.disk, 0)
    ensures s.disk.selector.Some? && ActiveOf(s.disk).Err? && Last(s.log).u.status.ACTIVE?
    ensures Last(s.log).u.id in s.disk.gens && s.disk.gens[Last(s.log).u.id] != Last(s.log)
  {
    LogEntry(s.log, |s.log| - 1);
    hide FloorOf, ActiveOf, LogOk, FilesOk, Load;
    assert s.disk.transition.None?;
    ActiveIsLast(s.disk, s.log);
  }

  lemma BrickedPrepare(s: Sys, g: Generation, power: nat)
    requires Inv(s) && Bricked(s)
    ensures Bricked(Next(s, PrepareStep(g, power)))
  {
    BrickedIsRecovered(s);
    hide Inv, Valid, Load;
    var next := Next(s, PrepareStep(g, power));
    assert next.disk == s.disk || next.disk == s.disk.(gens := s.disk.gens[g.u.id := g]);
  }

  lemma BrickedActivate(s: Sys, id: nat, signature: Option<Signature>, power: nat)
    requires Inv(s) && Bricked(s)
    ensures Next(s, ActivateStep(id, signature, power)) == s
  {
    BrickedIsRecovered(s);
    hide Inv, Valid, Load, FloorOf, ActiveOf, Committed;
    assert s.log + [] == s.log;
  }

  lemma BrickedStep(s: Sys, action: Action)
    requires Inv(s) && Bricked(s)
    ensures Bricked(Next(s, action)) && Next(s, action).log == s.log
  {
    hide Inv, Bricked, Activate, Prepare, ActiveOf;
    match action {
      case PrepareStep(g, power) => BrickedPrepare(s, g, power);
      case ActivateStep(id, signature, power) => BrickedActivate(s, id, signature, power);
      case ActiveStep(power) => BrickedIsRecovered(s);
    }
  }

  /** Once the selected 1.0 file was prepared over, no run ever activates again and `active` fails for good. */
  lemma {:induction false} BrickedForGood(s: Sys, actions: seq<Action>, power: nat)
    requires Inv(s) && Bricked(s)
    ensures var end := Run(s, actions);
            end.log == s.log && (Active(end.disk, power).1.Refused? || Active(end.disk, power).1.Crashed?)
    decreases |actions|
  {
    hide Inv, Bricked;
    if actions == [] {
      ActiveReturnsLastOrFails(s, power);
      assert !Intact(s) by {
        NotIntact(s);
      }
    } else {
      StepKeepsInv(s, actions[0]);
      BrickedStep(s, actions[0]);
      BrickedForGood(Next(s, actions[0]), actions[1..], power);
    }
  }

  lemma NotIntact(s: Sys)
    requires Bricked(s)
    ensures !Intact(s)
  {
  }

  /** It takes one accepted call: preparing any valid 1.0 generation under the selected 1.0 one's identity. */
  lemma PreparingOverTheSelectedBricks(s: Sys, g: Generation, power: nat)
    requires Inv(s) && Intact(s) && s.disk.transition.None? && power >= 1
    requires Last(s.log).u.schema.V1? && g.u.schema.V1? && g.u.id == Last(s.log).u.id
    requires Valid(g) && !Committedly(g.u.status)
    ensures Prepare(s.disk, g, power).1.Done? && Bricked(Next(s, PrepareStep(g, power)))
  {
    LogEntry(s.log, |s.log| - 1);
    assert Load(s.disk, g.u.id).Ok?;
    hide LogOk, FilesOk, Valid;
  }

  // ----- exactly when the selected generation stays readable ------------------------------------

  /** The accepted call that overwrites it: a valid, uncommitted 1.0 generation under the selected identity. */
  predicate Overwrites(s: Sys, action: Action) {
    && action.PrepareStep? && action.power >= 1 && s.disk.transition.None? && s.log != []
    && Last(s.log).u.schema.V1? && action.generation.u.schema.V1? && action.generation.u.id == Last(s.log).u.id
    && Valid(action.generation) && !Committedly(action.generation.u.status)
  }

  lemma PrepareIntact(s: Sys, g: Generation, power: nat)
    requires Inv(s) && Intact(s)
    ensures Intact(Next(s, PrepareStep(g, power))) <==> !Overwrites(s, PrepareStep(g, power))
  {
    var last := Last(s.log);
    LogEntry(s.log, |s.log| - 1);
    hide LogOk;
    if s.disk.transition.None? {
      assert s.disk.gens[last.u.id] == last && Load(s.disk, last.u.id).Ok?;
    }
    hide Valid, FilesOk, MetadataOk;
    var next := Next(s, PrepareStep(g, power));
    assert next.disk == s.disk || next.disk == s.disk.(gens := s.disk.gens[g.u.id := g]);
  }

  lemma RecoveryKeepsIntact(s: Sys, power: nat)
    requires Intact(s)
    ensures Intact(s.(disk := Recovered(s.disk, power)))
  {
    InterruptionsDoNotMatter(s.disk, [power]);
    assert Interrupted(s.disk, [power]) == Interrupted(Recovered(s.disk, power), []) == Recovered(s.disk, power);
    hide Replayed;
  }

  /** A durable activation selects what it has just written. */
  lemma CommitIsIntact(s: Sys, g: Generation, left: nat)
    requires s.disk.transition.None? && left >= 1
    ensures Intact(Sys(Committed(s.disk, TransitionTo(g), left), s.log + [g]))
  {
    CommitIsAllOrNothing(s.disk, TransitionTo(g), left, []);
    assert Interrupted(Committed(s.disk, TransitionTo(g), left), []) == Committed(s.disk, TransitionTo(g), left);
    hide Committed, Replayed;
  }

  lemma ActivateIntact(s: Sys, id: nat, signature: Option<Signature>, power: nat)
    requires Inv(s) && Intact(s)
    ensures Intact(Next(s, ActivateStep(id, signature, power)))
  {
    hide Inv, CutoverError, Valid, Replayed, Intact, Load;
    RecoveryKeepsIntact(s, power);
    RecoveryKeepsIntact(s, 4);
    SettledHasNoTransition(s.disk);
    if Load(s.disk, id).Ok? && Durable(s.disk, id, signature, power).Some? {
      CommitIsIntact(s.(disk := Settled(s.disk)), Durable(s.disk, id, signature, power).value,
                     PowerLeft(s.disk, power));
    } else {
      assert s.log + [] == s.log;
    }
  }

  /** One step makes an intact selection unreadable if and only if it is such a preparation. */
  lemma IntactStep(s: Sys, action: Action)
    requires Inv(s) && Intact(s)
    ensures Intact(Next(s, action)) <==> !Overwrites(s, action)
  {
    hide Inv, Intact, Activate, Valid;
    match action {
      case PrepareStep(g, power) => PrepareIntact(s, g, power);
      case ActivateStep(id, signature, power) => ActivateIntact(s, id, signature, power);
      case ActiveStep(power) =>
        RecoveryKeepsIntact(s, power);
        RecoveryKeepsIntact(s, 4);
    }
  }

  predicate NeverOverwrites(s: Sys, actions: seq<Action>)
    decreases |actions|
  {
    actions == [] || (!Overwrites(s, actions[0]) && NeverOverwrites(Next(s, actions[0]), actions[1..]))
  }

  /** Over every run: the selected generation is still readable at the end if and only if no step overwrote one. */
  lemma {:induction false} ReadableExactly(s: Sys, actions: seq<Action>)
    requires Inv(s) && Intact(s)
    ensures Intact(Run(s, actions)) <==> NeverOverwrites(s, actions)
    decreases |actions|
  {
    hide Inv, Intact, Next, Overwrites;
    if actions != [] {
      var next := Next(s, actions[0]);
      StepKeepsInv(s, actions[0]);
      IntactStep(s, actions[0]);
      if Intact(next) {
        ReadableExactly(next, actions[1..]);
      } else {
        LostStaysLost(s, actions[0], actions[1..]);
      }
    }
  }

  lemma LostStaysLost(s: Sys, action: Action, actions: seq<Action>)
    requires Inv(s) && Inv(Next(s, action)) && Intact(s) && !Intact(Next(s, action))
    ensures !Intact(Run(Next(s, action), actions))
  {
    hide Inv, Run;
    assert Bricked(Next(s, action));
    hide Intact, Next;
    BrickedRun(Next(s, action), actions);
    NotIntact(Run(Next(s, action), actions));
  }

  lemma {:induction false} BrickedRun(s: Sys, actions: seq<Action>)
    requires Inv(s) && Bricked(s)
    ensures Bricked(Run(s, actions))
    decreases |actions|
  {
    hide Inv, Bricked, Next;
    if actions != [] {
      StepKeepsInv(s, actions[0]);
      BrickedStep(s, actions[0]);
      BrickedRun(Next(s, actions[0]), actions[1..]);
    }
  }
}
