/** The store as an object whose files are updated one durable write at a time. */
module AuthorityStore {
  import opened Wrappers
  import opened AuthorityDisk

  /** What a scan of the generation files may report, depending on the order in which they are listed. */
  predicate FloorError(d: Disk, e: Error) {
    if d.floor.Some? && d.floor.value < 0 then e == Invalid
    else
      || (exists id | id in d.gens :: Load(d, id) == Err(e))
      || (d.floor.None? && e == FloorMissing
          && exists id | id in d.gens :: Load(d, id).Ok? && Committedly(d.gens[id].u.status))
      || (d.floor.Some? && e == FloorDowngraded && FloorOf(d) == Err(e))
  }

  /** The same outcome, except that a refused floor may be reported by another of the files at fault. */
  predicate SameOutcome<T(==)>(d: Disk, a: Outcome<T>, b: Outcome<T>) {
    a == b || (FloorOf(d).Err? && b == Refused(FloorOf(d).error) && a.Refused? && FloorError(d, a.error))
  }

  lemma SettledOnce(d: Disk)
    ensures Settled(d).transition.None? && Settled(Settled(d)) == Settled(d)
    ensures d.transition.None? ==> Settled(d) == d
    ensures forall power: nat | Survives(d, power) :: Recovered(d, power) == Settled(d)
  {
  }

  class AuthorityGenerationStore {
    var gens: map<nat, Generation>
    var selector: Option<Selector>
    var floor: Option<int>
    var transition: Option<Transition>
    var power: nat            // durable writes left before the process dies

    ghost function Contents(): Disk
      reads this
    {
      Disk(gens, selector, floor, transition)
    }

    constructor (power: nat)
      ensures Contents() == Disk(map[], None, None, None) && this.power == power
    {
      gens, selector, floor, transition := map[], None, None, None;
      this.power := power;
    }

    /** One atomic write: it happens whole, or the process died before it. */
    method Spend() returns (alive: bool)
      modifies `power
      ensures alive <==> old(power) > 0
      ensures power == if old(power) > 0 then old(power) - 1 else 0
    {
      alive := power > 0;
      if alive {
        power := power - 1;
      }
    }

    /** The four writes shared by commit and recovery. */
    method Replay(t: Transition) returns (alive: bool)
      modifies this
      ensures Contents() == Replayed(old(Contents()), t, old(power))
      ensures alive <==> old(power) >= 4
      ensures power == if old(power) >= 4 then old(power) - 4 else 0
    {
      alive := Spend();
      if !alive { return; }
      gens := gens[t.generation.u.id := t.generation];
      alive := Spend();
      if !alive { return; }
      selector := Some(t.selector);
      alive := Spend();
      if !alive { return; }
      floor := Some(t.floor);
      alive := Spend();
      if !alive { return; }
      transition := None;
    }

    method CommitMetadata(t: Transition) returns (alive: bool)
      modifies this
      ensures Contents() == Committed(old(Contents()), t, old(power))
      ensures alive <==> old(power) >= 5
    {
      alive := Spend();
      if !alive { return; }
      transition := Some(t);
      alive := Replay(t);
    }

    method RecoverMetadata() returns (alive: bool)
      modifies this
      ensures Contents() == Recovered(old(Contents()), old(power))
      ensures alive <==> Survives(old(Contents()), old(power))
      ensures alive ==> power == PowerLeft(old(Contents()), old(power)) && Contents() == Settled(old(Contents()))
    {
      if transition.None? {
        return true;
      }
      alive := Replay(transition.value);
    }

    method LoadGeneration(id: nat) returns (r: Result<Generation, Error>)
      ensures r == Load(Contents(), id)
    {
      if id == 0 {
        return Err(BadIdentity);
      }
      if id !in gens {
        return Err(Unavailable);
      }
      var g := gens[id];
      if g.u.id != id {
        return Err(BadIdentity);
      }
      return if Valid(g) then Ok(g) else Err(Invalid);
    }

    /** The highest committed number among the generation files, in whatever order they are listed. */
    method HighestCommitted() returns (r: Result<int, Error>)
      requires floor.Some? ==> floor.value >= 0
      ensures r.Err? ==> FloorError(Contents(), r.error) && FloorOf(Contents()).Err?
      ensures r.Ok? ==>
                && (forall id | id in gens :: Load(Contents(), id).Ok?)
                && (forall id | id in gens && Committedly(gens[id].u.status) ::
                      floor.Some? && gens[id].u.number <= r.value)
                && (r.value == 0 || (floor.Some? && exists id ::
                                       id in gens && Committedly(gens[id].u.status) && gens[id].u.number == r.value))
    {
      hide Valid;
      var todo := gens.Keys;
      var highest := 0;
      while todo != {}
        invariant todo <= gens.Keys
        invariant forall id | id in gens.Keys - todo :: Load(Contents(), id).Ok?
        invariant forall id | id in gens.Keys - todo && Committedly(gens[id].u.status) ::
                    floor.Some? && gens[id].u.number <= highest
        invariant highest == 0 || (floor.Some? && exists id ::
                                     id in gens && Committedly(gens[id].u.status) && gens[id].u.number == highest)
        decreases |todo|
      {
        var id :| id in todo;
        todo := todo - {id};
        var saved := LoadGeneration(id);
        if saved.Err? {
          return Err(saved.error);
        }
        if Committedly(saved.value.u.status) {
          if floor.None? {
            return Err(FloorMissing);
          }
          if saved.value.u.number > highest {
            highest := saved.value.u.number;
          }
        }
      }
      return Ok(highest);
    }

    /** Hold the stored floor against every generation file. */
    method CheckedFloor() returns (r: Result<int, Error>)
      ensures r.Ok? <==> FloorOf(Contents()).Ok?
      ensures if r.Ok? then r == FloorOf(Contents()) else FloorError(Contents(), r.error)
    {
      hide Load;
      if floor.Some? && floor.value < 0 {
        return Err(Invalid);
      }
      var highest := HighestCommitted();
      if highest.Err? {
        return highest;
      }
      if floor.None? {
        return Ok(0);
      }
      return if floor.value < highest.value then Err(FloorDowngraded) else Ok(floor.value);
    }

    method Floor() returns (outcome: Outcome<int>)
      modifies this
      ensures Contents() == Recovered(old(Contents()), old(power))
      ensures SameOutcome(Contents(), outcome, if !Survives(old(Contents()), old(power)) then Crashed
                                               else match FloorOf(Settled(old(Contents())))
                                                    case Ok(n) => Done(n)
                                                    case Err(e) => Refused(e))
      ensures !outcome.Crashed? ==> power == PowerLeft(old(Contents()), old(power))
    {
      var alive := RecoverMetadata();
      if !alive {
        return Crashed;
      }
      var checked := CheckedFloor();
      return if checked.Ok? then Done(checked.value) else Refused(checked.error);
    }

    method SavePrepared(g: Generation) returns (outcome: Outcome<()>)
      modifies this
      ensures (Contents(), outcome) == Prepare(old(Contents()), g, old(power))
    {
      if !Valid(g) {
        return Refused(Invalid);
      }
      if Committedly(g.u.status) {
        return Refused(NotPreparable);
      }
      if g.u.id == 0 {
        return Refused(BadIdentity);
      }
      if g.u.id in gens {
        var previous := LoadGeneration(g.u.id);
        if previous.Err? {
          return Refused(previous.error);
        }
        if g.u.schema.V2? || previous.value.u.schema.V2? {
          return if previous.value == g then Done(()) else Refused(CannotOverwrite);
        }
      }
      var alive := Spend();
      if !alive {
        return Crashed;
      }
      gens := gens[g.u.id := g];
      return Done(());
    }

    method GetActive() returns (outcome: Outcome<Generation>)
      modifies this
      ensures Contents() == Active(old(Contents()), old(power)).0
      ensures SameOutcome(Contents(), outcome, Active(old(Contents()), old(power)).1)
      ensures !outcome.Crashed? ==> power == PowerLeft(old(Contents()), old(power))
    {
      var alive := RecoverMetadata();
      if !alive {
        return Crashed;
      }
      if selector.None? {
        return Refused(SelectorMissing);
      }
      var loaded := LoadGeneration(selector.value.id);
      if loaded.Err? {
        return Refused(loaded.error);
      }
      var g := loaded.value;
      if g.manifest != selector.value.manifest {
        return Refused(HashMismatch);
      }
      var checked := Floor();
      if checked.Refused? {
        return Refused(checked.error);
      }
      if g.u.number < checked.value {
        return Refused(BelowFloor);
      }
      return if g.u.status.ACTIVE? then Done(g) else Refused(NotReady);
    }

    method Activation(id: nat, signature: Option<Signature>) returns (outcome: Outcome<Generation>)
      modifies this
      ensures Contents() == Activate(old(Contents()), id, signature, old(power)).0
      ensures SameOutcome(Settled(old(Contents())), outcome, Activate(old(Contents()), id, signature, old(power)).1)
    {
      hide FloorOf, ActiveOf, Load, Valid, Replayed;
      SettledOnce(Contents());
      var loaded := LoadGeneration(id);
      if loaded.Err? {
        return Refused(loaded.error);
      }
      var g := loaded.value;
      if !g.u.status.VERIFIED? {
        return Refused(NotReady);
      }
      var checked := Floor();
      if !checked.Done? {
        return if checked.Crashed? then Crashed else Refused(checked.error);
      }
      if g.u.number <= checked.value {
        return Refused(Error.Replay);
      }
      if selector.Some? {
        var selected := GetActive();
        if selected.Refused? {
          return Refused(selected.error);
        }
        if selected.value.u.schema.V2? && g.u.schema.V1? {
          return Refused(LegacyCutover);
        }
      }
      if g.u.schema.V2? && g.u.predecessor.Some? {
        var previous := GetActive();
        if previous.Refused? {
          return Refused(previous.error);
        }
        if g.u.predecessor != Some(previous.value.u.id) || g.u.predecessorHash != Some(previous.value.manifest) {
          return Refused(PredecessorChanged);
        }
      }
      var active := Activated(g, signature);
      if !Valid(active) {
        return Refused(Invalid);
      }
      var alive := CommitMetadata(TransitionTo(active));
      return if alive then Done(active) else Crashed;
    }
  }
}
