/**
 One project's authority files, the write-ahead commit of three of them, and the
 owner's operations as functions of the disk. `power` counts the durable writes
 a process makes before it crashes; enough power means it does not crash.
 Hashes are injective, so a hash is modelled by what it covers.
*/
module AuthorityDisk {
  import opened Wrappers

  datatype Schema = V1 | V2

  datatype Status = PREPARING | PREPARED | VERIFIED | ACTIVE | SUPERSEDED

  /** The signed part. `id` is the N of `generation-N`; `sound` stands for the component and field checks. */
  datatype Unsigned = Unsigned(id: nat, schema: Schema, status: Status, number: int,
                               predecessor: Option<nat>, predecessorHash: Option<Hash>,
                               body: string, sound: bool)

  datatype Hash = HashOf(content: Unsigned) | OtherHash(tag: nat)

  datatype Signature = SignedOver(content: Unsigned) | Unverifiable(tag: nat)

  datatype Generation = Generation(u: Unsigned, manifest: Hash, signature: Signature)

  datatype Selector = Selector(id: nat, manifest: Hash)

  datatype Transition = Transition(generation: Generation, selector: Selector, floor: int)

  datatype Disk = Disk(gens: map<nat, Generation>, selector: Option<Selector>, floor: Option<int>,
                       transition: Option<Transition>)

  datatype Error =
    | BadIdentity | Invalid | Unavailable | NotReady | Replay | LegacyCutover | PredecessorChanged
    | SelectorMissing | HashMismatch | BelowFloor | FloorMissing | FloorDowngraded
    | NotPreparable | CannotOverwrite

  datatype Outcome<+T> = Done(value: T) | Refused(error: Error) | Crashed

  predicate Valid(g: Generation) {
    && g.u.number >= 1
    && (g.u.predecessor.Some? ==> g.u.predecessorHash.Some?)
    && g.manifest == HashOf(g.u)
    && g.signature == SignedOver(g.u)
    && g.u.sound
  }

  // ----- the write-ahead commit ---------------------------------------------------

  /** The disk after the first `k` of the four replay writes: generation, selector, floor, unlink. */
  function Replayed(d: Disk, t: Transition, k: nat): Disk {
    var d1 := if k >= 1 then d.(gens := d.gens[t.generation.u.id := t.generation]) else d;
    var d2 := if k >= 2 then d1.(selector := Some(t.selector)) else d1;
    var d3 := if k >= 3 then d2.(floor := Some(t.floor)) else d2;
    if k >= 4 then d3.(transition := None) else d3
  }

  /** Committing: the transition record first, then the same four writes. */
  function Committed(d: Disk, t: Transition, power: nat): Disk {
    if power == 0 then d else Replayed(d.(transition := Some(t)), t, power - 1)
  }

  function Recovered(d: Disk, power: nat): Disk {
    if d.transition.None? then d else Replayed(d, d.transition.value, power)
  }

  predicate Survives(d: Disk, power: nat) { d.transition.None? || power >= 4 }

  function PowerLeft(d: Disk, power: nat): nat
    requires Survives(d, power)
  {
    if d.transition.None? then power else power - 4
  }

  /** What the next completed recovery will find. */
  function Settled(d: Disk): Disk { Recovered(d, 4) }

  /** Recoveries that were each cut short after some number of writes. */
  function Interrupted(d: Disk, powers: seq<nat>): Disk
    decreases |powers|
  {
    if powers == [] then d else Interrupted(Recovered(d, powers[0]), powers[1..])
  }

  lemma {:induction false} InterruptionsDoNotMatter(d: Disk, powers: seq<nat>)
    ensures Settled(Interrupted(d, powers)) == Settled(d)
    decreases |powers|
  {
    if powers != [] {
      var d' := Recovered(d, powers[0]);
      if d.transition.Some? && d'.transition.Some? {
        assert d'.gens[d.transition.value.generation.u.id := d.transition.value.generation]
               == d.gens[d.transition.value.generation.u.id := d.transition.value.generation];
      }
      InterruptionsDoNotMatter(d', powers[1..]);
    }
  }

  /**
   All or nothing: whatever write the commit crashes after, and however often recovery is cut
   short, the next completed recovery leaves exactly the old files or exactly the new ones.
  */
  lemma CommitIsAllOrNothing(d: Disk, t: Transition, power: nat, powers: seq<nat>)
    requires d.transition.None?
    ensures var after := Settled(Interrupted(Committed(d, t, power), powers));
            after == if power == 0 then d
                     else Disk(d.gens[t.generation.u.id := t.generation], Some(t.selector), Some(t.floor), None)
  {
    var d' := Committed(d, t, power);
    InterruptionsDoNotMatter(d', powers);
    if power >= 1 && d'.transition.Some? {
      assert d'.gens[t.generation.u.id := t.generation] == d.gens[t.generation.u.id := t.generation];
    }
  }

  // ----- the store's operations ------------------------------------------------------

  function Load(d: Disk, id: nat): Result<Generation, Error> {
    if id == 0 then Err(BadIdentity)
    else if id !in d.gens then Err(Unavailable)
    else if d.gens[id].u.id != id then Err(BadIdentity)
    else if !Valid(d.gens[id]) then Err(Invalid)
    else Ok(d.gens[id])
  }

  predicate Committedly(s: Status) { s.ACTIVE? || s.SUPERSEDED? }

  /** The floor as read from a recovered disk, after checking every generation file against it. */
  function FloorOf(d: Disk): Result<int, Error> {
    if exists id | id in d.gens :: Load(d, id).Err? then Err(Invalid)
    else if d.floor.None? then
      if exists id | id in d.gens :: Committedly(d.gens[id].u.status) then Err(FloorMissing) else Ok(0)
    else if d.floor.value < 0 then Err(Invalid)
    else if exists id | id in d.gens :: Committedly(d.gens[id].u.status) && d.floor.value < d.gens[id].u.number
      then Err(FloorDowngraded)
    else Ok(d.floor.value)
  }

  /** The selected generation as read from a recovered disk. */
  function ActiveOf(d: Disk): Result<Generation, Error> {
    if d.selector.None? then Err(SelectorMissing)
    else
      match Load(d, d.selector.value.id)
      case Err(e) => Err(e)
      case Ok(g) =>
        if g.manifest != d.selector.value.manifest then Err(HashMismatch)
        else
          match FloorOf(d)
          case Err(e) => Err(e)
          case Ok(floor) =>
            if g.u.number < floor then Err(BelowFloor)
            else if !g.u.status.ACTIVE? then Err(NotReady)
            else Ok(g)
  }

  function Active(d: Disk, power: nat): (Disk, Outcome<Generation>) {
    if !Survives(d, power) then (Recovered(d, power), Crashed)
    else
      match ActiveOf(Settled(d))
      case Ok(g) => (Settled(d), Done(g))
      case Err(e) => (Settled(d), Refused(e))
  }

  function Prepare(d: Disk, g: Generation, power: nat): (Disk, Outcome<()>) {
    if !Valid(g) then (d, Refused(Invalid))
    else if Committedly(g.u.status) then (d, Refused(NotPreparable))
    else if g.u.id == 0 then (d, Refused(BadIdentity))
    else if g.u.id in d.gens && Load(d, g.u.id).Err? then (d, Refused(Load(d, g.u.id).error))
    else if g.u.id in d.gens && (g.u.schema.V2? || d.gens[g.u.id].u.schema.V2?) then
      (d, if d.gens[g.u.id] == g then Done(()) else Refused(CannotOverwrite))
    else if power == 0 then (d, Crashed)
    else (d.(gens := d.gens[g.u.id := g]), Done(()))
  }

  /** The generation rebuilt with status ACTIVE, and the transition that installs it. */
  function Activated(g: Generation, signature: Option<Signature>): Generation {
    var u := g.u.(status := ACTIVE);
    Generation(u, HashOf(u), if signature.Some? then signature.value else g.signature)
  }

  function TransitionTo(active: Generation): Transition {
    Transition(active, Selector(active.u.id, active.manifest), active.u.number)
  }

  /** The cutover checks on a recovered disk, for a generation loaded before the recovery. */
  function CutoverError(d: Disk, g: Generation, signature: Option<Signature>): Option<Error> {
    match FloorOf(d)
    case Err(e) => Some(e)
    case Ok(floor) =>
      if g.u.number <= floor then Some(Replay)
      else if d.selector.Some? && ActiveOf(d).Err? then Some(ActiveOf(d).error)
      else if d.selector.Some? && ActiveOf(d).value.u.schema.V2? && g.u.schema.V1? then Some(LegacyCutover)
      else if g.u.schema.V2? && g.u.predecessor.Some? && ActiveOf(d).Err? then Some(ActiveOf(d).error)
      else if g.u.schema.V2? && g.u.predecessor.Some?
              && (g.u.predecessor != Some(ActiveOf(d).value.u.id)
                  || g.u.predecessorHash != Some(ActiveOf(d).value.manifest)) then Some(PredecessorChanged)
      else if !Valid(Activated(g, signature)) then Some(Invalid)
      else None
  }

  function Activate(d: Disk, id: nat, signature: Option<Signature>, power: nat): (Disk, Outcome<Generation>) {
    match Load(d, id)
    case Err(e) => (d, Refused(e))
    case Ok(g) =>
      if !g.u.status.VERIFIED? then (d, Refused(NotReady))
      else if !Survives(d, power) then (Recovered(d, power), Crashed)
      else if CutoverError(Settled(d), g, signature).Some? then
        (Settled(d), Refused(CutoverError(Settled(d), g, signature).value))
      else
        var active := Activated(g, signature);
        var left := PowerLeft(d, power);
        (Committed(Settled(d), TransitionTo(active), left), if left >= 5 then Done(active) else Crashed)
  }
}
