/** Tombstones for capability evidence: recording, invalidation, use, and the serialised round trip. */
module CapabilityInvalidation {
  import opened Wrappers

  datatype Key = Key(project: string, provider: string, profileId: string)

  /** The profile hash covers the whole profile and is injective. */
  datatype Hash = HashOf(key: Key, version: int, body: nat, observedAt: int,
      expiresAt: Option<int>) | OtherHash(tag: nat)

  datatype Profile = Profile(key: Key, version: int, body: nat, observedAt: int, expiresAt: Option<int>, sha: Hash)

  datatype Evidence = Evidence(profile: Profile, providerState: nat, health: int, recordedAt: int)

  datatype Reason = STALE | PROVIDER_UPGRADE | HEALTH_CHANGE | CONFLICT | CROSS_PROJECT | REPLAY | SUPERSEDED

  datatype Tombstone = Tombstone(key: Key, sha: Hash, reason: Reason, at: int)

  datatype Error = Invalid | Resurrected | Conflicting | NotAdvancing | WrongProject | HashDiffers | Invalidated | Stale
                 | ProviderChanged | HealthChanged

  datatype State = State(records: map<Key, Evidence>, dead: map<Hash, Tombstone>)

  predicate StaleAt(p: Profile, now: int) { p.expiresAt.Some? && now >= p.expiresAt.value }

  predicate KeyValid(k: Key) { "project-" <= k.project && k.provider != "" && k.profileId != "" }

  predicate ProfileValid(p: Profile) {
    && KeyValid(p.key) && p.version >= 1 && (p.expiresAt.Some? ==> p.expiresAt.value > p.observedAt)
    && p.sha == HashOf(p.key, p.version, p.body, p.observedAt, p.expiresAt)
  }

  predicate Valid(e: Evidence) {
    ProfileValid(e.profile) && e.health >= 0 && !StaleAt(e.profile, e.recordedAt)
  }

  // ----- the operations as functions of the state ------------------------------------------

  function Buried(s: State, p: Profile, reason: Reason, at: int): State {
    s.(dead := s.dead[p.sha := Tombstone(p.key, p.sha, reason, at)])
  }

  function Recording(s: State, e: Evidence): (State, Result<(), Error>) {
    var p := e.profile;
    if !Valid(e) then (s, Err(Invalid))
    else if p.sha in s.dead then (s, Err(Resurrected))
    else if p.key in s.records && p.version <= s.records[p.key].profile.version then
      if p.sha != s.records[p.key].profile.sha then (Buried(s, p, CONFLICT, e.recordedAt), Err(Conflicting))
      else (s, Err(NotAdvancing))
    else
      var after := if p.key in s.records then Buried(s, s.records[p.key].profile, SUPERSEDED, e.recordedAt) else s;
      (after.(records := after.records[p.key := e]), Ok(()))
  }

  function Invalidating(s: State, e: Evidence, reason: Reason, at: int): (State, Result<(), Error>) {
    if !Valid(e) then (s, Err(Invalid)) else (Buried(s, e.profile, reason, at), Ok(()))
  }

  predicate Outdated(e: Evidence, provider: string, providerState: nat) {
    e.profile.key.provider == provider && e.providerState != providerState
  }

  function Using(s: State, e: Evidence, project: string, providerState: nat, health: int, now: int)
    : (State, Result<(), Error>)
  {
    if !Valid(e) then (s, Err(Invalid))
    else if e.profile.key.project != project then (s, Err(WrongProject))
    else if e.profile.sha in s.dead then (s, Err(Invalidated))
    else if StaleAt(e.profile, now) then (Buried(s, e.profile, STALE, now), Err(Stale))
    else if e.providerState != providerState then (Buried(s, e.profile, PROVIDER_UPGRADE, now), Err(ProviderChanged))
    else if e.health != health then (Buried(s, e.profile, HEALTH_CHANGE, now), Err(HealthChanged))
    else (s, Ok(()))
  }

  /** The hashes of the outdated records filed under `keys`. */
  function OutdatedHashes(records: map<Key, Evidence>, keys: set<Key>, provider: string, providerState: nat): set<Hash>
    requires keys <= records.Keys
  {
    set k | k in keys && Outdated(records[k], provider, providerState) :: records[k].profile.sha
  }

  lemma NoneOutdated(records: map<Key, Evidence>, provider: string, providerState: nat)
    ensures OutdatedHashes(records, {}, provider, providerState) == {}
  {
  }

  lemma OneMoreOutdated(records: map<Key, Evidence>, keys: set<Key>, key: Key, provider: string, providerState: nat)
    requires keys <= records.Keys && key in records
    ensures OutdatedHashes(records, keys + {key}, provider, providerState)
            == OutdatedHashes(records, keys, provider, providerState)
               + if Outdated(records[key], provider, providerState) then {records[key].profile.sha} else {}
  {
  }

  /** `after` is `before` with exactly these hashes buried, for this reason and at this time. */
  predicate Grown(before: map<Hash, Tombstone>, after: map<Hash, Tombstone>, added: set<Hash>,
                  reason: Reason, at: int)
  {
    && after.Keys == before.Keys + added
    && (forall h | h in added :: h.HashOf? && after[h] == Tombstone(h.key, h, reason, at))
    && (forall h | h in before && h !in added :: after[h] == before[h])
  }

  lemma GrownTwice(a: map<Hash, Tombstone>, b: map<Hash, Tombstone>, c: map<Hash, Tombstone>,
                   x: set<Hash>, y: set<Hash>, reason: Reason, at: int)
    requires Grown(a, b, x, reason, at) && Grown(b, c, y, reason, at)
    ensures Grown(a, c, x + y, reason, at)
  {
  }

  lemma GrownByNothing(a: map<Hash, Tombstone>, reason: Reason, at: int)
    ensures Grown(a, a, {}, reason, at)
  {
  }

  // ----- the store ----------------------------------------------------------------------------

  class CapabilityInvalidator {
    var records: map<Key, Evidence>
    var invalidated: map<Hash, Tombstone>

    ghost function Contents(): State
      reads this
    {
      State(records, invalidated)
    }

    /** Every entry is filed under its own key, which is what makes the state restorable. */
    ghost predicate Filed()
      reads this
    {
      WellFiled(Contents())
    }

    constructor ()
      ensures Contents() == State(map[], map[]) && Filed()
    {
      records, invalidated := map[], map[];
    }

    method Invalidate(e: Evidence, reason: Reason, at: int) returns (r: Result<(), Error>)
      modifies this`invalidated
      ensures (Contents(), r) == Invalidating(old(Contents()), e, reason, at)
    {
      if !Valid(e) {
        return Err(Invalid);
      }
      invalidated := invalidated[e.profile.sha := Tombstone(e.profile.key, e.profile.sha, reason, at)];
      return Ok(());
    }

    method Record(e: Evidence) returns (r: Result<(), Error>)
      requires Filed()
      modifies this
      ensures (Contents(), r) == Recording(old(Contents()), e) && Filed()
    {
      var p := e.profile;
      if !Valid(e) {
        return Err(Invalid);
      }
      if p.sha in invalidated {
        return Err(Resurrected);
      }
      if p.key in records && p.version <= records[p.key].profile.version {
        if p.sha != records[p.key].profile.sha {
          invalidated := invalidated[p.sha := Tombstone(p.key, p.sha, CONFLICT, e.recordedAt)];
          return Err(Conflicting);
        }
        return Err(NotAdvancing);
      }
      if p.key in records {
        var buried := Invalidate(records[p.key], SUPERSEDED, e.recordedAt);
      }
      records := records[p.key := e];
      return Ok(());
    }

    method InvalidateIfOutdated(e: Evidence, provider: string, providerState: nat, at: int, reason: Reason)
      requires Valid(e) && TombstonesFiled(invalidated)
      modifies this`invalidated
      ensures TombstonesFiled(invalidated)
      ensures Grown(old(invalidated), invalidated,
                    if Outdated(e, provider, providerState) then {e.profile.sha} else {}, reason, at)
    {
      if Outdated(e, provider, providerState) {
        var buried := Invalidate(e, reason, at);
      }
    }

    /** Every recorded profile of the provider under another provider state is buried, and nothing else. */
    method InvalidateProvider(provider: string, providerState: nat, at: int, reason: Reason)
      requires Filed()
      modifies this`invalidated
      ensures Filed()
      ensures Grown(old(invalidated), invalidated,
                    OutdatedHashes(records, records.Keys, provider, providerState), reason, at)
    {
      hide OutdatedHashes, TombstonesFiled, RecordsFiled, Valid, Outdated, Grown;
      var recorded := records;
      var todo := recorded.Keys;
      ghost var done: set<Key> := {};
      NoneOutdated(recorded, provider, providerState);
      GrownByNothing(invalidated, reason, at);
      while todo != {}
        invariant todo + done == recorded.Keys && RecordsFiled(recorded) && TombstonesFiled(invalidated)
        invariant Grown(old(invalidated), invalidated,
                        OutdatedHashes(recorded, done, provider, providerState), reason, at)
        decreases |todo|
      {
        var key :| key in todo;
        RecordedIsValid(recorded, key);
        ghost var before := invalidated;
        InvalidateIfOutdated(recorded[key], provider, providerState, at, reason);
        GrownTwice(old(invalidated), before, invalidated, OutdatedHashes(recorded, done, provider, providerState),
                   if Outdated(recorded[key], provider, providerState) then {recorded[key].profile.sha} else {},
                   reason, at);
        OneMoreOutdated(recorded, done, key, provider, providerState);
        done := done + {key};
        todo := todo - {key};
        assert todo + done == recorded.Keys;
      }
      assert done == recorded.Keys;
    }

    method Eligible(e: Evidence, project: string, providerState: nat, health: int,
                    now: int) returns (r: Result<(), Error>)
      requires Filed()
      modifies this`invalidated
      ensures (Contents(), r) == Using(old(Contents()), e, project, providerState, health, now) && Filed()
    {
      if !Valid(e) {
        return Err(Invalid);
      }
      if e.profile.key.project != project {
        return Err(WrongProject);
      }
      if e.profile.sha in invalidated {
        return Err(Invalidated);
      }
      if StaleAt(e.profile, now) {
        var buried := Invalidate(e, STALE, now);
        return Err(Stale);
      }
      if e.providerState != providerState {
        var buried := Invalidate(e, PROVIDER_UPGRADE, now);
        return Err(ProviderChanged);
      }
      if e.health != health {
        var buried := Invalidate(e, HEALTH_CHANGE, now);
        return Err(HealthChanged);
      }
      return Ok(());
    }

    method ListRecords() returns (evidence: seq<Evidence>)
      requires RecordsFiled(records)
      ensures ListsRecords(evidence, records)
    {
      hide Valid;
      evidence := [];
      var todo := records.Keys;
      while todo != {}
        invariant todo <= records.Keys
        invariant forall i | 0 <= i < |evidence| ::
                    evidence[i].profile.key in records.Keys && records[evidence[i].profile.key] == evidence[i]
        invariant forall k | k in records.Keys - todo :: records[k] in evidence
        decreases |todo|
      {
        var key :| key in todo;
        todo := todo - {key};
        evidence := evidence + [records[key]];
      }
    }

    method ListTombstones() returns (tombstones: seq<Tombstone>)
      requires TombstonesFiled(invalidated)
      ensures ListsTombstones(tombstones, invalidated)
    {
      hide KeyValid;
      tombstones := [];
      var todo := invalidated.Keys;
      while todo != {}
        invariant todo <= invalidated.Keys
        invariant forall i | 0 <= i < |tombstones| ::
                    tombstones[i].sha in invalidated.Keys && invalidated[tombstones[i].sha] == tombstones[i]
        invariant forall h | h in invalidated.Keys - todo :: invalidated[h] in tombstones
        decreases |todo|
      {
        var h :| h in todo;
        todo := todo - {h};
        tombstones := tombstones + [invalidated[h]];
      }
    }

    /** Both maps, every entry and no other, in some order. */
    method ExportState() returns (exported: Exported)
      requires Filed()
      ensures exported.hash == exported.payload && Lists(exported.payload, Contents())
    {
      hide RecordsFiled, TombstonesFiled, ListsRecords, ListsTombstones;
      var evidence := ListRecords();
      var tombstones := ListTombstones();
      var payload := Payload(evidence, tombstones);
      return Exported(payload, payload);
    }

    static method ReadRecords(evidence: seq<Evidence>) returns (read: Option<map<Key, Evidence>>)
      ensures read.Some? <==> forall i | 0 <= i < |evidence| :: Valid(evidence[i])
      ensures read.Some? ==> read.value == RestoredRecords(evidence)
    {
      hide Valid;
      var records: map<Key, Evidence> := map[];
      for i := 0 to |evidence|
        invariant records == RestoredRecords(evidence[..i])
        invariant forall j | 0 <= j < i :: Valid(evidence[j])
      {
        if !Valid(evidence[i]) {
          return None;
        }
        assert evidence[..i + 1][..i] == evidence[..i];
        records := records[evidence[i].profile.key := evidence[i]];
      }
      assert evidence[..|evidence|] == evidence;
      return Some(records);
    }

    static method ReadTombstones(tombstones: seq<Tombstone>) returns (read: Option<map<Hash, Tombstone>>)
      ensures read.Some? <==> forall i | 0 <= i < |tombstones| :: KeyValid(tombstones[i].key)
      ensures read.Some? ==> read.value == RestoredTombstones(tombstones)
    {
      hide KeyValid;
      var dead: map<Hash, Tombstone> := map[];
      for i := 0 to |tombstones|
        invariant dead == RestoredTombstones(tombstones[..i])
        invariant forall j | 0 <= j < i :: KeyValid(tombstones[j].key)
      {
        if !KeyValid(tombstones[i].key) {
          return None;
        }
        assert tombstones[..i + 1][..i] == tombstones[..i];
        dead := dead[tombstones[i].sha := tombstones[i]];
      }
      assert tombstones[..|tombstones|] == tombstones;
      return Some(dead);
    }

    /** Reads an exported state back into an empty store; a later entry for the same key wins. */
    static method FromState(exported: Exported) returns (r: Result<CapabilityInvalidator, Error>)
      ensures r.Ok? <==> Readable(exported)
      ensures r.Ok? ==> fresh(r.value) && r.value.Contents() == Restored(exported.payload)
    {
      if exported.hash != exported.payload {
        return Err(HashDiffers);
      }
      var records := ReadRecords(exported.payload.evidence);
      if records.None? {
        return Err(Invalid);
      }
      var tombstones := ReadTombstones(exported.payload.tombstones);
      if tombstones.None? {
        return Err(Invalid);
      }
      var store := new CapabilityInvalidator();
      store.records, store.invalidated := records.value, tombstones.value;
      return Ok(store);
    }
  }

  // ----- the round trip ---------------------------------------------------------------------------

  datatype Payload = Payload(evidence: seq<Evidence>, tombstones: seq<Tombstone>)

  /** The state hash covers the whole payload and is injective. */
  datatype Exported = Exported(payload: Payload, hash: Payload)

  /** Nothing was altered, and every entry is well formed. */
  predicate Readable(e: Exported) {
    && e.hash == e.payload
    && (forall i | 0 <= i < |e.payload.evidence| :: Valid(e.payload.evidence[i]))
    && (forall i | 0 <= i < |e.payload.tombstones| :: KeyValid(e.payload.tombstones[i].key))
  }

  predicate RecordsFiled(records: map<Key, Evidence>) {
    forall k | k in records :: records[k].profile.key == k && Valid(records[k])
  }

  lemma RecordedIsValid(records: map<Key, Evidence>, key: Key)
    requires RecordsFiled(records) && key in records
    ensures Valid(records[key])
  {
  }

  predicate TombstonesFiled(dead: map<Hash, Tombstone>) {
    forall h | h in dead :: dead[h].sha == h && KeyValid(dead[h].key)
  }

  predicate WellFiled(s: State) { RecordsFiled(s.records) && TombstonesFiled(s.dead) }

  function RestoredRecords(evidence: seq<Evidence>): map<Key, Evidence> {
    if evidence == [] then map[]
    else
      var last := evidence[|evidence| - 1];
      RestoredRecords(evidence[..|evidence| - 1])[last.profile.key := last]
  }

  function RestoredTombstones(tombstones: seq<Tombstone>): map<Hash, Tombstone> {
    if tombstones == [] then map[]
    else
      var last := tombstones[|tombstones| - 1];
      RestoredTombstones(tombstones[..|tombstones| - 1])[last.sha := last]
  }

  function Restored(e: Payload): State { State(RestoredRecords(e.evidence), RestoredTombstones(e.tombstones)) }

  ghost predicate ListsRecords(evidence: seq<Evidence>, records: map<Key, Evidence>) {
    && (forall i | 0 <= i < |evidence| ::
          evidence[i].profile.key in records && records[evidence[i].profile.key] == evidence[i])
    && (forall k | k in records :: records[k] in evidence)
  }

  ghost predicate ListsTombstones(tombstones: seq<Tombstone>, dead: map<Hash, Tombstone>) {
    && (forall i | 0 <= i < |tombstones| :: tombstones[i].sha in dead && dead[tombstones[i].sha] == tombstones[i])
    && (forall h | h in dead :: dead[h] in tombstones)
  }

  /** Exactly the entries of both maps, in any order. */
  ghost predicate Lists(e: Payload, s: State) {
    ListsRecords(e.evidence, s.records) && ListsTombstones(e.tombstones, s.dead)
  }

  lemma {:induction false} RestoresRecords(evidence: seq<Evidence>, records: map<Key, Evidence>)
    requires forall i | 0 <= i < |evidence| ::
               evidence[i].profile.key in records && records[evidence[i].profile.key] == evidence[i]
    ensures var r := RestoredRecords(evidence);
            && (forall k :: k in r <==> exists i | 0 <= i < |evidence| :: evidence[i].profile.key == k)
            && forall k | k in r :: k in records && r[k] == records[k]
  {
    if evidence != [] {
      var n := |evidence| - 1;
      RestoresRecords(evidence[..n], records);
      var earlier, r := RestoredRecords(evidence[..n]), RestoredRecords(evidence);
      assert r == earlier[evidence[n].profile.key := evidence[n]];
      forall k ensures k in r <==> exists i | 0 <= i < |evidence| :: evidence[i].profile.key == k {
        if i :| 0 <= i < |evidence| && evidence[i].profile.key == k && i < n {
          assert evidence[..n][i].profile.key == k;
        }
        if k in earlier {
          var i :| 0 <= i < n && evidence[..n][i].profile.key == k;
          assert evidence[i].profile.key == k;
        }
      }
    }
  }

  lemma {:induction false} RestoresTombstones(tombstones: seq<Tombstone>, dead: map<Hash, Tombstone>)
    requires forall i | 0 <= i < |tombstones| :: tombstones[i].sha in dead && dead[tombstones[i].sha] == tombstones[i]
    ensures var r := RestoredTombstones(tombstones);
            && (forall h :: h in r <==> exists i | 0 <= i < |tombstones| :: tombstones[i].sha == h)
            && forall h | h in r :: h in dead && r[h] == dead[h]
  {
    if tombstones != [] {
      var n := |tombstones| - 1;
      RestoresTombstones(tombstones[..n], dead);
      var earlier, r := RestoredTombstones(tombstones[..n]), RestoredTombstones(tombstones);
      assert r == earlier[tombstones[n].sha := tombstones[n]];
      forall h ensures h in r <==> exists i | 0 <= i < |tombstones| :: tombstones[i].sha == h {
        if i :| 0 <= i < |tombstones| && tombstones[i].sha == h && i < n {
          assert tombstones[..n][i].sha == h;
        }
        if h in earlier {
          var i :| 0 <= i < n && tombstones[..n][i].sha == h;
          assert tombstones[i].sha == h;
        }
      }
    }
  }

  lemma SameRecords(s: State, e: Payload)
    requires WellFiled(s) && Lists(e, s)
    ensures RestoredRecords(e.evidence) == s.records
  {
    RestoresRecords(e.evidence, s.records);
    hide RestoredRecords, Valid, RestoredTombstones;
    var r := RestoredRecords(e.evidence);
    forall k | k in s.records ensures k in r {
      var i :| 0 <= i < |e.evidence| && e.evidence[i] == s.records[k];
      assert e.evidence[i].profile.key == k;
    }
  }

  lemma SameTombstones(s: State, e: Payload)
    requires WellFiled(s) && Lists(e, s)
    ensures RestoredTombstones(e.tombstones) == s.dead
  {
    RestoresTombstones(e.tombstones, s.dead);
    hide RestoredRecords, Valid, RestoredTombstones;
    var r := RestoredTombstones(e.tombstones);
    forall h | h in s.dead ensures h in r {
      var i :| 0 <= i < |e.tombstones| && e.tombstones[i] == s.dead[h];
      assert e.tombstones[i].sha == h;
    }
  }

  /** Whatever order the entries were exported in, the export is readable and restores both maps. */
  lemma RoundTrip(s: State, e: Exported)
    requires WellFiled(s) && e.hash == e.payload && Lists(e.payload, s)
    ensures Readable(e) && Restored(e.payload) == s
  {
    SameRecords(s, e.payload);
    SameTombstones(s, e.payload);
    hide RestoredRecords, RestoredTombstones;
  }

  // ----- over every run ------------------------------------------------------------------------------

  datatype Action =
    | Record(e: Evidence)
    | Invalidate(e: Evidence, reason: Reason, at: int)
    | Use(e: Evidence, project: string, providerState: nat, health: int, now: int)

  /** `log` lists the evidence accepted by `record`, in order. */
  datatype Sys = Sys(s: State, log: seq<Evidence>)

  function Next(sys: Sys, action: Action): Sys {
    match action
    case Record(e) => Sys(Recording(sys.s, e).0, if Recording(sys.s, e).1.Ok? then sys.log + [e] else sys.log)
    case Invalidate(e, reason, at) => sys.(s := Invalidating(sys.s, e, reason, at).0)
    case Use(e, project, state, health, now) => sys.(s := Using(sys.s, e, project, state, health, now).0)
  }

  function Run(sys: Sys, actions: seq<Action>): Sys
    decreases |actions|
  {
    if actions == [] then sys else Run(Next(sys, actions[0]), actions[1..])
  }

  predicate Inv(sys: Sys) {
    && WellFiled(sys.s)
    && (forall i | 0 <= i < |sys.log| ::
          sys.log[i].profile.key in sys.s.records
          && sys.log[i].profile.version <= sys.s.records[sys.log[i].profile.key].profile.version
          && (sys.log[i] == sys.s.records[sys.log[i].profile.key] || sys.log[i].profile.sha in sys.s.dead))
    && (forall i, j | 0 <= i < j < |sys.log| && sys.log[i].profile.key == sys.log[j].profile.key ::
          sys.log[i].profile.version < sys.log[j].profile.version)
  }

  lemma BuryingKeepsInv(sys: Sys, p: Profile, reason: Reason, at: int)
    requires Inv(sys) && KeyValid(p.key)
    ensures Inv(sys.(s := Buried(sys.s, p, reason, at)))
  {
    hide Valid, KeyValid;
  }

  lemma FilingKeepsInv(sys: Sys, e: Evidence)
    requires Inv(sys) && Valid(e)
    requires e.profile.key in sys.s.records ==>
               && sys.s.records[e.profile.key].profile.version < e.profile.version
               && sys.s.records[e.profile.key].profile.sha in sys.s.dead
    ensures Inv(Sys(sys.s.(records := sys.s.records[e.profile.key := e]), sys.log + [e]))
  {
    hide Valid, KeyValid;
  }

  lemma AcceptedKeepsInv(sys: Sys, e: Evidence)
    requires Inv(sys) && Recording(sys.s, e).1.Ok?
    ensures Inv(Next(sys, Record(e))) && sys.s.dead.Keys <= Next(sys, Record(e)).s.dead.Keys
  {
    hide Inv, StaleAt;
    var p := e.profile;
    if p.key in sys.s.records {
      FiledIsValid(sys, p.key);
      var current := sys.s.records[p.key].profile;
      BuryingKeepsInv(sys, current, SUPERSEDED, e.recordedAt);
      FilingKeepsInv(sys.(s := Buried(sys.s, current, SUPERSEDED, e.recordedAt)), e);
    } else {
      FilingKeepsInv(sys, e);
    }
  }

  lemma FiledIsValid(sys: Sys, key: Key)
    requires Inv(sys) && key in sys.s.records
    ensures Valid(sys.s.records[key])
  {
  }

  lemma StepKeepsInv(sys: Sys, action: Action)
    requires Inv(sys)
    ensures Inv(Next(sys, action)) && sys.s.dead.Keys <= Next(sys, action).s.dead.Keys
    ensures sys.log <= Next(sys, action).log
  {
    hide Inv, StaleAt;
    var p := action.e.profile;
    if Valid(action.e) {
      match action {
        case Record(e) =>
          if Recording(sys.s, e).1.Ok? {
            AcceptedKeepsInv(sys, e);
          } else {
            BuryingKeepsInv(sys, p, CONFLICT, e.recordedAt);
          }
        case Invalidate(_, reason, at) => BuryingKeepsInv(sys, p, reason, at);
        case Use(_, _, _, _, now) =>
          BuryingKeepsInv(sys, p, STALE, now);
          BuryingKeepsInv(sys, p, PROVIDER_UPGRADE, now);
          BuryingKeepsInv(sys, p, HEALTH_CHANGE, now);
      }
    }
  }

  lemma {:induction false} RunKeepsInv(sys: Sys, actions: seq<Action>)
    requires Inv(sys)
    ensures Inv(Run(sys, actions)) && sys.s.dead.Keys <= Run(sys, actions).s.dead.Keys
    ensures sys.log <= Run(sys, actions).log
    decreases |actions|
  {
    hide Inv, Next;
    if actions != [] {
      StepKeepsInv(sys, actions[0]);
      RunKeepsInv(Next(sys, actions[0]), actions[1..]);
    }
  }

  const EMPTY := Sys(State(map[], map[]), [])

  /** Versions recorded per key strictly increase, and recorded evidence that was superseded is buried and unusable. */
  lemma SupersededIsUnusable(actions: seq<Action>, i: nat, j: nat)
    requires i < j < |Run(EMPTY, actions).log|
    requires Run(EMPTY, actions).log[i].profile.key == Run(EMPTY, actions).log[j].profile.key
    ensures var end := Run(EMPTY, actions);
            && end.log[i].profile.version < end.log[j].profile.version
            && end.log[i].profile.sha in end.s.dead
            && forall project, state, health, now :: Using(end.s, end.log[i], project, state, health, now).1.Err?
  {
    RunKeepsInv(EMPTY, actions);
    hide Run;
  }

  /** This step buries this hash: a conflict, a supersession, an invalidation, or a use that found it outdated. */
  predicate Buries(s: State, action: Action, h: Hash) {
    && Valid(action.e)
    && match action
       case Record(e) =>
         && e.profile.sha !in s.dead && e.profile.key in s.records
         && var current := s.records[e.profile.key].profile;
            if e.profile.version > current.version then h == current.sha
            else h == e.profile.sha && e.profile.sha != current.sha
       case Invalidate(e, _, _) => h == e.profile.sha
       case Use(e, project, state, health, now) =>
         && h == e.profile.sha && h !in s.dead && e.profile.key.project == project
         && (StaleAt(e.profile, now) || e.providerState != state || e.health != health)
  }

  predicate EverBuried(sys: Sys, actions: seq<Action>, h: Hash)
    decreases |actions|
  {
    actions != [] && (Buries(sys.s, actions[0], h) || EverBuried(Next(sys, actions[0]), actions[1..], h))
  }

  lemma BuriesExactly(sys: Sys, action: Action, h: Hash)
    ensures h in Next(sys, action).s.dead <==> h in sys.s.dead || Buries(sys.s, action, h)
  {
    hide Valid, StaleAt;
  }

  lemma {:induction false} DeadAreBuried(sys: Sys, actions: seq<Action>, h: Hash)
    ensures h in Run(sys, actions).s.dead <==> h in sys.s.dead || EverBuried(sys, actions, h)
    decreases |actions|
  {
    hide Next, Buries;
    if actions != [] {
      BuriesExactly(sys, actions[0], h);
      DeadAreBuried(Next(sys, actions[0]), actions[1..], h);
    }
  }

  /** Named, versioned and hashed as it says, observed before it expired, and recorded before that too. */
  predicate Genuine(e: Evidence) {
    var p := e.profile;
    && "project-" <= p.key.project && |p.key.provider| > 0 && |p.key.profileId| > 0 && p.version > 0 && e.health >= 0
    && p.sha == HashOf(p.key, p.version, p.body, p.observedAt, p.expiresAt)
    && match p.expiresAt
       case None => true
       case Some(end) => p.observedAt < end && e.recordedAt < end
  }

  lemma ValidIsGenuine(e: Evidence)
    ensures Valid(e) <==> Genuine(e)
  {
  }

  /** After any run exactly this evidence is usable - recorded or not, the records are never asked. */
  lemma UsableExactly(actions: seq<Action>, e: Evidence, project: string, providerState: nat, health: int, now: int)
    ensures Using(Run(EMPTY, actions).s, e, project, providerState, health, now).1.Ok? <==>
              && Genuine(e) && e.profile.key.project == project
              && (e.profile.expiresAt.Some? ==> now < e.profile.expiresAt.value)
              && e.providerState == providerState && e.health == health
              && !EverBuried(EMPTY, actions, e.profile.sha)
  {
    DeadAreBuried(EMPTY, actions, e.profile.sha);
    ValidIsGenuine(e);
    hide Run, EverBuried, Valid, Genuine;
  }

  /** After any run exactly this evidence is recorded: genuine, never buried, and later than what its key holds. */
  lemma RecordedExactly(actions: seq<Action>, e: Evidence)
    ensures var s := Run(EMPTY, actions).s;
            var key := e.profile.key;
            && (Recording(s, e).1.Ok? <==>
                  && Genuine(e) && !EverBuried(EMPTY, actions, e.profile.sha)
                  && (key in s.records ==> s.records[key].profile.version < e.profile.version))
            && Recording(s, e).0.records == if Recording(s, e).1.Ok? then s.records[key := e] else s.records
  {
    DeadAreBuried(EMPTY, actions, e.profile.sha);
    ValidIsGenuine(e);
    hide Run, EverBuried, Valid, Genuine;
  }

  /** A change of a provider's state buries just what was recorded of that provider in another state. */
  lemma OutdatedExactly(records: map<Key, Evidence>, provider: string, providerState: nat, h: Hash)
    ensures h in OutdatedHashes(records, records.Keys, provider, providerState) <==>
              exists k :: k in records && records[k].profile.sha == h
                          && records[k].profile.key.provider == provider && records[k].providerState != providerState
  {
  }

  /** So two profiles can be live under one key: the recorded one, and any other that was never recorded. */
  lemma UnrecordedIsUsableToo(e: Evidence, other: Evidence, now: int)
    requires Valid(e) && Valid(other) && other.profile.key == e.profile.key && other.profile.sha != e.profile.sha
    requires other.providerState == e.providerState && other.health == e.health
    requires !StaleAt(e.profile, now) && !StaleAt(other.profile, now)
    ensures var end := Run(EMPTY, [Record(e)]);
            var project := e.profile.key.project;
            && end.log == [e]
            && Using(end.s, e, project, e.providerState, e.health, now).1.Ok?
            && Using(end.s, other, project, e.providerState, e.health, now).1.Ok?
  {
    assert [Record(e)][1..] == [];
    assert Run(EMPTY, [Record(e)]) == Run(Next(EMPTY, Record(e)), []);
  }

  /** A tombstone is never removed, so an invalidated hash is refused from then on. */
  lemma TombstonesStay(sys: Sys, actions: seq<Action>, e: Evidence)
    requires Inv(sys) && e.profile.sha in sys.s.dead
    ensures var end := Run(sys, actions).s;
            && Recording(end, e).1.Err? && Recording(end, e).0 == end
            && forall project, state, health, now :: Using(end, e, project, state, health, now) .1.Err?
  {
    RunKeepsInv(sys, actions);
    hide Run;
  }
}
