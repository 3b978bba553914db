/** The concrete actions of each step and their inverses (host.rs). */
module HostActions {
  import opened Durable
  import opened Files
  import opened Layout
  import opened History
  import opened World
  import opened Relocation
  import opened StorageMoves
  import opened PublicationMoves
  import opened RelocationStep
  import opened FenceActions
  import opened SnapshotStep

  /** The journal while the migration moves forward with `n` completed steps. */
  function Forward(identity: nat, n: nat): State
    requires n <= |STEPS|
  {
    State(identity, STEPS[..n], None, false, false)
  }

  /** What the first `n` steps have established, apart from what the invariant says. */
  predicate Ready(w: World, n: nat) {
    w.disk.now.work.Active? &&
    var rec, storage, f := w.disk.now.work.record, w.disk.now.work.storage, w.disk.now.files;
    GoodRecord(rec) &&
    (n <= 3 ==> Staging(rec, f) && storage.None?) &&
    (n >= 1 ==> Locked(w)) &&
    (3 <= n <= 6 ==> w.running == {}) &&
    (n >= 4 ==>
       storage.Some? && Home(rec, storage.value, w.origin) && |storage.value.caches| <= |rec.cacheKeys|) &&
    (4 <= n <= 5 ==> Prepared(rec, storage.value, f) && w.origin == f) &&
    (n == 6 ==> Migrated(rec, storage.value, f)) &&
    (n >= 7 ==> NewAgent in w.running)
  }

  /** Step `k` is recorded as begun and everything before it is in place. */
  ghost predicate Applying(w: World, st: State, k: nat) {
    k < |STEPS| && Inv(w) && On(w, st) && w.disk.Settled() &&
    st == Forward(st.identity, k).(pending := Some(STEPS[k])) && Ready(w, k)
  }

  lemma OnNow(w: World, st: State)
    requires Inv(w) && On(w, st)
    ensures w.disk.now.work.Active? && JournalOf(w.disk.now) == st && Fits(w, w.disk.now) && ValidHistory(st)
  {
    assert w.disk.May(w.disk.now);
  }

  /** Running legacy services do not disturb a staged transaction. */
  lemma StagingServed(w: World, st: State, rec: Record, v: Persisted, u: Persisted)
    requires Inv(w) && On(w, st) && LevelOf(st) < 7
    requires |rec.assets| == ASSETS && Staging(rec, v.files) && Served(w, v, u)
    ensures Staging(rec, u.files)
  {
    OnNow(w, st);
    assert w.running * NEW_UNITS == {};
    if u.files != v.files {
      assert forall p: Path | !(p.Live? || p.LiveJournal? || p.Cache?) :: !Writable(w, p);
      StagingByOld(rec, v.files, u.files);
    }
  }

  /** Only what runs may have changed, and what services wrote before. */
  ghost predicate Steady(w: World, w': World) {
    w' == w.(disk := w'.disk, running := w'.running, recording := w'.recording) && Remembers(w, w') &&
    w'.disk.now == Renewed(w.disk.now, w'.disk.now) &&
    Served(w, w.disk.now, w'.disk.now) &&
    (Still(w) ==> w'.disk == w.disk) &&
    forall st: State | On(w, st) :: On(w', st)
  }

  method StopUnits(m: Machine, us: set<Unit>) returns (alive: bool)
    requires Inv(m.w)
    modifies m
    ensures Inv(m.w) && Steady(old(m.w), m.w)
    ensures m.w.running == if alive then old(m.w.running) - us else old(m.w.running)
    ensures !alive ==> m.budget == 0
    ensures m.budget <= old(m.budget) <= m.budget + 1
  {
    alive := Wait(m);
    if alive {
      ghost var w1 := m.w;
      m.w := m.w.(running := m.w.running - us);
      assert m.w.running * OLD_UNITS <= w1.running * OLD_UNITS;
      forall v: Persisted | w1.disk.May(v)
        ensures ServicesFit(m.w, v)
      {
        assert Fits(w1, v);
        assert m.w.running <= w1.running;
      }
      VolatileKeeps(w1, m.w);
      OnKept(w1, m.w);
    }
  }

  lemma OnKept(w: World, w': World)
    requires w'.disk == w.disk
    ensures forall st: State | On(w, st) :: On(w', st)
  {
    forall st: State | On(w, st)
      ensures On(w', st)
    {
      assert forall v: Persisted | w'.disk.May(v) :: w.disk.May(v);
    }
  }

  /** `systemctl start`: a guarded unit starts only with the permit. If the command fails,
      any of the units may have been started. */
  method StartUnits(m: Machine, us: set<Unit>, st: State) returns (alive: bool)
    requires Inv(m.w) && On(m.w, st) && m.w.fence != Down
    requires (us == OLD_UNITS && LevelOf(st) <= 3) || (us == NEW_UNITS && LevelOf(st) >= 7)
    modifies m
    ensures Inv(m.w) && Steady(old(m.w), m.w)
    ensures old(m.w.running) <= m.w.running <= old(m.w.running) + us
    ensures alive && m.w.permit ==> m.w.running == old(m.w.running) + us
    ensures !alive ==> m.budget == 0
    ensures m.budget <= old(m.budget) <= m.budget + 1
  {
    alive := Wait(m);
    ghost var w1 := m.w;
    var admitted := set u | u in us && (u !in m.w.disk.now.guards || m.w.permit);
    if !alive {
      admitted := SomeOf(admitted);
    }
    StartedQuietly(m.w, admitted);
    m.w := m.w.(running := m.w.running + admitted, recording := Witness(m.w, admitted));
    forall v: Persisted | w1.disk.May(v)
      ensures ServicesFit(m.w, v)
    {
      assert On(w1, st);
      assert Fits(w1, v) && JournalOf(v) == st;
      StartedUnitsFit(w1, m.w, v, us);
    }
    VolatileKeeps(w1, m.w);
    OnKept(w1, m.w);
    assert alive && m.w.permit ==> admitted == us;
  }

  lemma StartedQuietly(w: World, units: set<Unit>)
    ensures Witness(w, units) == Quiet ==> (w.running + units) * OLD_UNITS <= w.running * OLD_UNITS
  {
    assert (w.running + units) * OLD_UNITS == w.running * OLD_UNITS + units * OLD_UNITS;
  }

  /** Some of the units; a caller knows no more. */
  method SomeOf(us: set<Unit>) returns (some: set<Unit>)
    ensures some <= us
  {
    some := {};
  }

  lemma StartedUnitsFit(w: World, w': World, v: Persisted, us: set<Unit>)
    requires ServicesFit(w, v) && w' == w.(running := w'.running, recording := w'.recording) && w.fence != Down
    requires w'.running <= w.running + us
    requires (us == OLD_UNITS && Level(v) <= 3) || (us == NEW_UNITS && Level(v) >= 7)
    ensures ServicesFit(w', v)
  {
    assert w'.running * OLD_UNITS <= w.running * OLD_UNITS + us * OLD_UNITS;
    assert w'.running * NEW_UNITS <= w.running * NEW_UNITS + us * NEW_UNITS;
    assert OLD_UNITS * NEW_UNITS == {};
  }

  // ---- Forward ----

  method ApplyFenceTraffic(m: Machine, st: State) returns (r: Outcome)
    requires Applying(m.w, st, 0)
    modifies m
    ensures Inv(m.w) && On(m.w, st) && m.w.log == old(m.w.log)
    ensures r == Refused <==> old(m.w.fence) != Down
    ensures r == Refused ==> m.w == old(m.w)
    ensures r == Done ==> m.w.disk.now.work == old(m.w.disk.now.work) && m.w.origin == old(m.w.origin)
    ensures r == Done ==> LegacyWrote(old(m.w.disk.now.files), m.w.disk.now.files)
    ensures r == Done ==> Ready(m.w, 1) && m.w.running == old(m.w.running)
    ensures r == Done ==> m.w.fence == Rejecting && m.w.permit && m.w.disk.now.guards == ALL_UNITS
    ensures r == Stopped ==> m.budget == 0
    ensures m.budget <= old(m.budget) <= m.budget + 11
  {
    if m.w.fence != Down {
      return Refused;
    }
    ghost var w0 := m.w;
    OnNow(w0, st);
    r := InstallGuards(m);
    if r != Done {
      return r;
    }
    ghost var w1 := m.w;
    var reloaded := Wait(m);
    KeptIsTransitive(w0, w1, m.w);
    if !reloaded {
      return Stopped;
    }
    w1 := m.w;
    UncommittedIsUnopened(m.w, st);
    var raised := RaiseFence(m, Rejecting);
    KeptIsTransitive(w0, w1, m.w);
    if !raised {
      return Stopped;
    }
    w1 := m.w;
    var permitted := SetPermit(m, true);
    KeptIsTransitive(w0, w1, m.w);
    if !permitted {
      return Stopped;
    }
    StagingServed(w0, st, w0.disk.now.work.record, w0.disk.now, m.w.disk.now);
    ServedByLegacy(w0, w0.disk.now, m.w.disk.now);
    return Done;
  }

  method ApplyDrain(m: Machine, st: State) returns (r: Outcome)
    requires Applying(m.w, st, 1)
    modifies m
    ensures Inv(m.w) && On(m.w, st) && m.w.log == old(m.w.log)
    ensures r == Refused ==> OldAgent !in old(m.w.running)
    ensures r == Done ==> m.w.disk.now.work == old(m.w.disk.now.work) && m.w.origin == old(m.w.origin)
    ensures r == Done ==> LegacyWrote(old(m.w.disk.now.files), m.w.disk.now.files)
    ensures r == Done ==> Ready(m.w, 2) && m.w.fence == Sealed && OldAgent in m.w.running
    ensures r == Stopped ==> m.budget == 0
    ensures m.budget <= old(m.budget) <= m.budget + 3
  {
    ghost var w0 := m.w;
    OnNow(w0, st);
    var drained := Wait(m);
    if !drained {
      return Stopped;
    }
    ghost var w1 := m.w;
    UncommittedIsUnopened(m.w, st);
    var sealed := RaiseFence(m, Sealed);
    KeptIsTransitive(w0, w1, m.w);
    if !sealed {
      return Stopped;
    }
    if OldAgent !in m.w.running {
      return Refused;
    }
    w1 := m.w;
    var qualified := Wait(m);
    KeptIsTransitive(w0, w1, m.w);
    if !qualified {
      return Stopped;
    }
    StagingServed(w0, st, w0.disk.now.work.record, w0.disk.now, m.w.disk.now);
    ServedByLegacy(w0, w0.disk.now, m.w.disk.now);
    return Done;
  }

  method ApplyStopLegacyServices(m: Machine, st: State) returns (r: Outcome)
    requires Applying(m.w, st, 2)
    modifies m
    ensures Inv(m.w) && On(m.w, st) && m.w.log == old(m.w.log)
    ensures r != Refused
    ensures r == Done ==> m.w.disk.now.work == old(m.w.disk.now.work) && m.w.origin == old(m.w.origin)
    ensures r == Done ==> LegacyWrote(old(m.w.disk.now.files), m.w.disk.now.files)
    ensures r == Done ==> Ready(m.w, 3) && m.w.running == {}
    ensures r == Stopped ==> m.budget == 0
    ensures m.budget <= old(m.budget) <= m.budget + 2
  {
    ghost var w0 := m.w;
    OnNow(w0, st);
    var verified := Wait(m);
    if !verified {
      return Stopped;
    }
    ghost var w1 := m.w;
    var stopped := StopUnits(m, OLD_UNITS);
    if !stopped {
      return Stopped;
    }
    ServedIsTransitive(w0, w0.disk.now, w1.disk.now, m.w.disk.now);
    StagingServed(w0, st, w0.disk.now.work.record, w0.disk.now, m.w.disk.now);
    ServedByLegacy(w0, w0.disk.now, m.w.disk.now);
    OnNow(w1, st);
    OnlyOldUnits(w1.running);
    return Done;
  }

  lemma OnlyOldUnits(running: set<Unit>)
    requires running * NEW_UNITS == {}
    ensures running - OLD_UNITS == {}
  {
    forall u | u in running
      ensures u in OLD_UNITS
    {
      assert u.OldAgent? || u.OldExecutor? || u.NewAgent? || u.NewExecutor?;
      assert u in NEW_UNITS ==> u in running * NEW_UNITS;
    }
  }

  method ApplySnapshot(m: Machine, st: State, candidate: Node, converted: Node) returns (r: Outcome)
    requires Applying(m.w, st, 3) && candidate.Regular? && converted.Regular?
    modifies m
    ensures Inv(m.w) && On(m.w, st) && m.w.log == old(m.w.log)
    ensures r == Refused ==>
              m.w.disk.now.work.Active? && Obstructed(m.w.disk.now.work.record, m.w.disk.now.files)
    ensures r == Done ==>
              m.w.disk.now.work.Active? && m.w.disk.now.work.storage.Some? &&
              m.w.disk.now.work == old(m.w.disk.now.work).(storage := m.w.disk.now.work.storage) &&
              Converts(m.w.disk.now.work.storage.value, m.w.origin, candidate, converted) &&
              SameRoot(old(m.w.disk.now.files), m.w.origin)
    ensures r == Done ==> Ready(m.w, 4)
    ensures r == Stopped ==> m.budget == 0
    ensures m.budget <= old(m.budget) <= m.budget + 5
  {
    OnNow(m.w, st);
    var verified := Wait(m);
    if !verified {
      return Stopped;
    }
    r := Prepare(m, st, candidate, converted);
  }

  method ApplyStopLegacyEngine(m: Machine, st: State) returns (r: Outcome)
    requires Applying(m.w, st, 4)
    modifies m
    ensures Inv(m.w) && On(m.w, st) && m.w.log == old(m.w.log)
    ensures r != Refused
    ensures r == Done ==> m.w.disk.now.work == old(m.w.disk.now.work) && m.w.origin == old(m.w.origin)
    ensures r == Done ==> Ready(m.w, 5)
    ensures r == Stopped ==> m.budget == 0
    ensures m.budget <= old(m.budget) <= m.budget + 1
  {
    var stopped := Wait(m);
    return if stopped then Done else Stopped;
  }

  /** Whatever the relocation leaves fits a journal in which it has begun. */
  lemma BetweenKeeps(w: World, w': World, st: State, rec: Record, s: Storage)
    requires Inv(w) && On(w, st) && LevelOf(st) == 6
    requires w.disk.now.work.Active? && w.disk.now.work.record == rec && w.disk.now.work.storage == Some(s)
    requires Between(rec, s, w.origin, w, w')
    ensures Inv(w') && On(w', st)
  {
    OnNow(w, st);
    forall v: Persisted | w'.disk.May(v)
      ensures Fits(w', v) && v.work.Active? && v.work.journal == Some(st)
    {
      assert v == w.disk.now.(files := v.files);
      assert JournalOf(v) == st;
    }
  }

  method ApplyRelocate(m: Machine, st: State) returns (r: Outcome)
    requires Applying(m.w, st, 5)
    modifies m
    ensures Inv(m.w) && On(m.w, st) && m.w.log == old(m.w.log)
    ensures r != Refused
    ensures r == Done ==> m.w.disk.now.work == old(m.w.disk.now.work) && m.w.origin == old(m.w.origin)
    ensures r == Done ==> Swapped(m.w.disk.now.work.storage.value, m.w.disk.now.files)
    ensures r == Done ==> Ready(m.w, 6)
    ensures r == Stopped ==> m.budget == 0
    ensures m.budget <= old(m.budget) <= m.budget + 3 * |old(m.w.disk.now.work.record.cacheKeys)| + 48
  {
    ghost var w0 := m.w;
    var rec, s := m.w.disk.now.work.record, m.w.disk.now.work.storage.value;
    PreparedIsRecoverable(rec, s, m.w.disk.now.files);
    PreparedIsActivating(rec, s, m.w.disk.now.files);
    r := RelocationStep.Relocate(m, rec, s, m.w.origin);
    BetweenKeeps(w0, m.w, st, rec, s);
  }

  method ApplyActivate(m: Machine, st: State) returns (r: Outcome)
    requires Applying(m.w, st, 6)
    modifies m
    ensures Inv(m.w) && On(m.w, st) && m.w.log == old(m.w.log)
    ensures r != Refused
    ensures r == Done ==> m.w.disk.now.work == old(m.w.disk.now.work) && m.w.origin == old(m.w.origin)
    ensures r == Done ==> Ready(m.w, 7) && NEW_UNITS <= m.w.running
    ensures r == Stopped ==> m.budget == 0
    ensures m.budget <= old(m.budget) <= m.budget + 2
  {
    var confined := Wait(m);
    if !confined {
      return Stopped;
    }
    var started := StartUnits(m, NEW_UNITS, st);
    return if started then Done else Stopped;
  }

  method ApplyQualify(m: Machine, st: State) returns (r: Outcome)
    requires Applying(m.w, st, 7)
    modifies m
    ensures Inv(m.w) && On(m.w, st) && m.w.log == old(m.w.log)
    ensures r != Refused
    ensures r == Done ==> m.w.disk.now.work == old(m.w.disk.now.work) && m.w.origin == old(m.w.origin)
    ensures r == Done ==> Ready(m.w, 8)
    ensures r == Stopped ==> m.budget == 0
    ensures m.budget <= old(m.budget) <= m.budget + 1
  {
    var qualified := Wait(m);
    return if qualified then Done else Stopped;
  }

  /** Why `apply` may refuse a step whose predecessors are in place. */
  predicate Resisted(w: World, k: nat) {
    (k == 0 && w.fence != Down) || (k == 1 && OldAgent !in w.running)
  }

  /** What a completed step has changed of the transaction and of the tree: the snapshot adds
      the inventory with the given files, until then only legacy services write, and the
      relocation makes the given files live. */
  ghost predicate Progressed(w: World, w': World, k: nat, candidate: Node, converted: Node) {
    w.disk.now.work.Active? && w'.disk.now.work.Active? &&
    (k != 3 ==> w'.disk.now.work == w.disk.now.work && w'.origin == w.origin) &&
    (k <= 2 ==> LegacyWrote(w.disk.now.files, w'.disk.now.files)) &&
    (k == 3 ==>
       w'.disk.now.work.storage.Some? && w'.disk.now.work == w.disk.now.work.(storage := w'.disk.now.work.storage) &&
       Converts(w'.disk.now.work.storage.value, w'.origin, candidate, converted) &&
       SameRoot(w.disk.now.files, w'.origin)) &&
    (k == 5 ==> w'.disk.now.work.storage.Some? && Swapped(w'.disk.now.work.storage.value, w'.disk.now.files))
  }

  /** `Actions::apply`. */
  method Apply(m: Machine, st: State, step: Step, candidate: Node, converted: Node) returns (r: Outcome)
    requires Applying(m.w, st, step.Rank()) && candidate.Regular? && converted.Regular?
    modifies m
    ensures Inv(m.w) && On(m.w, st) && m.w.log == old(m.w.log)
    ensures r == Refused ==>
              Resisted(old(m.w), step.Rank()) ||
              (m.w.disk.now.work.Active? && Obstructed(m.w.disk.now.work.record, m.w.disk.now.files))
    ensures r == Done ==> Ready(m.w, step.Rank() + 1)
    ensures r == Done && step.FenceTraffic? ==> m.w.running == old(m.w.running)
    ensures r == Done ==> Progressed(old(m.w), m.w, step.Rank(), candidate, converted)
    ensures r == Stopped ==> m.budget == 0
    ensures m.budget <= old(m.budget) <= m.budget + 3 * |old(m.w.disk.now.work.record.cacheKeys)| + 48
  {
    match step {
      case FenceTraffic => r := ApplyFenceTraffic(m, st);
      case Drain => r := ApplyDrain(m, st);
      case StopLegacyServices => r := ApplyStopLegacyServices(m, st);
      case Snapshot => r := ApplySnapshot(m, st, candidate, converted);
      case StopLegacyEngine => r := ApplyStopLegacyEngine(m, st);
      case Relocate => r := ApplyRelocate(m, st);
      case Activate => r := ApplyActivate(m, st);
      case Qualify => r := ApplyQualify(m, st);
    }
  }

  // ---- Backward ----

  /** The last begun step of a rollback is due to be undone. */
  ghost predicate Undoable(w: World, st: State) {
    Inv(w) && On(w, st) && w.disk.Settled() && st.rollingBack && !st.committed && LevelOf(st) >= 1 && Locked(w)
  }

  /** What an undo leaves as it was, besides the journal. */
  predicate Frame(w: World, w': World) {
    w'.log == w.log && Remembers(w, w') && w'.disk.now.work == w.disk.now.work
  }

  function CacheCount(v: Persisted): nat {
    if v.work.Active? && v.work.storage.Some? then |v.work.storage.value.caches| else 0
  }

  /** With the legacy services stopped and the new ones not yet started, nothing runs. */
  lemma NothingRuns(w: World, st: State)
    requires Inv(w) && On(w, st) && 4 <= LevelOf(st) <= 6
    ensures w.running == {}
  {
    OnNow(w, st);
    assert w.running * OLD_UNITS == {} && w.running * NEW_UNITS == {};
    OnlyOldUnits(w.running);
  }

  method UndoActivate(m: Machine, st: State) returns (r: Outcome)
    requires Undoable(m.w, st) && LevelOf(st) == 7
    modifies m
    ensures Inv(m.w) && On(m.w, st) && Frame(old(m.w), m.w)
    ensures r != Refused
    ensures r == Done ==> Locked(m.w) && m.w.running == {} && m.w.disk.now.left == old(m.w.disk.now.left)
    ensures r == Stopped ==> m.budget == 0
    ensures m.budget <= old(m.budget) <= m.budget + 2
  {
    ghost var w0 := m.w;
    OnNow(w0, st);
    var stopped := StopUnits(m, NEW_UNITS);
    if !stopped {
      return Stopped;
    }
    OnlyNewUnits(w0.running);
    var removed := Wait(m);
    return if removed then Done else Stopped;
  }

  lemma OnlyNewUnits(running: set<Unit>)
    requires running * OLD_UNITS == {}
    ensures running - NEW_UNITS == {}
  {
    forall u | u in running
      ensures u in NEW_UNITS
    {
      assert u.OldAgent? || u.OldExecutor? || u.NewAgent? || u.NewExecutor?;
      assert u in OLD_UNITS ==> u in running * OLD_UNITS;
    }
  }

  method UndoRelocate(m: Machine, st: State) returns (r: Outcome)
    requires Undoable(m.w, st) && LevelOf(st) == 6
    modifies m
    ensures Inv(m.w) && On(m.w, st) && Frame(old(m.w), m.w)
    ensures r != Refused
    ensures r == Done ==> Locked(m.w) && Still(m.w) && m.w.disk.now.left == old(m.w.disk.now.left)
    ensures r == Done ==> SameRoot(m.w.origin, m.w.disk.now.files) && NoBackups(m.w.disk.now.files)
    ensures r == Stopped ==> m.budget == 0
    ensures m.budget <= old(m.budget) <= m.budget + 3 * CacheCount(old(m.w.disk.now)) + 55
  {
    ghost var w0 := m.w;
    OnNow(w0, st);
    NothingRuns(w0, st);
    var rec, s := m.w.disk.now.work.record, m.w.disk.now.work.storage.value;
    r := Unrelocate(m, rec, s, m.w.origin);
    BetweenKeeps(w0, m.w, st, rec, s);
    if r != Done {
      return r;
    }
    assert m.w.disk.May(m.w.disk.now);
    var reloaded := Wait(m);
    return if reloaded then Done else Stopped;
  }

  /** Steps whose inverse changes nothing here: containers are not modelled. */
  method UndoOther(m: Machine, st: State) returns (r: Outcome)
    requires Undoable(m.w, st) && LevelOf(st) == 5
    modifies m
    ensures Inv(m.w) && On(m.w, st) && Frame(old(m.w), m.w)
    ensures r != Refused
    ensures r == Done ==> Locked(m.w) && m.w == old(m.w)
    ensures r == Stopped ==> m.budget == 0
    ensures m.budget <= old(m.budget) <= m.budget + 1
  {
    NothingRuns(m.w, st);
    var done := Wait(m);
    return if done then Done else Stopped;
  }

  method UndoStopLegacyServices(m: Machine, st: State) returns (r: Outcome)
    requires Undoable(m.w, st) && LevelOf(st) == 3
    modifies m
    ensures Inv(m.w) && On(m.w, st) && Frame(old(m.w), m.w)
    ensures r != Refused && LegacyWrote(old(m.w.disk.now.files), m.w.disk.now.files)
    ensures r == Done ==> Locked(m.w) && OldAgent in m.w.running
    ensures r == Stopped ==> m.budget == 0
    ensures m.budget <= old(m.budget) <= m.budget + 2
  {
    ghost var w0 := m.w;
    OnNow(w0, st);
    var started := StartUnits(m, OLD_UNITS, st);
    ServedByLegacy(w0, w0.disk.now, m.w.disk.now);
    if !started {
      return Stopped;
    }
    ghost var w1 := m.w;
    OnNow(w1, st);
    var healthy := Wait(m);
    ServedByLegacy(w1, w1.disk.now, m.w.disk.now);
    LegacyWroteIsTransitive(w0.disk.now.files, w1.disk.now.files, m.w.disk.now.files);
    return if healthy then Done else Stopped;
  }

  /** The health check comes first: a legacy agent that does not run refuses this undo, and
      nothing before it has started one if the services had not been stopped. */
  method UndoFenceTraffic(m: Machine, st: State) returns (r: Outcome)
    requires Undoable(m.w, st) && LevelOf(st) == 1
    modifies m
    ensures Inv(m.w) && On(m.w, st) && Frame(old(m.w), m.w)
    ensures r == Refused <==> OldAgent !in old(m.w.running)
    ensures r == Refused ==> m.w == old(m.w)
    ensures LegacyWrote(old(m.w.disk.now.files), m.w.disk.now.files)
    ensures r == Done ==>
              Reachable(m.w, OldAgent) && !m.w.permit && m.w.disk.now.guards == {}
    ensures r == Stopped ==> m.budget == 0
    ensures m.budget <= old(m.budget) <= m.budget + 12
  {
    if OldAgent !in m.w.running {
      return Refused;
    }
    ghost var w0 := m.w;
    OnNow(w0, st);
    var healthy := Wait(m);
    ServedByLegacy(w0, w0.disk.now, m.w.disk.now);
    if !healthy {
      return Stopped;
    }
    ghost var w1 := m.w;
    OnNow(w1, st);
    assert forall v: Persisted | m.w.disk.May(v) :: JournalOf(v) == st;
    r := ReleaseFence(m);
    ServedByLegacy(w1, w1.disk.now, m.w.disk.now);
    LegacyWroteIsTransitive(w0.disk.now.files, w1.disk.now.files, m.w.disk.now.files);
  }
}
