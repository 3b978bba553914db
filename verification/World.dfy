/** The appliance as the migration sees it: what is on disk, what is running and what stands
    between a service and the network. */
module World {
  import opened Durable
  import opened Files
  import opened Layout
  import opened History

  datatype Unit = OldAgent | OldExecutor | NewAgent | NewExecutor

  /** In the order in which fence.rs guards them. */
  const UNITS: seq<Unit> := [OldAgent, OldExecutor, NewAgent, NewExecutor]
  const ALL_UNITS: set<Unit> := {OldAgent, OldExecutor, NewAgent, NewExecutor}
  const OLD_UNITS: set<Unit> := {OldAgent, OldExecutor}
  const NEW_UNITS: set<Unit> := {NewAgent, NewExecutor}

  /** The volatile firewall table: absent, rejecting new connections, or rejecting all. */
  datatype Fence = Down | Rejecting | Sealed

  /** The directory of the transaction, with the files in it that decide what happens. */
  datatype Work =
    | NoWork
    | Active(record: Record, journal: Option<State>, storage: Option<Storage>, trafficOpened: bool)

  /** Everything on disk. `guards` are the units with a drop-in that waits for the permit.
      `left` is the tree that the legacy services last left, as of this version; nothing in
      the program reads it, and only their writes change it. */
  datatype Persisted = Persisted(
    work: Work,
    guards: set<Unit>,
    oldEnabled: bool,
    newEnabled: bool,
    files: Tree,
    left: Tree)

  /** Whether this transaction has taken a snapshot, and whether a legacy unit ran since. */
  datatype Recording = NotYet | Quiet | Disturbed

  /** `origin` is the tree that the latest snapshot recorded; `log` is what the host has been
      asked to do since the transaction was staged. Neither is read by the program, nor is
      `recording`. */
  datatype World = World(
    disk: Disk<Persisted>,
    running: set<Unit>,
    fence: Fence,
    permit: bool,
    log: seq<Event>,
    origin: Tree,
    recording: Recording)

  function JournalOf(v: Persisted): State {
    if v.work.Active? && v.work.journal.Some? then v.work.journal.value else Fresh(0)
  }

  function Level(v: Persisted): nat {
    LevelOf(JournalOf(v))
  }

  predicate Committed(v: Persisted) {
    JournalOf(v).committed
  }

  predicate TrafficOpened(v: Persisted) {
    v.work.Active? && v.work.trafficOpened
  }

  /** Between the completed fence and either the commit or the undoing of the fence. */
  predicate Fenced(v: Persisted) {
    var st := JournalOf(v);
    !st.committed && (Level(v) >= 2 || (|st.completed| >= 1 && !st.rollingBack))
  }

  /** An external client can connect to the agent of this unit. */
  predicate Reachable(w: World, agent: Unit) {
    agent in w.running && w.fence == Down
  }

  /** Different old keys go to different new keys; nothing in the program checks this. */
  predicate DistinctTargets(keys: seq<(string, string)>) {
    forall i, j | 0 <= i < |keys| && 0 <= j < |keys| && keys[i].0 != keys[j].0 :: keys[i].1 != keys[j].1
  }

  predicate GoodRecord(rec: Record) {
    |rec.assets| == ASSETS && DistinctTargets(rec.cacheKeys)
  }

  /** The staged transaction before its snapshot. Running services do not change this. */
  predicate Staging(rec: Record, f: Tree)
    requires |rec.assets| == ASSETS
  {
    AssetsHome(rec, f) && AccountsNamed(rec, f, false) &&
    (forall n: DbFile :: Backup(n) !in f && Failed(n) !in f) && BackupJournal !in f && FailedJournal !in f
  }

  /** No original is in a backup. */
  predicate NoBackups(f: Tree) {
    (forall n: DbFile :: Backup(n) !in f) && BackupJournal !in f
  }

  /** Legacy services found tree `f` and have left `g`, as far as it is below the root. */
  ghost predicate LegacyWrote(f: Tree, g: Tree) {
    forall p: Path | p.AtRoot() && !p.Cache? ::
      Agree(f, g, p) || ((p.Live? || p.LiveJournal?) && (p in g ==> g[p].Regular?))
  }

  /** Below the root exactly what the legacy services last left, and nothing put aside. */
  ghost predicate AsLeft(v: Persisted) {
    Untouched(v.files) && SameRoot(v.left, v.files) && NoBackups(v.files)
  }

  /** The tree matches the recorded progress. */
  ghost predicate TreeFits(v: Persisted, o: Tree) {
    match v.work
    case NoWork =>
      AsLeft(v) && forall p | p in v.files :: p.AtRoot()
    case Active(rec, _, storage, _) =>
      GoodRecord(rec) &&
      (storage.Some? ==> Home(rec, storage.value, o) && Gathers(rec.cacheKeys, o, storage.value.caches)) &&
      if |JournalOf(v).completed| <= 3 then
        AsLeft(v)
      else
        storage.Some? && SameRoot(o, v.left) &&
        if Level(v) <= 5 then
          SameRoot(o, v.files) && NoBackups(v.files)
        else if Level(v) == 6 then
          Recoverable(rec, storage.value, v.files) && Framed(storage.value, o, v.files)
        else
          Migrated(rec, storage.value, v.files) && Framed(storage.value, o, v.files)
  }

  predicate JournalFits(v: Persisted) {
    match v.work
    case NoWork => true
    case Active(rec, journal, _, trafficOpened) =>
      (journal.Some? ==> ValidHistory(journal.value) && journal.value.identity == rec.identity) &&
      (trafficOpened ==> Committed(v))
  }

  predicate GuardsFit(v: Persisted) {
    (Fenced(v) ==> v.guards == ALL_UNITS) &&
    (v.newEnabled ==> Committed(v)) &&
    (!v.oldEnabled ==> Committed(v)) &&
    (Committed(v) && v.guards != ALL_UNITS ==> v.newEnabled && !v.oldEnabled)
  }

  ghost predicate LogFits(log: seq<Event>, v: Persisted) {
    Outstanding(log) <= Begun(JournalOf(v)) &&
    (forall s | s in JournalOf(v).completed :: Started(s) in log) &&
    (Opened in log ==> Committed(v))
  }

  /** What runs now is compatible with finding version `v` on disk. */
  predicate ServicesFit(w: World, v: Persisted) {
    (w.running * OLD_UNITS != {} ==> Level(v) <= 3) &&
    (w.running * NEW_UNITS != {} ==> Level(v) >= 7) &&
    (Fenced(v) ==> w.fence != Down || (w.running == {} && !w.permit)) &&
    (TrafficOpened(v) ==> w.fence == Down)
  }

  /** From the snapshot on, what the legacy services left is the recorded tree, up to their
      own writes, and exactly that tree until one of them runs again. */
  ghost predicate RecordingFits(w: World, v: Persisted) {
    (v.work.Active? && v.work.storage.Some? ==> w.recording != NotYet) &&
    (w.recording != NotYet ==> LegacyWrote(w.origin, v.left)) &&
    (w.recording == Quiet ==> w.running * OLD_UNITS == {} && SameRoot(w.origin, v.left))
  }

  ghost predicate Fits(w: World, v: Persisted) {
    TreeFits(v, w.origin) && JournalFits(v) && GuardsFit(v) && LogFits(w.log, v) && ServicesFit(w, v) &&
    RecordingFits(w, v)
  }

  /** The same snapshot is remembered; legacy units may have run since. */
  predicate Remembers(w: World, w': World) {
    w'.origin == w.origin &&
    (w'.recording == w.recording || (w.recording == Quiet && w'.recording == Disturbed))
  }

  /** What is known about the snapshot once these units run. */
  function Witness(w: World, units: set<Unit>): Recording {
    if w.recording == Quiet && units * OLD_UNITS != {} then Disturbed else w.recording
  }

  /** Every version of the disk that a power loss could leave fits what is running. */
  ghost predicate Inv(w: World) {
    Orderly(w.log) && forall v: Persisted | w.disk.May(v) :: Fits(w, v)
  }

  // ---- What the invariant means outside ----

  /** A reachable legacy service: on every version a power loss may leave, the tree below the
      root is exactly what the legacy services last left, no original is in a backup and no
      commit can be found. After a recorded snapshot that tree is the recorded one, up to
      what the legacy services wrote since. */
  lemma ReachableOldServiceIsWholeAndUncommitted(w: World, v: Persisted)
    requires Inv(w) && Reachable(w, OldAgent) && w.disk.May(v)
    ensures AsLeft(v) && !Committed(v) && !Fenced(v)
    ensures v.work.Active? && v.work.storage.Some? ==> w.recording != NotYet
    ensures w.recording != NotYet ==> LegacyWrote(w.origin, v.files)
    ensures NewAgent !in w.running
  {
    assert Fits(w, v) && Fits(w, w.disk.now);
    assert OldAgent in w.running * OLD_UNITS;
    assert NewAgent in w.running ==> NewAgent in w.running * NEW_UNITS;
    if w.recording != NotYet {
      SameRootIsLegacy(v.left, v.files);
      LegacyWroteIsTransitive(w.origin, v.left, v.files);
    }
  }

  /** A reachable new service: the commit is durable and the tree is migrated. */
  lemma ReachableNewServiceIsCommitted(w: World, v: Persisted)
    requires Inv(w) && Reachable(w, NewAgent) && w.disk.May(v)
    ensures Committed(v)
    ensures v.work.Active? && v.work.storage.Some? && Migrated(v.work.record, v.work.storage.value, v.files)
  {
    assert Fits(w, v);
    assert NewAgent in w.running * NEW_UNITS;
  }

  /** Once the fence step is complete, and until commit or until the rollback reaches the
      fence again, nothing is reachable, whatever happens to process or power. */
  lemma NothingReachableWhileFenced(w: World, v: Persisted, agent: Unit)
    requires Inv(w) && w.disk.May(v) && Fenced(v)
    ensures !Reachable(w, agent)
  {
    assert Fits(w, v);
  }

  /** After traffic was opened every version on disk is committed and no step is ever undone. */
  lemma OpenedIsForever(w: World, v: Persisted, i: nat, j: nat)
    requires Inv(w) && w.disk.May(v)
    requires i < j < |w.log| && w.log[i] == Opened
    ensures Committed(v)
    ensures w.log[j] == Opened
  {
    assert Fits(w, v);
    NothingAfterOpening(w.log, i, j);
  }

  // ---- How the invariant is kept ----

  lemma WriteKeeps(w: World, next: Persisted)
    requires Inv(w) && Fits(w, next)
    ensures Inv(w.(disk := w.disk.Write(next)))
  {
    var w' := w.(disk := w.disk.Write(next));
    forall v: Persisted | w'.disk.May(v)
      ensures Fits(w', v)
    {
      assert v == next || w.disk.May(v);
      assert Fits(w, v);
    }
  }

  lemma SyncKeeps(w: World)
    requires Inv(w)
    ensures Inv(w.(disk := w.disk.Sync()))
  {
    var w' := w.(disk := w.disk.Sync());
    assert Fits(w, w.disk.now);
    assert forall v: Persisted | w'.disk.May(v) :: v == w.disk.now;
  }

  /** Changing only what is volatile keeps the invariant if every version still fits. */
  lemma VolatileKeeps(w: World, w': World)
    requires Inv(w)
    requires w' == w.(running := w'.running, fence := w'.fence, permit := w'.permit, recording := w'.recording)
    requires Remembers(w, w') && (w'.recording != Quiet || w'.running * OLD_UNITS <= w.running * OLD_UNITS)
    requires forall v: Persisted | w.disk.May(v) :: ServicesFit(w', v)
    ensures Inv(w')
  {
    forall v: Persisted | w'.disk.May(v)
      ensures Fits(w', v)
    {
      assert Fits(w, v);
    }
  }

  lemma LogKeeps(w: World, e: Event)
    requires Inv(w) && Orderly(w.log + [e])
    requires forall v: Persisted | w.disk.May(v) :: LogFits(w.log + [e], v)
    ensures Inv(w.(log := w.log + [e]))
  {
    var w' := w.(log := w.log + [e]);
    forall v: Persisted | w'.disk.May(v)
      ensures Fits(w', v)
    {
      assert Fits(w, v);
    }
  }

  // ---- The environment ----

  /** The units that start at boot: enabled, and not waiting for a permit that is gone. */
  function Booted(v: Persisted): set<Unit> {
    ((if v.oldEnabled then OLD_UNITS else {}) + (if v.newEnabled then NEW_UNITS else {})) - v.guards
  }

  /** Power loss and reboot: the disk is one of its versions, the firewall table and the
      permit are gone, and only what may start at boot runs. */
  function Rebooted(w: World, k: nat): World {
    var disk := w.disk.AfterPowerLoss(k);
    var running := Booted(disk.now);
    w.(disk := disk, running := running, fence := Down, permit := false, recording := Witness(w, running))
  }

  lemma RebootKeeps(w: World, k: nat)
    requires Inv(w)
    ensures Inv(Rebooted(w, k))
  {
    var w' := Rebooted(w, k);
    var v := w'.disk.now;
    assert w.disk.May(v);
    assert Fits(w, v);
    assert JournalFits(v) && GuardsFit(v);
    if Fenced(v) {
      assert Booted(v) == {};
    }
    if w'.running * OLD_UNITS != {} {
      assert v.oldEnabled && v.guards != ALL_UNITS;
    }
    if w'.running * NEW_UNITS != {} {
      assert v.newEnabled && Committed(v);
    }
    assert Fits(w', v);
    assert forall u: Persisted | w'.disk.May(u) :: u == v;
  }

  /** Paths that a running service writes: the legacy services anything in their data
      directory, the new services only the database files and the emergency journal. */
  predicate Writable(w: World, p: Path) {
    if w.running * OLD_UNITS != {} then p.Live? || p.LiveJournal? || p.Cache?
    else w.running * NEW_UNITS != {} && (p.Live? || p.LiveJournal?)
  }

  /** The running services have turned version `v` into `u`, as far as the tree goes: plain
      files at paths of their own, or nothing new. What legacy services write, they leave. */
  ghost predicate Served(w: World, v: Persisted, u: Persisted) {
    (u.files == v.files && u.left == v.left) ||
    (w.running != {} &&
     (forall p: Path | !Writable(w, p) :: Agree(v.files, u.files, p)) &&
     (forall p: Path | Writable(w, p) && !p.Cache? && p in u.files :: u.files[p].Regular?) &&
     u.left == if w.running * OLD_UNITS != {} then u.files else v.left)
  }

  /** Version `v` with the tree of `u`. */
  function Renewed(v: Persisted, u: Persisted): Persisted {
    v.(files := u.files, left := u.left)
  }

  /** The services do nothing, or one of them writes. */
  ghost predicate ServiceStep(w: World, w': World) {
    w' == w ||
    (w' == w.(disk := w.disk.Write(Renewed(w.disk.now, w'.disk.now))) &&
     Served(w, w.disk.now, w'.disk.now) && w.running != {})
  }

  lemma ServiceStepKeeps(w: World, w': World)
    requires Inv(w) && ServiceStep(w, w')
    ensures Inv(w')
  {
    if w' != w {
      var v, next := w.disk.now, w'.disk.now;
      assert Fits(w, v);
      ServedFits(w, v, next);
      WriteKeeps(w, next);
    }
  }

  lemma OneSideRuns(w: World)
    requires w.running != {} && w.running * OLD_UNITS == {}
    ensures w.running * NEW_UNITS != {}
  {
    var u :| u in w.running;
    assert u.OldAgent? || u.OldExecutor? || u.NewAgent? || u.NewExecutor?;
    assert u in w.running * OLD_UNITS || u in w.running * NEW_UNITS;
  }

  lemma ServiceTreeFits(w: World, v: Persisted, next: Persisted)
    requires TreeFits(v, w.origin) && ServicesFit(w, v)
    requires next == Renewed(v, next) && Served(w, v, next)
    ensures TreeFits(next, w.origin)
  {
    assert JournalOf(next) == JournalOf(v);
    if next.files == v.files && next.left == v.left {
      assert next == v;
    } else if w.running * OLD_UNITS != {} {
      assert Level(v) <= 3;
      assert forall p: Path | !(p.Live? || p.LiveJournal? || p.Cache?) :: Agree(v.files, next.files, p);
      UntouchedByOld(v.files, next.files);
    } else {
      OneSideRuns(w);
      assert Level(v) >= 7;
      assert forall p: Path | !(p.Live? || p.LiveJournal?) :: Agree(v.files, next.files, p);
      MigratedByNew(v.work.record, v.work.storage.value, w.origin, v.files, next.files);
    }
  }

  /** A version that fits still fits after the services have written. */
  lemma ServedFits(w: World, v: Persisted, next: Persisted)
    requires Fits(w, v) && next == Renewed(v, next) && Served(w, v, next)
    ensures Fits(w, next)
  {
    assert JournalOf(next) == JournalOf(v);
    ServiceTreeFits(w, v, next);
    ServedRecordingFits(w, v, next);
  }

  lemma ServedRecordingFits(w: World, v: Persisted, next: Persisted)
    requires Fits(w, v) && next == Renewed(v, next) && Served(w, v, next)
    ensures RecordingFits(w, next)
  {
    if w.running * OLD_UNITS != {} {
      ServedByLegacy(w, v, next);
      if w.recording != NotYet && next != v {
        SameRootIsLegacy(v.left, v.files);
        LegacyWroteIsTransitive(w.origin, v.left, v.files);
        LegacyWroteIsTransitive(w.origin, v.files, next.files);
      }
    } else {
      ServedKeepsLeft(w, v, next);
    }
  }

  lemma ServedIsTransitive(w: World, f: Persisted, g: Persisted, h: Persisted)
    requires Served(w, f, g) && Served(w, g, h)
    ensures Served(w, f, h)
  {
    if w.running != {} {
      forall p: Path | !Writable(w, p)
        ensures Agree(f.files, h.files, p)
      {
        assert Agree(f.files, g.files, p) && Agree(g.files, h.files, p);
      }
    }
  }

  lemma SameRootIsLegacy(f: Tree, g: Tree)
    requires SameRoot(f, g)
    ensures LegacyWrote(f, g)
  {
  }

  lemma SameRootIsTransitive(f: Tree, g: Tree, h: Tree)
    requires SameRoot(f, g) && SameRoot(g, h)
    ensures SameRoot(f, h)
  {
    forall p: Path | p.AtRoot()
      ensures Agree(f, h, p)
    {
      assert Agree(f, g, p) && Agree(g, h, p);
    }
  }

  lemma SameRootIsSymmetric(f: Tree, g: Tree)
    requires SameRoot(f, g)
    ensures SameRoot(g, f)
  {
    forall p: Path | p.AtRoot()
      ensures Agree(g, f, p)
    {
      assert Agree(f, g, p);
    }
  }

  lemma LegacyWroteIsTransitive(f: Tree, g: Tree, h: Tree)
    requires LegacyWrote(f, g) && LegacyWrote(g, h)
    ensures LegacyWrote(f, h)
  {
    forall p: Path | p.AtRoot() && !p.Cache?
      ensures Agree(f, h, p) || ((p.Live? || p.LiveJournal?) && (p in h ==> h[p].Regular?))
    {
      assert Agree(f, g, p) || ((p.Live? || p.LiveJournal?) && (p in g ==> g[p].Regular?));
      assert Agree(g, h, p) || ((p.Live? || p.LiveJournal?) && (p in h ==> h[p].Regular?));
    }
  }

  lemma ServedByLegacy(w: World, v: Persisted, u: Persisted)
    requires ServicesFit(w, v) && Level(v) <= 3 && Served(w, v, u)
    ensures LegacyWrote(v.files, u.files)
    ensures u.files != v.files ==> u.left == u.files
  {
    assert w.running * NEW_UNITS == {};
    if u.files != v.files {
      assert w.running * OLD_UNITS != {} by {
        if w.running * OLD_UNITS == {} {
          OneSideRuns(w);
        }
      }
      assert forall p: Path :: Writable(w, p) == (p.Live? || p.LiveJournal? || p.Cache?);
    }
  }

  /** With no legacy unit running nothing changes what the legacy services left. */
  lemma ServedKeepsLeft(w: World, v: Persisted, u: Persisted)
    requires Served(w, v, u) && w.running * OLD_UNITS == {}
    ensures u.left == v.left
  {
  }

  lemma UntouchedByOld(f: Tree, g: Tree)
    requires Untouched(f)
    requires forall p: Path | !(p.Live? || p.LiveJournal? || p.Cache?) :: Agree(f, g, p)
    ensures Untouched(g)
    ensures NoBackups(f) ==> NoBackups(g)
    ensures (forall p | p in f :: p.AtRoot()) ==> (forall p | p in g :: p.AtRoot())
  {
    assert Agree(f, g, Data(false)) && Agree(f, g, Data(true));
    assert Agree(f, g, BackupJournal) && forall n: DbFile :: Agree(f, g, Backup(n));
    forall i | 0 <= i < ASSETS
      ensures Published(i) !in g
    {
      assert Agree(f, g, Published(i));
    }
    forall b: bool
      ensures Account(b, false) in g && Account(b, true) !in g
    {
      assert Agree(f, g, Account(b, false)) && Agree(f, g, Account(b, true));
    }
    if forall p | p in f :: p.AtRoot() {
      forall p | p in g
        ensures p.AtRoot()
      {
        assert !p.AtRoot() ==> Agree(f, g, p);
      }
    }
  }

  lemma StagingByOld(rec: Record, f: Tree, g: Tree)
    requires |rec.assets| == ASSETS && Staging(rec, f)
    requires forall p: Path | !(p.Live? || p.LiveJournal? || p.Cache?) :: Agree(f, g, p)
    ensures Staging(rec, g)
  {
    forall i | 0 <= i < ASSETS
      ensures Holds(g, Staged(i), rec.assets[i]) && Published(i) !in g
    {
      assert Agree(f, g, Published(i)) && Agree(f, g, Staged(i));
    }
    forall b: bool
      ensures Holds(g, Account(b, false), AccountId(rec, b)) && Account(b, true) !in g
    {
      assert Agree(f, g, Account(b, false)) && Agree(f, g, Account(b, true));
    }
    forall n: DbFile
      ensures Backup(n) !in g && Failed(n) !in g
    {
      assert Agree(f, g, Backup(n)) && Agree(f, g, Failed(n));
    }
    assert Agree(f, g, BackupJournal) && Agree(f, g, FailedJournal);
  }

  lemma MigratedByNew(rec: Record, s: Storage, o: Tree, f: Tree, g: Tree)
    requires Migrated(rec, s, f) && Framed(s, o, f)
    requires forall p: Path | !(p.Live? || p.LiveJournal?) :: Agree(f, g, p)
    requires forall p: Path | (p.Live? || p.LiveJournal?) && p in g :: g[p].Regular?
    ensures Migrated(rec, s, g) && Framed(s, o, g)
  {
    forall i | 0 <= i < ASSETS
      ensures Staged(i) !in g && Holds(g, Published(i), rec.assets[i])
    {
      assert Agree(f, g, Published(i)) && Agree(f, g, Staged(i));
    }
    forall b: bool
      ensures Holds(g, Account(b, true), AccountId(rec, b)) && Account(b, false) !in g
    {
      assert Agree(f, g, Account(b, false)) && Agree(f, g, Account(b, true));
    }
    assert Agree(f, g, Data(false)) && Agree(f, g, Data(true));
    forall i | 0 <= i < |s.caches|
      ensures Cache(s.caches[i].from) !in g && Holds(g, Cache(s.caches[i].to), s.caches[i].id)
    {
      assert Agree(f, g, Cache(s.caches[i].from)) && Agree(f, g, Cache(s.caches[i].to));
    }
    forall n: DbFile
      ensures SlotAway(g, Live(n), Backup(n), Failed(n), OriginalDb(s, n))
    {
      assert SlotAway(f, Live(n), Backup(n), Failed(n), OriginalDb(s, n));
      assert Agree(f, g, Backup(n)) && Agree(f, g, Failed(n));
    }
    assert Agree(f, g, BackupJournal) && Agree(f, g, FailedJournal);
    forall p: Path | Untracked(s, p)
      ensures Agree(o, g, p)
    {
      assert Agree(o, f, p) && Agree(f, g, p);
    }
  }
}
