/** The three migration commands, and everything that can happen to an appliance while they
    are used (cli.rs). */
module Commands {
  import opened Durable
  import opened Files
  import opened Layout
  import opened History
  import opened World
  import opened Relocation
  import opened FenceActions
  import opened JournalFile
  import opened SnapshotStep
  import opened HostActions
  import opened Runner
  import Containers

  // ---- Writing the transaction directory ----

  /** Replace what is on disk now by `next` with one rename, and sync. */
  method Settle(m: Machine, next: Persisted) returns (r: Outcome)
    requires Inv(m.w) && Fits(m.w, next)
    modifies m
    ensures r != Refused && Inv(m.w) && m.w == old(m.w).(disk := m.w.disk)
    ensures r == Done ==>
              m.w.disk.Settled() && Served(old(m.w), next, m.w.disk.now) && m.w.disk.now == Renewed(next, m.w.disk.now)
    ensures r == Stopped ==> m.budget == 0
    ensures m.budget <= old(m.budget) <= m.budget + 1
  {
    WriteKeeps(m.w, next);
    m.w := m.w.(disk := m.w.disk.Write(next));
    var synced := SyncDisk(m);
    return if synced then Done else Stopped;
  }

  /** Open the journal of the active transaction. What a crash left is never refused. */
  method TakeUp(m: Machine) returns (r: Outcome, j: Journal)
    requires Inv(m.w) && m.w.disk.now.work.Active?
    modifies m
    ensures r != Refused && Inv(m.w) && fresh(j) && m.w == old(m.w).(disk := m.w.disk)
    ensures r == Done ==>
              InHand(j, m) && j.state == Found(old(m.w.disk.now), old(m.w.disk.now.work.record.identity)) &&
              Saved(old(m.w), m.w, j.state) && JournalOf(m.w.disk.now) == j.state
    ensures r == Stopped ==> m.budget == 0
    ensures m.budget <= old(m.budget) <= m.budget + 3
  {
    ghost var w0 := m.w;
    FoundFits(w0);
    r, j := Open(m, m.w.disk.now.work.record.identity);
    SavingKeeps(w0, m.w, j.state);
    if r == Done {
      HeldIsOn(j, m);
    }
  }

  // ---- migrate ----

  /** What the preflight demands of the tree and the firewall. */
  predicate Preflight(w: World) {
    w.disk.now.work.NoWork? && Untouched(w.disk.now.files) && w.fence == Down
  }

  /** The transaction that `stage` prepares: the release assets, the numeric identities of
      the service accounts, and the renamed cache keys. */
  function Planned(f: Tree, identity: nat, assets: seq<Node>, keys: seq<(string, string)>): Record
    requires Untouched(f)
  {
    Record(identity, assets, f[Account(false, false)], f[Account(true, false)], keys)
  }

  function WithStage(f: Tree, assets: seq<Node>): Tree {
    map p: Path | p in f.Keys + (set i | 0 <= i < |assets| :: Staged(i)) ::
      if p.Staged? && 0 <= p.asset < |assets| then assets[p.asset] else if p in f then f[p] else Number(0)
  }

  lemma StageFits(w: World, rec: Record)
    requires Inv(w) && Preflight(w) && GoodRecord(rec)
    requires rec == Planned(w.disk.now.files, rec.identity, rec.assets, rec.cacheKeys)
    ensures var f := WithStage(w.disk.now.files, rec.assets);
            Staging(rec, f) && Fits(w, w.disk.now.(work := Active(rec, None, None, false), files := f))
  {
    var now := w.disk.now;
    assert w.disk.May(now);
    assert Fits(w, now);
    StagedTree(now.files, rec);
    var v := now.(work := Active(rec, None, None, false), files := WithStage(now.files, rec.assets));
    assert JournalOf(v) == Fresh(0) && JournalOf(now) == Fresh(0);
    SameRootIsTransitive(now.left, now.files, v.files);
    assert TreeFits(v, w.origin);
  }

  lemma StagedTree(f: Tree, rec: Record)
    requires Untouched(f) && (forall p | p in f :: p.AtRoot()) && |rec.assets| == ASSETS
    requires rec == Planned(f, rec.identity, rec.assets, rec.cacheKeys)
    ensures var g := WithStage(f, rec.assets); Untouched(g) && Staging(rec, g) && SameRoot(f, g) && NoBackups(g)
  {
    var g := WithStage(f, rec.assets);
    assert forall p: Path | !p.Staged? :: Agree(f, g, p);
    SameRootUntouched(f, g);
    forall i | 0 <= i < ASSETS
      ensures Holds(g, Staged(i), rec.assets[i]) && Published(i) !in g
    {
      assert Staged(i) in g;
    }
    forall b: bool
      ensures Holds(g, Account(b, false), AccountId(rec, b)) && Account(b, true) !in g
    {
      assert Agree(f, g, Account(b, false)) && Agree(f, g, Account(b, true));
    }
    forall n: DbFile
      ensures Backup(n) !in g && Failed(n) !in g
    {
      assert Agree(f, g, Backup(n)) && Agree(f, g, Failed(n));
    }
    assert Agree(f, g, BackupJournal) && Agree(f, g, FailedJournal);
  }

  lemma SameRootUntouched(f: Tree, g: Tree)
    requires Untouched(f) && SameRoot(f, g)
    ensures Untouched(g)
  {
    assert Agree(f, g, Data(false)) && Agree(f, g, Data(true));
    forall i | 0 <= i < ASSETS
      ensures Published(i) !in g
    {
      assert Agree(f, g, Published(i));
    }
    forall b: bool
      ensures Account(b, false) in g && Account(b, true) !in g
    {
      assert Agree(f, g, Account(b, false)) && Agree(f, g, Account(b, true));
    }
  }

  /** A new transaction starts with an empty log. */
  lemma LogStartsEmpty(w: World)
    requires Inv(w) && w.disk.Settled() && w.disk.now.work.Active?
    requires w.disk.now.work.journal.None? && w.disk.now.work.storage.None?
    ensures Inv(w.(log := [], recording := NotYet))
  {
    var w' := w.(log := [], recording := NotYet);
    assert w.disk.May(w.disk.now);
    assert Outstanding([]) == {};
    assert forall v: Persisted | w'.disk.May(v) :: v == w.disk.now;
  }

  /** Stage the transaction with one rename; from here on only `--recover` or `--resume`
      applies. The plan was made a while ago, and the services may have written since. */
  method Stage(m: Machine, rec: Record) returns (r: Outcome)
    requires Inv(m.w) && Preflight(m.w) && GoodRecord(rec)
    requires rec == Planned(m.w.disk.now.files, rec.identity, rec.assets, rec.cacheKeys)
    modifies m
    ensures r != Refused && Inv(m.w) && Opened !in m.w.log
    ensures m.w.running == old(m.w.running) && m.w.fence == Down
    ensures r == Done ==>
              m.w.disk.now.work == Active(rec, None, None, false) && Staging(rec, m.w.disk.now.files) &&
              m.w.disk.Settled() && m.w.log == []
    ensures r == Done ==> LegacyWrote(old(m.w.disk.now.files), m.w.disk.now.files)
    ensures r == Done ==> OnlyStaged(m.w.disk.now.files)
    ensures r == Stopped ==> m.budget == 0
    ensures m.budget <= old(m.budget) <= m.budget + 2
  {
    ghost var w0 := m.w;
    assert w0.disk.May(w0.disk.now);
    var prepared := Wait(m);
    if !prepared {
      return Stopped;
    }
    PlanStands(w0, m.w, rec);
    ghost var f := m.w.disk.now.files;
    ServedByLegacy(w0, w0.disk.now, m.w.disk.now);
    r := Enter(m, rec);
    if r == Done {
      LegacyWroteIsTransitive(w0.disk.now.files, f, m.w.disk.now.files);
    }
  }

  /** The rename that makes the prepared directory the active one. */
  method Enter(m: Machine, rec: Record) returns (r: Outcome)
    requires Inv(m.w) && Preflight(m.w) && GoodRecord(rec)
    requires rec == Planned(m.w.disk.now.files, rec.identity, rec.assets, rec.cacheKeys)
    modifies m
    ensures r != Refused && Inv(m.w) && Opened !in m.w.log
    ensures m.w.running == old(m.w.running) && m.w.fence == Down
    ensures r == Done ==>
              m.w.disk.now.work == Active(rec, None, None, false) && Staging(rec, m.w.disk.now.files) &&
              m.w.disk.Settled() && m.w.log == []
    ensures r == Done ==> LegacyWrote(old(m.w.disk.now.files), m.w.disk.now.files)
    ensures r == Done ==> OnlyStaged(m.w.disk.now.files)
    ensures r == Stopped ==> m.budget == 0
    ensures m.budget <= old(m.budget) <= m.budget + 1
  {
    ghost var w1 := m.w;
    StageFits(w1, rec);
    assert w1.disk.May(w1.disk.now);
    var next := m.w.disk.now.(work := Active(rec, None, None, false))
                            .(files := WithStage(m.w.disk.now.files, rec.assets));
    r := Settle(m, next);
    if r != Done {
      return r;
    }
    EnteredServed(w1, rec, next, m.w.disk.now);
    LogStartsEmpty(m.w);
    m.w := m.w.(log := [], recording := NotYet);
  }

  lemma PlanStands(w: World, w': World, rec: Record)
    requires Inv(w) && Preflight(w) && Inv(w') && Kept(w, w') && w'.fence == w.fence
    requires rec == Planned(w.disk.now.files, rec.identity, rec.assets, rec.cacheKeys)
    ensures Preflight(w') && rec == Planned(w'.disk.now.files, rec.identity, rec.assets, rec.cacheKeys)
  {
    assert w.disk.May(w.disk.now) && w'.disk.May(w'.disk.now);
    assert Fits(w, w.disk.now) && Fits(w', w'.disk.now);
    ServedByLegacy(w, w.disk.now, w'.disk.now);
    assert forall b: bool :: Account(b, false).AtRoot();
  }

  /** Legacy services do not disturb what has just been staged. */
  lemma StagedServed(w: World, rec: Record, v: Persisted, u: Persisted)
    requires Inv(w) && Level(w.disk.now) == 0 && |rec.assets| == ASSETS && Staging(rec, v.files) && Served(w, v, u)
    ensures Staging(rec, u.files)
  {
    assert w.disk.May(w.disk.now);
    assert Fits(w, w.disk.now);
    assert w.running * NEW_UNITS == {};
    if u.files != v.files {
      assert forall p: Path | !(p.Live? || p.LiveJournal? || p.Cache?) :: !Writable(w, p);
      StagingByOld(rec, v.files, u.files);
    }
  }

  /** What services write meanwhile does not spoil the staged transaction. */
  lemma EnteredServed(w: World, rec: Record, v: Persisted, u: Persisted)
    requires Inv(w) && Preflight(w) && GoodRecord(rec) && Fits(w, v) && Level(v) == 0 && Served(w, v, u)
    requires v.files == WithStage(w.disk.now.files, rec.assets) && Staging(rec, v.files)
    ensures Staging(rec, u.files) && LegacyWrote(w.disk.now.files, u.files) && OnlyStaged(u.files)
  {
    assert w.disk.May(w.disk.now);
    assert Fits(w, w.disk.now);
    StagedServed(w, rec, v, u);
    StagedByLegacy(w, rec, v, u);
    OnlyStagedServed(w, v, u);
  }

  /** The working directory holds the release assets and nothing else. */
  predicate OnlyStaged(f: Tree) {
    forall p | p in f :: p.AtRoot() || (p.Staged? && p.asset < ASSETS)
  }

  lemma OnlyStagedServed(w: World, v: Persisted, u: Persisted)
    requires OnlyStaged(v.files) && Served(w, v, u)
    ensures OnlyStaged(u.files)
  {
    forall p | p in u.files && !p.AtRoot()
      ensures p.Staged? && p.asset < ASSETS
    {
      assert !Writable(w, p);
      assert Agree(v.files, u.files, p);
    }
  }

  lemma StagedByLegacy(w: World, rec: Record, v: Persisted, u: Persisted)
    requires Inv(w) && Level(w.disk.now) == 0 && Fits(w, v) && Level(v) == 0 && Served(w, v, u)
    requires v.files == WithStage(w.disk.now.files, rec.assets)
    ensures LegacyWrote(w.disk.now.files, u.files)
  {
    assert forall p: Path | p.AtRoot() :: Agree(w.disk.now.files, v.files, p);
    SameRootIsLegacy(w.disk.now.files, v.files);
    ServedByLegacy(w, v, u);
    LegacyWroteIsTransitive(w.disk.now.files, v.files, u.files);
  }

  /** `opened.json`: traffic has been opened and `--resume` has nothing left to do. */
  method MarkOpened(m: Machine, st: State) returns (r: Outcome)
    requires Inv(m.w) && On(m.w, st) && st.committed && m.w.fence == Down
    modifies m
    ensures r != Refused && Inv(m.w) && m.w == old(m.w).(disk := m.w.disk)
    ensures r == Done ==> TrafficOpened(m.w.disk.now) && JournalOf(m.w.disk.now) == st
    ensures r == Done ==> m.w.disk.now.work == old(m.w.disk.now.work).(trafficOpened := true)
    ensures r == Stopped ==> m.budget == 0
    ensures m.budget <= old(m.budget) <= m.budget + 2
  {
    var written := Wait(m);
    if !written {
      return Stopped;
    }
    OnNow(m.w, st);
    var next := m.w.disk.now.(work := m.w.disk.now.work.(trafficOpened := true));
    assert JournalOf(next) == st;
    r := Settle(m, next);
  }

  /** `migrate --yes`: stage, cut over, commit, open. Undisturbed it completes, unless the
      preflight fails, the legacy agent does not run or the snapshot is obstructed. */
  method Migrate(m: Machine, identity: nat, assets: seq<Node>, keys: seq<(string, string)>,
                 candidate: Node, converted: Node) returns (r: Outcome)
    requires Inv(m.w) && |assets| == ASSETS && DistinctTargets(keys)
    requires candidate.Regular? && converted.Regular?
    modifies m
    ensures Inv(m.w) && (old(Opened in m.w.log) ==> Opened in m.w.log)
    ensures !old(Preflight(m.w)) ==> r == Refused && m.w == old(m.w)
    ensures r == Refused ==>
              old(!Preflight(m.w) || OldAgent !in m.w.running) ||
              (m.w.disk.now.work.Active? && Obstructed(m.w.disk.now.work.record, m.w.disk.now.files))
    ensures r == Done ==> Reachable(m.w, NewAgent) && TrafficOpened(m.w.disk.now)
    ensures r == Done ==>
              LegacyWrote(old(m.w.disk.now.files), m.w.origin) &&
              Delivered(m.w, identity, assets, keys, candidate, converted)
    ensures r == Stopped ==> m.budget == 0
    ensures m.budget <= old(m.budget) <= m.budget + 24 * |keys| + 456
  {
    assert m.w.disk.May(m.w.disk.now);
    if !Preflight(m.w) {
      return Refused;
    }
    var rec := Planned(m.w.disk.now.files, identity, assets, keys);
    r := Stage(m, rec);
    if r != Done {
      return r;
    }
    ghost var w0, w1 := old(m.w), m.w;
    r := Carry(m, rec, candidate, converted);
    if r == Done {
      LegacyWroteIsTransitive(w0.disk.now.files, w1.disk.now.files, m.w.origin);
      MigratedIsDelivered(m.w, identity, assets, keys, candidate, converted);
    }
  }

  /** What a completed migration has made of the tree that the legacy services last left: data
      directory, accounts and caches under their new names, the given release published, and
      every original database file kept in the backup, to be replaced by the given files. */
  ghost predicate Delivered(w: World, identity: nat, assets: seq<Node>, keys: seq<(string, string)>,
                            candidate: Node, converted: Node)
  {
    var f, o, work := w.disk.now.files, w.origin, w.disk.now.work;
    work.Active? && work.record.identity == identity && work.record.assets == assets &&
    work.record.cacheKeys == keys && work.storage.Some? && work.storage.value.candidate == candidate &&
    work.storage.value.emergency.candidate == (if LiveJournal in o then Some(converted) else None) &&
    (forall i | 0 <= i < |assets| :: Holds(f, Published(i), assets[i]) && Staged(i) !in f) &&
    Data(false) !in f && Data(false) in o && Holds(f, Data(true), o[Data(false)]) &&
    (forall g: bool ::
       Account(g, false) !in f && Account(g, false) in o && Holds(f, Account(g, true), o[Account(g, false)])) &&
    (forall n: DbFile :: if Live(n) in o then Holds(f, Backup(n), o[Live(n)]) else Backup(n) !in f) &&
    (if LiveJournal in o then Holds(f, BackupJournal, o[LiveJournal]) else BackupJournal !in f) &&
    CachesRenamed(keys, o, f)
  }

  /** The caches that were there are under the new key of their first entry in the plan. */
  predicate CachesRenamed(keys: seq<(string, string)>, o: Tree, f: Tree) {
    forall i | 0 <= i < |keys| && First(keys, i) && Cache(keys[i].0) in o ::
      Cache(keys[i].0) !in f && Holds(f, Cache(keys[i].1), o[Cache(keys[i].0)])
  }

  lemma GatheredAreRenamed(s: Storage, keys: seq<(string, string)>, o: Tree, f: Tree)
    requires Gathers(keys, o, s.caches) && CachesAway(s, f)
    ensures CachesRenamed(keys, o, f)
  {
    forall i | 0 <= i < |keys| && First(keys, i) && Cache(keys[i].0) in o
      ensures Cache(keys[i].0) !in f && Holds(f, Cache(keys[i].1), o[Cache(keys[i].0)])
    {
      var c := CacheMove(keys[i].0, keys[i].1, o[Cache(keys[i].0)]);
      var n :| 0 <= n < |s.caches| && s.caches[n] == c;
    }
  }

  lemma MigratedIsDelivered(w: World, identity: nat, assets: seq<Node>, keys: seq<(string, string)>,
                            candidate: Node, converted: Node)
    requires Inv(w) && TrafficOpened(w.disk.now) && w.disk.now.work.storage.Some?
    requires var rec := w.disk.now.work.record;
             rec.identity == identity && rec.assets == assets && rec.cacheKeys == keys
    requires Converts(w.disk.now.work.storage.value, w.origin, candidate, converted)
    ensures Delivered(w, identity, assets, keys, candidate, converted)
  {
    var v, o := w.disk.now, w.origin;
    var rec, s := v.work.record, v.work.storage.value;
    assert w.disk.May(v);
    assert Fits(w, v);
    assert Level(v) >= 7 && Migrated(rec, s, v.files) && Home(rec, s, o);
    forall n: DbFile
      ensures if Live(n) in o then Holds(v.files, Backup(n), o[Live(n)]) else Backup(n) !in v.files
    {
      assert SlotHome(o, Live(n), Backup(n), OriginalDb(s, n));
      assert SlotAway(v.files, Live(n), Backup(n), Failed(n), OriginalDb(s, n));
    }
    GatheredAreRenamed(s, keys, o, v.files);
  }

  /** Everything after the staging. */
  method Carry(m: Machine, rec: Record, candidate: Node, converted: Node) returns (r: Outcome)
    requires Inv(m.w) && GoodRecord(rec) && Staging(rec, m.w.disk.now.files) && m.w.fence == Down
    requires m.w.disk.now.work == Active(rec, None, None, false)
    requires candidate.Regular? && converted.Regular?
    modifies m
    ensures Inv(m.w)
    ensures r == Refused ==>
              OldAgent !in old(m.w.running) ||
              (m.w.disk.now.work.Active? && Obstructed(m.w.disk.now.work.record, m.w.disk.now.files))
    ensures r == Done ==> Reachable(m.w, NewAgent) && TrafficOpened(m.w.disk.now)
    ensures r == Done ==> Carried(old(m.w), m.w, |STEPS|, candidate, converted)
    ensures r == Stopped ==> m.budget == 0
    ensures m.budget <= old(m.budget) <= m.budget + 24 * |rec.cacheKeys| + 454
  {
    ghost var w1 := m.w;
    var j;
    r, j := TakeUp(m);
    if r != Done {
      return r;
    }
    ReadyToRun(w1, m.w, j.state, rec);
    ghost var w2 := m.w;
    r := RunToCommit(m, j, candidate, converted);
    if r != Done {
      return r;
    }
    CarriedFromStage(w1, w2, m.w, j.state, candidate, converted);
    r := Release(m, j);
  }

  lemma CarriedFromStage(w1: World, w2: World, w3: World, st: State, candidate: Node, converted: Node)
    requires Inv(w1) && w1.disk.now.work.Active? && Level(w1.disk.now) == 0 && Served(w1, w1.disk.now, w2.disk.now)
    requires w2.disk.now.work.Active? && w2.disk.now.work.record == w1.disk.now.work.record
    requires Carried(w2, w3, |STEPS|, candidate, converted)
    ensures Carried(w1, w3, |STEPS|, candidate, converted)
  {
    assert w1.disk.May(w1.disk.now);
    assert Fits(w1, w1.disk.now);
    ServedByLegacy(w1, w1.disk.now, w2.disk.now);
    LegacyWroteIsTransitive(w1.disk.now.files, w2.disk.now.files, w3.origin);
  }

  lemma ReadyToRun(w: World, w': World, st: State, rec: Record)
    requires GoodRecord(rec) && Staging(rec, w.disk.now.files)
    requires Inv(w) && w.disk.now.work == Active(rec, None, None, false)
    requires Inv(w') && Saved(w, w', st) && st == Fresh(st.identity)
    ensures st == Forward(st.identity, 0) && Ready(w', 0)
  {
    assert STEPS[..0] == [];
    StagedServed(w, rec, w.disk.now, w'.disk.now);
  }

  /** Open traffic and leave the mark. */
  method Release(m: Machine, j: Journal) returns (r: Outcome)
    requires InHand(j, m) && j.state.committed && NewAgent in m.w.running
    modifies m, j
    ensures r != Refused && Inv(m.w) && Opened in m.w.log
    ensures r == Done ==> Reachable(m.w, NewAgent) && TrafficOpened(m.w.disk.now)
    ensures r == Done ==>
              old(m.w.disk.now.work.Active?) && m.w.origin == old(m.w.origin) &&
              m.w.disk.now.work == old(m.w.disk.now.work).(trafficOpened := true)
    ensures r == Stopped ==> m.budget == 0
    ensures m.budget <= old(m.budget) <= m.budget + 16
  {
    HeldIsOn(j, m);
    r := OpenTraffic(m, j.state);
    if r != Done {
      return r;
    }
    r := MarkOpened(m, j.state);
  }

  // ---- migrate --recover ----

  function RootOnly(f: Tree): Tree {
    map p: Path | p in f && p.AtRoot() :: f[p]
  }

  lemma ArchiveFits(w: World)
    requires Inv(w) && w.disk.now.work.Active? && JournalOf(w.disk.now) == Fresh(JournalOf(w.disk.now).identity)
    requires Outstanding(w.log) == {}
    ensures Fits(w, w.disk.now.(work := NoWork, files := RootOnly(w.disk.now.files)))
  {
    var now := w.disk.now;
    assert w.disk.May(now);
    assert Fits(w, now);
    var v := now.(work := NoWork, files := RootOnly(now.files));
    assert forall p: Path | p.AtRoot() :: Agree(now.files, v.files, p);
    SameRootUntouched(now.files, v.files);
    SameRootIsTransitive(now.left, now.files, v.files);
    assert JournalOf(v) == Fresh(0);
  }

  /** Rename the transaction directory, and sync. */
  method Archive(m: Machine, ghost st: State) returns (r: Outcome)
    requires Inv(m.w) && On(m.w, st) && st == Fresh(st.identity) && Outstanding(m.w.log) == {}
    modifies m
    ensures r != Refused && Inv(m.w) && m.w == old(m.w).(disk := m.w.disk)
    ensures r == Done ==> m.w.disk.now.work.NoWork? && m.w.disk.Settled()
    ensures r == Done ==> m.w.disk.now.guards == old(m.w.disk.now.guards)
    ensures r == Done ==> LegacyWrote(old(m.w.disk.now.files), m.w.disk.now.files)
    ensures r == Stopped ==> m.budget == 0
    ensures m.budget <= old(m.budget) <= m.budget + 2
  {
    ghost var w0 := m.w;
    OnNow(w0, st);
    var reached := Wait(m);
    if !reached {
      return Stopped;
    }
    ghost var w1 := m.w;
    OnNow(w1, st);
    ArchiveFits(w1);
    var next := m.w.disk.now.(work := NoWork, files := RootOnly(m.w.disk.now.files));
    r := Settle(m, next);
    if r == Done {
      ServedByLegacy(w0, w0.disk.now, w1.disk.now);
      assert forall p: Path | p.AtRoot() :: Agree(w1.disk.now.files, next.files, p);
      SameRootIsLegacy(w1.disk.now.files, next.files);
      ServedByLegacy(w1, next, m.w.disk.now);
      LegacyWroteIsTransitive(w1.disk.now.files, next.files, m.w.disk.now.files);
      LegacyWroteIsTransitive(w0.disk.now.files, w1.disk.now.files, m.w.disk.now.files);
    }
  }

  /** Restore the fence, roll back, and put the transaction directory aside. */
  method Withdraw(m: Machine, j: Journal) returns (r: Outcome, ghost found: Tree)
    requires InHand(j, m) && !j.state.committed
    modifies m, j
    ensures Inv(m.w) && (old(Opened in m.w.log) ==> Opened in m.w.log)
    ensures Remembers(old(m.w), m.w)
    ensures r == Refused ==> old(LevelOf(j.state) >= 1 && !AgentWillRun(LevelOf(j.state), m.w.running))
    ensures r == Done ==> old(LevelOf(j.state) == 0 || AgentWillRun(LevelOf(j.state), m.w.running))
    ensures r == Done ==> m.w.disk.now.work.NoWork? && m.w.disk.Settled() && Outstanding(m.w.log) == {}
    ensures r == Done ==> Met(found, old(m.w), m.w)
    ensures r == Done && old(LevelOf(j.state)) >= 1 ==>
              Reachable(m.w, OldAgent) && !m.w.permit && m.w.disk.now.guards == {}
    ensures r == Done && old(LevelOf(j.state)) == 0 ==>
              m.w.fence == Sealed && m.w.permit && m.w.disk.now.guards == ALL_UNITS &&
              m.w.running == old(m.w.running)
    ensures r == Stopped ==> m.budget == 0
    ensures m.budget <= old(m.budget) <= m.budget + 3 * CacheCount(old(m.w.disk.now)) + 200
  {
    ghost var w0, st := m.w, j.state;
    found := m.w.disk.now.files;
    HeldIsOn(j, m);
    UncommittedIsUnopened(m.w, st);
    r := RestoreFence(m);
    if r != Done {
      return;
    }
    ghost var w1 := m.w;
    r, found := Recover(m, j);
    if r != Done {
      return;
    }
    HeldIsOn(j, m);
    ghost var w2 := m.w;
    r := Archive(m, j.state);
    if r == Done {
      LeftServed(w0, st, w0.disk.now, w1.disk.now);
      LegacyWroteIsTransitive(w0.disk.now.left, w1.disk.now.left, found);
      LegacyWroteIsTransitive(found, w2.disk.now.files, m.w.disk.now.files);
    }
  }

  /** A signed handoff: the approval, the plan of the record and the containers listed. */
  datatype Handoff = Handoff(approval: Containers.Approval, host: string, active: seq<Containers.Active>,
                             inventory: seq<Containers.Inspect>)
  {
    predicate Applies() {
      Containers.Applicable(approval, host, active, inventory)
    }
  }

  /** When `--recover` gives up: nothing staged, committed, a handoff that does not apply or
      is away from the checkpoint, or a legacy agent that nothing will start. */
  predicate Hopeless(w: World, handoff: Option<Handoff>) {
    var v := w.disk.now;
    v.work.NoWork? || Committed(v) ||
    (handoff.Some? && !(AtCheckpoint(JournalOf(v)) && handoff.value.Applies())) ||
    (Level(v) >= 1 && !AgentWillRun(Level(v), w.running))
  }

  predicate AtCheckpoint(st: State) {
    !st.committed && st.rollingBack && st.pending.None? && |st.completed| <= 3
  }

  /** More operations than `--recover` ever needs. */
  function RecoveryCost(w: World): nat {
    3 * CacheCount(w.disk.now) + 203
  }

  /** `migrate --recover`. From level 0, where the fence was never raised or was already
      taken down, the command raises it again and leaves it: the appliance ends sealed,
      guarded and without a transaction. From every other level that it accepts, the legacy
      agent is reachable again and meets the tree it had. Undisturbed, it completes exactly
      if it is not hopeless. */
  method RecoverCommand(m: Machine, handoff: Option<Handoff>) returns (r: Outcome, ghost found: Tree)
    requires Inv(m.w)
    modifies m
    ensures Inv(m.w) && (old(Opened in m.w.log) ==> Opened in m.w.log)
    ensures Remembers(old(m.w), m.w)
    ensures r == Refused ==> old(Hopeless(m.w, handoff))
    ensures r == Done ==> !old(Hopeless(m.w, handoff))
    ensures r == Done ==> m.w.disk.now.work.NoWork? && m.w.disk.Settled() && Outstanding(m.w.log) == {}
    ensures r == Done ==> Met(found, old(m.w), m.w)
    ensures r == Done && old(Level(m.w.disk.now)) >= 1 ==>
              Reachable(m.w, OldAgent) && !m.w.permit && m.w.disk.now.guards == {}
    ensures r == Done && old(Level(m.w.disk.now)) == 0 ==>
              m.w.fence == Sealed && m.w.permit && m.w.disk.now.guards == ALL_UNITS &&
              m.w.running == old(m.w.running)
    ensures r == Stopped ==> m.budget == 0
    ensures m.budget <= old(m.budget) <= m.budget + RecoveryCost(old(m.w))
    ensures old(m.budget) > RecoveryCost(old(m.w)) ==> (r == Done <==> !old(Hopeless(m.w, handoff)))
  {
    found := m.w.disk.now.files;
    assert m.w.disk.May(m.w.disk.now);
    if m.w.disk.now.work.NoWork? {
      r := Refused;
      return;
    }
    ghost var w0 := m.w;
    var j;
    r, j := TakeUp(m);
    if r != Done {
      return;
    }
    if handoff.Some? {
      var applied := j.RestoredCheckpoint();
      if applied {
        applied := Approve(handoff.value);
      }
      if !applied {
        r := Refused;
        return;
      }
    }
    if j.state.committed {
      r := Refused;
      return;
    }
    ghost var w1, st := m.w, j.state;
    r, found := Withdraw(m, j);
    if r == Done {
      MetByOpen(w0, w1, st, m.w, found);
    }
  }

  /** Apply the approval to the plan read from the record. */
  method Approve(h: Handoff) returns (applied: bool)
    ensures applied == h.Applies()
  {
    var plan := new Containers.Plan(h.host, h.active);
    ghost var at: seq<nat>;
    applied, at := Containers.Apply(h.approval, plan, h.inventory);
  }

  lemma MetByOpen(w0: World, w1: World, st: State, w2: World, found: Tree)
    requires Inv(w0) && w0.disk.now.work.Active? && st == Found(w0.disk.now, w0.disk.now.work.record.identity)
    requires Saved(w0, w1, st) && Met(found, w1, w2)
    ensures Met(found, w0, w2)
  {
    var v, u := w0.disk.now, w1.disk.now;
    assert w0.disk.May(v);
    assert Fits(w0, v);
    if w0.running * OLD_UNITS != {} {
      ServedByLegacy(w0, v, u);
      SameRootIsLegacy(v.left, v.files);
      LegacyWroteIsTransitive(v.left, v.files, u.files);
    } else {
      ServedKeepsLeft(w0, v, u);
    }
    LegacyWroteIsTransitive(v.left, u.left, found);
  }

  /** The failing family of `--recover` is reached by any power loss that finds only the first
      two steps begun: the guard keeps the legacy agent from starting, and nothing undone
      before the health check starts it. */
  lemma PowerLossBeforeTheStopIsHopeless(w: World, k: nat, handoff: Option<Handoff>)
    requires Inv(w)
    requires var v := Rebooted(w, k).disk.now; 1 <= Level(v) <= 2 && (OldAgent in v.guards || Fenced(v))
    ensures Hopeless(Rebooted(w, k), handoff)
  {
    var v := Rebooted(w, k).disk.now;
    assert w.disk.May(v);
    assert Fits(w, v);
  }

  /** And only by losing the agent before the services were stopped: with the legacy agent
      running, or any later step begun, an uncommitted transaction is never hopeless. */
  lemma OtherwiseThereIsHope(w: World)
    requires w.disk.now.work.Active? && !Committed(w.disk.now)
    ensures Hopeless(w, None) <==> 1 <= Level(w.disk.now) <= 2 && OldAgent !in w.running
  {
  }

  /** The checkpoint that a recovery under another executable is confined to: every step
      from the snapshot on has been undone, and the tree is what the legacy services left,
      which is the recorded one up to what they wrote since. */
  lemma CheckpointIsRestored(w: World, v: Persisted, s: Step)
    requires Inv(w) && w.disk.May(v) && v.work.Active? && AtCheckpoint(JournalOf(v))
    ensures AsLeft(v) && (w.recording != NotYet ==> LegacyWrote(w.origin, v.files))
    ensures v.work.storage.Some? ==> w.recording != NotYet
    ensures s in Outstanding(w.log) ==> s.Rank() < Snapshot.Rank()
  {
    assert Fits(w, v);
    if s in Outstanding(w.log) {
      BegunIsPrefix(JournalOf(v), s);
    }
    if w.recording != NotYet {
      SameRootIsLegacy(v.left, v.files);
      LegacyWroteIsTransitive(w.origin, v.left, v.files);
    }
  }

  /** After `--recover` from level 0 nothing will start at boot any more, and a new migration
      is refused while the table stands. */
  lemma SealedWithoutTransaction(w: World, k: nat)
    requires Inv(w) && w.disk.Settled() && w.disk.now.work.NoWork?
    requires w.disk.now.guards == ALL_UNITS && w.fence == Sealed
    ensures Rebooted(w, k).running == {} && !Preflight(w)
  {
    assert w.disk.May(w.disk.AfterPowerLoss(k).now);
  }

  // ---- migrate --resume ----

  /** `migrate --resume`: open traffic after a durable commit, as often as it takes.
      Undisturbed, it completes exactly after a commit, unless traffic was opened and the
      new agent is down. */
  method Resume(m: Machine) returns (r: Outcome)
    requires Inv(m.w)
    modifies m
    ensures Inv(m.w) && (old(Opened in m.w.log) ==> Opened in m.w.log)
    ensures r == Done ==> old(Resumable(m.w))
    ensures r == Refused ==> !old(Resumable(m.w))
    ensures r == Done ==> Reachable(m.w, NewAgent) && TrafficOpened(m.w.disk.now)
    ensures r == Stopped ==> m.budget == 0
    ensures m.budget <= old(m.budget) <= m.budget + 33
    ensures old(m.budget) > 33 ==> (r == Done <==> old(Resumable(m.w)))
  {
    assert m.w.disk.May(m.w.disk.now);
    if m.w.disk.now.work.NoWork? {
      return Refused;
    }
    ghost var w0 := m.w;
    var j;
    r, j := TakeUp(m);
    if r != Done {
      return r;
    }
    if !j.state.committed {
      return Refused;
    }
    if TrafficOpened(m.w.disk.now) {
      if NewAgent !in m.w.running {
        return Refused;
      }
      var healthy := Wait(m);
      assert m.w.disk.May(m.w.disk.now);
      return if healthy then Done else Stopped;
    }
    r := Reopen(m, j);
  }

  predicate Resumable(w: World) {
    Committed(w.disk.now) && (TrafficOpened(w.disk.now) ==> NewAgent in w.running)
  }

  method Reopen(m: Machine, j: Journal) returns (r: Outcome)
    requires InHand(j, m) && j.state.committed && !TrafficOpened(m.w.disk.now)
    modifies m, j
    ensures r != Refused && Inv(m.w) && (old(Opened in m.w.log) ==> Opened in m.w.log)
    ensures r == Done ==> Reachable(m.w, NewAgent) && TrafficOpened(m.w.disk.now)
    ensures r == Stopped ==> m.budget == 0
    ensures m.budget <= old(m.budget) <= m.budget + 30
  {
    HeldIsOn(j, m);
    r := RestoreFence(m);
    if r != Done {
      return r;
    }
    var reloaded := Wait(m);
    if !reloaded {
      return Stopped;
    }
    var started := StartUnits(m, NEW_UNITS, j.state);
    if !started {
      return Stopped;
    }
    r := Release(m, j);
  }

  // ---- Every history of an appliance ----

  datatype Command =
    | Start(identity: nat, assets: seq<Node>, keys: seq<(string, string)>, candidate: Node, converted: Node)
    | Revert(handoff: Option<Handoff>)
    | Continue

  /** A command that gets so many operations done before it is killed, a power loss that
      keeps one of the versions on disk, services at work, or units that stop by themselves. */
  datatype Happening =
    | Invoked(command: Command, budget: nat)
    | PowerLoss(version: nat)
    | ServicesAtWork
    | UnitsStop(units: set<Unit>)

  predicate Sound(h: Happening) {
    h.Invoked? && h.command.Start? ==>
      |h.command.assets| == ASSETS && DistinctTargets(h.command.keys) &&
      h.command.candidate.Regular? && h.command.converted.Regular?
  }

  /** Anything but a command that goes forward. */
  predicate Reverting(h: Happening) {
    h.Invoked? ==> h.command.Revert?
  }

  method Happen(m: Machine, h: Happening)
    requires Inv(m.w) && Sound(h)
    modifies m
    ensures Inv(m.w) && (old(Opened in m.w.log) ==> Opened in m.w.log)
    ensures Reverting(h) ==> Remembers(old(m.w), m.w)
  {
    match h {
      case Invoked(command, budget) =>
        m.budget := budget;
        var r: Outcome;
        match command {
          case Start(identity, assets, keys, candidate, converted) =>
            r := Migrate(m, identity, assets, keys, candidate, converted);
          case Revert(handoff) =>
            ghost var found: Tree;
            r, found := RecoverCommand(m, handoff);
          case Continue =>
            r := Resume(m);
        }
      case PowerLoss(version) =>
        RebootKeeps(m.w, version);
        m.w := Rebooted(m.w, version);
      case ServicesAtWork =>
        var served := Wait(m);
      case UnitsStop(units) =>
        UnitsMayStop(m.w, units);
        m.w := m.w.(running := m.w.running - units);
    }
  }

  lemma UnitsMayStop(w: World, units: set<Unit>)
    requires Inv(w)
    ensures Inv(w.(running := w.running - units))
  {
    var w' := w.(running := w.running - units);
    assert w'.running * OLD_UNITS <= w.running * OLD_UNITS;
    forall v: Persisted | w.disk.May(v)
      ensures ServicesFit(w', v)
    {
      assert Fits(w, v);
      assert w'.running <= w.running;
    }
    VolatileKeeps(w, w');
  }

  /** Whatever sequence of commands, crashes at any operation, power losses and service
      activity an appliance goes through, the invariant holds, and once traffic was opened
      the commit stays. */
  method Lifetime(m: Machine, history: seq<Happening>)
    requires Inv(m.w) && forall h | h in history :: Sound(h)
    modifies m
    ensures Inv(m.w)
    ensures old(Opened in m.w.log) ==> forall v: Persisted | m.w.disk.May(v) :: Committed(v)
  {
    var i := 0;
    while i < |history|
      invariant 0 <= i <= |history|
      invariant Inv(m.w) && (old(Opened in m.w.log) ==> Opened in m.w.log)
    {
      Happen(m, history[i]);
      i := i + 1;
    }
    forall v: Persisted | m.w.disk.May(v)
      ensures Opened in m.w.log ==> Committed(v)
    {
      assert Fits(m.w, v);
    }
  }

  /** From a snapshot on, through any number of recoveries that are killed anywhere, power
      losses, service activity and units that stop: wherever the rollback has come below the
      snapshot, or is over, the tree is the recorded one up to what the legacy services wrote
      since; and what they left is exactly the recorded tree until one of them runs. */
  method Retries(m: Machine, history: seq<Happening>)
    requires Inv(m.w) && m.w.recording != NotYet && forall h | h in history :: Reverting(h)
    modifies m
    ensures Inv(m.w) && Remembers(old(m.w), m.w)
    ensures forall v: Persisted | m.w.disk.May(v) && |JournalOf(v).completed| <= 3 ::
              AsLeft(v) && LegacyWrote(old(m.w.origin), v.files)
    ensures m.w.recording == Quiet ==>
              forall v: Persisted | m.w.disk.May(v) :: SameRoot(old(m.w.origin), v.left)
  {
    var i := 0;
    while i < |history|
      invariant 0 <= i <= |history|
      invariant Inv(m.w) && Remembers(old(m.w), m.w)
    {
      assert history[i] in history;
      Happen(m, history[i]);
      i := i + 1;
    }
    forall v: Persisted | m.w.disk.May(v) && |JournalOf(v).completed| <= 3
      ensures AsLeft(v) && LegacyWrote(m.w.origin, v.files)
    {
      assert Fits(m.w, v);
      SameRootIsLegacy(v.left, v.files);
      LegacyWroteIsTransitive(m.w.origin, v.left, v.files);
    }
    assert m.w.recording == Quiet ==> forall v: Persisted | m.w.disk.May(v) :: Fits(m.w, v);
  }

  /** The invariant holds of an appliance that was never migrated. */
  lemma LegacyApplianceIsSound(f: Tree, o: Tree, running: set<Unit>)
    requires Untouched(f) && (forall p | p in f :: p.AtRoot()) && running <= OLD_UNITS
    ensures Inv(World(Disk(Persisted(NoWork, {}, true, false, f, f), []), running, Down, false, [], o, NotYet))
  {
    var v := Persisted(NoWork, {}, true, false, f, f);
    var w := World(Disk(v, []), running, Down, false, [], o, NotYet);
    assert Outstanding([]) == {};
    assert OLD_UNITS * NEW_UNITS == {};
    assert running * NEW_UNITS == {};
    assert Fits(w, v);
    assert forall u: Persisted | w.disk.May(u) :: u == v;
  }
}
