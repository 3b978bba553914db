/** The relocation step as a whole: storage, accounts and published files, forward and back. */
module RelocationStep {
  import opened Durable
  import opened Files
  import opened Layout
  import opened World
  import opened Relocation
  import opened StorageMoves
  import opened PublicationMoves

  /** Every state that an interrupted relocation can leave. */
  predicate Relocating(rec: Record, s: Storage, f: Tree) {
    WellFormed(rec, s) && OuterSplit(rec, f) && Activating(s, f)
  }

  /** What the step and its inverse promise for every version on disk. */
  ghost predicate Between(rec: Record, s: Storage, o: Tree, w: World, w': World) {
    FilesOnly(w, w') &&
    forall v: Persisted | w'.disk.May(v) ::
      Recoverable(rec, s, v.files) && Framed(s, o, v.files) && Conserved(w.disk.now.files, v.files)
  }

  lemma StorageUnmoved(s: Storage, f: Tree, g: Tree)
    requires forall p: Path | StoragePath(p) :: Agree(f, g, p)
    ensures StorageRecoverable(s, f) ==> StorageRecoverable(s, g)
    ensures Activating(s, f) ==> Activating(s, g)
    ensures Cutover(s, f) ==> Cutover(s, g)
  {
    assert forall k: string :: Agree(f, g, Cache(k));
    CachesUnmoved(s, f, g);
    assert Agree(f, g, Data(false)) && Agree(f, g, Data(true)) && Agree(f, g, Candidate);
    assert Agree(f, g, LiveJournal) && Agree(f, g, BackupJournal) && Agree(f, g, FailedJournal);
    assert Agree(f, g, CandidateJournal);
    assert forall n: DbFile :: Agree(f, g, Live(n)) && Agree(f, g, Backup(n)) && Agree(f, g, Failed(n));
    if StorageRecoverable(s, f) {
      forall n: DbFile
        ensures DbSlot(s, g, n)
      {
        assert DbSlot(s, f, n);
      }
    }
    if Cutover(s, f) {
      forall i | 0 <= i < |s.caches|
        ensures Cache(s.caches[i].from) !in g && Holds(g, Cache(s.caches[i].to), s.caches[i].id)
      {
        assert Agree(f, g, Cache(s.caches[i].from)) && Agree(f, g, Cache(s.caches[i].to));
        assert Cache(s.caches[i].from) !in f && Holds(f, Cache(s.caches[i].to), s.caches[i].id);
      }
      forall n: DbFile | n in s.original
        ensures Holds(g, Backup(n), s.original[n])
      {
        assert Holds(f, Backup(n), s.original[n]);
      }
    }
  }

  lemma OuterUnmoved(rec: Record, f: Tree, g: Tree)
    requires OutsideStorage(f, g) && |rec.assets| == ASSETS
    ensures OuterSplit(rec, f) ==> OuterSplit(rec, g)
    ensures AssetsHome(rec, f) ==> AssetsHome(rec, g)
    ensures AccountsNamed(rec, f, false) ==> AccountsNamed(rec, g, false)
  {
    assert forall i: nat :: Agree(f, g, Staged(i)) && Agree(f, g, Published(i));
    assert forall b: bool, c: bool :: Agree(f, g, Account(b, c));
  }

  lemma CutoverIsMigrated(rec: Record, s: Storage, f: Tree)
    requires WellFormed(rec, s) && Cutover(s, f) && AssetsAway(rec, f) && AccountsNamed(rec, f, true)
    ensures Migrated(rec, s, f)
  {
    forall n: DbFile
      ensures SlotAway(f, Live(n), Backup(n), Failed(n), OriginalDb(s, n))
    {
      match n
      case Main =>
      case Wal => assert Wal in s.original ==> Holds(f, Backup(Wal), s.original[Wal]);
      case Shm => assert Shm in s.original ==> Holds(f, Backup(Shm), s.original[Shm]);
    }
  }

  /** The converted files are live. */
  predicate Swapped(s: Storage, f: Tree) {
    Holds(f, Live(Main), s.candidate) &&
    (s.emergency.original.Some? && s.emergency.candidate.Some? ==>
       Holds(f, LiveJournal, s.emergency.candidate.value))
  }

  lemma CutoverIsSwapped(s: Storage, f: Tree)
    requires Cutover(s, f)
    ensures Swapped(s, f)
  {
  }

  /** Storage stages keep the rest of the relocation as it was. */
  lemma StorageStage(rec: Record, s: Storage, back: bool, o: Tree, w: World, w': World)
    requires Moving(s, back, w, w')
    requires WellFormed(rec, s) && OuterSplit(rec, w.disk.now.files) && Framed(s, o, w.disk.now.files)
    ensures Between(rec, s, o, w, w')
  {
    forall v: Persisted | w'.disk.May(v)
      ensures Recoverable(rec, s, v.files) && Framed(s, o, v.files)
    {
      if !back {
        ActivatingIsRecoverable(s, v.files);
      }
      OuterUnmoved(rec, w.disk.now.files, v.files);
      forall p: Path | Untracked(s, p)
        ensures Agree(o, v.files, p)
      {
        assert Agree(o, w.disk.now.files, p) && Agree(w.disk.now.files, v.files, p);
      }
    }
  }

  /** Stages outside storage keep the storage as it was. */
  lemma OuterStage(rec: Record, s: Storage, o: Tree, w: World, w': World)
    requires OuterMoving(rec, w, w')
    requires WellFormed(rec, s) && StorageRecoverable(s, w.disk.now.files) && Framed(s, o, w.disk.now.files)
    ensures Between(rec, s, o, w, w')
    ensures forall v: Persisted | w'.disk.May(v) :: forall p: Path | StoragePath(p) ::
                                                      Agree(w.disk.now.files, v.files, p)
  {
    forall v: Persisted | w'.disk.May(v)
      ensures Recoverable(rec, s, v.files) && Framed(s, o, v.files)
    {
      StorageUnmoved(s, w.disk.now.files, v.files);
      forall p: Path | Untracked(s, p)
        ensures Agree(o, v.files, p)
      {
        assert Agree(o, w.disk.now.files, p) && Agree(w.disk.now.files, v.files, p);
      }
    }
  }

  lemma BetweenIsTransitive(rec: Record, s: Storage, o: Tree, w: World, w1: World, w2: World)
    requires Between(rec, s, o, w, w1) && Between(rec, s, o, w1, w2)
    ensures Between(rec, s, o, w, w2)
  {
    assert w1.disk.May(w1.disk.now);
  }

  /** `rename_identity(false)` and `Publication::activate`, over a finished storage cutover. */
  method PublishCutover(m: Machine, rec: Record, s: Storage, ghost o: Tree) returns (r: Outcome)
    requires Still(m.w) && Relocating(rec, s, m.w.disk.now.files) && Cutover(s, m.w.disk.now.files)
    requires Framed(s, o, m.w.disk.now.files)
    modifies m
    ensures r != Refused && Between(rec, s, o, old(m.w), m.w)
    ensures r == Done ==> Still(m.w) && Migrated(rec, s, m.w.disk.now.files) && Swapped(s, m.w.disk.now.files)
    ensures r == Stopped ==> m.budget == 0
    ensures m.budget <= old(m.budget) <= m.budget + 27
  {
    ghost var w0 := m.w;
    ActivatingIsRecoverable(s, m.w.disk.now.files);
    assert OuterMoving(rec, w0, m.w);
    r := RenameIdentity(m, rec, w0, true);
    if r == Done {
      ghost var f1 := m.w.disk.now.files;
      r := Publish(m, rec, w0);
      if r == Done {
        OuterStage(rec, s, o, w0, m.w);
        assert m.w.disk.May(m.w.disk.now);
        ghost var f2 := m.w.disk.now.files;
        StorageUnmoved(s, w0.disk.now.files, f2);
        assert forall b: bool, c: bool :: Agree(f1, f2, Account(b, c));
        CutoverIsMigrated(rec, s, f2);
        CutoverIsSwapped(s, f2);
      }
    }
    OuterStage(rec, s, o, w0, m.w);
  }

  /** `apply(Relocate)`: from the prepared tree, or from wherever an earlier attempt died. */
  method Relocate(m: Machine, rec: Record, s: Storage, ghost o: Tree) returns (r: Outcome)
    requires Still(m.w) && Relocating(rec, s, m.w.disk.now.files) && Framed(s, o, m.w.disk.now.files)
    modifies m
    ensures r != Refused && Between(rec, s, o, old(m.w), m.w)
    ensures r == Done ==> Still(m.w) && Migrated(rec, s, m.w.disk.now.files) && Swapped(s, m.w.disk.now.files)
    ensures r == Stopped ==> m.budget == 0
    ensures m.budget <= old(m.budget) <= m.budget + 3 * |s.caches| + 48
  {
    ghost var w0 := m.w;
    r := Activate(m, s);
    StorageStage(rec, s, false, o, w0, m.w);
    if r != Done {
      return r;
    }
    ghost var w1 := m.w;
    assert m.w.disk.May(m.w.disk.now);
    r := PublishCutover(m, rec, s, o);
    BetweenIsTransitive(rec, s, o, w0, w1, m.w);
  }

  /** `Publication::restore` and `rename_identity(true)`. */
  method Retract(m: Machine, rec: Record, s: Storage, ghost o: Tree) returns (r: Outcome)
    requires Still(m.w) && Recoverable(rec, s, m.w.disk.now.files) && Framed(s, o, m.w.disk.now.files)
    modifies m
    ensures r != Refused && Between(rec, s, o, old(m.w), m.w)
    ensures r == Done ==> Still(m.w) && AssetsHome(rec, m.w.disk.now.files) &&
                          AccountsNamed(rec, m.w.disk.now.files, false)
    ensures r == Stopped ==> m.budget == 0
    ensures m.budget <= old(m.budget) <= m.budget + 27
  {
    ghost var w0 := m.w;
    assert OuterMoving(rec, w0, m.w);
    r := Unpublish(m, rec, w0);
    if r == Done {
      ghost var f1 := m.w.disk.now.files;
      r := RenameIdentity(m, rec, w0, false);
      if r == Done {
        assert forall i: nat :: Agree(f1, m.w.disk.now.files, Staged(i)) && Agree(f1, m.w.disk.now.files, Published(i));
      }
    }
    OuterStage(rec, s, o, w0, m.w);
  }

  /** `undo(Relocate)`. From every state of an interrupted relocation, of a running new
      service or of an interrupted undo, it is never refused; undisturbed it gives back the
      tree of the snapshot, entry by entry and inode by inode. */
  method Unrelocate(m: Machine, rec: Record, s: Storage, ghost o: Tree) returns (r: Outcome)
    requires Still(m.w) && Recoverable(rec, s, m.w.disk.now.files) && Framed(s, o, m.w.disk.now.files)
    requires Home(rec, s, o)
    modifies m
    ensures r != Refused && Between(rec, s, o, old(m.w), m.w)
    ensures r == Done ==> Still(m.w) && SameRoot(o, m.w.disk.now.files) && NoBackups(m.w.disk.now.files)
    ensures r == Stopped ==> m.budget == 0
    ensures m.budget <= old(m.budget) <= m.budget + 3 * |s.caches| + 54
  {
    ghost var w0 := m.w;
    r := Retract(m, rec, s, o);
    if r != Done {
      return r;
    }
    ghost var w1 := m.w;
    assert m.w.disk.May(m.w.disk.now);
    r := Restore(m, s);
    StorageStage(rec, s, true, o, w1, m.w);
    BetweenIsTransitive(rec, s, o, w0, w1, m.w);
    if r == Done {
      assert m.w.disk.May(m.w.disk.now);
      OuterUnmoved(rec, w1.disk.now.files, m.w.disk.now.files);
      HomeIsTheOriginalTree(rec, s, o, m.w.disk.now.files);
      assert forall n: DbFile :: SlotHome(m.w.disk.now.files, Live(n), Backup(n), OriginalDb(s, n));
    }
  }
}
