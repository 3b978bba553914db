/** Database, cache and emergency-journal cutover and its reversal (storage.rs, emergency.rs). */
module StorageMoves {
  import opened Durable
  import opened Files
  import opened Layout
  import opened World
  import opened Relocation

  /** The paths that the storage moves may touch. */
  predicate StoragePath(p: Path) {
    p.Data? || p.Live? || p.LiveJournal? || p.Cache? || p.Backup? || p.Failed? || p.Candidate? ||
    p.BackupJournal? || p.FailedJournal? || p.CandidateJournal?
  }

  ghost predicate OutsideStorage(f: Tree, g: Tree) {
    forall p: Path | !StoragePath(p) :: Agree(f, g, p)
  }

  // ---- Layouts on the way forward ----

  /** The original is live, or safe with the live path empty, or replaced by the candidate. */
  predicate Swapping(f: Tree, live: Path, backup: Path, waiting: Path, original: Node, candidate: Node) {
    (Holds(f, live, original) && backup !in f && Holds(f, waiting, candidate)) ||
    (Holds(f, backup, original) && live !in f && Holds(f, waiting, candidate)) ||
    (Holds(f, backup, original) && Holds(f, live, candidate) && waiting !in f)
  }

  predicate Setting(f: Tree, live: Path, backup: Path, original: Option<Node>) {
    match original
    case Some(id) => (Holds(f, live, id) && backup !in f) || (live !in f && Holds(f, backup, id))
    case None => live !in f && backup !in f
  }

  predicate JournalSwapping(s: Storage, f: Tree) {
    match s.emergency.original
    case None => LiveJournal !in f && BackupJournal !in f
    case Some(original) =>
      s.emergency.candidate.Some? && s.emergency.candidate.value.Regular? &&
      Swapping(f, LiveJournal, BackupJournal, CandidateJournal, original, s.emergency.candidate.value)
  }

  /** Every state that an interrupted `Storage::activate` can leave. */
  predicate Activating(s: Storage, f: Tree) {
    Main in s.original && s.candidate.Regular? && DistinctKeys(s.caches) &&
    Either(f, Data(false), Data(true), s.data) &&
    CachesSplit(s, f) && (Data(false) in f ==> CachesHome(s, f)) &&
    Swapping(f, Live(Main), Backup(Main), Candidate, s.original[Main], s.candidate) &&
    Setting(f, Live(Wal), Backup(Wal), OriginalDb(s, Wal)) &&
    Setting(f, Live(Shm), Backup(Shm), OriginalDb(s, Shm)) &&
    JournalSwapping(s, f) &&
    (forall n: DbFile :: Failed(n) !in f) && FailedJournal !in f
  }

  /** Where an uninterrupted `Storage::activate` ends. */
  predicate Cutover(s: Storage, f: Tree) {
    Activating(s, f) &&
    Data(false) !in f && CachesAway(s, f) &&
    (forall n: DbFile | n in s.original :: Holds(f, Backup(n), s.original[n])) &&
    Candidate !in f &&
    (s.emergency.original.Some? ==> CandidateJournal !in f && BackupJournal in f)
  }

  lemma PreparedIsActivating(rec: Record, s: Storage, f: Tree)
    requires Prepared(rec, s, f)
    ensures Activating(s, f)
  {
    assert SlotHome(f, Live(Main), Backup(Main), OriginalDb(s, Main));
    assert SlotHome(f, Live(Wal), Backup(Wal), OriginalDb(s, Wal));
    assert SlotHome(f, Live(Shm), Backup(Shm), OriginalDb(s, Shm));
    forall i | 0 <= i < |s.caches|
      ensures Either(f, Cache(s.caches[i].from), Cache(s.caches[i].to), s.caches[i].id)
    {
      assert CacheHome(f, s.caches[i]);
    }
  }

  lemma ActivatingIsRecoverable(s: Storage, f: Tree)
    requires Activating(s, f)
    ensures StorageRecoverable(s, f)
  {
    forall n: DbFile
      ensures DbSlot(s, f, n)
    {
      match n
      case Main =>
      case Wal =>
      case Shm =>
    }
  }

  /** The final layout does not depend on where earlier attempts died. */
  lemma CutoverIsUnique(s: Storage, f: Tree, g: Tree, p: Path)
    requires Cutover(s, f) && Cutover(s, g) && OutsideStorage(f, g)
    requires p.Cache? ==> Recorded(s, p.key)
    requires p == CandidateJournal ==> s.emergency.original.Some?
    ensures Agree(f, g, p)
  {
    match p
    case Live(n) =>
      match n {
        case Main =>
        case Wal => assert Wal in s.original ==> Holds(f, Backup(Wal), s.original[Wal]);
        case Shm => assert Shm in s.original ==> Holds(f, Backup(Shm), s.original[Shm]);
      }
    case Backup(n) =>
      match n {
        case Main =>
        case Wal =>
        case Shm =>
      }
    case Cache(k) =>
      var i :| 0 <= i < |s.caches| && (k == s.caches[i].from || k == s.caches[i].to);
      assert Cache(s.caches[i].from) !in f && Holds(f, Cache(s.caches[i].to), s.caches[i].id);
      assert Cache(s.caches[i].from) !in g && Holds(g, Cache(s.caches[i].to), s.caches[i].id);
    case Data(_) =>
    case LiveJournal =>
    case Candidate =>
    case BackupJournal =>
    case FailedJournal =>
    case CandidateJournal =>
    case Failed(n) =>
    case Published(_) =>
    case Account(_, _) =>
    case Staged(_) =>
  }

  // ---- One move forward at a time ----

  lemma BackupKeeps(s: Storage, f: Tree, n: DbFile)
    requires Activating(s, f) && n in s.original && Backup(n) !in f
    ensures Movable(f, Live(n), Backup(n), s.original[n])
    ensures Activating(s, Moved(f, Live(n), Backup(n)))
  {
    match n
    case Main =>
    case Wal =>
    case Shm =>
  }

  /** Only the original is ever found in its backup. */
  lemma BackupIsOriginal(s: Storage, f: Tree, n: DbFile)
    requires Activating(s, f) && n in s.original && Backup(n) in f
    ensures f[Backup(n)] == s.original[n]
  {
    match n
    case Main =>
    case Wal =>
    case Shm =>
  }

  lemma CandidateKeeps(s: Storage, f: Tree)
    requires Activating(s, f) && Holds(f, Backup(Main), s.original[Main])
    ensures Movable(f, Candidate, Live(Main), s.candidate)
    ensures Activating(s, Moved(f, Candidate, Live(Main)))
  {
  }

  lemma DataKeeps(s: Storage, f: Tree)
    requires Activating(s, f)
    ensures Movable(f, Data(false), Data(true), s.data)
    ensures Activating(s, Moved(f, Data(false), Data(true)))
  {
  }

  lemma CacheKeeps(s: Storage, f: Tree, i: nat)
    requires Activating(s, f) && Data(false) !in f && i < |s.caches|
    ensures Movable(f, Cache(s.caches[i].from), Cache(s.caches[i].to), s.caches[i].id)
    ensures Activating(s, Moved(f, Cache(s.caches[i].from), Cache(s.caches[i].to)))
  {
    var g := Moved(f, Cache(s.caches[i].from), Cache(s.caches[i].to));
    forall j | 0 <= j < |s.caches|
      ensures Either(g, Cache(s.caches[j].from), Cache(s.caches[j].to), s.caches[j].id)
    {
      assert Either(f, Cache(s.caches[j].from), Cache(s.caches[j].to), s.caches[j].id);
    }
  }

  lemma JournalBackupKeeps(s: Storage, f: Tree)
    requires Activating(s, f) && s.emergency.original.Some? && BackupJournal !in f
    ensures Movable(f, LiveJournal, BackupJournal, s.emergency.original.value)
    ensures Activating(s, Moved(f, LiveJournal, BackupJournal))
  {
  }

  lemma JournalCandidateKeeps(s: Storage, f: Tree)
    requires Activating(s, f) && s.emergency.original.Some? && BackupJournal in f
    ensures Movable(f, CandidateJournal, LiveJournal, s.emergency.candidate.value)
    ensures Activating(s, Moved(f, CandidateJournal, LiveJournal))
  {
  }

  // ---- One move backward at a time ----

  /** A replaceable file: one of the database files or the emergency journal. */
  datatype Place = Database(n: DbFile) | EmergencyLog {
    function LivePath(): Path {
      if Database? then Live(n) else LiveJournal
    }

    function BackupPath(): Path {
      if Database? then Backup(n) else BackupJournal
    }

    function FailedPath(): Path {
      if Database? then Failed(n) else FailedJournal
    }

    function Original(s: Storage): Option<Node> {
      if Database? then OriginalDb(s, n) else s.emergency.original
    }
  }

  predicate PlaceHome(s: Storage, f: Tree, place: Place) {
    SlotHome(f, place.LivePath(), place.BackupPath(), place.Original(s))
  }

  lemma DisplaceKeeps(s: Storage, f: Tree, place: Place)
    requires StorageRecoverable(s, f) && place.LivePath() in f
    requires place.Original(s).None? || place.BackupPath() in f
    ensures f[place.LivePath()].Regular?
    ensures Movable(f, place.LivePath(), place.FailedPath(), f[place.LivePath()])
    ensures StorageRecoverable(s, Moved(f, place.LivePath(), place.FailedPath()))
  {
    assert place.Database? ==> DbSlot(s, f, place.n);
    var g := Moved(f, place.LivePath(), place.FailedPath());
    CachesUnmoved(s, f, g);
    forall n: DbFile
      ensures DbSlot(s, g, n)
    {
      assert DbSlot(s, f, n);
    }
  }

  lemma ReturnKeeps(s: Storage, f: Tree, place: Place)
    requires StorageRecoverable(s, f) && place.LivePath() !in f && place.Original(s).Some?
    ensures Movable(f, place.BackupPath(), place.LivePath(), place.Original(s).value)
    ensures StorageRecoverable(s, Moved(f, place.BackupPath(), place.LivePath()))
    ensures PlaceHome(s, Moved(f, place.BackupPath(), place.LivePath()), place)
  {
    assert place.Database? ==> DbSlot(s, f, place.n);
    var g := Moved(f, place.BackupPath(), place.LivePath());
    CachesUnmoved(s, f, g);
    forall n: DbFile
      ensures DbSlot(s, g, n)
    {
      assert DbSlot(s, f, n);
    }
  }

  lemma CachesUnmoved(s: Storage, f: Tree, g: Tree)
    requires forall k: string :: Agree(f, g, Cache(k))
    ensures CachesSplit(s, f) ==> CachesSplit(s, g)
    ensures CachesHome(s, f) ==> CachesHome(s, g)
  {
    forall i | 0 <= i < |s.caches|
      ensures Agree(f, g, Cache(s.caches[i].from)) && Agree(f, g, Cache(s.caches[i].to))
    {
    }
    if CachesHome(s, f) {
      forall i | 0 <= i < |s.caches|
        ensures CacheHome(g, s.caches[i])
      {
        assert CacheHome(f, s.caches[i]);
      }
    }
  }

  lemma CacheReturnKeeps(s: Storage, f: Tree, i: nat)
    requires StorageRecoverable(s, f) && DistinctKeys(s.caches) && Data(false) !in f && i < |s.caches|
    ensures Movable(f, Cache(s.caches[i].to), Cache(s.caches[i].from), s.caches[i].id)
    ensures StorageRecoverable(s, Moved(f, Cache(s.caches[i].to), Cache(s.caches[i].from)))
    ensures CacheHome(Moved(f, Cache(s.caches[i].to), Cache(s.caches[i].from)), s.caches[i])
    ensures forall j | 0 <= j < |s.caches| && CacheHome(f, s.caches[j]) ::
              CacheHome(Moved(f, Cache(s.caches[i].to), Cache(s.caches[i].from)), s.caches[j])
  {
    var g := Moved(f, Cache(s.caches[i].to), Cache(s.caches[i].from));
    assert Either(f, Cache(s.caches[i].from), Cache(s.caches[i].to), s.caches[i].id);
    forall j | 0 <= j < |s.caches|
      ensures Either(g, Cache(s.caches[j].from), Cache(s.caches[j].to), s.caches[j].id)
    {
      assert Either(f, Cache(s.caches[j].from), Cache(s.caches[j].to), s.caches[j].id);
    }
    forall n: DbFile
      ensures DbSlot(s, g, n)
    {
      assert DbSlot(s, f, n);
    }
  }

  lemma DataReturnKeeps(s: Storage, f: Tree)
    requires StorageRecoverable(s, f) && CachesHome(s, f)
    ensures Movable(f, Data(true), Data(false), s.data)
    ensures StorageRecoverable(s, Moved(f, Data(true), Data(false)))
    ensures CachesHome(s, Moved(f, Data(true), Data(false)))
  {
    var g := Moved(f, Data(true), Data(false));
    CachesUnmoved(s, f, g);
    forall n: DbFile
      ensures DbSlot(s, g, n)
    {
      assert DbSlot(s, f, n);
    }
  }

  // ---- Moves on the machine ----

  predicate Allowed(s: Storage, back: bool, f: Tree) {
    if back then StorageRecoverable(s, f) else Activating(s, f)
  }

  /** What every stage promises for every version on disk: an allowed layout, nothing else
      touched, and no entry lost, copied or replaced. */
  ghost predicate Moving(s: Storage, back: bool, w: World, w': World) {
    FilesOnly(w, w') &&
    forall v: Persisted | w'.disk.May(v) ::
      Allowed(s, back, v.files) && OutsideStorage(w.disk.now.files, v.files) &&
      Framed(s, w.disk.now.files, v.files) && Conserved(w.disk.now.files, v.files)
  }

  lemma StepMoves(s: Storage, back: bool, w0: World, w: World, w': World, source: Path, destination: Path, id: Node)
    requires Moving(s, back, w0, w) && w.disk.Settled()
    requires FilesOnly(w, w')
    requires StoragePath(source) && StoragePath(destination) && source != destination
    requires !Untracked(s, source) && !Untracked(s, destination)
    requires Movable(w.disk.now.files, source, destination, id)
    requires Allowed(s, back, Moved(w.disk.now.files, source, destination))
    requires OneOf(w', w.disk.now.files, Moved(w.disk.now.files, source, destination))
    ensures Moving(s, back, w0, w')
  {
    var f, g := w.disk.now.files, Moved(w.disk.now.files, source, destination);
    assert w.disk.May(w.disk.now);
    MoveConserves(f, source, destination, id);
    assert forall p: Path | p != source && p != destination :: Agree(f, g, p);
    forall v: Persisted | w'.disk.May(v)
      ensures v == w0.disk.now.(files := v.files)
      ensures Allowed(s, back, v.files) && OutsideStorage(w0.disk.now.files, v.files)
      ensures Framed(s, w0.disk.now.files, v.files) && Conserved(w0.disk.now.files, v.files)
    {
      assert v.files == f || v.files == g;
      forall p: Path | !StoragePath(p) || Untracked(s, p)
        ensures Agree(w0.disk.now.files, v.files, p)
      {
        assert Agree(w0.disk.now.files, f, p) && Agree(f, g, p);
      }
    }
  }

  /** A bound move from an allowed layout to an allowed layout. */
  method Step(m: Machine, s: Storage, back: bool, ghost w0: World, source: Path, destination: Path, id: Node)
    returns (r: Outcome)
    requires Still(m.w) && Moving(s, back, w0, m.w)
    requires StoragePath(source) && StoragePath(destination) && source != destination
    requires !Untracked(s, source) && !Untracked(s, destination)
    requires Movable(m.w.disk.now.files, source, destination, id)
    requires Allowed(s, back, Moved(m.w.disk.now.files, source, destination))
    modifies m
    ensures r != Refused && Moving(s, back, w0, m.w)
    ensures r == Done ==> m.w == WithFiles(old(m.w), Moved(old(m.w.disk.now.files), source, destination))
    ensures r == Stopped ==> m.budget == 0
    ensures m.budget <= old(m.budget) <= m.budget + 3
  {
    r := MoveBound(m, source, destination, id);
    StepMoves(s, back, w0, old(m.w), m.w, source, destination, id);
  }

  function BackedUp(f: Tree, n: DbFile): Tree {
    if Backup(n) in f then f else Moved(f, Live(n), Backup(n))
  }

  lemma BackedUpHolds(s: Storage, f: Tree, n: DbFile)
    requires Activating(s, f) && n in s.original
    ensures Holds(BackedUp(f, n), Backup(n), s.original[n])
    ensures forall k: DbFile | k != n :: Agree(f, BackedUp(f, n), Backup(k))
  {
    if Backup(n) in f {
      BackupIsOriginal(s, f, n);
    } else {
      BackupKeeps(s, f, n);
    }
  }

  method BackUpOriginal(m: Machine, s: Storage, ghost w0: World, n: DbFile) returns (r: Outcome)
    requires Still(m.w) && Moving(s, false, w0, m.w) && n in s.original
    modifies m
    ensures r != Refused && Moving(s, false, w0, m.w)
    ensures r == Done ==> m.w == WithFiles(old(m.w), BackedUp(old(m.w.disk.now.files), n))
    ensures r == Stopped ==> m.budget == 0
    ensures m.budget <= old(m.budget) <= m.budget + 3
  {
    assert m.w.disk.May(m.w.disk.now);
    if Backup(n) in m.w.disk.now.files {
      BackupIsOriginal(s, m.w.disk.now.files, n);
      return if m.w.disk.now.files[Backup(n)] == s.original[n] then Done else Refused;
    }
    BackupKeeps(s, m.w.disk.now.files, n);
    r := Step(m, s, false, w0, Live(n), Backup(n), s.original[n]);
  }

  /** The first loop of `Storage::activate`: put every original database file aside. */
  method BackUpOriginals(m: Machine, s: Storage, ghost w0: World) returns (r: Outcome)
    requires Still(m.w) && Moving(s, false, w0, m.w)
    modifies m
    ensures r != Refused && Moving(s, false, w0, m.w)
    ensures r == Done ==> Still(m.w)
    ensures r == Done ==> forall n: DbFile | n in s.original :: Holds(m.w.disk.now.files, Backup(n), s.original[n])
    ensures r == Stopped ==> m.budget == 0
    ensures m.budget <= old(m.budget) <= m.budget + 9
  {
    var names := [Main, Wal, Shm];
    var i := 0;
    while i < |names|
      invariant 0 <= i <= |names|
      invariant m.budget <= old(m.budget) <= m.budget + 3 * i
      invariant Still(m.w) && Moving(s, false, w0, m.w)
      invariant forall k | 0 <= k < i && names[k] in s.original ::
                  Holds(m.w.disk.now.files, Backup(names[k]), s.original[names[k]])
    {
      if names[i] in s.original {
        assert m.w.disk.May(m.w.disk.now);
        BackedUpHolds(s, m.w.disk.now.files, names[i]);
        r := BackUpOriginal(m, s, w0, names[i]);
        if r != Done {
          return r;
        }
      }
      i := i + 1;
    }
    r := Done;
    forall n: DbFile | n in s.original
      ensures Holds(m.w.disk.now.files, Backup(n), s.original[n])
    {
      assert n == names[0] || n == names[1] || n == names[2];
    }
  }

  lemma CacheMoves(s: Storage, f: Tree, c: CacheMove)
    requires Activating(s, f) && Data(false) !in f && c in s.caches
    ensures c.from != c.to && Recorded(s, c.from) && Recorded(s, c.to)
    ensures Movable(f, Cache(c.from), Cache(c.to), c.id)
    ensures var g := Moved(f, Cache(c.from), Cache(c.to));
            Activating(s, g) && Cache(c.from) !in g && Holds(g, Cache(c.to), c.id)
  {
    var i :| 0 <= i < |s.caches| && s.caches[i] == c;
    CacheKeeps(s, f, i);
    MoveThere(f, Cache(c.from), Cache(c.to), c.id);
  }

  method MoveCache(m: Machine, s: Storage, ghost w0: World, c: CacheMove) returns (r: Outcome)
    requires Still(m.w) && Moving(s, false, w0, m.w) && Data(false) !in m.w.disk.now.files && c in s.caches
    modifies m
    ensures r != Refused && Moving(s, false, w0, m.w)
    ensures r == Done ==> Still(m.w) && Cache(c.from) !in m.w.disk.now.files &&
                          Holds(m.w.disk.now.files, Cache(c.to), c.id)
    ensures r == Done ==> forall p: Path | p != Cache(c.from) && p != Cache(c.to) ::
                Agree(old(m.w.disk.now.files), m.w.disk.now.files, p)
    ensures r == Stopped ==> m.budget == 0
    ensures m.budget <= old(m.budget) <= m.budget + 3
  {
    assert m.w.disk.May(m.w.disk.now);
    CacheMoves(s, m.w.disk.now.files, c);
    r := Step(m, s, false, w0, Cache(c.from), Cache(c.to), c.id);
  }

  predicate FirstCachesAway(s: Storage, n: nat, f: Tree) {
    forall k | 0 <= k < n && k < |s.caches| ::
      Cache(s.caches[k].from) !in f && Holds(f, Cache(s.caches[k].to), s.caches[k].id)
  }

  lemma OneMoreCache(s: Storage, o: Tree, f: Tree, g: Tree, i: nat)
    requires DistinctKeys(s.caches) && i < |s.caches| && FirstCachesAway(s, i, f)
    requires forall p: Path | !p.Cache? :: Agree(o, f, p)
    requires Cache(s.caches[i].from) !in g && Holds(g, Cache(s.caches[i].to), s.caches[i].id)
    requires forall p: Path | p != Cache(s.caches[i].from) && p != Cache(s.caches[i].to) :: Agree(f, g, p)
    ensures FirstCachesAway(s, i + 1, g)
    ensures forall p: Path | !p.Cache? :: Agree(o, g, p)
  {
    forall p: Path | !p.Cache?
      ensures Agree(o, g, p)
    {
      assert Agree(o, f, p) && Agree(f, g, p);
    }
    forall k | 0 <= k < i
      ensures Cache(s.caches[k].from) !in g && Holds(g, Cache(s.caches[k].to), s.caches[k].id)
    {
      assert Agree(f, g, Cache(s.caches[k].from)) && Agree(f, g, Cache(s.caches[k].to));
    }
  }

  /** The cache loop of `Storage::activate`. */
  method MoveCaches(m: Machine, s: Storage, ghost w0: World) returns (r: Outcome)
    requires Still(m.w) && Moving(s, false, w0, m.w) && Data(false) !in m.w.disk.now.files
    modifies m
    ensures r != Refused && Moving(s, false, w0, m.w)
    ensures r == Done ==> Still(m.w) && CachesAway(s, m.w.disk.now.files)
    ensures r == Done ==> forall p: Path | !p.Cache? :: Agree(old(m.w.disk.now.files), m.w.disk.now.files, p)
    ensures r == Stopped ==> m.budget == 0
    ensures m.budget <= old(m.budget) <= m.budget + 3 * |s.caches|
  {
    assert m.w.disk.May(m.w.disk.now);
    assert DistinctKeys(s.caches);
    var i := 0;
    while i < |s.caches|
      invariant 0 <= i <= |s.caches|
      invariant m.budget <= old(m.budget) <= m.budget + 3 * i
      invariant Still(m.w) && Moving(s, false, w0, m.w)
      invariant forall p: Path | !p.Cache? :: Agree(old(m.w.disk.now.files), m.w.disk.now.files, p)
      invariant FirstCachesAway(s, i, m.w.disk.now.files)
    {
      ghost var f := m.w.disk.now.files;
      assert Agree(old(m.w.disk.now.files), f, Data(false));
      r := MoveCache(m, s, w0, s.caches[i]);
      if r != Done {
        return r;
      }
      OneMoreCache(s, old(m.w.disk.now.files), f, m.w.disk.now.files, i);
      i := i + 1;
    }
    r := Done;
  }

  /** The first half of `emergency::Journal::activate`: the original goes aside. */
  method BackUpJournal(m: Machine, s: Storage, ghost w0: World) returns (r: Outcome)
    requires Still(m.w) && Moving(s, false, w0, m.w) && s.emergency.original.Some?
    modifies m
    ensures r != Refused && Moving(s, false, w0, m.w)
    ensures r == Done ==> Still(m.w) && BackupJournal in m.w.disk.now.files
    ensures r == Done ==> forall p: Path | p !in {LiveJournal, BackupJournal} ::
                Agree(old(m.w.disk.now.files), m.w.disk.now.files, p)
    ensures r == Stopped ==> m.budget == 0
    ensures m.budget <= old(m.budget) <= m.budget + 3
  {
    assert m.w.disk.May(m.w.disk.now);
    if BackupJournal in m.w.disk.now.files {
      return if m.w.disk.now.files[BackupJournal] == s.emergency.original.value then Done else Refused;
    }
    JournalBackupKeeps(s, m.w.disk.now.files);
    r := Step(m, s, false, w0, LiveJournal, BackupJournal, s.emergency.original.value);
  }

  /** `emergency::Journal::activate`. */
  method SwapJournal(m: Machine, s: Storage, ghost w0: World) returns (r: Outcome)
    requires Still(m.w) && Moving(s, false, w0, m.w)
    modifies m
    ensures r != Refused && Moving(s, false, w0, m.w)
    ensures r == Done ==> Still(m.w)
    ensures r == Done && s.emergency.original.Some? ==>
              CandidateJournal !in m.w.disk.now.files && BackupJournal in m.w.disk.now.files
    ensures r == Done ==> forall p: Path | p !in {LiveJournal, BackupJournal, CandidateJournal} ::
                Agree(old(m.w.disk.now.files), m.w.disk.now.files, p)
    ensures r == Stopped ==> m.budget == 0
    ensures m.budget <= old(m.budget) <= m.budget + 6
  {
    if s.emergency.original.None? {
      return Done;
    }
    r := BackUpJournal(m, s, w0);
    if r != Done {
      return r;
    }
    assert m.w.disk.May(m.w.disk.now);
    ghost var f := m.w.disk.now.files;
    JournalCandidateKeeps(s, m.w.disk.now.files);
    r := Step(m, s, false, w0, CandidateJournal, LiveJournal, s.emergency.candidate.value);
    if r == Done {
      forall p: Path | p !in {LiveJournal, BackupJournal, CandidateJournal}
        ensures Agree(old(m.w.disk.now.files), m.w.disk.now.files, p)
      {
        assert Agree(old(m.w.disk.now.files), f, p) && Agree(f, m.w.disk.now.files, p);
      }
    }
  }

  /** The candidate database becomes the live one. */
  method PlaceCandidate(m: Machine, s: Storage, ghost w0: World) returns (r: Outcome)
    requires Still(m.w) && Moving(s, false, w0, m.w)
    requires forall n: DbFile | n in s.original :: Holds(m.w.disk.now.files, Backup(n), s.original[n])
    modifies m
    ensures r != Refused && Moving(s, false, w0, m.w)
    ensures r == Done ==> Still(m.w) && Candidate !in m.w.disk.now.files
    ensures r == Done ==> forall n: DbFile | n in s.original :: Holds(m.w.disk.now.files, Backup(n), s.original[n])
    ensures r == Stopped ==> m.budget == 0
    ensures m.budget <= old(m.budget) <= m.budget + 3
  {
    assert m.w.disk.May(m.w.disk.now);
    CandidateKeeps(s, m.w.disk.now.files);
    r := Step(m, s, false, w0, Candidate, Live(Main), s.candidate);
  }

  /** The data directory moves to its new name. */
  method MoveData(m: Machine, s: Storage, ghost w0: World) returns (r: Outcome)
    requires Still(m.w) && Moving(s, false, w0, m.w)
    modifies m
    ensures r != Refused && Moving(s, false, w0, m.w)
    ensures r == Done ==> m.w == WithFiles(old(m.w), Moved(old(m.w.disk.now.files), Data(false), Data(true)))
    ensures r == Stopped ==> m.budget == 0
    ensures m.budget <= old(m.budget) <= m.budget + 3
  {
    assert m.w.disk.May(m.w.disk.now);
    DataKeeps(s, m.w.disk.now.files);
    r := Step(m, s, false, w0, Data(false), Data(true), s.data);
  }

  /** `Storage::activate` up to and including the move of the data directory. */
  method CutOverDatabase(m: Machine, s: Storage, ghost w0: World) returns (r: Outcome)
    requires Still(m.w) && Moving(s, false, w0, m.w)
    modifies m
    ensures r != Refused && Moving(s, false, w0, m.w)
    ensures r == Done ==> Still(m.w) && Data(false) !in m.w.disk.now.files && Candidate !in m.w.disk.now.files
    ensures r == Done ==> forall n: DbFile | n in s.original :: Holds(m.w.disk.now.files, Backup(n), s.original[n])
    ensures r == Stopped ==> m.budget == 0
    ensures m.budget <= old(m.budget) <= m.budget + 15
  {
    r := BackUpOriginals(m, s, w0);
    if r != Done {
      return r;
    }
    r := PlaceCandidate(m, s, w0);
    if r != Done {
      return r;
    }
    r := MoveData(m, s, w0);
  }

  /** `Storage::activate`, from the prepared layout or from wherever an earlier attempt died. */
  method Activate(m: Machine, s: Storage) returns (r: Outcome)
    requires Still(m.w) && Activating(s, m.w.disk.now.files)
    modifies m
    ensures r != Refused && Moving(s, false, old(m.w), m.w)
    ensures r == Done ==> Still(m.w) && Cutover(s, m.w.disk.now.files)
    ensures r == Stopped ==> m.budget == 0
    ensures m.budget <= old(m.budget) <= m.budget + 3 * |s.caches| + 21
  {
    ghost var w0 := m.w;
    assert Moving(s, false, w0, m.w);
    r := CutOverDatabase(m, s, w0);
    if r != Done {
      return r;
    }
    ghost var f1 := m.w.disk.now.files;
    r := MoveCaches(m, s, w0);
    if r != Done {
      return r;
    }
    ghost var f2 := m.w.disk.now.files;
    r := SwapJournal(m, s, w0);
    if r == Done {
      assert m.w.disk.May(m.w.disk.now);
      AfterCutover(s, f1, f2, m.w.disk.now.files);
    }
  }

  lemma AfterCutover(s: Storage, f1: Tree, f2: Tree, f3: Tree)
    requires forall p: Path | !p.Cache? :: Agree(f1, f2, p)
    requires forall p: Path | p !in {LiveJournal, BackupJournal, CandidateJournal} :: Agree(f2, f3, p)
    ensures CachesAway(s, f2) ==> CachesAway(s, f3)
    ensures forall n: DbFile :: Agree(f1, f3, Backup(n))
    ensures Agree(f1, f3, Data(false)) && Agree(f1, f3, Candidate)
  {
    forall n: DbFile
      ensures Agree(f1, f3, Backup(n))
    {
      assert Agree(f1, f2, Backup(n)) && Agree(f2, f3, Backup(n));
    }
    assert Agree(f1, f2, Data(false)) && Agree(f2, f3, Data(false));
    assert Agree(f1, f2, Candidate) && Agree(f2, f3, Candidate);
    forall k: string
      ensures Agree(f2, f3, Cache(k))
    {
    }
  }

  // ---- Restoring ----

  /** Put whatever is live aside. */
  method Displace(m: Machine, s: Storage, ghost w0: World, place: Place) returns (r: Outcome)
    requires Still(m.w) && Moving(s, true, w0, m.w)
    requires place.Original(s).None? || place.BackupPath() in m.w.disk.now.files
    modifies m
    ensures r != Refused && Moving(s, true, w0, m.w)
    ensures r == Done ==> Still(m.w) && place.LivePath() !in m.w.disk.now.files
    ensures r == Done ==> forall p: Path | p !in {place.LivePath(), place.FailedPath()} ::
                Agree(old(m.w.disk.now.files), m.w.disk.now.files, p)
    ensures r == Stopped ==> m.budget == 0
    ensures m.budget <= old(m.budget) <= m.budget + 3
  {
    var live, failed := place.LivePath(), place.FailedPath();
    if live !in m.w.disk.now.files {
      return Done;
    }
    assert m.w.disk.May(m.w.disk.now);
    DisplaceKeeps(s, m.w.disk.now.files, place);
    if !m.w.disk.now.files[live].Regular? {
      return Refused;
    }
    r := Step(m, s, true, w0, live, failed, m.w.disk.now.files[live]);
  }

  /** The body of the database loop of `Storage::restore`, and `emergency::Journal::restore`. */
  method RestorePlace(m: Machine, s: Storage, ghost w0: World, place: Place) returns (r: Outcome)
    requires Still(m.w) && Moving(s, true, w0, m.w)
    modifies m
    ensures r != Refused && Moving(s, true, w0, m.w)
    ensures r == Done ==> Still(m.w) && PlaceHome(s, m.w.disk.now.files, place)
    ensures r == Done ==> forall p: Path | p !in {place.LivePath(), place.BackupPath(), place.FailedPath()} ::
                Agree(old(m.w.disk.now.files), m.w.disk.now.files, p)
    ensures r == Stopped ==> m.budget == 0
    ensures m.budget <= old(m.budget) <= m.budget + 6
  {
    var original := place.Original(s);
    assert m.w.disk.May(m.w.disk.now);
    PlaceOf(s, m.w.disk.now.files, place);
    if original.Some? && place.BackupPath() !in m.w.disk.now.files {
      if !Holds(m.w.disk.now.files, place.LivePath(), original.value) {
        return Refused;
      }
      return Done;
    }
    r := Displace(m, s, w0, place);
    if r != Done {
      return r;
    }
    ghost var f := m.w.disk.now.files;
    assert Agree(old(m.w.disk.now.files), f, place.BackupPath());
    if original.Some? {
      r := ReturnOriginal(m, s, w0, place);
      if r == Done {
        forall p: Path | p !in {place.LivePath(), place.BackupPath(), place.FailedPath()}
          ensures Agree(old(m.w.disk.now.files), m.w.disk.now.files, p)
        {
          assert Agree(old(m.w.disk.now.files), f, p) && Agree(f, m.w.disk.now.files, p);
        }
      }
    }
  }

  method ReturnOriginal(m: Machine, s: Storage, ghost w0: World, place: Place) returns (r: Outcome)
    requires Still(m.w) && Moving(s, true, w0, m.w) && place.Original(s).Some?
    requires place.BackupPath() in m.w.disk.now.files && place.LivePath() !in m.w.disk.now.files
    modifies m
    ensures r != Refused && Moving(s, true, w0, m.w)
    ensures r == Done ==> Still(m.w) && PlaceHome(s, m.w.disk.now.files, place)
    ensures r == Done ==> forall p: Path | p != place.LivePath() && p != place.BackupPath() ::
                Agree(old(m.w.disk.now.files), m.w.disk.now.files, p)
    ensures r == Stopped ==> m.budget == 0
    ensures m.budget <= old(m.budget) <= m.budget + 3
  {
    assert m.w.disk.May(m.w.disk.now);
    ReturnKeeps(s, m.w.disk.now.files, place);
    r := Step(m, s, true, w0, place.BackupPath(), place.LivePath(), place.Original(s).value);
  }

  lemma PlaceOf(s: Storage, f: Tree, place: Place)
    requires StorageRecoverable(s, f)
    ensures Slot(f, place.LivePath(), place.BackupPath(), place.FailedPath(), place.Original(s))
  {
    assert place.Database? ==> DbSlot(s, f, place.n);
  }

  method RestoreCache(m: Machine, s: Storage, ghost w0: World, i: nat) returns (r: Outcome)
    requires Still(m.w) && Moving(s, true, w0, m.w) && DistinctKeys(s.caches)
    requires Data(false) !in m.w.disk.now.files && i < |s.caches|
    modifies m
    ensures r != Refused && Moving(s, true, w0, m.w)
    ensures r == Done ==> Still(m.w) && CacheHome(m.w.disk.now.files, s.caches[i])
    ensures r == Done ==> forall p: Path | p != Cache(s.caches[i].from) && p != Cache(s.caches[i].to) ::
                Agree(old(m.w.disk.now.files), m.w.disk.now.files, p)
    ensures r == Stopped ==> m.budget == 0
    ensures m.budget <= old(m.budget) <= m.budget + 3
  {
    var c := s.caches[i];
    assert m.w.disk.May(m.w.disk.now);
    assert Recorded(s, c.from) && Recorded(s, c.to);
    CacheReturnKeeps(s, m.w.disk.now.files, i);
    assert Either(m.w.disk.now.files, Cache(s.caches[i].from), Cache(s.caches[i].to), s.caches[i].id);
    if Cache(c.to) in m.w.disk.now.files {
      r := Step(m, s, true, w0, Cache(c.to), Cache(c.from), c.id);
    } else {
      return if Holds(m.w.disk.now.files, Cache(c.from), c.id) then Done else Refused;
    }
  }

  predicate LastCachesHome(s: Storage, n: nat, f: Tree) {
    forall k | n <= k < |s.caches| :: CacheHome(f, s.caches[k])
  }

  lemma OneMoreCacheHome(s: Storage, o: Tree, f: Tree, g: Tree, i: nat)
    requires DistinctKeys(s.caches) && i < |s.caches| && LastCachesHome(s, i + 1, f) && CacheHome(g, s.caches[i])
    requires forall p: Path | !p.Cache? :: Agree(o, f, p)
    requires forall p: Path | p != Cache(s.caches[i].from) && p != Cache(s.caches[i].to) :: Agree(f, g, p)
    ensures LastCachesHome(s, i, g)
    ensures forall p: Path | !p.Cache? :: Agree(o, g, p)
  {
    forall p: Path | !p.Cache?
      ensures Agree(o, g, p)
    {
      assert Agree(o, f, p) && Agree(f, g, p);
    }
    forall k | i < k < |s.caches|
      ensures CacheHome(g, s.caches[k])
    {
      assert CacheHome(f, s.caches[k]);
      assert Agree(f, g, Cache(s.caches[k].from)) && Agree(f, g, Cache(s.caches[k].to));
    }
  }

  /** The reversed cache loop of `Storage::restore`. */
  method RestoreCaches(m: Machine, s: Storage, ghost w0: World) returns (r: Outcome)
    requires Still(m.w) && Moving(s, true, w0, m.w) && DistinctKeys(s.caches)
    requires Data(false) !in m.w.disk.now.files
    modifies m
    ensures r != Refused && Moving(s, true, w0, m.w)
    ensures r == Done ==> Still(m.w) && CachesHome(s, m.w.disk.now.files)
    ensures r == Done ==> forall p: Path | !p.Cache? :: Agree(old(m.w.disk.now.files), m.w.disk.now.files, p)
    ensures r == Stopped ==> m.budget == 0
    ensures m.budget <= old(m.budget) <= m.budget + 3 * |s.caches|
  {
    var i := |s.caches|;
    while i > 0
      invariant 0 <= i <= |s.caches|
      invariant Still(m.w) && Moving(s, true, w0, m.w)
      invariant forall p: Path | !p.Cache? :: Agree(old(m.w.disk.now.files), m.w.disk.now.files, p)
      invariant LastCachesHome(s, i, m.w.disk.now.files)
      invariant m.budget <= old(m.budget) <= m.budget + 3 * (|s.caches| - i)
    {
      i := i - 1;
      ghost var f := m.w.disk.now.files;
      assert Agree(old(m.w.disk.now.files), f, Data(false));
      r := RestoreCache(m, s, w0, i);
      if r != Done {
        return r;
      }
      OneMoreCacheHome(s, old(m.w.disk.now.files), f, m.w.disk.now.files, i);
    }
    r := Done;
  }

  /** The middle of `Storage::restore`: caches, then the data directory. */
  method RestoreData(m: Machine, s: Storage, ghost w0: World) returns (r: Outcome)
    requires Still(m.w) && Moving(s, true, w0, m.w) && DistinctKeys(s.caches)
    modifies m
    ensures r != Refused && Moving(s, true, w0, m.w)
    ensures r == Done ==> Still(m.w) && Data(false) in m.w.disk.now.files
    ensures r == Done ==> forall p: Path | !p.Cache? && !p.Data? ::
                Agree(old(m.w.disk.now.files), m.w.disk.now.files, p)
    ensures r == Stopped ==> m.budget == 0
    ensures m.budget <= old(m.budget) <= m.budget + 3 * |s.caches| + 3
  {
    assert m.w.disk.May(m.w.disk.now);
    if Data(true) in m.w.disk.now.files {
      r := RestoreCaches(m, s, w0);
      if r != Done {
        return r;
      }
      assert m.w.disk.May(m.w.disk.now);
      assert Agree(old(m.w.disk.now.files), m.w.disk.now.files, Data(true));
      DataReturnKeeps(s, m.w.disk.now.files);
      r := Step(m, s, true, w0, Data(true), Data(false), s.data);
      if r != Done {
        return r;
      }
    }
    if !Holds(m.w.disk.now.files, Data(false), s.data) {
      return Refused;
    }
    return Done;
  }

  /** The database loop of `Storage::restore`. */
  method RestoreDatabase(m: Machine, s: Storage, ghost w0: World) returns (r: Outcome)
    requires Still(m.w) && Moving(s, true, w0, m.w)
    modifies m
    ensures r != Refused && Moving(s, true, w0, m.w)
    ensures r == Done ==> Still(m.w) && forall n: DbFile :: PlaceHome(s, m.w.disk.now.files, Database(n))
    ensures r == Done ==> forall p: Path | !p.Live? && !p.Backup? && !p.Failed? ::
                Agree(old(m.w.disk.now.files), m.w.disk.now.files, p)
    ensures r == Stopped ==> m.budget == 0
    ensures m.budget <= old(m.budget) <= m.budget + 18
  {
    var names := [Main, Wal, Shm];
    var i := 0;
    while i < |names|
      invariant 0 <= i <= |names|
      invariant Still(m.w) && Moving(s, true, w0, m.w)
      invariant forall p: Path | !p.Live? && !p.Backup? && !p.Failed? ::
                  Agree(old(m.w.disk.now.files), m.w.disk.now.files, p)
      invariant forall k | 0 <= k < i :: PlaceHome(s, m.w.disk.now.files, Database(names[k]))
      invariant m.budget <= old(m.budget) <= m.budget + 6 * i
    {
      ghost var f := m.w.disk.now.files;
      r := RestorePlace(m, s, w0, Database(names[i]));
      if r != Done {
        return r;
      }
      forall p: Path | !p.Live? && !p.Backup? && !p.Failed?
        ensures Agree(old(m.w.disk.now.files), m.w.disk.now.files, p)
      {
        assert Agree(old(m.w.disk.now.files), f, p) && Agree(f, m.w.disk.now.files, p);
      }
      forall k | 0 <= k < i
        ensures PlaceHome(s, m.w.disk.now.files, Database(names[k]))
      {
        assert PlaceHome(s, f, Database(names[k]));
        assert Agree(f, m.w.disk.now.files, Live(names[k])) && Agree(f, m.w.disk.now.files, Backup(names[k]));
      }
      i := i + 1;
    }
    r := Done;
    forall n: DbFile
      ensures PlaceHome(s, m.w.disk.now.files, Database(n))
    {
      assert n == names[0] || n == names[1] || n == names[2];
    }
  }

  /** `Storage::restore`, from any state an interrupted activation, a running new service or
      an interrupted restoration leaves. It is never refused, and undisturbed it ends with
      every recorded entry where the snapshot found it. */
  method Restore(m: Machine, s: Storage) returns (r: Outcome)
    requires Still(m.w) && StorageRecoverable(s, m.w.disk.now.files) && DistinctKeys(s.caches)
    modifies m
    ensures r != Refused && Moving(s, true, old(m.w), m.w)
    ensures r == Done ==> Still(m.w) && StorageHome(s, m.w.disk.now.files)
    ensures r == Stopped ==> m.budget == 0
    ensures m.budget <= old(m.budget) <= m.budget + 3 * |s.caches| + 27
  {
    ghost var w0 := m.w;
    assert Moving(s, true, w0, m.w);
    r := RestorePlace(m, s, w0, EmergencyLog);
    if r != Done {
      return r;
    }
    ghost var f1 := m.w.disk.now.files;
    r := RestoreData(m, s, w0);
    if r != Done {
      return r;
    }
    ghost var f2 := m.w.disk.now.files;
    r := RestoreDatabase(m, s, w0);
    if r == Done {
      ghost var f3 := m.w.disk.now.files;
      assert m.w.disk.May(m.w.disk.now);
      assert Agree(f2, f3, Data(false)) && Agree(f1, f2, LiveJournal) && Agree(f2, f3, LiveJournal);
      assert Agree(f1, f2, BackupJournal) && Agree(f2, f3, BackupJournal);
      HomeByPlaces(s, f3);
    }
  }

  lemma HomeByPlaces(s: Storage, f: Tree)
    requires StorageRecoverable(s, f) && Data(false) in f
    requires PlaceHome(s, f, EmergencyLog) && forall n: DbFile :: PlaceHome(s, f, Database(n))
    ensures StorageHome(s, f)
  {
    forall n: DbFile
      ensures SlotHome(f, Live(n), Backup(n), OriginalDb(s, n))
    {
      assert PlaceHome(s, f, Database(n));
    }
  }
}
