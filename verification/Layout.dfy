/** Where every moved entry may be before, during and after the cutover, for the identities
    that the transaction recorded. */
module Layout {
  import opened Durable
  import opened Files

  /** Two staged trees followed by five unit and profile files (publication.rs). */
  const ASSETS: nat := 7

  datatype CacheMove = CacheMove(from: string, to: string, id: Node)

  datatype Emergency = Emergency(original: Option<Node>, candidate: Option<Node>)

  /** The inventory that the snapshot stores in storage.json. */
  datatype Storage = Storage(
    data: Node,
    original: map<DbFile, Node>,
    candidate: Node,
    caches: seq<CacheMove>,
    emergency: Emergency)

  /** The parts of record.json that the moves depend on. */
  datatype Record = Record(
    identity: nat,
    assets: seq<Node>,
    uid: Node,
    gid: Node,
    cacheKeys: seq<(string, string)>)

  function AccountId(rec: Record, group: bool): Node {
    if group then rec.gid else rec.uid
  }

  function OriginalDb(s: Storage, n: DbFile): Option<Node> {
    if n in s.original then Some(s.original[n]) else None
  }

  predicate Recorded(s: Storage, key: string) {
    exists i | 0 <= i < |s.caches| :: key == s.caches[i].from || key == s.caches[i].to
  }

  /** No key of one cache move occurs in another. */
  predicate DistinctKeys(caches: seq<CacheMove>) {
    (forall i, j | 0 <= i < |caches| && 0 <= j < |caches| :: caches[i].from != caches[j].to) &&
    (forall i, j | 0 <= i < j < |caches| :: caches[i].from != caches[j].from && caches[i].to != caches[j].to)
  }

  // ---- One replaceable file: live path, backup of the original, quarantine ----

  /** Whatever is live can be put aside: it is a plain file and the quarantine is free. */
  predicate Displaceable(f: Tree, live: Path, failed: Path) {
    live in f ==> f[live].Regular? && failed !in f
  }

  /** The original is live, or it is in the backup and the live path can be cleared. */
  predicate Slot(f: Tree, live: Path, backup: Path, failed: Path, original: Option<Node>) {
    match original
    case Some(id) =>
      (Holds(f, live, id) && backup !in f) ||
      (Holds(f, backup, id) && Displaceable(f, live, failed))
    case None =>
      backup !in f && Displaceable(f, live, failed)
  }

  predicate SlotHome(f: Tree, live: Path, backup: Path, original: Option<Node>) {
    backup !in f &&
    match original
    case Some(id) => Holds(f, live, id)
    case None => live !in f
  }

  predicate SlotAway(f: Tree, live: Path, backup: Path, failed: Path, original: Option<Node>) {
    failed !in f && (live in f ==> f[live].Regular?) &&
    match original
    case Some(id) => Holds(f, backup, id)
    case None => backup !in f
  }

  predicate DbSlot(s: Storage, f: Tree, n: DbFile) {
    Slot(f, Live(n), Backup(n), Failed(n), OriginalDb(s, n))
  }

  predicate JournalSlot(s: Storage, f: Tree) {
    Slot(f, LiveJournal, BackupJournal, FailedJournal, s.emergency.original)
  }

  // ---- Compile caches ----

  predicate CachesSplit(s: Storage, f: Tree) {
    forall i | 0 <= i < |s.caches| :: Either(f, Cache(s.caches[i].from), Cache(s.caches[i].to), s.caches[i].id)
  }

  predicate CacheHome(f: Tree, c: CacheMove) {
    Holds(f, Cache(c.from), c.id) && Cache(c.to) !in f
  }

  predicate CachesHome(s: Storage, f: Tree) {
    forall i | 0 <= i < |s.caches| :: CacheHome(f, s.caches[i])
  }

  predicate CachesAway(s: Storage, f: Tree) {
    forall i | 0 <= i < |s.caches| :: Cache(s.caches[i].from) !in f && Holds(f, Cache(s.caches[i].to), s.caches[i].id)
  }

  /** The plan's first entry for this old key; later ones are skipped. */
  predicate First(keys: seq<(string, string)>, i: nat)
    requires i < |keys|
  {
    forall j | 0 <= j < i :: keys[j].0 != keys[i].0
  }

  /** Every planned cache that exists in tree `o` is among the moves, under its identity. */
  predicate Gathers(keys: seq<(string, string)>, o: Tree, caches: seq<CacheMove>) {
    forall i | 0 <= i < |keys| && First(keys, i) && Cache(keys[i].0) in o ::
      CacheMove(keys[i].0, keys[i].1, o[Cache(keys[i].0)]) in caches
  }

  // ---- Published assets and service accounts ----

  predicate AssetsSplit(rec: Record, f: Tree)
    requires |rec.assets| == ASSETS
  {
    forall i | 0 <= i < ASSETS :: Either(f, Staged(i), Published(i), rec.assets[i])
  }

  predicate AssetsHome(rec: Record, f: Tree)
    requires |rec.assets| == ASSETS
  {
    forall i | 0 <= i < ASSETS :: Holds(f, Staged(i), rec.assets[i]) && Published(i) !in f
  }

  predicate AssetsAway(rec: Record, f: Tree)
    requires |rec.assets| == ASSETS
  {
    forall i | 0 <= i < ASSETS :: Staged(i) !in f && Holds(f, Published(i), rec.assets[i])
  }

  predicate AccountsSplit(rec: Record, f: Tree) {
    forall g: bool :: Either(f, Account(g, false), Account(g, true), AccountId(rec, g))
  }

  predicate AccountsNamed(rec: Record, f: Tree, renamed: bool) {
    forall g: bool :: Holds(f, Account(g, renamed), AccountId(rec, g)) && Account(g, !renamed) !in f
  }

  // ---- Whole layouts ----

  predicate WellFormed(rec: Record, s: Storage) {
    |rec.assets| == ASSETS && Main in s.original && DistinctKeys(s.caches) &&
    s.emergency.original.Some? == s.emergency.candidate.Some?
  }

  /** Every state from which `Storage::restore` can finish. */
  predicate StorageRecoverable(s: Storage, f: Tree) {
    Either(f, Data(false), Data(true), s.data) &&
    CachesSplit(s, f) &&
    (Data(false) in f ==> CachesHome(s, f)) &&
    (forall n: DbFile :: DbSlot(s, f, n)) &&
    JournalSlot(s, f)
  }

  /** Every state from which undoing the relocation can finish. */
  predicate Recoverable(rec: Record, s: Storage, f: Tree) {
    WellFormed(rec, s) && AssetsSplit(rec, f) && AccountsSplit(rec, f) && StorageRecoverable(s, f)
  }

  /** Everything where the snapshot found it. */
  predicate StorageHome(s: Storage, f: Tree) {
    Holds(f, Data(false), s.data) && Data(true) !in f && CachesHome(s, f) &&
    (forall n: DbFile :: SlotHome(f, Live(n), Backup(n), OriginalDb(s, n))) &&
    SlotHome(f, LiveJournal, BackupJournal, s.emergency.original)
  }

  predicate Home(rec: Record, s: Storage, f: Tree) {
    WellFormed(rec, s) && AssetsHome(rec, f) && AccountsNamed(rec, f, false) && StorageHome(s, f)
  }

  /** Home, with the converted database and journal waiting and the quarantine empty. */
  predicate Prepared(rec: Record, s: Storage, f: Tree) {
    Home(rec, s, f) &&
    s.candidate.Regular? && Holds(f, Candidate, s.candidate) &&
    (s.emergency.candidate.Some? ==>
       s.emergency.candidate.value.Regular? && Holds(f, CandidateJournal, s.emergency.candidate.value)) &&
    (forall n: DbFile :: Failed(n) !in f) && FailedJournal !in f
  }

  /** The new appliance in place, its live files rewritten at will, every original kept. */
  predicate Migrated(rec: Record, s: Storage, f: Tree) {
    WellFormed(rec, s) && AssetsAway(rec, f) && AccountsNamed(rec, f, true) &&
    Data(false) !in f && Holds(f, Data(true), s.data) && CachesAway(s, f) &&
    (forall n: DbFile :: SlotAway(f, Live(n), Backup(n), Failed(n), OriginalDb(s, n))) &&
    SlotAway(f, LiveJournal, BackupJournal, FailedJournal, s.emergency.original)
  }

  /** Nothing of the new appliance is in place. */
  predicate Untouched(f: Tree) {
    Data(false) in f && Data(true) !in f &&
    (forall i | 0 <= i < ASSETS :: Published(i) !in f) &&
    (forall g: bool :: Account(g, false) in f && Account(g, true) !in f)
  }

  /** Paths that no move of this transaction mentions. */
  predicate Untracked(s: Storage, p: Path) {
    (p.Cache? && !Recorded(s, p.key)) || (p.Published? && p.asset >= ASSETS)
  }

  ghost predicate Framed(s: Storage, o: Tree, f: Tree) {
    forall p: Path | Untracked(s, p) :: Agree(o, f, p)
  }

  /** Below the root, exactly the tree `o`. */
  ghost predicate SameRoot(o: Tree, f: Tree) {
    forall p: Path | p.AtRoot() :: Agree(o, f, p)
  }

  lemma PreparedIsRecoverable(rec: Record, s: Storage, f: Tree)
    requires Prepared(rec, s, f)
    ensures Recoverable(rec, s, f)
    ensures Untouched(f)
  {
  }

  lemma MigratedIsRecoverable(rec: Record, s: Storage, f: Tree)
    requires Migrated(rec, s, f)
    ensures Recoverable(rec, s, f)
  {
    forall i | 0 <= i < |s.caches|
      ensures Either(f, Cache(s.caches[i].from), Cache(s.caches[i].to), s.caches[i].id)
    {
    }
  }

  /** Two trees that are home for the same inventory and agree on everything untracked are
      the same tree below the root: names, contents and inodes. */
  lemma HomeIsTheOriginalTree(rec: Record, s: Storage, o: Tree, f: Tree)
    requires Home(rec, s, o) && Home(rec, s, f) && Framed(s, o, f)
    ensures SameRoot(o, f)
  {
    forall p: Path | p.AtRoot()
      ensures Agree(o, f, p)
    {
      match p
      case Data(_) =>
      case Live(n) =>
        assert SlotHome(o, Live(n), Backup(n), OriginalDb(s, n)) && SlotHome(f, Live(n), Backup(n), OriginalDb(s, n));
      case LiveJournal =>
      case Cache(k) =>
        if Recorded(s, k) {
          var i :| 0 <= i < |s.caches| && (k == s.caches[i].from || k == s.caches[i].to);
          assert CacheHome(o, s.caches[i]) && CacheHome(f, s.caches[i]);
        } else {
          assert Untracked(s, p);
        }
      case Published(i) =>
        if i >= ASSETS {
          assert Untracked(s, p);
        }
      case Account(g, renamed) =>
        assert Account(g, false) in o && Account(g, false) in f;
    }
  }

  lemma SameRootIsUntouched(rec: Record, s: Storage, o: Tree, f: Tree)
    requires Home(rec, s, o) && SameRoot(o, f)
    ensures Untouched(f)
  {
    assert forall p: Path | p.AtRoot() :: Agree(o, f, p);
    assert Agree(o, f, Data(false)) && Agree(o, f, Data(true));
    forall i | 0 <= i < ASSETS
      ensures Published(i) !in f
    {
      assert Agree(o, f, Published(i));
    }
    forall g: bool
      ensures Account(g, false) in f && Account(g, true) !in f
    {
      assert Agree(o, f, Account(g, false)) && Agree(o, f, Account(g, true));
    }
  }
}
