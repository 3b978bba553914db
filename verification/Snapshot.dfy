/** Taking the inventory that the cutover and its reversal rely on (storage.rs). */
module SnapshotStep {
  import opened Durable
  import opened Files
  import opened Layout
  import opened History
  import opened World
  import opened Relocation
  import opened FenceActions

  const KEY_PREFIX: string := "sha256-"

  predicate HexDigit(c: char) {
    '0' <= c <= '9' || 'a' <= c <= 'f' || 'A' <= c <= 'F'
  }

  /** `cache_key`. */
  predicate CacheKey(key: string) {
    |key| == |KEY_PREFIX| + 64 && KEY_PREFIX <= key && forall i | |KEY_PREFIX| <= i < |key| :: HexDigit(key[i])
  }

  /** A cache key is the prefix and 64 hexadecimal digits of either case. */
  lemma CacheKeyIff(digits: string)
    ensures CacheKey("sha256-" + digits) <==>
            |digits| == 64 && forall c | c in digits :: '0' <= c <= '9' || 'a' <= c <= 'f' || 'A' <= c <= 'F'
  {
    var key := "sha256-" + digits;
    assert |KEY_PREFIX| == 7 && key[7..] == digits;
    assert forall i | 7 <= i < |key| :: key[i] == digits[i - 7];
    if CacheKey(key) {
      forall c | c in digits
        ensures HexDigit(c)
      {
        var i :| 0 <= i < |digits| && digits[i] == c;
        assert key[i + 7] == c;
      }
    } else if |digits| == 64 {
      assert KEY_PREFIX <= key;
      var i :| 7 <= i < |key| && !HexDigit(key[i]);
      assert digits[i - 7] in digits;
    }
  }

  /** A cache move that is possible in tree `f` and stems from the plan. */
  predicate Collected(keys: seq<(string, string)>, f: Tree, c: CacheMove) {
    (c.from, c.to) in keys && c.from != c.to && CacheHome(f, c)
  }

  /** A cache move that the preparation refuses. */
  predicate BadMove(f: Tree, k: (string, string)) {
    !CacheKey(k.0) || !CacheKey(k.1) || k.0 == k.1 || Cache(k.1) in f ||
    (Cache(k.0) in f && !f[Cache(k.0)].Directory?)
  }

  /** The cache loop of `Storage::prepare`. A repeated old key is skipped, an absent cache is
      left out, and a taken destination refuses the snapshot. */
  method CollectCaches(keys: seq<(string, string)>, f: Tree) returns (ok: bool, caches: seq<CacheMove>)
    ensures ok ==> Collection(keys, f, caches) && |caches| <= |keys|
    ensures !ok ==> exists k | k in keys :: BadMove(f, k)
  {
    caches := [];
    var i := 0;
    while i < |keys|
      invariant 0 <= i <= |keys| && |caches| <= i
      invariant SoFar(keys, f, caches, i)
    {
      var (before, after) := keys[i];
      assert keys[i] in keys;
      if !CacheKey(before) || !CacheKey(after) || before == after {
        return false, caches;
      }
      if Seen(caches, before) {
        SkippedSoFar(keys, f, caches, i);
      } else {
        if Cache(after) in f {
          return false, caches;
        }
        if Cache(before) in f {
          if !f[Cache(before)].Directory? {
            return false, caches;
          }
          AddedSoFar(keys, f, caches, i);
          caches := caches + [CacheMove(before, after, f[Cache(before)])];
        } else {
          SkippedSoFar(keys, f, caches, i);
        }
      }
      i := i + 1;
    }
    ok := true;
    AllSoFar(keys, f, caches);
  }

  /** A move from this key is among the collected ones. */
  predicate Seen(caches: seq<CacheMove>, key: string) {
    exists c | c in caches :: c.from == key
  }

  /** This key is among the first `n` old keys of the plan. */
  predicate Listed(keys: seq<(string, string)>, n: nat, key: string)
    requires n <= |keys|
  {
    exists j | 0 <= j < n :: keys[j].0 == key
  }

  predicate DistinctFrom(caches: seq<CacheMove>) {
    forall a, b | 0 <= a < b < |caches| :: caches[a].from != caches[b].from
  }

  /** The moves that the first `n` entries of the plan have given. */
  predicate SoFar(keys: seq<(string, string)>, f: Tree, caches: seq<CacheMove>, n: nat)
    requires n <= |keys|
  {
    (forall c | c in caches :: Collected(keys, f, c) && Listed(keys, n, c.from)) && DistinctFrom(caches) &&
    (forall j | 0 <= j < n && Cache(keys[j].0) in f :: Seen(caches, keys[j].0)) &&
    (forall j | 0 <= j < n && First(keys, j) && Cache(keys[j].0) in f ::
       CacheMove(keys[j].0, keys[j].1, f[Cache(keys[j].0)]) in caches)
  }

  lemma ListedGrows(keys: seq<(string, string)>, n: nat, key: string)
    requires n < |keys|
    ensures Listed(keys, n, key) ==> Listed(keys, n + 1, key)
    ensures Listed(keys, n + 1, keys[n].0)
  {
  }

  lemma SkippedSoFar(keys: seq<(string, string)>, f: Tree, caches: seq<CacheMove>, i: nat)
    requires i < |keys| && SoFar(keys, f, caches, i)
    requires Cache(keys[i].0) !in f || Seen(caches, keys[i].0)
    ensures SoFar(keys, f, caches, i + 1)
  {
    if Seen(caches, keys[i].0) {
      var c :| c in caches && c.from == keys[i].0;
      var j :| 0 <= j < i && keys[j].0 == c.from;
      assert !First(keys, i);
    }
    forall c | c in caches
      ensures Listed(keys, i + 1, c.from)
    {
      ListedGrows(keys, i, c.from);
    }
  }

  lemma AddedSoFar(keys: seq<(string, string)>, f: Tree, caches: seq<CacheMove>, i: nat)
    requires i < |keys| && SoFar(keys, f, caches, i) && keys[i].0 != keys[i].1
    requires Cache(keys[i].0) in f && Cache(keys[i].1) !in f && !Seen(caches, keys[i].0)
    ensures SoFar(keys, f, caches + [CacheMove(keys[i].0, keys[i].1, f[Cache(keys[i].0)])], i + 1)
  {
    var c := CacheMove(keys[i].0, keys[i].1, f[Cache(keys[i].0)]);
    var next := caches + [c];
    assert next[|caches|] == c && keys[i] in keys;
    forall d | d in next
      ensures Collected(keys, f, d) && Listed(keys, i + 1, d.from)
    {
      ListedGrows(keys, i, d.from);
      assert d in caches || d == c;
    }
    DistinctFromGrows(caches, c);
    forall j | 0 <= j < i + 1 && Cache(keys[j].0) in f
      ensures Seen(next, keys[j].0)
    {
      SeenGrows(caches, c, keys[j].0);
    }
  }

  lemma SeenGrows(caches: seq<CacheMove>, c: CacheMove, key: string)
    ensures Seen(caches + [c], key) <==> Seen(caches, key) || key == c.from
  {
    if Seen(caches, key) {
      var d :| d in caches && d.from == key;
      assert d in caches + [c];
    }
    assert (caches + [c])[|caches|] == c;
  }

  lemma DistinctFromGrows(caches: seq<CacheMove>, c: CacheMove)
    requires DistinctFrom(caches) && !Seen(caches, c.from)
    ensures DistinctFrom(caches + [c])
  {
    forall a | 0 <= a < |caches|
      ensures caches[a].from != c.from
    {
      assert caches[a] in caches;
    }
  }

  lemma AllSoFar(keys: seq<(string, string)>, f: Tree, caches: seq<CacheMove>)
    requires SoFar(keys, f, caches, |keys|)
    ensures Collection(keys, f, caches)
  {
    forall k | k in keys && Cache(k.0) in f
      ensures exists c | c in caches :: c.from == k.0
    {
      var j :| 0 <= j < |keys| && keys[j] == k;
      assert Seen(caches, keys[j].0);
    }
  }

  /** What the loop hands on: possible moves, each source once. */
  predicate Collection(keys: seq<(string, string)>, f: Tree, caches: seq<CacheMove>) {
    (forall c | c in caches :: Collected(keys, f, c)) &&
    (forall i, j | 0 <= i < j < |caches| :: caches[i].from != caches[j].from) &&
    (forall k | k in keys && Cache(k.0) in f :: exists c | c in caches :: c.from == k.0) &&
    Gathers(keys, f, caches)
  }

  /** If different old keys have different new ones, no key occurs twice in the inventory. */
  lemma CollectedKeysAreDistinct(keys: seq<(string, string)>, f: Tree, caches: seq<CacheMove>)
    requires DistinctTargets(keys)
    requires forall c | c in caches :: Collected(keys, f, c)
    requires forall i, j | 0 <= i < j < |caches| :: caches[i].from != caches[j].from
    ensures DistinctKeys(caches)
  {
    forall i, j | 0 <= i < |caches| && 0 <= j < |caches|
      ensures caches[i].from != caches[j].to
    {
      assert Collected(keys, f, caches[i]) && Collected(keys, f, caches[j]);
      assert CacheHome(f, caches[i]) && CacheHome(f, caches[j]);
    }
    forall i, j | 0 <= i < j < |caches|
      ensures caches[i].to != caches[j].to
    {
      assert Collected(keys, f, caches[i]) && Collected(keys, f, caches[j]);
      var a :| 0 <= a < |keys| && keys[a] == (caches[i].from, caches[i].to);
      var b :| 0 <= b < |keys| && keys[b] == (caches[j].from, caches[j].to);
    }
  }

  /** Write one version of the disk and sync it, while nothing else runs. */
  method Put(m: Machine, next: Persisted, ghost st: State) returns (r: Outcome)
    requires Inv(m.w) && On(m.w, st) && Still(m.w) && Fits(m.w, next)
    requires next.work.Active? && next.work.journal == Some(st)
    modifies m
    ensures r != Refused && Inv(m.w) && On(m.w, st)
    ensures m.w == old(m.w).(disk := m.w.disk)
    ensures r == Done ==> m.w.disk == Disk(next, [])
    ensures r == Stopped ==> m.budget == 0
    ensures m.budget <= old(m.budget) <= m.budget + 2
  {
    var written := m.Spend();
    if !written {
      return Stopped;
    }
    WriteKeeps(m.w, next);
    m.w := m.w.(disk := m.w.disk.Write(next));
    var synced := m.Spend();
    if !synced {
      return Stopped;
    }
    SyncKeeps(m.w);
    m.w := m.w.(disk := m.w.disk.Sync());
    return Done;
  }

  /** The remembered tree matters only from here on. */
  lemma OriginKeeps(w: World, o: Tree)
    requires Inv(w) && w.disk.Settled() && w.disk.now.work.Active? && w.disk.now.work.storage.None?
    requires SameRoot(o, w.disk.now.left) && w.running == {}
    ensures Inv(w.(origin := o, recording := Quiet))
  {
    var w' := w.(origin := o, recording := Quiet);
    assert w.disk.May(w.disk.now);
    SameRootIsLegacy(o, w.disk.now.left);
    assert forall v: Persisted | w'.disk.May(v) :: v == w.disk.now;
  }

  /** The inventory of tree `f` once the caches are collected. */
  function Inventory(f: Tree, caches: seq<CacheMove>, candidate: Node, converted: Node): Storage
    requires Data(false) in f
  {
    Storage(
      f[Data(false)],
      map n: DbFile | n in {Main, Wal, Shm} && Live(n) in f :: f[Live(n)],
      candidate,
      caches,
      if LiveJournal in f then Emergency(Some(f[LiveJournal]), Some(converted)) else Emergency(None, None))
  }

  /** The tree with the converted database and journal written beside it. */
  function WithCandidates(f: Tree, candidate: Node, converted: Node): Tree {
    var g := f[Candidate := candidate];
    if LiveJournal in f then g[CandidateJournal := converted] else g
  }

  lemma InventoryIsPrepared(rec: Record, f: Tree, caches: seq<CacheMove>, candidate: Node, converted: Node)
    requires GoodRecord(rec) && Staging(rec, f) && Live(Main) in f
    requires Data(false) in f && Data(true) !in f
    requires candidate.Regular? && converted.Regular?
    requires forall c | c in caches :: Collected(rec.cacheKeys, f, c)
    requires forall i, j | 0 <= i < j < |caches| :: caches[i].from != caches[j].from
    ensures Prepared(rec, Inventory(f, caches, candidate, converted), WithCandidates(f, candidate, converted))
  {
    var s, g := Inventory(f, caches, candidate, converted), WithCandidates(f, candidate, converted);
    CollectedKeysAreDistinct(rec.cacheKeys, f, caches);
    forall i | 0 <= i < |caches|
      ensures CacheHome(g, caches[i])
    {
      assert caches[i] in caches;
      assert Collected(rec.cacheKeys, f, caches[i]);
    }
    forall n: DbFile
      ensures SlotHome(g, Live(n), Backup(n), OriginalDb(s, n))
    {
      assert n.Main? || n.Wal? || n.Shm?;
      assert n in {Main, Wal, Shm};
    }
    assert Main in s.original;
  }

  /** Data directory, database and emergency journal are what the preparation expects. */
  predicate Inspectable(f: Tree) {
    Data(false) in f && f[Data(false)].Directory? && Data(true) !in f &&
    Live(Main) in f && (forall n | n in {Main, Wal, Shm} :: Live(n) in f ==> f[Live(n)].Regular?) &&
    (LiveJournal in f ==> f[LiveJournal].Regular?)
  }

  /** What makes the snapshot refuse. */
  predicate Obstructed(rec: Record, f: Tree) {
    !Inspectable(f) || exists k | k in rec.cacheKeys :: BadMove(f, k)
  }

  /** The checks of `Storage::prepare` and `emergency::Journal::prepare`, and the inventory they
      lead to: every identity that the cutover will move is recorded as it is in `f`. */
  method TakeInventory(rec: Record, f: Tree, candidate: Node, converted: Node) returns (ok: bool, s: Storage)
    requires GoodRecord(rec) && Staging(rec, f) && candidate.Regular? && converted.Regular?
    ensures ok ==> Prepared(rec, s, WithCandidates(f, candidate, converted))
    ensures ok ==> Gathers(rec.cacheKeys, f, s.caches) && |s.caches| <= |rec.cacheKeys|
    ensures ok ==> Inspectable(f) && Converts(s, f, candidate, converted)
    ensures !ok ==> Obstructed(rec, f)
  {
    s := Storage(candidate, map[], candidate, [], Emergency(None, None));
    if Data(false) !in f || !f[Data(false)].Directory? || Data(true) in f {
      return false, s;
    }
    if Live(Main) !in f || (exists n | n in {Main, Wal, Shm} :: Live(n) in f && !f[Live(n)].Regular?) {
      return false, s;
    }
    if LiveJournal in f && !f[LiveJournal].Regular? {
      return false, s;
    }
    var collected, caches := CollectCaches(rec.cacheKeys, f);
    if !collected {
      return false, s;
    }
    InventoryIsPrepared(rec, f, caches, candidate, converted);
    return true, Inventory(f, caches, candidate, converted);
  }

  /** Which converted file is to replace which original. */
  predicate Converts(s: Storage, f: Tree, candidate: Node, converted: Node) {
    s.candidate == candidate &&
    s.emergency.original == (if LiveJournal in f then Some(f[LiveJournal]) else None) &&
    s.emergency.candidate == (if LiveJournal in f then Some(converted) else None)
  }

  /** Write the candidates, then storage.json. */
  method StoreInventory(m: Machine, st: State, s: Storage, candidate: Node, converted: Node) returns (r: Outcome)
    requires Inv(m.w) && On(m.w, st) && Still(m.w)
    requires ValidHistory(st) && |st.completed| == 3
    requires m.w.disk.now.work.Active? && m.w.disk.now.work.storage.None?
    requires Prepared(m.w.disk.now.work.record, s, WithCandidates(m.w.disk.now.files, candidate, converted))
    requires Gathers(m.w.disk.now.work.record.cacheKeys, m.w.disk.now.files, s.caches)
    modifies m
    ensures r != Refused && Inv(m.w) && On(m.w, st)
    ensures m.w == old(m.w).(disk := m.w.disk, origin := m.w.origin, recording := m.w.recording)
    ensures r == Done ==>
              m.w.origin == WithCandidates(old(m.w.disk.now.files), candidate, converted) &&
              m.w.disk == Disk(old(m.w.disk.now).(work := old(m.w.disk.now.work).(storage := Some(s)),
                               files := m.w.origin), [])
    ensures r == Stopped ==> m.budget == 0
    ensures m.budget <= old(m.budget) <= m.budget + 4
  {
    var v := m.w.disk.now;
    var g := WithCandidates(v.files, candidate, converted);
    var staged := v.(files := g);
    assert m.w.disk.May(v);
    PreparedIsRecoverable(v.work.record, s, g);
    PreparedHasNoBackups(v.work.record, s, g);
    assert forall p: Path | p.AtRoot() :: Agree(v.files, g, p);
    EarlyFits(m.w, v, staged, st);
    r := Put(m, staged, st);
    if r != Done {
      return r;
    }
    SameRootIsTransitive(v.left, v.files, g);
    SameRootIsSymmetric(v.left, g);
    OriginKeeps(m.w, g);
    m.w := m.w.(origin := g, recording := Quiet);
    assert m.w.disk == Disk(staged, []);
    r := NoteInventory(m, st, s);
  }

  lemma PreparedHasNoBackups(rec: Record, s: Storage, f: Tree)
    requires Prepared(rec, s, f)
    ensures NoBackups(f)
  {
    assert forall n: DbFile :: SlotHome(f, Live(n), Backup(n), OriginalDb(s, n));
  }

  /** `storage.json`. */
  method NoteInventory(m: Machine, st: State, s: Storage) returns (r: Outcome)
    requires Inv(m.w) && On(m.w, st) && Still(m.w) && |st.completed| == 3
    requires m.w.disk.now.work.Active? && m.w.origin == m.w.disk.now.files && m.w.recording == Quiet
    requires Prepared(m.w.disk.now.work.record, s, m.w.disk.now.files)
    requires Gathers(m.w.disk.now.work.record.cacheKeys, m.w.disk.now.files, s.caches)
    modifies m
    ensures r != Refused && Inv(m.w) && On(m.w, st)
    ensures m.w == old(m.w).(disk := m.w.disk)
    ensures r == Done ==>
              m.w.disk == Disk(old(m.w.disk.now).(work := old(m.w.disk.now.work).(storage := Some(s))), [])
    ensures r == Stopped ==> m.budget == 0
    ensures m.budget <= old(m.budget) <= m.budget + 2
  {
    var v := m.w.disk.now;
    var noted := v.(work := v.work.(storage := Some(s)));
    assert m.w.disk.May(v);
    EarlyFits(m.w, v, noted, st);
    r := Put(m, noted, st);
  }

  /** Before the snapshot is completed, any tree that is the same below the root fits. */
  lemma EarlyFits(w: World, v: Persisted, next: Persisted, st: State)
    requires Fits(w, v) && v.work.Active? && v.work.journal == Some(st) && |st.completed| <= 3
    requires next == v.(work := next.work, files := next.files)
    requires next.work.Active? && next.work == v.work.(storage := next.work.storage)
    requires SameRoot(v.files, next.files) && Untouched(next.files) && NoBackups(next.files)
    requires next.work.storage != v.work.storage && next.work.storage.Some? ==>
               Home(next.work.record, next.work.storage.value, w.origin) && w.recording != NotYet &&
               Gathers(next.work.record.cacheKeys, w.origin, next.work.storage.value.caches)
    ensures Fits(w, next)
  {
    assert JournalOf(next) == JournalOf(v);
    SameRootIsTransitive(v.left, v.files, next.files);
  }

  /** `apply(Snapshot)`: inspect the stopped appliance and record what is there. */
  method Prepare(m: Machine, st: State, candidate: Node, converted: Node) returns (r: Outcome)
    requires Inv(m.w) && On(m.w, st) && Still(m.w)
    requires ValidHistory(st) && |st.completed| == 3
    requires m.w.disk.now.work.Active? && GoodRecord(m.w.disk.now.work.record) && m.w.disk.now.work.storage.None?
    requires Staging(m.w.disk.now.work.record, m.w.disk.now.files)
    requires candidate.Regular? && converted.Regular?
    modifies m
    ensures Inv(m.w) && On(m.w, st)
    ensures m.w == old(m.w).(disk := m.w.disk, origin := m.w.origin, recording := m.w.recording)
    ensures r == Refused ==> m.w == old(m.w) && Obstructed(m.w.disk.now.work.record, m.w.disk.now.files)
    ensures r == Done ==>
              Still(m.w) && m.w.disk.now.work.Active? && m.w.disk.now.work.storage.Some? &&
              m.w.disk.now == old(m.w.disk.now).(work := m.w.disk.now.work, files := m.w.disk.now.files) &&
              m.w.disk.now.work == old(m.w.disk.now.work).(storage := m.w.disk.now.work.storage) &&
              |m.w.disk.now.work.storage.value.caches| <= |m.w.disk.now.work.record.cacheKeys| &&
              m.w.origin == m.w.disk.now.files && SameRoot(old(m.w.disk.now.files), m.w.origin) &&
              Prepared(m.w.disk.now.work.record, m.w.disk.now.work.storage.value, m.w.disk.now.files)
    ensures r == Done ==>
              Converts(m.w.disk.now.work.storage.value, m.w.origin, candidate, converted) &&
              Holds(m.w.disk.now.files, Candidate, candidate) &&
              (LiveJournal in m.w.origin ==> Holds(m.w.disk.now.files, CandidateJournal, converted))
    ensures r == Stopped ==> m.budget == 0
    ensures m.budget <= old(m.budget) <= m.budget + 4
  {
    var ok, s := TakeInventory(m.w.disk.now.work.record, m.w.disk.now.files, candidate, converted);
    if !ok {
      return Refused;
    }
    assert forall p: Path | p.AtRoot() ::
        Agree(m.w.disk.now.files, WithCandidates(m.w.disk.now.files, candidate, converted), p);
    r := StoreInventory(m, st, s, candidate, converted);
  }
}
