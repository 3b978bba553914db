/** The part of the filesystem that a migration moves, as a map from path to identity.

    A directory entry belongs to the inode of its directory. Renaming the data directory is
    therefore one step on `Data`, and the entries below it keep their paths. */
module Files {

  /** The live database and its two companions (storage.rs, DATABASE_FILES). */
  datatype DbFile = Main | Wal | Shm

  datatype Path =
      // Below the root.
    | Data(current: bool)               // var/lib/sy-spark, var/lib/sparkplane
    | Live(db: DbFile)                  // inside the data directory
    | LiveJournal                       // executor/emergency.jsonl inside it
    | Cache(key: string)                // compile-cache/<key> inside it
    | Published(asset: nat)             // the two trees, then the five unit and profile files
    | Account(group: bool, renamed: bool)
      // Below the working directory of the transaction.
    | Backup(db: DbFile)
    | Failed(db: DbFile)
    | Candidate
    | BackupJournal
    | FailedJournal
    | CandidateJournal
    | Staged(asset: nat)
  {
    predicate AtRoot() {
      Data? || Live? || LiveJournal? || Cache? || Published? || Account?
    }
  }

  /** What the program compares: inode, owner and (for files) mode and digest, as one value.
      Equal digests stand for equal bytes. An account entry carries its numeric identity. */
  datatype Node =
    | Directory(inode: nat)
    | Regular(inode: nat, digest: nat)
    | Number(id: nat)

  type Tree = map<Path, Node>

  /** Same entry, or the same absence, at `p`. */
  predicate Agree(f: Tree, g: Tree, p: Path) {
    (p in f <==> p in g) && (p in f ==> f[p] == g[p])
  }

  predicate Holds(f: Tree, p: Path, id: Node) {
    p in f && f[p] == id
  }

  /** The identity is at exactly one of the two paths and nothing is at the other. */
  predicate Either(f: Tree, a: Path, b: Path, id: Node) {
    (Holds(f, a, id) && b !in f) || (a !in f && Holds(f, b, id))
  }

  /** When `move_bound` (relocation.rs) accepts: the bound identity is at the source and the
      destination is free, or it is at the destination and the source is gone. */
  predicate Movable(f: Tree, source: Path, destination: Path, id: Node) {
    if source in f then f[source] == id && destination !in f
    else Holds(f, destination, id)
  }

  function Moved(f: Tree, source: Path, destination: Path): Tree {
    if source in f then (f - {source})[destination := f[source]] else f
  }

  /** The same entries, and as many places. */
  predicate Conserved(f: Tree, g: Tree) {
    f.Values == g.Values && |f| == |g|
  }

  /** A bound move neither loses, copies nor replaces anything. */
  lemma MoveConserves(f: Tree, source: Path, destination: Path, id: Node)
    requires Movable(f, source, destination, id)
    ensures Conserved(f, Moved(f, source, destination))
  {
    if source in f {
      var g := Moved(f, source, destination);
      assert g.Keys == f.Keys - {source} + {destination};
      forall n | n in f.Values
        ensures n in g.Values
      {
        var p :| p in f && f[p] == n;
        if p == source {
          assert g[destination] == n;
        } else {
          assert g[p] == n;
        }
      }
      forall n | n in g.Values
        ensures n in f.Values
      {
        var p :| p in g && g[p] == n;
        assert f[if p == destination then source else p] == n;
      }
    }
  }

  /** On an entry in one of its two places a bound move cannot be refused, ends at the
      destination, and moving back afterwards restores the tree it started from. */
  lemma MoveThere(f: Tree, source: Path, destination: Path, id: Node)
    requires source != destination && Either(f, source, destination, id)
    ensures Movable(f, source, destination, id)
    ensures Holds(Moved(f, source, destination), destination, id)
    ensures source !in Moved(f, source, destination)
    ensures forall p | p != source && p != destination :: Agree(Moved(f, source, destination), f, p)
    ensures source in f ==> Moved(Moved(f, source, destination), destination, source) == f
  {
  }
}
