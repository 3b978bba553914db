/** The machine that the migration process runs on, and its identity-bound moves
    (relocation.rs). */
module Relocation {
  import opened Durable
  import opened Files
  import opened World

  /** `budget` is the number of external operations that still succeed. The first one after
      that fails, or the process dies there; either way the program stops. */
  class Machine {
    var w: World
    var budget: nat

    constructor (w: World, budget: nat)
      ensures this.w == w && this.budget == budget
    {
      this.w := w;
      this.budget := budget;
    }

    /** One external operation begins. While the program waits, running services may write;
        a caller knows no more about that than `ServiceStep` says. */
    method Spend() returns (alive: bool)
      modifies this
      ensures alive == (old(budget) > 0)
      ensures budget == if alive then old(budget) - 1 else 0
      ensures ServiceStep(old(w), w)
    {
      alive := budget > 0;
      if alive {
        budget := budget - 1;
      }
    }
  }

  /** No service runs and nothing waits to be synced: only this program changes the disk. */
  predicate Still(w: World) {
    w.running == {} && w.disk.Settled()
  }

  /** At most the tree has changed, in every version a power loss could leave. */
  ghost predicate FilesOnly(w: World, w': World) {
    w' == w.(disk := w'.disk) &&
    forall v: Persisted | w'.disk.May(v) :: v == w.disk.now.(files := v.files)
  }

  function WithFiles(w: World, f: Tree): World {
    w.(disk := Disk(w.disk.now.(files := f), []))
  }

  /** Every version has tree `f` or tree `g`. */
  ghost predicate OneOf(w: World, f: Tree, g: Tree) {
    forall v: Persisted | w.disk.May(v) :: v.files == f || v.files == g
  }

  /** `move_bound`: verify the identity, rename without replacing, sync both directories. */
  method MoveBound(m: Machine, source: Path, destination: Path, id: Node) returns (r: Outcome)
    requires Still(m.w) && source != destination
    modifies m
    ensures r == Refused <==> !Movable(old(m.w.disk.now.files), source, destination, id)
    ensures r == Refused ==> m.w == old(m.w)
    ensures r == Done ==> m.w == WithFiles(old(m.w), Moved(old(m.w.disk.now.files), source, destination))
    ensures FilesOnly(old(m.w), m.w)
    ensures r == Stopped ==>
              m.budget == 0 &&
              OneOf(m.w, old(m.w.disk.now.files), Moved(old(m.w.disk.now.files), source, destination))
    ensures m.budget <= old(m.budget) <= m.budget + 3
  {
    var f := m.w.disk.now.files;
    if !Movable(f, source, destination, id) {
      return Refused;
    }
    if source in f {
      var renamed := m.Spend();
      if !renamed {
        return Stopped;
      }
      m.w := m.w.(disk := m.w.disk.Write(m.w.disk.now.(files := Moved(f, source, destination))));
    }
    var fromSynced := m.Spend();
    if !fromSynced {
      return Stopped;
    }
    m.w := m.w.(disk := m.w.disk.Sync());
    var toSynced := m.Spend();
    if !toSynced {
      return Stopped;
    }
    m.w := m.w.(disk := m.w.disk.Sync());
    return Done;
  }
}
