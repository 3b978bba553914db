/** Staged trees and unit files, service accounts, and the whole relocation step with its
    inverse (publication.rs, host.rs). */
module PublicationMoves {
  import opened Durable
  import opened Files
  import opened Layout
  import opened World
  import opened Relocation
  import opened StorageMoves

  predicate OuterPath(p: Path) {
    p.Staged? || p.Published? || p.Account?
  }

  /** Assets and accounts are each in one of their two places. */
  predicate OuterSplit(rec: Record, f: Tree) {
    |rec.assets| == ASSETS && AssetsSplit(rec, f) && AccountsSplit(rec, f)
  }

  /** What every stage promises for every version on disk. */
  ghost predicate OuterMoving(rec: Record, w: World, w': World) {
    FilesOnly(w, w') &&
    forall v: Persisted | w'.disk.May(v) ::
      OuterSplit(rec, v.files) && Conserved(w.disk.now.files, v.files) &&
      forall p: Path | Elsewhere(p) :: Agree(w.disk.now.files, v.files, p)
  }

  lemma AssetKeeps(rec: Record, f: Tree, i: nat, back: bool)
    requires OuterSplit(rec, f) && i < ASSETS
    ensures back ==> Movable(f, Published(i), Staged(i), rec.assets[i])
    ensures back ==> OuterSplit(rec, Moved(f, Published(i), Staged(i)))
    ensures !back ==> Movable(f, Staged(i), Published(i), rec.assets[i])
    ensures !back ==> OuterSplit(rec, Moved(f, Staged(i), Published(i)))
  {
    assert Either(f, Staged(i), Published(i), rec.assets[i]);
  }

  lemma AccountKeeps(rec: Record, f: Tree, group: bool, renamed: bool)
    requires OuterSplit(rec, f)
    ensures Movable(f, Account(group, !renamed), Account(group, renamed), AccountId(rec, group))
    ensures OuterSplit(rec, Moved(f, Account(group, !renamed), Account(group, renamed)))
  {
    assert Either(f, Account(group, false), Account(group, true), AccountId(rec, group));
  }

  /** Paths that publication and renaming leave alone. */
  predicate Elsewhere(p: Path) {
    StoragePath(p) || (p.Published? && p.asset >= ASSETS)
  }

  lemma OuterMoveStaysOut(o: Tree, f: Tree, source: Path, destination: Path, id: Node)
    requires OuterPath(source) && OuterPath(destination) && !Elsewhere(source) && !Elsewhere(destination)
    requires Movable(f, source, destination, id)
    requires Conserved(o, f) && forall p: Path | Elsewhere(p) :: Agree(o, f, p)
    ensures var g := Moved(f, source, destination);
            Conserved(o, g) && forall p: Path | Elsewhere(p) :: Agree(o, g, p)
  {
    var g := Moved(f, source, destination);
    MoveConserves(f, source, destination, id);
    forall p: Path | Elsewhere(p)
      ensures Agree(o, g, p)
    {
      assert Agree(o, f, p) && Agree(f, g, p);
    }
  }

  lemma StepOuterMoves(rec: Record, w0: World, w: World, w': World, source: Path, destination: Path, id: Node)
    requires OuterMoving(rec, w0, w) && w.disk.Settled()
    requires FilesOnly(w, w')
    requires OuterPath(source) && OuterPath(destination) && source != destination
    requires source.Published? ==> source.asset < ASSETS
    requires destination.Published? ==> destination.asset < ASSETS
    requires Movable(w.disk.now.files, source, destination, id)
    requires OuterSplit(rec, Moved(w.disk.now.files, source, destination))
    requires OneOf(w', w.disk.now.files, Moved(w.disk.now.files, source, destination))
    ensures OuterMoving(rec, w0, w')
  {
    assert w.disk.May(w.disk.now);
    OuterMoveStaysOut(w0.disk.now.files, w.disk.now.files, source, destination, id);
    forall v: Persisted | w'.disk.May(v)
      ensures v == w0.disk.now.(files := v.files)
    {
      assert v == w.disk.now.(files := v.files);
    }
  }

  method OuterStep(m: Machine, rec: Record, ghost w0: World, source: Path, destination: Path, id: Node)
    returns (r: Outcome)
    requires Still(m.w) && OuterMoving(rec, w0, m.w)
    requires OuterPath(source) && OuterPath(destination) && source != destination
    requires source.Published? ==> source.asset < ASSETS
    requires destination.Published? ==> destination.asset < ASSETS
    requires Movable(m.w.disk.now.files, source, destination, id)
    requires OuterSplit(rec, Moved(m.w.disk.now.files, source, destination))
    modifies m
    ensures r != Refused && OuterMoving(rec, w0, m.w)
    ensures r == Done ==> m.w == WithFiles(old(m.w), Moved(old(m.w.disk.now.files), source, destination))
    ensures r == Stopped ==> m.budget == 0
    ensures m.budget <= old(m.budget) <= m.budget + 3
  {
    r := MoveBound(m, source, destination, id);
    StepOuterMoves(rec, w0, old(m.w), m.w, source, destination, id);
  }

  /** `Publication::activate`. */
  method Publish(m: Machine, rec: Record, ghost w0: World) returns (r: Outcome)
    requires Still(m.w) && OuterMoving(rec, w0, m.w)
    modifies m
    ensures r != Refused && OuterMoving(rec, w0, m.w)
    ensures r == Done ==> Still(m.w) && |rec.assets| == ASSETS && AssetsAway(rec, m.w.disk.now.files)
    ensures r == Done ==> forall p: Path | p.Account? :: Agree(old(m.w.disk.now.files), m.w.disk.now.files, p)
    ensures r == Stopped ==> m.budget == 0
    ensures m.budget <= old(m.budget) <= m.budget + 21
  {
    assert m.w.disk.May(m.w.disk.now);
    var i := 0;
    while i < ASSETS
      invariant 0 <= i <= ASSETS
      invariant m.budget <= old(m.budget) <= m.budget + 3 * i
      invariant Still(m.w) && OuterMoving(rec, w0, m.w)
      invariant forall p: Path | p.Account? :: Agree(old(m.w.disk.now.files), m.w.disk.now.files, p)
      invariant forall k | 0 <= k < i ::
                  Staged(k) !in m.w.disk.now.files && Holds(m.w.disk.now.files, Published(k), rec.assets[k])
    {
      assert m.w.disk.May(m.w.disk.now);
      AssetKeeps(rec, m.w.disk.now.files, i, false);
      MoveThere(m.w.disk.now.files, Staged(i), Published(i), rec.assets[i]);
      r := OuterStep(m, rec, w0, Staged(i), Published(i), rec.assets[i]);
      if r != Done {
        return r;
      }
      i := i + 1;
    }
    r := Done;
  }

  /** `Publication::restore`, in reverse order. */
  method Unpublish(m: Machine, rec: Record, ghost w0: World) returns (r: Outcome)
    requires Still(m.w) && OuterMoving(rec, w0, m.w)
    modifies m
    ensures r != Refused && OuterMoving(rec, w0, m.w)
    ensures r == Done ==> Still(m.w) && |rec.assets| == ASSETS && AssetsHome(rec, m.w.disk.now.files)
    ensures r == Done ==> forall p: Path | p.Account? :: Agree(old(m.w.disk.now.files), m.w.disk.now.files, p)
    ensures r == Stopped ==> m.budget == 0
    ensures m.budget <= old(m.budget) <= m.budget + 21
  {
    assert m.w.disk.May(m.w.disk.now);
    var i := ASSETS;
    while i > 0
      invariant 0 <= i <= ASSETS
      invariant Still(m.w) && OuterMoving(rec, w0, m.w)
      invariant forall p: Path | p.Account? :: Agree(old(m.w.disk.now.files), m.w.disk.now.files, p)
      invariant forall k | i <= k < ASSETS ::
                  Holds(m.w.disk.now.files, Staged(k), rec.assets[k]) && Published(k) !in m.w.disk.now.files
      invariant m.budget <= old(m.budget) <= m.budget + 3 * (ASSETS - i)
    {
      i := i - 1;
      assert m.w.disk.May(m.w.disk.now);
      assert Either(m.w.disk.now.files, Staged(i), Published(i), rec.assets[i]);
      if Published(i) in m.w.disk.now.files {
        AssetKeeps(rec, m.w.disk.now.files, i, true);
        r := OuterStep(m, rec, w0, Published(i), Staged(i), rec.assets[i]);
        if r != Done {
          return r;
        }
      } else if !Holds(m.w.disk.now.files, Staged(i), rec.assets[i]) {
        return Refused;
      }
    }
    r := Done;
  }

  /** One account: renamed, or found renamed already, under its recorded number. */
  method RenameAccount(m: Machine, rec: Record, ghost w0: World, group: bool, renamed: bool) returns (r: Outcome)
    requires Still(m.w) && OuterMoving(rec, w0, m.w)
    modifies m
    ensures r != Refused && OuterMoving(rec, w0, m.w)
    ensures r == Done ==> Still(m.w) && Account(group, !renamed) !in m.w.disk.now.files
    ensures r == Done ==> Holds(m.w.disk.now.files, Account(group, renamed), AccountId(rec, group))
    ensures r == Done ==> forall p: Path | !p.Account? || p.group != group ::
                Agree(old(m.w.disk.now.files), m.w.disk.now.files, p)
    ensures r == Stopped ==> m.budget == 0
    ensures m.budget <= old(m.budget) <= m.budget + 3
  {
    assert m.w.disk.May(m.w.disk.now);
    AccountKeeps(rec, m.w.disk.now.files, group, renamed);
    r := OuterStep(m, rec, w0, Account(group, !renamed), Account(group, renamed), AccountId(rec, group));
  }

  /** `Host::rename_identity`: the user first, then the group. */
  method RenameIdentity(m: Machine, rec: Record, ghost w0: World, renamed: bool) returns (r: Outcome)
    requires Still(m.w) && OuterMoving(rec, w0, m.w)
    modifies m
    ensures r != Refused && OuterMoving(rec, w0, m.w)
    ensures r == Done ==> Still(m.w) && AccountsNamed(rec, m.w.disk.now.files, renamed)
    ensures r == Done ==> forall p: Path | !p.Account? :: Agree(old(m.w.disk.now.files), m.w.disk.now.files, p)
    ensures r == Stopped ==> m.budget == 0
    ensures m.budget <= old(m.budget) <= m.budget + 6
  {
    r := RenameAccount(m, rec, w0, false, renamed);
    if r != Done {
      return r;
    }
    ghost var f := m.w.disk.now.files;
    r := RenameAccount(m, rec, w0, true, renamed);
    if r == Done {
      assert forall b: bool :: Agree(f, m.w.disk.now.files, Account(false, b));
    }
  }
}
