/** Reboot guards, firewall table and permit (fence.rs, host.rs). */
module FenceActions {
  import opened Durable
  import opened Files
  import opened Layout
  import opened History
  import opened World
  import opened Relocation

  /** Every version on disk carries this journal state. */
  ghost predicate On(w: World, st: State) {
    forall v: Persisted | w.disk.May(v) :: v.work.Active? && v.work.journal == Some(st)
  }

  /** Only guards, enablement, fence and permit may have changed, and what services wrote. */
  ghost predicate Kept(w: World, w': World) {
    w'.running == w.running && w'.log == w.log && w'.origin == w.origin && w'.recording == w.recording &&
    w'.disk.now.work == w.disk.now.work &&
    Served(w, w.disk.now, w'.disk.now) &&
    forall st: State | On(w, st) :: On(w', st)
  }

  lemma KeptIsTransitive(w: World, w1: World, w2: World)
    requires Kept(w, w1) && Kept(w1, w2)
    ensures Kept(w, w2)
  {
    ServedIsTransitive(w, w.disk.now, w1.disk.now, w2.disk.now);
  }

  lemma AllUnits(g: set<Unit>)
    ensures g <= ALL_UNITS
  {
    forall u | u in g
      ensures u in ALL_UNITS
    {
      assert u.OldAgent? || u.OldExecutor? || u.NewAgent? || u.NewExecutor?;
    }
  }

  /** One external operation: services may have written, nothing else. */
  method Wait(m: Machine) returns (alive: bool)
    requires Inv(m.w)
    modifies m
    ensures Inv(m.w) && Kept(old(m.w), m.w)
    ensures m.w == old(m.w).(disk := m.w.disk) && m.w.disk.now == Renewed(old(m.w.disk.now), m.w.disk.now)
    ensures Still(old(m.w)) ==> m.w == old(m.w)
    ensures old(Unopened(m.w)) ==> Unopened(m.w)
    ensures !alive ==> m.budget == 0
    ensures m.budget <= old(m.budget) <= m.budget + 1
  {
    alive := m.Spend();
    ServiceStepKeeps(old(m.w), m.w);
    WaitKeeps(old(m.w), m.w);
  }

  /** No version on disk says that traffic was opened. */
  ghost predicate Unopened(w: World) {
    forall v: Persisted | w.disk.May(v) :: !TrafficOpened(v)
  }

  lemma UncommittedIsUnopened(w: World, st: State)
    requires Inv(w) && On(w, st) && !st.committed
    ensures Unopened(w)
  {
    forall v: Persisted | w.disk.May(v)
      ensures !TrafficOpened(v)
    {
      assert Fits(w, v);
    }
  }

  lemma WaitKeeps(w: World, w': World)
    requires ServiceStep(w, w')
    ensures Kept(w, w')
    ensures w' == w.(disk := w'.disk) && w'.disk.now == Renewed(w.disk.now, w'.disk.now)
    ensures Still(w) ==> w' == w
    ensures Unopened(w) ==> Unopened(w')
  {
    assert w.disk.May(w.disk.now);
    assert forall v: Persisted | w'.disk.May(v) :: w.disk.May(v) || v == w'.disk.now;
    forall st: State | On(w, st)
      ensures On(w', st)
    {
      assert w.disk.May(w.disk.now);
      forall v: Persisted | w'.disk.May(v)
        ensures v.work.Active? && v.work.journal == Some(st)
      {
        assert w.disk.May(v) || v == w'.disk.now;
      }
    }
  }

  /** Write one persisted change other than the tree and the transaction. */
  method Persist(m: Machine, next: Persisted) returns (alive: bool)
    requires Inv(m.w) && Fits(m.w, next)
    requires next.work == m.w.disk.now.work && next == Renewed(next, m.w.disk.now)
    modifies m
    ensures Inv(m.w) && Kept(old(m.w), m.w)
    ensures m.w == old(m.w).(disk := m.w.disk)
    ensures alive ==> m.w.disk.now == Renewed(next, m.w.disk.now)
    ensures !alive ==> m.w.disk.now == Renewed(old(m.w.disk.now), m.w.disk.now) && m.budget == 0
    ensures m.budget <= old(m.budget) <= m.budget + 1
  {
    ghost var w0 := m.w;
    alive := Wait(m);
    if alive {
      ghost var w1 := m.w;
      var written := Renewed(next, m.w.disk.now);
      ServedFits(w0, next, written);
      WriteKeeps(m.w, written);
      m.w := m.w.(disk := m.w.disk.Write(written));
      PersistKeeps(w0, w1, m.w);
    }
  }

  lemma PersistKeeps(w: World, w1: World, w2: World)
    requires Kept(w, w1) && w2 == w1.(disk := w1.disk.Write(w2.disk.now))
    requires w2.disk.now.work == w1.disk.now.work && w2.disk.now == Renewed(w2.disk.now, w1.disk.now)
    ensures Kept(w, w2)
  {
    assert w1.disk.May(w1.disk.now);
    forall v: Persisted | w2.disk.May(v)
      ensures w1.disk.May(v) || v == w2.disk.now
    {
    }
    forall st: State | On(w, st)
      ensures On(w2, st)
    {
      assert On(w1, st);
    }
  }

  /** Sync a directory: afterwards nothing older can come back. */
  method SyncDisk(m: Machine) returns (alive: bool)
    requires Inv(m.w)
    modifies m
    ensures Inv(m.w) && Kept(old(m.w), m.w)
    ensures m.w == old(m.w).(disk := m.w.disk)
    ensures m.w.disk.now == Renewed(old(m.w.disk.now), m.w.disk.now)
    ensures alive ==> m.w.disk.Settled()
    ensures !alive ==> m.budget == 0
    ensures m.budget <= old(m.budget) <= m.budget + 1
  {
    alive := Wait(m);
    if alive {
      SyncKeeps(m.w);
      ghost var w1 := m.w;
      m.w := m.w.(disk := m.w.disk.Sync());
      assert w1.disk.May(w1.disk.now);
      assert forall v: Persisted | m.w.disk.May(v) :: w1.disk.May(v);
    }
  }

  lemma GuardFits(w: World, v: Persisted, g: set<Unit>)
    requires Fits(w, v) && v.guards <= g
    ensures Fits(w, v.(guards := g))
  {
    AllUnits(g);
    AllUnits(v.guards);
    assert JournalOf(v.(guards := g)) == JournalOf(v);
  }

  /** Guards may go: no rollback of later steps is due, and after a commit only the new
      services start at boot. */
  predicate Loose(v: Persisted) {
    !Fenced(v) && (Committed(v) ==> v.newEnabled && !v.oldEnabled)
  }

  lemma LooseFits(w: World, v: Persisted, g: set<Unit>)
    requires Fits(w, v) && Loose(v)
    ensures Fits(w, v.(guards := g))
  {
    assert JournalOf(v.(guards := g)) == JournalOf(v);
  }

  /** `install_guards`. */
  method InstallGuards(m: Machine) returns (r: Outcome)
    requires Inv(m.w)
    modifies m
    ensures r != Refused && Inv(m.w) && Kept(old(m.w), m.w)
    ensures m.w == old(m.w).(disk := m.w.disk)
    ensures m.w.disk.now == Renewed(old(m.w.disk.now), m.w.disk.now).(guards := m.w.disk.now.guards)
    ensures r == Done ==> m.w.disk.now.guards == ALL_UNITS && m.w.disk.Settled()
    ensures r == Stopped ==> m.budget == 0
    ensures m.budget <= old(m.budget) <= m.budget + 8
  {
    var i := 0;
    while i < |UNITS|
      invariant 0 <= i <= |UNITS|
      invariant m.budget <= old(m.budget) <= m.budget + 2 * i
      invariant Inv(m.w) && Kept(old(m.w), m.w)
      invariant m.w == old(m.w).(disk := m.w.disk)
      invariant m.w.disk.now == Renewed(old(m.w.disk.now), m.w.disk.now).(guards := m.w.disk.now.guards)
      invariant i > 0 ==> m.w.disk.Settled()
      invariant forall k | 0 <= k < i :: UNITS[k] in m.w.disk.now.guards
    {
      r := InstallGuard(m, UNITS[i], old(m.w));
      if r != Done {
        return r;
      }
      i := i + 1;
    }
    assert m.w.disk.now.guards == ALL_UNITS by {
      AllUnits(m.w.disk.now.guards);
      assert UNITS[0] == OldAgent && UNITS[1] == OldExecutor && UNITS[2] == NewAgent && UNITS[3] == NewExecutor;
    }
    r := Done;
  }

  method InstallGuard(m: Machine, u: Unit, ghost w0: World) returns (r: Outcome)
    requires Inv(m.w) && Kept(w0, m.w)
    modifies m
    ensures r != Refused && Inv(m.w) && Kept(w0, m.w)
    ensures m.w == old(m.w).(disk := m.w.disk)
    ensures m.w.disk.now == Renewed(old(m.w.disk.now), m.w.disk.now).(guards := m.w.disk.now.guards)
    ensures old(m.w.disk.now.guards) <= m.w.disk.now.guards
    ensures r == Done ==> u in m.w.disk.now.guards && m.w.disk.Settled()
    ensures r == Stopped ==> m.budget == 0
    ensures m.budget <= old(m.budget) <= m.budget + 2
  {
    ghost var w1 := m.w;
    if u !in m.w.disk.now.guards {
      assert m.w.disk.May(m.w.disk.now);
      GuardFits(m.w, m.w.disk.now, m.w.disk.now.guards + {u});
      var written := Persist(m, m.w.disk.now.(guards := m.w.disk.now.guards + {u}));
      KeptIsTransitive(w0, w1, m.w);
      if !written {
        return Stopped;
      }
    }
    ghost var w2 := m.w;
    var synced := SyncDisk(m);
    KeptIsTransitive(w0, w2, m.w);
    return if synced then Done else Stopped;
  }

  /** `remove_guards`. */
  method RemoveGuards(m: Machine) returns (r: Outcome)
    requires Inv(m.w) && Loose(m.w.disk.now)
    modifies m
    ensures r != Refused && Inv(m.w) && Kept(old(m.w), m.w)
    ensures m.w == old(m.w).(disk := m.w.disk)
    ensures m.w.disk.now == Renewed(old(m.w.disk.now), m.w.disk.now).(guards := m.w.disk.now.guards)
    ensures r == Done ==> m.w.disk.now.guards == {}
    ensures r == Stopped ==> m.budget == 0
    ensures m.budget <= old(m.budget) <= m.budget + 8
  {
    var i := 0;
    while i < |UNITS|
      invariant 0 <= i <= |UNITS|
      invariant m.budget <= old(m.budget) <= m.budget + 2 * i
      invariant Inv(m.w) && Kept(old(m.w), m.w)
      invariant m.w == old(m.w).(disk := m.w.disk)
      invariant m.w.disk.now == Renewed(old(m.w.disk.now), m.w.disk.now).(guards := m.w.disk.now.guards)
      invariant forall k | 0 <= k < i :: UNITS[k] !in m.w.disk.now.guards
    {
      if UNITS[i] in m.w.disk.now.guards {
        r := RemoveGuard(m, UNITS[i], old(m.w));
        if r != Done {
          return r;
        }
      }
      i := i + 1;
    }
    assert m.w.disk.now.guards == {} by {
      AllUnits(m.w.disk.now.guards);
      assert UNITS[0] == OldAgent && UNITS[1] == OldExecutor && UNITS[2] == NewAgent && UNITS[3] == NewExecutor;
    }
    r := Done;
  }

  method RemoveGuard(m: Machine, u: Unit, ghost w0: World) returns (r: Outcome)
    requires Inv(m.w) && Kept(w0, m.w) && Loose(m.w.disk.now)
    modifies m
    ensures r != Refused && Inv(m.w) && Kept(w0, m.w)
    ensures m.w == old(m.w).(disk := m.w.disk)
    ensures m.w.disk.now == Renewed(old(m.w.disk.now), m.w.disk.now).(guards := m.w.disk.now.guards)
    ensures m.w.disk.now.guards <= old(m.w.disk.now.guards)
    ensures r == Done ==> u !in m.w.disk.now.guards
    ensures r == Stopped ==> m.budget == 0
    ensures m.budget <= old(m.budget) <= m.budget + 2
  {
    ghost var w1 := m.w;
    assert m.w.disk.May(m.w.disk.now);
    LooseFits(m.w, m.w.disk.now, m.w.disk.now.guards - {u});
    var written := Persist(m, m.w.disk.now.(guards := m.w.disk.now.guards - {u}));
    KeptIsTransitive(w0, w1, m.w);
    if !written {
      return Stopped;
    }
    ghost var w2 := m.w;
    var synced := SyncDisk(m);
    KeptIsTransitive(w0, w2, m.w);
    return if synced then Done else Stopped;
  }

  // ---- Firewall table and permit ----

  /** Put the table up, or change it while it is up. */
  method RaiseFence(m: Machine, fence: Fence) returns (alive: bool)
    requires Inv(m.w) && fence != Down && Unopened(m.w)
    modifies m
    ensures Inv(m.w) && Kept(old(m.w), m.w)
    ensures m.w == old(m.w).(disk := m.w.disk, fence := m.w.fence)
    ensures m.w.disk.now == Renewed(old(m.w.disk.now), m.w.disk.now)
    ensures Still(old(m.w)) ==> m.w.disk == old(m.w.disk)
    ensures m.w.fence == if alive then fence else old(m.w.fence)
    ensures Unopened(m.w)
    ensures !alive ==> m.budget == 0
    ensures m.budget <= old(m.budget) <= m.budget + 1
  {
    alive := Wait(m);
    if alive {
      ghost var w1 := m.w;
      m.w := m.w.(fence := fence);
      forall v: Persisted | w1.disk.May(v)
        ensures ServicesFit(m.w, v)
      {
        assert Fits(w1, v);
      }
      VolatileKeeps(w1, m.w);
      KeptVolatile(old(m.w), w1, m.w);
    }
  }

  lemma KeptVolatile(w: World, w1: World, w2: World)
    requires Kept(w, w1) && w2 == w1.(fence := w2.fence, permit := w2.permit)
    ensures Kept(w, w2)
  {
    forall st: State | On(w, st)
      ensures On(w2, st)
    {
      assert On(w1, st);
      assert forall v: Persisted | w2.disk.May(v) :: w1.disk.May(v);
    }
  }

  /** Take the table down; only where nothing has to stay fenced. */
  method LowerFence(m: Machine) returns (alive: bool)
    requires Inv(m.w) && forall v: Persisted | m.w.disk.May(v) :: !Fenced(v)
    modifies m
    ensures Inv(m.w) && Kept(old(m.w), m.w)
    ensures m.w == old(m.w).(disk := m.w.disk, fence := m.w.fence)
    ensures m.w.disk.now == Renewed(old(m.w.disk.now), m.w.disk.now)
    ensures m.w.fence == if alive then Down else old(m.w.fence)
    ensures !alive ==> m.budget == 0
    ensures m.budget <= old(m.budget) <= m.budget + 1
  {
    ghost var w0 := m.w;
    alive := m.Spend();
    ServiceStepKeeps(w0, m.w);
    WaitKeeps(w0, m.w);
    if alive {
      ghost var w1 := m.w;
      m.w := m.w.(fence := Down);
      forall v: Persisted | w1.disk.May(v)
        ensures ServicesFit(m.w, v)
      {
        assert Fits(w1, v);
        assert w0.disk.May(v) || v == w1.disk.now;
        assert w0.disk.May(w0.disk.now);
        assert JournalOf(w1.disk.now) == JournalOf(w0.disk.now);
      }
      VolatileKeeps(w1, m.w);
      KeptVolatile(w0, w1, m.w);
    }
  }

  /** `permit` and its removal. */
  method SetPermit(m: Machine, permit: bool) returns (alive: bool)
    requires Inv(m.w) && (permit ==> m.w.fence != Down)
    modifies m
    ensures Inv(m.w) && Kept(old(m.w), m.w)
    ensures m.w == old(m.w).(disk := m.w.disk, permit := m.w.permit)
    ensures m.w.disk.now == Renewed(old(m.w.disk.now), m.w.disk.now)
    ensures Still(old(m.w)) ==> m.w.disk == old(m.w.disk)
    ensures m.w.permit == if alive then permit else old(m.w.permit)
    ensures !alive ==> m.budget == 0
    ensures m.budget <= old(m.budget) <= m.budget + 1
  {
    alive := Wait(m);
    if alive {
      ghost var w1 := m.w;
      m.w := m.w.(permit := permit);
      forall v: Persisted | w1.disk.May(v)
        ensures ServicesFit(m.w, v)
      {
        assert Fits(w1, v);
      }
      VolatileKeeps(w1, m.w);
      KeptVolatile(old(m.w), w1, m.w);
    }
  }

  /** The appliance is fenced, guarded and permitted: recovery may start services safely. */
  predicate Locked(w: World) {
    w.fence != Down && w.permit && w.disk.now.guards == ALL_UNITS
  }

  /** Raise the table if it is not there, and seal it. */
  method Seal(m: Machine) returns (r: Outcome)
    requires Inv(m.w) && Unopened(m.w)
    modifies m
    ensures r != Refused && Inv(m.w) && Kept(old(m.w), m.w)
    ensures m.w == old(m.w).(disk := m.w.disk, fence := m.w.fence)
    ensures m.w.disk.now == Renewed(old(m.w.disk.now), m.w.disk.now)
    ensures Still(old(m.w)) ==> m.w.disk == old(m.w.disk)
    ensures r == Done ==> m.w.fence == Sealed
    ensures r == Stopped ==> m.budget == 0
    ensures m.budget <= old(m.budget) <= m.budget + 2
  {
    ghost var w0 := m.w;
    if m.w.fence == Down {
      var raised := RaiseFence(m, Rejecting);
      if !raised {
        return Stopped;
      }
    }
    ghost var w1 := m.w;
    var sealed := RaiseFence(m, Sealed);
    KeptIsTransitive(w0, w1, m.w);
    return if sealed then Done else Stopped;
  }

  /** `restore_fence`: guards, then the table, then the permit. */
  method RestoreFence(m: Machine) returns (r: Outcome)
    requires Inv(m.w) && !TrafficOpened(m.w.disk.now)
    modifies m
    ensures r != Refused && Inv(m.w) && Kept(old(m.w), m.w)
    ensures m.w == old(m.w).(disk := m.w.disk, fence := m.w.fence, permit := m.w.permit)
    ensures m.w.disk.now == Renewed(old(m.w.disk.now), m.w.disk.now).(guards := m.w.disk.now.guards)
    ensures r == Done ==> Locked(m.w) && m.w.fence == Sealed && (m.w.running == {} ==> m.w.disk.Settled())
    ensures r == Stopped ==> m.budget == 0
    ensures m.budget <= old(m.budget) <= m.budget + 12
  {
    ghost var w0 := m.w;
    r := InstallGuards(m);
    if r != Done {
      return r;
    }
    ghost var w1 := m.w;
    var reloaded := Wait(m);
    KeptIsTransitive(w0, w1, m.w);
    if !reloaded {
      return Stopped;
    }
    w1 := m.w;
    r := Seal(m);
    KeptIsTransitive(w0, w1, m.w);
    if r != Done {
      return r;
    }
    w1 := m.w;
    var permitted := SetPermit(m, true);
    KeptIsTransitive(w0, w1, m.w);
    return if permitted then Done else Stopped;
  }

  /** `release_fence`: the table, then the guards, then the permit. */
  method ReleaseFence(m: Machine) returns (r: Outcome)
    requires Inv(m.w) && Loose(m.w.disk.now) && forall v: Persisted | m.w.disk.May(v) :: !Fenced(v)
    modifies m
    ensures r != Refused && Inv(m.w) && Kept(old(m.w), m.w)
    ensures m.w == old(m.w).(disk := m.w.disk, fence := m.w.fence, permit := m.w.permit)
    ensures m.w.disk.now == Renewed(old(m.w.disk.now), m.w.disk.now).(guards := m.w.disk.now.guards)
    ensures r == Done ==> m.w.fence == Down && !m.w.permit && m.w.disk.now.guards == {}
    ensures r == Stopped ==> m.budget == 0
    ensures m.budget <= old(m.budget) <= m.budget + 11
  {
    ghost var w0, w1 := m.w, m.w;
    if m.w.fence != Down {
      var lowered := LowerFence(m);
      if !lowered {
        return Stopped;
      }
    }
    w1 := m.w;
    assert JournalOf(m.w.disk.now) == JournalOf(w0.disk.now);
    r := RemoveGuards(m);
    KeptIsTransitive(w0, w1, m.w);
    if r != Done {
      return r;
    }
    w1 := m.w;
    var reloaded := Wait(m);
    KeptIsTransitive(w0, w1, m.w);
    if !reloaded {
      return Stopped;
    }
    if m.w.permit {
      w1 := m.w;
      var removed := SetPermit(m, false);
      KeptIsTransitive(w0, w1, m.w);
      if !removed {
        return Stopped;
      }
    }
    return Done;
  }
}
