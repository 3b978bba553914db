/** The cutover and its reversal, driven through the journal (runner.rs, journal.rs). */
module Runner {
  import opened Durable
  import opened Files
  import opened Layout
  import opened History
  import opened World
  import opened Relocation
  import opened StorageMoves
  import opened FenceActions
  import opened JournalFile
  import opened RelocationStep
  import opened SnapshotStep
  import opened HostActions

  // ---- Recording progress keeps the invariant ----

  lemma StepsPrefix(n: nat)
    requires n < |STEPS|
    ensures STEPS[..n] + [STEPS[n]] == STEPS[..n + 1]
    ensures STEPS[n].Rank() == n
  {
    var s := STEPS[n];
    assert STEPS[s.Rank()] == s;
    assert STEPS == [FenceTraffic, Drain, StopLegacyServices, Snapshot, StopLegacyEngine, Relocate, Activate, Qualify];
  }

  lemma SameRank(s: Step, t: Step)
    ensures s.Rank() == t.Rank() ==> s == t
  {
    assert STEPS[s.Rank()] == s && STEPS[t.Rank()] == t;
  }

  lemma BegunGrows(a: State, b: State)
    requires ValidHistory(a) && ValidHistory(b) && LevelOf(a) <= LevelOf(b)
    ensures Begun(a) <= Begun(b)
  {
    forall s | s in Begun(a)
      ensures s in Begun(b)
    {
      BegunIsPrefix(a, s);
      BegunIsPrefix(b, s);
    }
  }

  lemma BeginFits(w: World, k: nat, id: nat)
    requires k < |STEPS| && Inv(w) && On(w, Forward(id, k)) && Ready(w, k)
    ensures Fits(w, RecordedAs(w.disk.now, Forward(id, k).(pending := Some(STEPS[k]))))
  {
    var st := Forward(id, k);
    var next := st.(pending := Some(STEPS[k]));
    OnNow(w, st);
    var v := RecordedAs(w.disk.now, next);
    assert JournalOf(v) == next && LevelOf(next) == k + 1;
    BegunGrows(st, next);
    if k == 5 {
      PreparedIsRecoverable(v.work.record, v.work.storage.value, v.files);
    }
    assert TreeFits(v, w.origin);
  }

  lemma FinishFits(w: World, k: nat, id: nat)
    requires k < |STEPS| && Inv(w) && On(w, Forward(id, k).(pending := Some(STEPS[k]))) && Ready(w, k + 1)
    requires Started(STEPS[k]) in w.log
    ensures Fits(w, RecordedAs(w.disk.now, Forward(id, k + 1)))
  {
    var st := Forward(id, k).(pending := Some(STEPS[k]));
    var next := Forward(id, k + 1);
    OnNow(w, st);
    var v := RecordedAs(w.disk.now, next);
    assert JournalOf(v) == next && LevelOf(next) == k + 1;
    BegunGrows(st, next);
    StepsPrefix(k);
    forall s | s in next.completed
      ensures Started(s) in w.log
    {
      assert s in STEPS[..k] || s == STEPS[k];
    }
    if k == 3 {
      SameRootIsSymmetric(v.left, v.files);
      PreparedHasNoBackups(v.work.record, v.work.storage.value, v.files);
    }
    assert TreeFits(v, w.origin);
  }

  lemma CommitFits(w: World, id: nat)
    requires Inv(w) && On(w, Forward(id, |STEPS|)) && Ready(w, |STEPS|)
    ensures Fits(w, RecordedAs(w.disk.now, Forward(id, |STEPS|).(committed := true)))
  {
    var st := Forward(id, |STEPS|);
    OnNow(w, st);
    var next := st.(committed := true);
    var v := RecordedAs(w.disk.now, next);
    assert JournalOf(v) == next && Begun(next) == Begun(st);
  }

  lemma RollbackFits(w: World, st: State)
    requires Inv(w) && On(w, st) && !st.committed
    ensures Fits(w, RecordedAs(w.disk.now, st.(rollingBack := true)))
  {
    OnNow(w, st);
    var next := st.(rollingBack := true);
    var v := RecordedAs(w.disk.now, next);
    assert JournalOf(v) == next && Begun(next) == Begun(st);
  }

  lemma EndFits(w: World, st: State)
    requires Inv(w) && On(w, st) && st.completed == [] && st.pending.None? && !st.committed
    ensures Fits(w, RecordedAs(w.disk.now, st.(rollingBack := false)))
  {
    OnNow(w, st);
    var next := st.(rollingBack := false);
    var v := RecordedAs(w.disk.now, next);
    assert JournalOf(v) == next && Begun(next) == Begun(st);
  }

  /** What the undo of the last begun step has established. */
  ghost predicate Undid(w: World, st: State) {
    var level := LevelOf(st);
    (level >= 2 ==> Locked(w)) &&
    (level == 7 ==> w.running == {}) &&
    (level == 6 ==> SameRoot(w.origin, w.disk.now.files) && NoBackups(w.disk.now.files)) &&
    (level == 3 ==> OldAgent in w.running) &&
    (level == 1 ==> Reachable(w, OldAgent) && !w.permit && w.disk.now.guards == {})
  }

  lemma UndoneFits(w: World, st: State)
    requires Inv(w) && On(w, st) && st.rollingBack && !st.committed && LevelOf(st) >= 1
    requires ValidHistory(st) && Undid(w, st) && LastBegun(st) !in Outstanding(w.log)
    ensures Fits(w, RecordedAs(w.disk.now, WithoutLast(st)))
  {
    OnNow(w, st);
    var next := WithoutLast(st);
    var v := RecordedAs(w.disk.now, next);
    assert JournalOf(v) == next && LevelOf(next) == LevelOf(st) - 1 && ValidHistory(next);
    forall s | s in Outstanding(w.log)
      ensures s in Begun(next)
    {
      BegunIsPrefix(st, s);
      BegunIsPrefix(next, s);
      SameRank(s, LastBegun(st));
    }
    assert forall s | s in next.completed :: s in st.completed;
    UndoneTreeFits(w, st, v);
  }

  lemma UndoneTreeFits(w: World, st: State, v: Persisted)
    requires Inv(w) && On(w, st) && st.rollingBack && !st.committed && LevelOf(st) >= 1
    requires Undid(w, st) && w.disk.now.work.Active? && v == RecordedAs(w.disk.now, WithoutLast(st))
    ensures TreeFits(v, w.origin)
  {
    OnNow(w, st);
    var rec, storage := v.work.record, v.work.storage;
    if |st.completed| == 4 && st.pending.None? {
      SameRootIsUntouched(rec, storage.value, w.origin, v.files);
      SameRootIsSymmetric(w.origin, v.left);
      SameRootIsTransitive(v.left, w.origin, v.files);
    } else if LevelOf(st) == 7 {
      MigratedIsRecoverable(rec, storage.value, v.files);
    }
  }

  // ---- The log of host actions ----

  /** Note an event; no operation of the program is involved. */
  method Note(m: Machine, e: Event)
    requires Inv(m.w) && Orderly(m.w.log + [e])
    requires forall v: Persisted | m.w.disk.May(v) :: LogFits(m.w.log + [e], v)
    modifies m
    ensures Inv(m.w) && m.w == old(m.w).(log := old(m.w.log) + [e]) && m.budget == old(m.budget)
  {
    LogKeeps(m.w, e);
    m.w := m.w.(log := m.w.log + [e]);
  }

  lemma StartIsOrderly(w: World, k: nat, st: State)
    requires k < |STEPS| && Inv(w) && On(w, st) && st == Forward(st.identity, k).(pending := Some(STEPS[k]))
    requires Outstanding(w.log) <= Begun(Forward(st.identity, k))
    ensures Orderly(w.log + [Started(STEPS[k])])
    ensures forall v: Persisted | w.disk.May(v) :: LogFits(w.log + [Started(STEPS[k])], v)
  {
    var e := Started(STEPS[k]);
    AppendEvent(w.log, e);
    StepsPrefix(k);
    OnNow(w, st);
    forall t | t in Outstanding(w.log)
      ensures t.Rank() < k
    {
      BegunIsPrefix(Forward(st.identity, k), t);
    }
    forall v: Persisted | w.disk.May(v)
      ensures LogFits(w.log + [e], v)
    {
      assert Fits(w, v) && JournalOf(v) == st;
      BegunIsPrefix(st, STEPS[k]);
    }
  }

  lemma UndoIsOrderly(w: World, st: State, done: bool)
    requires Inv(w) && On(w, st) && ValidHistory(st) && !st.committed && LevelOf(st) >= 1
    requires done ==> w.log != [] && w.log[|w.log| - 1] == Undoing(LastBegun(st))
    ensures var e := if done then Undone(LastBegun(st)) else Undoing(LastBegun(st));
            Orderly(w.log + [e]) && forall v: Persisted | w.disk.May(v) :: LogFits(w.log + [e], v)
    ensures done ==> LastBegun(st) !in Outstanding(w.log + [Undone(LastBegun(st))])
  {
    var e := if done then Undone(LastBegun(st)) else Undoing(LastBegun(st));
    AppendEvent(w.log, e);
    OnNow(w, st);
    forall v: Persisted | w.disk.May(v)
      ensures LogFits(w.log + [e], v)
    {
      assert Fits(w, v) && JournalOf(v) == st;
    }
  }

  // ---- Running forward ----

  /** The journal object, open and in agreement with the disk. */
  ghost predicate InHand(j: Journal, m: Machine)
    reads j, m
  {
    j.m == m && j.Valid() && !j.poisoned && Inv(m.w)
  }

  lemma HeldIsOn(j: Journal, m: Machine)
    requires InHand(j, m)
    ensures On(m.w, j.state)
    ensures m.w.disk.now.work.Active? && JournalOf(m.w.disk.now) == j.state && ValidHistory(j.state)
  {
    OnNow(m.w, j.state);
  }

  /** Saving the journal does not undo what the steps have established. */
  lemma ReadySaved(w: World, w': World, st: State, next: State, n: nat)
    requires Inv(w) && On(w, st) && Ready(w, n) && Saved(w, w', next)
    requires n <= 3 ==> LevelOf(st) < 7
    ensures Ready(w', n)
  {
    OnNow(w, st);
    if n <= 3 {
      StagingServed(w, st, w.disk.now.work.record, w.disk.now, w'.disk.now);
    }
  }

  /** Record the intent. */
  method RecordIntent(m: Machine, j: Journal, k: nat) returns (r: Outcome)
    requires InHand(j, m) && k < |STEPS| && j.state == Forward(j.state.identity, k) && Ready(m.w, k)
    modifies m, j
    ensures r != Refused && Inv(m.w)
    ensures r == Done ==>
              InHand(j, m) && Applying(m.w, j.state, k) && j.state.identity == old(j.state.identity) &&
              Outstanding(m.w.log) <= Begun(Forward(j.state.identity, k))
    ensures r == Done ==> Saved(old(m.w), m.w, j.state)
    ensures r == Done ==> m.w.running == old(m.w.running) && m.w.fence == old(m.w.fence)
    ensures r == Stopped ==> m.budget == 0
    ensures m.budget <= old(m.budget) <= m.budget + 3
  {
    ghost var w0, id := m.w, j.state.identity;
    HeldIsOn(j, m);
    BeginFits(w0, k, id);
    OnNow(w0, Forward(id, k));
    r := j.Begin(STEPS[k]);
    SavingKeeps(w0, m.w, j.state);
    if r == Done {
      ReadySaved(w0, m.w, Forward(id, k), j.state, k);
    }
  }

  /** Record the intent, then let the step start. */
  method BeginStep(m: Machine, j: Journal, k: nat) returns (r: Outcome)
    requires InHand(j, m) && k < |STEPS| && j.state == Forward(j.state.identity, k) && Ready(m.w, k)
    modifies m, j
    ensures r != Refused && Inv(m.w)
    ensures r == Done ==>
              InHand(j, m) && Applying(m.w, j.state, k) && j.state.identity == old(j.state.identity) &&
              Started(STEPS[k]) in m.w.log
    ensures r == Done ==> Saved(old(m.w), m.w.(log := old(m.w.log)), j.state)
    ensures r == Done ==> m.w.running == old(m.w.running) && m.w.fence == old(m.w.fence)
    ensures r == Stopped ==> m.budget == 0
    ensures m.budget <= old(m.budget) <= m.budget + 3
  {
    r := RecordIntent(m, j, k);
    if r != Done {
      return r;
    }
    NoteStarted(m, j, k);
  }

  method NoteStarted(m: Machine, j: Journal, k: nat)
    requires k < |STEPS| && InHand(j, m) && Applying(m.w, j.state, k)
    requires Outstanding(m.w.log) <= Begun(Forward(j.state.identity, k))
    modifies m
    ensures InHand(j, m) && Applying(m.w, j.state, k) && m.budget == old(m.budget)
    ensures m.w == old(m.w).(log := old(m.w.log) + [Started(STEPS[k])])
  {
    HeldIsOn(j, m);
    StartIsOrderly(m.w, k, j.state);
    ghost var w1 := m.w;
    Note(m, Started(STEPS[k]));
    OnKept(w1, m.w);
  }

  /** A run that began in `w0` has completed `k` steps: it is still that transaction; until the
      snapshot only legacy services have written; from the snapshot on, the recorded tree is
      what they had made of the first one, and the inventory names the given files. */
  ghost predicate Carried(w0: World, w: World, k: nat, candidate: Node, converted: Node) {
    w0.disk.now.work.Active? && w.disk.now.work.Active? && w.disk.now.work.record == w0.disk.now.work.record &&
    (k <= 3 ==> LegacyWrote(w0.disk.now.files, w.disk.now.files)) &&
    (k >= 4 ==>
       LegacyWrote(w0.disk.now.files, w.origin) && w.disk.now.work.storage.Some? &&
       Converts(w.disk.now.work.storage.value, w.origin, candidate, converted)) &&
    (k == 6 ==> Swapped(w.disk.now.work.storage.value, w.disk.now.files))
  }

  lemma CarriedSaved(w0: World, w: World, w': World, st: State, next: State, k: nat, candidate: Node, converted: Node)
    requires Inv(w) && On(w, st) && Ready(w, k) && Saved(w, w'.(log := w.log), next)
    requires Carried(w0, w, k, candidate, converted) && (k <= 2 ==> LevelOf(st) <= 3)
    ensures Carried(w0, w', k, candidate, converted)
  {
    OnNow(w, st);
    if k <= 2 {
      ServedByLegacy(w, w.disk.now, w'.disk.now);
      LegacyWroteIsTransitive(w0.disk.now.files, w.disk.now.files, w'.disk.now.files);
    }
  }

  lemma CarriedOn(w0: World, w: World, w': World, k: nat, candidate: Node, converted: Node)
    requires Carried(w0, w, k, candidate, converted) && Progressed(w, w', k, candidate, converted)
    ensures Carried(w0, w', k + 1, candidate, converted)
  {
    if k <= 2 {
      LegacyWroteIsTransitive(w0.disk.now.files, w.disk.now.files, w'.disk.now.files);
    } else if k == 3 {
      SameRootIsLegacy(w.disk.now.files, w'.origin);
      LegacyWroteIsTransitive(w0.disk.now.files, w.disk.now.files, w'.origin);
    }
  }

  /** What the first two checks of a run depend on is still as it was. */
  predicate Early(w0: World, w: World, k: nat) {
    (k == 0 ==> w.fence == w0.fence) && (k <= 1 ==> w.running == w0.running)
  }

  /** A run that began in `w0` has completed and recorded exactly the first `k` steps. */
  ghost predicate AtStep(m: Machine, j: Journal, k: nat, candidate: Node, converted: Node, w0: World)
    reads m, j
  {
    k <= |STEPS| && InHand(j, m) && j.state == Forward(j.state.identity, k) && Ready(m.w, k) &&
    Carried(w0, m.w, k, candidate, converted) && Early(w0, m.w, k)
  }

  /** One turn of the loop of `run`: begin, apply, finish. */
  method RunStep(m: Machine, j: Journal, k: nat, candidate: Node, converted: Node, ghost w0: World)
    returns (r: Outcome)
    requires AtStep(m, j, k, candidate, converted, w0) && k < |STEPS|
    requires candidate.Regular? && converted.Regular?
    modifies m, j
    ensures r != Done ==> Inv(m.w)
    ensures r == Refused ==> Hindered(w0, m.w)
    ensures r == Done ==> AtStep(m, j, k + 1, candidate, converted, w0)
    ensures r == Stopped ==> m.budget == 0
    ensures m.budget <= old(m.budget) <= m.budget + 3 * |w0.disk.now.work.record.cacheKeys| + 54
  {
    r := BeginCarried(m, j, k, candidate, converted, w0);
    if r != Done {
      return r;
    }
    r := ApplyCarried(m, j.state, k, candidate, converted, w0);
    if r != Done {
      return r;
    }
    r := FinishCarried(m, j, k, candidate, converted, w0);
  }

  method ApplyCarried(m: Machine, st: State, k: nat, candidate: Node, converted: Node, ghost w0: World)
    returns (r: Outcome)
    requires k < |STEPS| && Applying(m.w, st, k) && candidate.Regular? && converted.Regular?
    requires Carried(w0, m.w, k, candidate, converted) && Early(w0, m.w, k)
    modifies m
    ensures Inv(m.w) && On(m.w, st) && m.w.log == old(m.w.log)
    ensures r == Refused ==> Hindered(w0, m.w)
    ensures r == Done ==> Ready(m.w, k + 1)
    ensures r == Done ==> Carried(w0, m.w, k + 1, candidate, converted) && Early(w0, m.w, k + 1)
    ensures r == Stopped ==> m.budget == 0
    ensures m.budget <= old(m.budget) <= m.budget + 3 * |w0.disk.now.work.record.cacheKeys| + 48
  {
    ghost var w1 := m.w;
    StepsPrefix(k);
    r := Apply(m, st, STEPS[k], candidate, converted);
    if r == Done {
      CarriedOn(w0, w1, m.w, k, candidate, converted);
    }
  }

  method BeginCarried(m: Machine, j: Journal, k: nat, candidate: Node, converted: Node, ghost w0: World)
    returns (r: Outcome)
    requires InHand(j, m) && k < |STEPS| && j.state == Forward(j.state.identity, k) && Ready(m.w, k)
    requires Carried(w0, m.w, k, candidate, converted) && Early(w0, m.w, k)
    modifies m, j
    ensures r != Refused && Inv(m.w)
    ensures r == Done ==>
              InHand(j, m) && Applying(m.w, j.state, k) && j.state.identity == old(j.state.identity) &&
              Started(STEPS[k]) in m.w.log
    ensures r == Done ==> Carried(w0, m.w, k, candidate, converted) && Early(w0, m.w, k)
    ensures r == Stopped ==> m.budget == 0
    ensures m.budget <= old(m.budget) <= m.budget + 3
  {
    ghost var w1, st := m.w, j.state;
    HeldIsOn(j, m);
    r := BeginStep(m, j, k);
    if r == Done {
      CarriedSaved(w0, w1, m.w, st, j.state, k, candidate, converted);
    }
  }

  method FinishCarried(m: Machine, j: Journal, k: nat, candidate: Node, converted: Node, ghost w0: World)
    returns (r: Outcome)
    requires k < |STEPS| && j.m == m && !j.poisoned && Inv(m.w) && On(m.w, j.state)
    requires j.state == Forward(j.state.identity, k).(pending := Some(STEPS[k]))
    requires Ready(m.w, k + 1) && Started(STEPS[k]) in m.w.log
    requires Carried(w0, m.w, k + 1, candidate, converted) && Early(w0, m.w, k + 1)
    modifies m, j
    ensures r != Refused && Inv(m.w)
    ensures r == Done ==> InHand(j, m) && j.state == old(Forward(j.state.identity, k + 1)) && Ready(m.w, k + 1)
    ensures r == Done ==> Carried(w0, m.w, k + 1, candidate, converted) && Early(w0, m.w, k + 1)
    ensures r == Stopped ==> m.budget == 0
    ensures m.budget <= old(m.budget) <= m.budget + 3
  {
    ghost var w1, st := m.w, j.state;
    StepsPrefix(k);
    r := FinishStep(m, j, k);
    if r == Done {
      CarriedSaved(w0, w1, m.w, st, j.state, k + 1, candidate, converted);
    }
  }

  method FinishStep(m: Machine, j: Journal, k: nat) returns (r: Outcome)
    requires k < |STEPS| && j.m == m && !j.poisoned && Inv(m.w) && On(m.w, j.state)
    requires j.state == Forward(j.state.identity, k).(pending := Some(STEPS[k]))
    requires Ready(m.w, k + 1) && Started(STEPS[k]) in m.w.log
    modifies m, j
    ensures r != Refused && Inv(m.w)
    ensures r == Done ==> InHand(j, m) && j.state == old(Forward(j.state.identity, k + 1)) && Ready(m.w, k + 1)
    ensures r == Done ==> Saved(old(m.w), m.w, j.state)
    ensures r == Done ==> m.w.running == old(m.w.running) && m.w.fence == old(m.w.fence)
    ensures r == Stopped ==> m.budget == 0
    ensures m.budget <= old(m.budget) <= m.budget + 3
  {
    ghost var w0, st := m.w, j.state;
    OnNow(w0, st);
    FinishFits(w0, k, st.identity);
    StepsPrefix(k);
    r := j.Finish(STEPS[k]);
    SavingKeeps(w0, m.w, j.state);
    if r == Done {
      ReadySaved(w0, m.w, st, j.state, k + 1);
    }
  }

  /** Why a run that began in `w0` was refused in `w`. */
  ghost predicate Hindered(w0: World, w: World) {
    w0.fence != Down || OldAgent !in w0.running ||
    (w.disk.now.work.Active? && Obstructed(w.disk.now.work.record, w.disk.now.files))
  }

  /** The loop of `run` up to and including the commit. It is refused only if a table stands,
      the legacy agent does not run, or the snapshot finds something in its way. */
  method RunToCommit(m: Machine, j: Journal, candidate: Node, converted: Node) returns (r: Outcome)
    requires InHand(j, m) && j.state == Forward(j.state.identity, 0) && Ready(m.w, 0)
    requires candidate.Regular? && converted.Regular?
    modifies m, j
    ensures Inv(m.w)
    ensures r == Refused ==> Hindered(old(m.w), m.w)
    ensures r == Done ==> InHand(j, m) && j.state.committed && Locked(m.w) && NewAgent in m.w.running
    ensures r == Done ==> Carried(old(m.w), m.w, |STEPS|, candidate, converted)
    ensures r == Stopped ==> m.budget == 0
    ensures m.budget <= old(m.budget) <= m.budget + 24 * |old(m.w.disk.now.work.record.cacheKeys)| + 435
  {
    ghost var w0 := m.w;
    CarriedAtFirst(w0, candidate, converted);
    ghost var each := 3 * |w0.disk.now.work.record.cacheKeys| + 54;
    RunCostIs(each, |STEPS|);
    r := RunAll(m, j, candidate, converted, w0, each);
    if r == Done {
      r := CommitRun(m, j);
    }
  }

  /** Operations of the first `k` steps, of at most `each`. */
  function RunCost(each: nat, k: nat): nat {
    if k == 0 then 0 else RunCost(each, k - 1) + each
  }

  lemma {:induction false} RunCostIs(each: nat, k: nat)
    ensures RunCost(each, k) == k * each
  {
    if k > 0 {
      RunCostIs(each, k - 1);
    }
  }

  lemma RunCostGrows(each: nat, k: nat, n: nat)
    requires k <= n
    ensures RunCost(each, k) <= RunCost(each, n)
  {
    RunCostIs(each, k);
    RunCostIs(each, n);
    assert k * each <= n * each;
  }

  method RunAll(m: Machine, j: Journal, candidate: Node, converted: Node, ghost w0: World, ghost each: nat)
    returns (r: Outcome)
    requires AtStep(m, j, 0, candidate, converted, w0) && each == 3 * |w0.disk.now.work.record.cacheKeys| + 54
    requires candidate.Regular? && converted.Regular?
    modifies m, j
    ensures r != Done ==> Inv(m.w)
    ensures r == Refused ==> Hindered(w0, m.w)
    ensures r == Done ==> AtStep(m, j, |STEPS|, candidate, converted, w0)
    ensures r == Stopped ==> m.budget == 0
    ensures m.budget <= old(m.budget) <= m.budget + RunCost(each, |STEPS|)
  {
    r := Done;
    var k := 0;
    while r == Done && k < |STEPS|
      invariant k <= |STEPS| && (r != Done ==> Inv(m.w))
      invariant r == Done ==> AtStep(m, j, k, candidate, converted, w0)
      invariant r == Refused ==> Hindered(w0, m.w)
      invariant r == Stopped ==> m.budget == 0
      invariant m.budget <= old(m.budget) <= m.budget + RunCost(each, k)
      decreases |STEPS| - k
    {
      r := RunStep(m, j, k, candidate, converted, w0);
      k := k + 1;
    }
    assert r == Done ==> k == |STEPS|;
    RunCostGrows(each, k, |STEPS|);
  }

  lemma CarriedAtFirst(w: World, candidate: Node, converted: Node)
    requires w.disk.now.work.Active?
    ensures Carried(w, w, 0, candidate, converted) && Early(w, w, 0)
  {
    SameRootIsLegacy(w.disk.now.files, w.disk.now.files);
  }

  method CommitRun(m: Machine, j: Journal) returns (r: Outcome)
    requires InHand(j, m) && j.state == Forward(j.state.identity, |STEPS|) && Ready(m.w, |STEPS|)
    modifies m, j
    ensures r != Refused && Inv(m.w)
    ensures r == Done ==> InHand(j, m) && j.state.committed && Locked(m.w) && NewAgent in m.w.running
    ensures r == Done ==> Saved(old(m.w), m.w, j.state)
    ensures r == Stopped ==> m.budget == 0
    ensures m.budget <= old(m.budget) <= m.budget + 3
  {
    assert STEPS[..|STEPS|] == STEPS;
    ghost var w0 := m.w;
    HeldIsOn(j, m);
    CommitFits(w0, j.state.identity);
    r := j.Commit();
    SavingKeeps(w0, m.w, j.state);
  }

  /** `open_traffic`: only ever after the commit is durable. */
  method OpenTraffic(m: Machine, st: State) returns (r: Outcome)
    requires Inv(m.w) && On(m.w, st) && st.committed && NewAgent in m.w.running
    modifies m
    ensures r != Refused && Inv(m.w) && On(m.w, st) && Opened in m.w.log
    ensures r == Done ==> Reachable(m.w, NewAgent) && !m.w.permit
    ensures r == Done ==> m.w.disk.now.guards == {} && !m.w.disk.now.oldEnabled && m.w.disk.now.newEnabled
    ensures r == Done ==> m.w.disk.now.work == old(m.w.disk.now.work) && m.w.origin == old(m.w.origin)
    ensures r == Stopped ==> m.budget == 0
    ensures m.budget <= old(m.budget) <= m.budget + 14
  {
    ghost var w0 := m.w;
    OpeningIsOrderly(w0, st);
    Note(m, Opened);
    OnKept(w0, m.w);
    r := EnableReplacement(m, st);
    if r != Done {
      return;
    }
    var healthy := Wait(m);
    if !healthy {
      return Stopped;
    }
    OnNow(m.w, st);
    assert forall v: Persisted | m.w.disk.May(v) :: JournalOf(v) == st;
    r := ReleaseFence(m);
  }

  method EnableReplacement(m: Machine, st: State) returns (r: Outcome)
    requires Inv(m.w) && On(m.w, st) && st.committed && Opened in m.w.log
    modifies m
    ensures r != Refused && Inv(m.w) && On(m.w, st) && m.w == old(m.w).(disk := m.w.disk)
    ensures r == Done ==> !m.w.disk.now.oldEnabled && m.w.disk.now.newEnabled
    ensures r == Done ==> m.w.disk.now.work == old(m.w.disk.now.work)
    ensures r == Stopped ==> m.budget == 0
    ensures m.budget <= old(m.budget) <= m.budget + 2
  {
    OnNow(m.w, st);
    EnabledFits(m.w, st, false, m.w.disk.now.newEnabled);
    var disabled := Persist(m, m.w.disk.now.(oldEnabled := false));
    if !disabled {
      return Stopped;
    }
    OnNow(m.w, st);
    EnabledFits(m.w, st, false, true);
    var enabled := Persist(m, m.w.disk.now.(newEnabled := true));
    return if enabled then Done else Stopped;
  }

  lemma OpeningIsOrderly(w: World, st: State)
    requires Inv(w) && On(w, st) && st.committed
    ensures Orderly(w.log + [Opened])
    ensures forall v: Persisted | w.disk.May(v) :: LogFits(w.log + [Opened], v)
  {
    AppendEvent(w.log, Opened);
    forall v: Persisted | w.disk.May(v)
      ensures LogFits(w.log + [Opened], v)
    {
      assert Fits(w, v) && JournalOf(v) == st;
    }
  }

  lemma EnabledFits(w: World, st: State, oldEnabled: bool, newEnabled: bool)
    requires Inv(w) && On(w, st) && st.committed && !oldEnabled
    requires w.disk.now.newEnabled ==> newEnabled
    ensures Fits(w, w.disk.now.(oldEnabled := oldEnabled, newEnabled := newEnabled))
  {
    OnNow(w, st);
    assert JournalOf(w.disk.now.(oldEnabled := oldEnabled, newEnabled := newEnabled)) == st;
  }

  // ---- Rolling back ----

  /** Operations that the undo of the last begun step may need. */
  function UndoCost(st: State, caches: nat): nat {
    if LevelOf(st) == 6 then 3 * caches + 55 else 12
  }

  /** `Actions::undo` for the last begun step. */
  method Undo(m: Machine, st: State) returns (r: Outcome)
    requires Undoable(m.w, st) && ValidHistory(st)
    modifies m
    ensures Inv(m.w) && On(m.w, st) && Frame(old(m.w), m.w)
    ensures r == Refused <==> LevelOf(st) == 1 && OldAgent !in old(m.w.running)
    ensures r == Done ==> Undid(m.w, st)
    ensures r == Done && LevelOf(st) in {2, 4, 5, 8} ==> m.w == old(m.w)
    ensures r == Done && LevelOf(st) >= 4 ==> m.w.disk.now.left == old(m.w.disk.now.left)
    ensures LevelOf(st) <= 3 ==> LegacyWrote(old(m.w.disk.now.files), m.w.disk.now.files)
    ensures r == Stopped ==> m.budget == 0
    ensures m.budget <= old(m.budget) <= m.budget + UndoCost(st, CacheCount(old(m.w.disk.now)))
  {
    match LastBegun(st) {
      case FenceTraffic => r := UndoFenceTraffic(m, st);
      case Drain => r := Done;
      case StopLegacyServices => r := UndoStopLegacyServices(m, st);
      case Snapshot => r := Done;
      case StopLegacyEngine => r := UndoOther(m, st);
      case Relocate => r := UndoRelocate(m, st);
      case Activate => r := UndoActivate(m, st);
      case Qualify => r := Done;
    }
  }

  /** Undo the last begun step, noting it before and after. */
  method UndoNoted(m: Machine, st: State) returns (r: Outcome)
    requires Undoable(m.w, st) && ValidHistory(st)
    modifies m
    ensures Inv(m.w) && On(m.w, st) && Remembers(old(m.w), m.w)
    ensures m.w.disk.now.work == old(m.w.disk.now.work)
    ensures |m.w.log| > old(|m.w.log|) && old(m.w.log) <= m.w.log
    ensures r == Refused <==> LevelOf(st) == 1 && OldAgent !in old(m.w.running)
    ensures r == Done ==> Undid(m.w, st) && LastBegun(st) !in Outstanding(m.w.log)
    ensures r == Done && LevelOf(st) in {2, 4} ==> m.w == old(m.w).(log := m.w.log)
    ensures r == Done && LevelOf(st) >= 4 ==> m.w.disk.now.left == old(m.w.disk.now.left)
    ensures LevelOf(st) <= 3 ==> LegacyWrote(old(m.w.disk.now.files), m.w.disk.now.files)
    ensures r == Stopped ==> m.budget == 0
    ensures m.budget <= old(m.budget) <= m.budget + UndoCost(st, CacheCount(old(m.w.disk.now)))
  {
    UndoIsOrderly(m.w, st, false);
    ghost var w0 := m.w;
    Note(m, Undoing(LastBegun(st)));
    OnKept(w0, m.w);
    r := Undo(m, st);
    if r != Done {
      return r;
    }
    UndoIsOrderly(m.w, st, true);
    ghost var w1 := m.w;
    Note(m, Undone(LastBegun(st)));
    OnKept(w1, m.w);
  }

  /** One turn of `recover`: undo the last begun step, then record that. */
  method UndoLast(m: Machine, j: Journal) returns (r: Outcome)
    requires InHand(j, m) && j.state.rollingBack && !j.state.committed && LevelOf(j.state) >= 1
    requires m.w.disk.Settled() && Locked(m.w)
    modifies m, j
    ensures Inv(m.w) && |m.w.log| > old(|m.w.log|) && old(m.w.log) <= m.w.log && Remembers(old(m.w), m.w)
    ensures r == Refused <==> old(LevelOf(j.state)) == 1 && OldAgent !in old(m.w.running)
    ensures r == Done ==> InHand(j, m) && m.w.disk.Settled() && j.state == old(WithoutLast(j.state))
    ensures r == Done ==>
              (old(LevelOf(j.state)) >= 2 ==> Locked(m.w)) &&
              (old(LevelOf(j.state)) == 3 ==> OldAgent in m.w.running) &&
              (old(LevelOf(j.state)) == 2 ==> m.w.running == old(m.w.running)) &&
              (old(LevelOf(j.state)) == 1 ==>
                 Reachable(m.w, OldAgent) && !m.w.permit && m.w.disk.now.guards == {})
    ensures r == Done ==>
              CacheCount(m.w.disk.now) == old(CacheCount(m.w.disk.now)) &&
              (old(LevelOf(j.state)) >= 4 ==> m.w.disk.now.left == old(m.w.disk.now.left)) &&
              (old(LevelOf(j.state)) <= 3 ==> LegacyWrote(old(m.w.disk.now.files), m.w.disk.now.files))
    ensures r == Stopped ==> m.budget == 0
    ensures m.budget <= old(m.budget) <= m.budget + UndoCost(old(j.state), CacheCount(old(m.w.disk.now))) + 3
  {
    ghost var w0, st := m.w, j.state;
    HeldIsOn(j, m);
    r := UndoNoted(m, j.state);
    if r != Done {
      return r;
    }
    ghost var w1 := m.w;
    UndoneFits(w1, st);
    r := j.RecordUndone();
    SavingKeeps(w1, m.w, j.state);
    if r == Done {
      UndoneServed(w0, w1, m.w, st);
    }
  }

  /** Only the pending step is ever undone without having started. */
  lemma UndoneStepsHadStarted(w: World, st: State)
    requires Inv(w) && On(w, st) && ValidHistory(st) && LevelOf(st) >= 1 && st.pending.None?
    ensures Started(LastBegun(st)) in w.log
  {
    OnNow(w, st);
    BegunIsPrefix(st, LastBegun(st));
    assert LastBegun(st) in st.completed;
  }

  /** What services wrote around the record of an undone step. */
  lemma UndoneServed(w0: World, w1: World, w2: World, st: State)
    requires Inv(w1) && On(w1, st) && 1 <= LevelOf(st) && Saved(w1, w2, WithoutLast(st))
    requires LevelOf(st) <= 3 ==> LegacyWrote(w0.disk.now.files, w1.disk.now.files)
    ensures LevelOf(st) >= 4 ==> w2.disk.now.left == w1.disk.now.left
    ensures LevelOf(st) <= 3 ==> LegacyWrote(w0.disk.now.files, w2.disk.now.files)
  {
    OnNow(w1, st);
    if LevelOf(st) <= 3 {
      ServedByLegacy(w1, w1.disk.now, w2.disk.now);
      LegacyWroteIsTransitive(w0.disk.now.files, w1.disk.now.files, w2.disk.now.files);
    } else {
      ServedKeepsLeft(w1, w1.disk.now, w2.disk.now);
    }
  }

  /** Whether a rollback from this level will find the legacy agent running when it comes to
      the fence: undoing the stop of the services starts it, and nothing else does. */
  predicate AgentWillRun(level: nat, running: set<Unit>) {
    level >= 3 || OldAgent in running
  }

  /** The first save of `recover`. */
  method StartRollback(m: Machine, j: Journal) returns (r: Outcome)
    requires InHand(j, m)
    modifies m, j
    ensures Inv(m.w) && m.w == old(m.w).(disk := m.w.disk)
    ensures r == Refused <==> old(j.state.committed)
    ensures r == Done ==>
              InHand(j, m) && j.state == old(j.state).(rollingBack := true) && Saved(old(m.w), m.w, j.state)
    ensures r == Stopped ==> m.budget == 0
    ensures m.budget <= old(m.budget) <= m.budget + 3
  {
    ghost var w0 := m.w;
    HeldIsOn(j, m);
    if !j.state.committed {
      RollbackFits(w0, j.state);
    }
    r := j.BeginRollback();
    if r != Refused {
      SavingKeeps(w0, m.w, j.state);
    }
  }

  /** The last save of `recover`. */
  method StopRollback(m: Machine, j: Journal) returns (r: Outcome)
    requires InHand(j, m) && j.state == State(j.state.identity, [], None, false, true)
    modifies m, j
    ensures r != Refused && Inv(m.w) && m.w == old(m.w).(disk := m.w.disk)
    ensures r == Done ==> InHand(j, m) && j.state == Fresh(old(j.state.identity)) && Saved(old(m.w), m.w, j.state)
    ensures r == Done ==> Outstanding(m.w.log) == {}
    ensures r == Stopped ==> m.budget == 0
    ensures m.budget <= old(m.budget) <= m.budget + 3
  {
    ghost var w0 := m.w;
    HeldIsOn(j, m);
    EndFits(w0, j.state);
    r := j.EndRollback();
    SavingKeeps(w0, m.w, j.state);
    if r == Done {
      HeldIsOn(j, m);
      assert Begun(j.state) == {};
    }
  }

  /** A rollback took `w` to `w'`, and `found` is the tree that the legacy services met when it
      started them, or the present one if they ran already. It is what they had left before:
      exactly, unless they ran meanwhile. After a recorded snapshot, at any time before, it is
      the recorded tree up to what they themselves wrote since then. */
  ghost predicate Met(found: Tree, w: World, w': World) {
    w'.origin == w.origin &&
    LegacyWrote(w.disk.now.left, found) && LegacyWrote(found, w'.disk.now.files) &&
    (w.running * OLD_UNITS == {} ==> SameRoot(w.disk.now.left, found))
  }

  /** A recovery after a snapshot, however many were interrupted before: the services meet the
      recorded tree up to what they wrote since, and exactly it if none of them ran since. */
  lemma RecordedTreeIsMet(w: World, w': World, found: Tree)
    requires Inv(w) && Met(found, w, w') && w.recording != NotYet
    ensures LegacyWrote(w.origin, found) && LegacyWrote(w.origin, w'.disk.now.files)
    ensures w.recording == Quiet ==> SameRoot(w.origin, found)
  {
    assert w.disk.May(w.disk.now);
    assert Fits(w, w.disk.now);
    LegacyWroteIsTransitive(w.origin, w.disk.now.left, found);
    LegacyWroteIsTransitive(w.origin, found, w'.disk.now.files);
    if w.recording == Quiet {
      SameRootIsTransitive(w.origin, w.disk.now.left, found);
    }
  }

  /** `recover`: undo the pending step and every completed one, last first. */
  method Recover(m: Machine, j: Journal) returns (r: Outcome, ghost found: Tree)
    requires InHand(j, m) && Locked(m.w)
    modifies m, j
    ensures Inv(m.w) && old(m.w.log) <= m.w.log && Remembers(old(m.w), m.w)
    ensures r == Refused ==>
              old(j.state.committed || (LevelOf(j.state) >= 1 && !AgentWillRun(LevelOf(j.state), m.w.running)))
    ensures r == Done ==>
              old(!j.state.committed && (LevelOf(j.state) == 0 || AgentWillRun(LevelOf(j.state), m.w.running)))
    ensures r == Done ==> InHand(j, m) && m.w.disk.Settled() && j.state == Fresh(old(j.state.identity))
    ensures r == Done ==> Outstanding(m.w.log) == {} && Met(found, old(m.w), m.w)
    ensures r == Done && old(LevelOf(j.state)) >= 1 ==>
              Reachable(m.w, OldAgent) && !m.w.permit && m.w.disk.now.guards == {}
    ensures r == Done && old(LevelOf(j.state)) == 0 ==>
              m.w.fence == old(m.w.fence) && m.w.permit && m.w.disk.now.guards == ALL_UNITS &&
              m.w.running == old(m.w.running) && m.w.log == old(m.w.log)
    ensures r == Stopped ==> m.budget == 0
    ensures m.budget <= old(m.budget) <= m.budget + 3 * CacheCount(old(m.w.disk.now)) + 186
  {
    ghost var w0, st := m.w, j.state;
    found := w0.disk.now.files;
    HeldIsOn(j, m);
    r := StartRollback(m, j);
    if r != Done {
      return;
    }
    ghost var w1 := m.w;
    r, found := Rewind(m, j);
    if r != Done {
      return;
    }
    HeldIsOn(j, m);
    ghost var w2 := m.w;
    r := StopRollback(m, j);
    if r == Done {
      MetThroughout(w0, st, w1, w2, m.w, found);
    }
  }

  lemma MetThroughout(w0: World, st: State, w1: World, w2: World, w3: World, found: Tree)
    requires Inv(w0) && On(w0, st) && Saved(w0, w1, st.(rollingBack := true)) && Met(found, w1, w2)
    requires Inv(w2) && w2.disk.now.work.Active? && Level(w2.disk.now) == 0
    requires w3.origin == w2.origin && Served(w2, w2.disk.now, w3.disk.now)
    ensures Met(found, w0, w3)
  {
    assert w2.disk.May(w2.disk.now);
    ServedByLegacy(w2, w2.disk.now, w3.disk.now);
    LegacyWroteIsTransitive(found, w2.disk.now.files, w3.disk.now.files);
    LeftServed(w0, st, w0.disk.now, w1.disk.now);
    LegacyWroteIsTransitive(w0.disk.now.left, w1.disk.now.left, found);
  }

  /** Whatever the services write, what the legacy services left changes only by their writes. */
  lemma LeftServed(w: World, st: State, v: Persisted, u: Persisted)
    requires Inv(w) && On(w, st) && v == w.disk.now && Served(w, v, u)
    ensures LegacyWrote(v.left, u.left)
    ensures w.running * OLD_UNITS == {} ==> u.left == v.left
  {
    OnNow(w, st);
    if w.running * OLD_UNITS != {} {
      ServedByLegacy(w, v, u);
      SameRootIsLegacy(v.left, v.files);
      LegacyWroteIsTransitive(v.left, v.files, u.files);
    } else {
      ServedKeepsLeft(w, v, u);
    }
  }

  /** Operations of a rollback from level `from` that has come down to `to`. */
  function RewindCost(from: nat, to: nat, caches: nat): int {
    15 * (from - to) + if to < 6 <= from then 3 * caches + 43 else 0
  }

  lemma RewindCostStep(from: nat, st: State, caches: nat)
    requires 1 <= LevelOf(st) <= from <= 8
    ensures RewindCost(from, LevelOf(st), caches) + UndoCost(st, caches) + 3 <=
            RewindCost(from, LevelOf(st) - 1, caches) <= 3 * caches + 180
  {
  }

  /** A rollback that began at `st0` in `w0` and has come down to `st`. */
  ghost predicate Rewinding(w0: World, st0: State, w: World, st: State, found: Tree) {
    var from := LevelOf(st0);
    st == State(st0.identity, st.completed, None, false, true) && LevelOf(st) <= |st0.completed| &&
    w0.log <= w.log && Remembers(w0, w) && CacheCount(w.disk.now) == CacheCount(w0.disk.now) &&
    (LevelOf(st) >= 1 ==> Locked(w)) &&
    (LevelOf(st) <= 2 && from >= 1 ==> (OldAgent in w.running <==> AgentWillRun(from, w0.running))) &&
    (LevelOf(st) == 0 && from >= 1 ==> Reachable(w, OldAgent) && !w.permit && w.disk.now.guards == {}) &&
    (from == 0 ==> w == w0) &&
    (LevelOf(st) >= 4 ==> w.disk.now.left == w0.disk.now.left) &&
    (LevelOf(st) <= 3 ==> LegacyWrote(found, w.disk.now.files) && SameRoot(w0.disk.now.left, found))
  }

  /** When the rollback comes below the snapshot, the tree is what the legacy services left. */
  lemma RewoundTree(w: World, st: State)
    requires Inv(w) && On(w, st) && |st.completed| <= 3
    ensures SameRoot(w.disk.now.left, w.disk.now.files)
    ensures LegacyWrote(w.disk.now.files, w.disk.now.files)
  {
    OnNow(w, st);
  }

  /** One turn of the undo loop of `recover`. */
  method RewindOnce(m: Machine, j: Journal, ghost w0: World, ghost st0: State, ghost met: Tree)
    returns (r: Outcome, ghost found: Tree)
    requires InHand(j, m) && m.w.disk.Settled() && |j.state.completed| > 0
    requires Rewinding(w0, st0, m.w, j.state, met) && LevelOf(st0) >= LevelOf(j.state)
    modifies m, j
    ensures Inv(m.w) && w0.log <= m.w.log && Remembers(w0, m.w)
    ensures r == Refused ==> !AgentWillRun(LevelOf(st0), w0.running)
    ensures r == Done ==>
              InHand(j, m) && m.w.disk.Settled() && |j.state.completed| == old(|j.state.completed|) - 1 &&
              Rewinding(w0, st0, m.w, j.state, found)
    ensures r == Stopped ==> m.budget == 0
    ensures m.budget <= old(m.budget) <=
            m.budget + UndoCost(old(j.state), CacheCount(w0.disk.now)) + 3
  {
    found := met;
    ghost var level, before := LevelOf(j.state), m.w.disk.now.files;
    HeldIsOn(j, m);
    r := UndoLast(m, j);
    if r == Done {
      HeldIsOn(j, m);
      if level == 4 {
        RewoundTree(m.w, j.state);
        found := m.w.disk.now.files;
      } else if level <= 3 {
        LegacyWroteIsTransitive(found, before, m.w.disk.now.files);
      }
    }
  }

  /** The undo loop of `recover`. */
  method Rewind(m: Machine, j: Journal) returns (r: Outcome, ghost found: Tree)
    requires InHand(j, m) && m.w.disk.Settled() && Locked(m.w)
    requires j.state.rollingBack && !j.state.committed
    modifies m, j
    ensures Inv(m.w) && old(m.w.log) <= m.w.log && Remembers(old(m.w), m.w)
    ensures r == Refused ==> old(LevelOf(j.state) >= 1 && !AgentWillRun(LevelOf(j.state), m.w.running))
    ensures r == Done ==> old(LevelOf(j.state) == 0 || AgentWillRun(LevelOf(j.state), m.w.running))
    ensures r == Done ==> InHand(j, m) && m.w.disk.Settled()
    ensures r == Done ==> j.state == State(old(j.state.identity), [], None, false, true)
    ensures r == Done ==> Met(found, old(m.w), m.w) && SameRoot(old(m.w.disk.now.left), found)
    ensures r == Done && old(LevelOf(j.state)) >= 1 ==>
              Reachable(m.w, OldAgent) && !m.w.permit && m.w.disk.now.guards == {}
    ensures r == Done && old(LevelOf(j.state)) == 0 ==> m.w == old(m.w)
    ensures r == Stopped ==> m.budget == 0
    ensures m.budget <= old(m.budget) <= m.budget + 3 * CacheCount(old(m.w.disk.now)) + 180
  {
    ghost var w0, st0, caches := m.w, j.state, CacheCount(m.w.disk.now);
    HeldIsOn(j, m);
    r, found := RewindPending(m, j);
    if r != Done {
      return;
    }
    ghost var spent := old(m.budget) - m.budget;
    r, found := RewindCompleted(m, j, w0, st0, found, caches, spent);
    if r == Done {
      SameRootIsLegacy(w0.disk.now.left, found);
    }
  }

  /** The completed steps, the last first. */
  method RewindCompleted(m: Machine, j: Journal, ghost w0: World, ghost st0: State, ghost met: Tree,
                         ghost caches: nat, ghost spent: nat) returns (r: Outcome, ghost found: Tree)
    requires InHand(j, m) && m.w.disk.Settled() && Rewinding(w0, st0, m.w, j.state, met)
    requires LevelOf(st0) <= 8 && caches == CacheCount(w0.disk.now)
    requires spent <= RewindCost(LevelOf(st0), LevelOf(j.state), caches)
    modifies m, j
    ensures Inv(m.w) && w0.log <= m.w.log && Remembers(w0, m.w)
    ensures r == Refused ==> LevelOf(st0) >= 1 && !AgentWillRun(LevelOf(st0), w0.running)
    ensures r == Done ==>
              InHand(j, m) && m.w.disk.Settled() && Rewinding(w0, st0, m.w, j.state, found) && j.state.completed == []
    ensures r == Stopped ==> m.budget == 0
    ensures m.budget <= old(m.budget) && spent + old(m.budget) <= m.budget + 3 * caches + 180
  {
    found := met;
    while |j.state.completed| > 0
      invariant InHand(j, m) && m.w.disk.Settled() && Rewinding(w0, st0, m.w, j.state, found)
      invariant m.budget <= old(m.budget)
      invariant spent + old(m.budget) <= m.budget + RewindCost(LevelOf(st0), LevelOf(j.state), caches)
      decreases |j.state.completed|
    {
      RewindCostStep(LevelOf(st0), j.state, caches);
      r, found := RewindOnce(m, j, w0, st0, found);
      if r != Done {
        return;
      }
    }
    r := Done;
  }

  function PendingCost(st: State, caches: nat): nat {
    if st.pending.Some? then UndoCost(st, caches) + 3 else 0
  }

  /** The pending step, if there is one. */
  method RewindPending(m: Machine, j: Journal) returns (r: Outcome, ghost found: Tree)
    requires InHand(j, m) && m.w.disk.Settled() && Locked(m.w)
    requires j.state.rollingBack && !j.state.committed
    modifies m, j
    ensures Inv(m.w) && old(m.w.log) <= m.w.log && Remembers(old(m.w), m.w)
    ensures r == Refused ==> old(LevelOf(j.state) >= 1 && !AgentWillRun(LevelOf(j.state), m.w.running))
    ensures r == Done ==>
              InHand(j, m) && m.w.disk.Settled() && Rewinding(old(m.w), old(j.state), m.w, j.state, found)
    ensures r == Stopped ==> m.budget == 0
    ensures m.budget <= old(m.budget) <=
            m.budget + PendingCost(old(j.state), CacheCount(old(m.w.disk.now)))
    ensures r == Done ==> j.state.completed == old(j.state.completed)
  {
    ghost var w0, st0 := m.w, j.state;
    found := m.w.disk.now.files;
    HeldIsOn(j, m);
    if |st0.completed| <= 3 {
      RewoundTree(w0, st0);
    }
    r := Done;
    if j.state.pending.Some? {
      r := UndoLast(m, j);
      if r == Done && |st0.completed| == 3 {
        HeldIsOn(j, m);
        RewoundTree(m.w, j.state);
        found := m.w.disk.now.files;
      }
    }
  }
}
