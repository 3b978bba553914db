/** The durable intent journal (journal.rs). */
module JournalFile {
  import opened Durable
  import opened History
  import opened World
  import opened Relocation

  function RecordedAs(v: Persisted, st: State): Persisted
    requires v.work.Active?
  {
    v.(work := v.work.(journal := Some(st)))
  }

  /** Everything that an attempt to save `st` can leave, interrupted or not: an earlier
      version, or the current one with or without the new state, served meanwhile. */
  ghost predicate Saving(w: World, w': World, st: State) {
    w.disk.now.work.Active? &&
    w' == w.(disk := w'.disk) &&
    forall v: Persisted | w'.disk.May(v) ::
      w.disk.May(v) ||
      (Served(w, w.disk.now, v) &&
       (v == Renewed(w.disk.now, v) || v == Renewed(RecordedAs(w.disk.now, st), v)))
  }

  /** The save completed: `st` is on disk and nothing older can come back. */
  ghost predicate Saved(w: World, w': World, st: State) {
    w.disk.now.work.Active? && w'.disk.Settled() &&
    w' == w.(disk := w'.disk) &&
    Served(w, w.disk.now, w'.disk.now) &&
    w'.disk.now == Renewed(RecordedAs(w.disk.now, st), w'.disk.now)
  }

  lemma SavingKeeps(w: World, w': World, st: State)
    requires Inv(w) && Saving(w, w', st) && Fits(w, RecordedAs(w.disk.now, st))
    ensures Inv(w')
  {
    forall v: Persisted | w'.disk.May(v)
      ensures Fits(w', v)
    {
      if w.disk.May(v) {
        assert Fits(w, v);
      } else if v == Renewed(w.disk.now, v) {
        assert Fits(w, w.disk.now);
        ServedFits(w, w.disk.now, v);
      } else {
        ServedFits(w, RecordedAs(w.disk.now, st), v);
      }
    }
  }

  /** A save in progress, before or after its rename. */
  ghost predicate Underway(w: World, w': World, st: State, written: bool) {
    Saving(w, w', st) &&
    w'.disk.now == Renewed(if written then RecordedAs(w.disk.now, st) else w.disk.now, w'.disk.now) &&
    Served(w, w.disk.now, w'.disk.now)
  }

  lemma UnderwayIsServed(w: World, w1: World, w2: World, st: State, written: bool)
    requires Underway(w, w1, st, written) && ServiceStep(w1, w2)
    ensures Underway(w, w2, st, written)
  {
    if w2 != w1 {
      ServedIsTransitive(w, w.disk.now, w1.disk.now, w2.disk.now);
      forall v: Persisted | w2.disk.May(v)
        ensures w.disk.May(v) ||
                (Served(w, w.disk.now, v) &&
                 (v == Renewed(w.disk.now, v) || v == Renewed(RecordedAs(w.disk.now, st), v)))
      {
        assert w1.disk.May(v) || v == w2.disk.now;
      }
    }
  }

  lemma RenameIsUnderway(w: World, w1: World, st: State)
    requires Underway(w, w1, st, false)
    ensures Underway(w, w1.(disk := w1.disk.Write(RecordedAs(w1.disk.now, st))), st, true)
  {
    var w2 := w1.(disk := w1.disk.Write(RecordedAs(w1.disk.now, st)));
    forall v: Persisted | w2.disk.May(v)
      ensures w.disk.May(v) ||
              (Served(w, w.disk.now, v) &&
               (v == Renewed(w.disk.now, v) || v == Renewed(RecordedAs(w.disk.now, st), v)))
    {
      assert w1.disk.May(v) || v == w2.disk.now;
    }
  }

  /** One operation of a save. */
  method Pause(m: Machine, ghost w0: World, ghost st: State, ghost written: bool) returns (alive: bool)
    requires Underway(w0, m.w, st, written)
    modifies m
    ensures Underway(w0, m.w, st, written)
    ensures alive == (old(m.budget) > 0)
    ensures m.budget == if alive then old(m.budget) - 1 else 0
  {
    ghost var w1 := m.w;
    alive := m.Spend();
    UnderwayIsServed(w0, w1, m.w, st, written);
  }

  class Journal {
    const m: Machine
    var state: State
    var poisoned: bool

    /** A journal that is not poisoned holds what every version on disk holds. */
    ghost predicate Valid()
      reads this, m
    {
      m.w.disk.now.work.Active? &&
      (!poisoned ==> forall v: Persisted | m.w.disk.May(v) :: v.work.Active? && v.work.journal == Some(state))
    }

    constructor (m: Machine, state: State)
      ensures this.m == m && this.state == state && poisoned
    {
      this.m := m;
      this.state := state;
      poisoned := true;
    }

    /** `save`: stage and sync a file, rename it over the journal, sync the directory. */
    method Save() returns (r: Outcome)
      requires m.w.disk.now.work.Active?
      modifies this`poisoned, m
      ensures r != Refused && Saving(old(m.w), m.w, state)
      ensures r == Done ==> !poisoned && Saved(old(m.w), m.w, state)
      ensures r == Stopped ==> poisoned && m.budget == 0
      ensures Valid()
      ensures m.budget <= old(m.budget) <= m.budget + 3
    {
      ghost var w0 := m.w;
      assert Underway(w0, m.w, state, false);
      poisoned := true;
      var alive := Pause(m, w0, state, false);
      if alive {
        alive := Pause(m, w0, state, false);
      }
      if !alive {
        return Stopped;
      }
      RenameIsUnderway(w0, m.w, state);
      m.w := m.w.(disk := m.w.disk.Write(RecordedAs(m.w.disk.now, state)));
      alive := Pause(m, w0, state, true);
      if !alive {
        return Stopped;
      }
      m.w := m.w.(disk := m.w.disk.Sync());
      assert forall v: Persisted | m.w.disk.May(v) :: v == m.w.disk.now;
      poisoned := false;
      return Done;
    }

    /** `restored_checkpoint`. */
    predicate RestoredCheckpoint()
      reads this
    {
      !poisoned && !state.committed && state.rollingBack && state.pending.None? && |state.completed| <= 3
    }

    /** `begin`. */
    method Begin(step: Step) returns (r: Outcome)
      requires Valid()
      modifies this, m
      ensures r == Refused <==>
              old(poisoned || state.committed || state.rollingBack || state.pending.Some? ||
                  |state.completed| >= |STEPS| || STEPS[|state.completed|] != step)
      ensures r == Refused ==> m.w == old(m.w) && state == old(state) && poisoned == old(poisoned)
      ensures r != Refused ==> state == old(state).(pending := Some(step)) && Saving(old(m.w), m.w, state)
      ensures r == Done ==> !poisoned && Saved(old(m.w), m.w, state)
      ensures r == Stopped ==> poisoned && m.budget == 0
      ensures Valid()
      ensures m.budget <= old(m.budget) <= m.budget + 3
    {
      if poisoned || state.committed || state.rollingBack || state.pending.Some? {
        return Refused;
      }
      if |state.completed| >= |STEPS| || STEPS[|state.completed|] != step {
        return Refused;
      }
      state := state.(pending := Some(step));
      r := Save();
    }

    /** `finish`. */
    method Finish(step: Step) returns (r: Outcome)
      requires Valid()
      modifies this, m
      ensures r == Refused <==> old(poisoned || state.rollingBack || state.pending != Some(step))
      ensures r == Refused ==> m.w == old(m.w) && state == old(state) && poisoned == old(poisoned)
      ensures r != Refused ==>
                state == old(state).(completed := old(state.completed) + [step], pending := None) &&
                Saving(old(m.w), m.w, state)
      ensures r == Done ==> !poisoned && Saved(old(m.w), m.w, state)
      ensures r == Stopped ==> poisoned && m.budget == 0
      ensures Valid()
      ensures m.budget <= old(m.budget) <= m.budget + 3
    {
      if poisoned || state.rollingBack || state.pending != Some(step) {
        return Refused;
      }
      state := state.(completed := state.completed + [step], pending := None);
      r := Save();
    }

    /** `commit`. */
    method Commit() returns (r: Outcome)
      requires Valid()
      modifies this, m
      ensures r == Refused <==>
              old(poisoned || state.completed != STEPS || state.pending.Some? || state.rollingBack)
      ensures r == Refused ==> m.w == old(m.w) && state == old(state) && poisoned == old(poisoned)
      ensures r != Refused ==> state == old(state).(committed := true) && Saving(old(m.w), m.w, state)
      ensures r == Done ==> !poisoned && Saved(old(m.w), m.w, state)
      ensures r == Stopped ==> poisoned && m.budget == 0
      ensures Valid()
      ensures m.budget <= old(m.budget) <= m.budget + 3
    {
      if poisoned || state.completed != STEPS || state.pending.Some? || state.rollingBack {
        return Refused;
      }
      state := state.(committed := true);
      r := Save();
    }

    /** The beginning of `recover`. */
    method BeginRollback() returns (r: Outcome)
      requires Valid()
      modifies this, m
      ensures r == Refused <==> old(poisoned || state.committed)
      ensures r == Refused ==> m.w == old(m.w) && state == old(state) && poisoned == old(poisoned)
      ensures r != Refused ==> state == old(state).(rollingBack := true) && Saving(old(m.w), m.w, state)
      ensures r == Done ==> !poisoned && Saved(old(m.w), m.w, state)
      ensures r == Stopped ==> poisoned && m.budget == 0
      ensures Valid()
      ensures m.budget <= old(m.budget) <= m.budget + 3
    {
      if poisoned || state.committed {
        return Refused;
      }
      state := state.(rollingBack := true);
      r := Save();
    }

    /** One record of `recover`: the pending step first, then the completed ones backwards. */
    method RecordUndone() returns (r: Outcome)
      requires Valid() && !poisoned && (state.pending.Some? || |state.completed| > 0)
      modifies this, m
      ensures r != Refused && state == WithoutLast(old(state)) && Saving(old(m.w), m.w, state)
      ensures r == Done ==> !poisoned && Saved(old(m.w), m.w, state)
      ensures r == Stopped ==> poisoned && m.budget == 0
      ensures Valid()
      ensures m.budget <= old(m.budget) <= m.budget + 3
    {
      if state.pending.Some? {
        state := state.(pending := None);
      } else {
        state := state.(completed := state.completed[..|state.completed| - 1]);
      }
      r := Save();
    }

    /** The end of `recover`. */
    method EndRollback() returns (r: Outcome)
      requires Valid() && !poisoned
      modifies this, m
      ensures r != Refused && state == old(state).(rollingBack := false) && Saving(old(m.w), m.w, state)
      ensures r == Done ==> !poisoned && Saved(old(m.w), m.w, state)
      ensures r == Stopped ==> poisoned && m.budget == 0
      ensures Valid()
      ensures m.budget <= old(m.budget) <= m.budget + 3
    {
      state := state.(rollingBack := false);
      r := Save();
    }
  }

  function WithoutLast(st: State): State
    requires st.pending.Some? || |st.completed| > 0
  {
    if st.pending.Some? then st.(pending := None) else st.(completed := st.completed[..|st.completed| - 1])
  }

  /** What `open` takes from disk. */
  function Found(v: Persisted, identity: nat): State
    requires v.work.Active?
  {
    if v.work.journal.Some? then v.work.journal.value else Fresh(identity)
  }

  /** Re-saving what was found never disturbs the invariant, and `open` accepts it. */
  lemma FoundFits(w: World)
    requires Inv(w) && w.disk.now.work.Active?
    ensures var st := Found(w.disk.now, w.disk.now.work.record.identity);
            st.identity == w.disk.now.work.record.identity && ValidHistory(st) &&
            Fits(w, RecordedAs(w.disk.now, st))
  {
    var v := w.disk.now;
    assert Fits(w, v);
    var st := Found(v, v.work.record.identity);
    var next := RecordedAs(v, st);
    assert JournalOf(next) == st;
    assert st.completed == JournalOf(v).completed && st.pending == JournalOf(v).pending;
    assert Begun(st) == Begun(JournalOf(v));
  }

  /** `Journal::open`: read, validate, and make what was read durable before using it. */
  method Open(m: Machine, identity: nat) returns (r: Outcome, journal: Journal)
    requires m.w.disk.now.work.Active?
    modifies m
    ensures r == Refused <==>
            var st := Found(old(m.w.disk.now), identity);
            st.identity != identity || !ValidHistory(st)
    ensures r == Refused ==> m.w == old(m.w)
    ensures fresh(journal) && journal.m == m && journal.state == Found(old(m.w.disk.now), identity) && journal.Valid()
    ensures r != Refused ==> Saving(old(m.w), m.w, journal.state)
    ensures r == Done ==> !journal.poisoned && Saved(old(m.w), m.w, journal.state)
    ensures r == Stopped ==> m.budget == 0
    ensures m.budget <= old(m.budget) <= m.budget + 3
  {
    var st := Found(m.w.disk.now, identity);
    journal := new Journal(m, st);
    if st.identity != identity || !ValidHistory(st) {
      return Refused, journal;
    }
    r := journal.Save();
  }
}
