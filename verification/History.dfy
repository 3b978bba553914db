/** The fixed sequence of steps, the durable journal state, and what a log of host actions
    says about it (journal.rs, runner.rs). */
module History {
  import opened Durable

  datatype Step =
    | FenceTraffic
    | Drain
    | StopLegacyServices
    | Snapshot
    | StopLegacyEngine
    | Relocate
    | Activate
    | Qualify
  {
    function Rank(): (r: nat)
      ensures r < |STEPS| && STEPS[r] == this
    {
      match this
      case FenceTraffic => 0
      case Drain => 1
      case StopLegacyServices => 2
      case Snapshot => 3
      case StopLegacyEngine => 4
      case Relocate => 5
      case Activate => 6
      case Qualify => 7
    }
  }

  const STEPS: seq<Step> :=
    [FenceTraffic, Drain, StopLegacyServices, Snapshot, StopLegacyEngine, Relocate, Activate, Qualify]

  /** The contents of migration.json. `identity` stands for schema, host and release. */
  datatype State = State(
    identity: nat,
    completed: seq<Step>,
    pending: Option<Step>,
    committed: bool,
    rollingBack: bool)

  function Fresh(identity: nat): State {
    State(identity, [], None, false, false)
  }

  /** The action history that `Journal::open` accepts. */
  predicate ValidHistory(st: State) {
    st.completed <= STEPS &&
    (st.pending.Some? ==> |st.completed| < |STEPS| && STEPS[|st.completed|] == st.pending.value) &&
    (st.committed ==> st.completed == STEPS && st.pending.None? && !st.rollingBack)
  }

  /** How many steps have begun and are not yet recorded as undone. */
  function LevelOf(st: State): nat {
    |st.completed| + if st.pending.Some? then 1 else 0
  }

  function Begun(st: State): set<Step> {
    (set s | s in st.completed) + if st.pending.Some? then {st.pending.value} else {}
  }

  lemma BegunIsPrefix(st: State, s: Step)
    requires ValidHistory(st)
    ensures s in Begun(st) <==> s.Rank() < LevelOf(st)
    ensures s in st.completed <==> s.Rank() < |st.completed|
  {
    if s.Rank() < |st.completed| {
      assert st.completed[s.Rank()] == STEPS[s.Rank()] == s;
    }
    if s in st.completed {
      var i :| 0 <= i < |st.completed| && st.completed[i] == s;
      assert STEPS[i] == s;
      assert i == s.Rank();
    }
    if st.pending == Some(s) {
      assert STEPS[|st.completed|] == s && s.Rank() == |st.completed|;
    }
  }

  /** The step that `recover` undoes next: the pending one, else the last completed one. */
  function LastBegun(st: State): (s: Step)
    requires ValidHistory(st) && LevelOf(st) >= 1
    ensures s.Rank() == LevelOf(st) - 1
    ensures s in Begun(st) && forall t | t in Begun(st) :: t.Rank() <= s.Rank()
  {
    var s := if st.pending.Some? then st.pending.value else st.completed[|st.completed| - 1];
    assert s == STEPS[LevelOf(st) - 1];
    assert s.Rank() == LevelOf(st) - 1 by {
      assert STEPS == [FenceTraffic, Drain, StopLegacyServices, Snapshot, StopLegacyEngine, Relocate, Activate,
                       Qualify];
    }
    assert forall t | t in Begun(st) :: t.Rank() <= s.Rank() by {
      forall t | t in Begun(st)
        ensures t.Rank() <= s.Rank()
      {
        BegunIsPrefix(st, t);
      }
    }
    s
  }

  /** What the host was asked to do since the transaction was staged. */
  datatype Event = Started(step: Step) | Undoing(step: Step) | Undone(step: Step) | Opened

  /** Steps whose apply began and whose undo has not completed since. */
  function Outstanding(log: seq<Event>): set<Step> {
    if log == [] then {} else
    var rest := Outstanding(log[..|log| - 1]);
    match log[|log| - 1]
    case Started(s) => rest + {s}
    case Undone(s) => rest - {s}
    case Undoing(_) => rest
    case Opened => rest
  }

  /** Each event was allowed when it happened: steps start in order, an undo never skips an
      outstanding later step, a completed undo had begun, and nothing starts or is undone
      once traffic has been opened. */
  predicate Orderly(log: seq<Event>) {
    log == [] ||
    var before := log[..|log| - 1];
    Orderly(before) &&
    match log[|log| - 1]
    case Started(s) => Opened !in before && forall t | t in Outstanding(before) :: t.Rank() < s.Rank()
    case Undoing(s) => Opened !in before && forall t | t in Outstanding(before) :: t.Rank() <= s.Rank()
    case Undone(s) => before != [] && before[|before| - 1] == Undoing(s)
    case Opened => true
  }

  lemma AppendEvent(log: seq<Event>, e: Event)
    ensures (log + [e])[..|log + [e]| - 1] == log
    ensures (log + [e])[|log + [e]| - 1] == e
  {
  }

  lemma {:induction false} OrderlyPrefix(log: seq<Event>, n: nat)
    requires Orderly(log) && n <= |log|
    ensures Orderly(log[..n])
  {
    if n < |log| {
      OrderlyPrefix(log[..|log| - 1], n);
      assert log[..|log| - 1][..n] == log[..n];
    } else {
      assert log[..n] == log;
    }
  }

  /** Opening traffic is the point of no return: no step starts and none is undone later. */
  lemma {:induction false} NothingAfterOpening(log: seq<Event>, i: nat, j: nat)
    requires Orderly(log) && i < j < |log| && log[i] == Opened
    ensures log[j] == Opened
  {
    if i < j - 1 {
      NothingAfterOpening(log, i, j - 1);
    }
    OrderlyPrefix(log, j + 1);
    var before := log[..j];
    assert log[..j + 1][..j] == before;
    assert before[i] == Opened && before[|before| - 1] == log[j - 1];
  }

  /** A step leaves the outstanding set only through its own completed undo. */
  lemma {:induction false} StaysOutstanding(log: seq<Event>, i: nat, t: Step)
    requires i < |log| && log[i] == Started(t)
    requires forall k | i < k < |log| :: log[k] != Undone(t)
    ensures t in Outstanding(log)
  {
    if i < |log| - 1 {
      var before := log[..|log| - 1];
      assert forall k | i < k < |before| :: before[k] == log[k];
      StaysOutstanding(before, i, t);
    }
  }

  /** Rollback runs backwards: before a step is undone, every later step that had started
      has completed its own undo since. */
  lemma UndoneInReverse(log: seq<Event>, i: nat, j: nat, t: Step, s: Step) returns (k: nat)
    requires Orderly(log) && i < j < |log|
    requires log[i] == Started(t) && log[j] == Undoing(s) && s.Rank() < t.Rank()
    ensures i < k < j && log[k] == Undone(t)
  {
    OrderlyPrefix(log, j + 1);
    var upTo := log[..j + 1];
    var before := log[..j];
    assert upTo[..|upTo| - 1] == before;
    if forall k | i < k < j :: log[k] != Undone(t) {
      assert forall k | i < k < |before| :: before[k] == log[k];
      StaysOutstanding(before, i, t);
      assert false;
    }
    k :| i < k < j && log[k] == Undone(t);
  }
}
