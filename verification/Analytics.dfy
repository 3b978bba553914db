/** Content-free accounting of requests and its daily rollup (analytics.rs). */
module Analytics {
  import opened Durable

  const LONG_CONTEXT := 272000
  const I64_MAX := 0x7fff_ffff_ffff_ffff
  const U64_MAX := 0xffff_ffff_ffff_ffff
  const U128_MAX := 0xffff_ffff_ffff_ffff_ffff_ffff_ffff_ffff

  const REQUEST_DAYS := 90
  const ROLLUP_DAYS := 365

  /** The columns that a daily row is grouped by; `day` counts days. */
  datatype Key = Key(day: int, model: string, instance: string, token: string, integration: string,
                     session: string, generation: nat, protocol: string)

  /** A row of panel_requests. The counts come as a pair or not at all. */
  datatype Row = Row(id: string, day: int, model: string, instance: string, token: string, integration: string,
                     session: Option<string>, generation: nat, protocol: string,
                     finished: bool, counts: Option<(nat, nat)>, outcome: string, error: bool,
                     duration: Option<nat>, ttft: Option<nat>)
  {
    /** A missing session and the empty one fall into the same daily row. */
    function GroupedBy(): Key {
      Key(day, model, instance, token, integration,
          if session.Some? then session.value else "", generation, protocol)
    }

    /** What `begin` inserts and only `record` and the restart change. */
    predicate Open() {
      !finished && counts.None? && outcome == "pending" && !error && duration.None? && ttft.None?
    }
  }

  /** The counters of a row of panel_usage_daily. */
  datatype Column =
    | Requests | Input | Output | Unknown | Pending | Failed | Errors | LongInput | LongOutput
    | Duration | DurationSamples | Ttft | TtftSamples

  datatype Usage = Usage(requests: int, input: int, output: int, unknown: int, pending: int, failed: int,
                         errors: int, longInput: int, longOutput: int,
                         duration: int, durationSamples: int, ttft: int, ttftSamples: int)
  {
    function At(c: Column): int {
      match c
      case Requests => requests
      case Input => input
      case Output => output
      case Unknown => unknown
      case Pending => pending
      case Failed => failed
      case Errors => errors
      case LongInput => longInput
      case LongOutput => longOutput
      case Duration => duration
      case DurationSamples => durationSamples
      case Ttft => ttft
      case TtftSamples => ttftSamples
    }
  }

  function Bit(b: bool): nat {
    if b then 1 else 0
  }

  function OrZero(n: Option<nat>): nat {
    if n.Some? then n.value else 0
  }

  function InputOf(counts: Option<(nat, nat)>): nat {
    if counts.Some? then counts.value.0 else 0
  }

  function OutputOf(counts: Option<(nat, nat)>): nat {
    if counts.Some? then counts.value.1 else 0
  }

  /** One request, as every counter should see it. */
  function Share(r: Row, c: Column): int {
    match c
    case Requests => 1
    case Input => InputOf(r.counts)
    case Output => OutputOf(r.counts)
    case Unknown => Bit(r.counts.None?)
    case Pending => Bit(!r.finished)
    case Failed => Bit(r.finished && r.outcome != "succeeded")
    case Errors => Bit(r.error)
    case LongInput => if InputOf(r.counts) > LONG_CONTEXT then InputOf(r.counts) else 0
    case LongOutput => if InputOf(r.counts) > LONG_CONTEXT then OutputOf(r.counts) else 0
    case Duration => OrZero(r.duration)
    case DurationSamples => Bit(r.duration.Some?)
    case Ttft => OrZero(r.ttft)
    case TtftSamples => Bit(r.ttft.Some?)
  }

  // ---- Sums over requests ----

  function Sum(rows: seq<Row>, f: Row -> int): int {
    if rows == [] then 0 else Sum(rows[..|rows| - 1], f) + f(rows[|rows| - 1])
  }

  lemma {:induction false} SumJoins(a: seq<Row>, b: seq<Row>, f: Row -> int)
    ensures Sum(a + b, f) == Sum(a, f) + Sum(b, f)
  {
    if b == [] {
      assert a + b == a;
    } else {
      SumJoins(a, b[..|b| - 1], f);
      assert (a + b)[..|a + b| - 1] == a + b[..|b| - 1];
    }
  }

  lemma SumReplaced(rows: seq<Row>, i: nat, r: Row, f: Row -> int)
    requires i < |rows|
    ensures Sum(rows[i := r], f) == Sum(rows, f) - f(rows[i]) + f(r)
  {
    var a, b := rows[..i], rows[i + 1..];
    assert rows == a + [rows[i]] + b && rows[i := r] == a + [r] + b;
    SumJoins(a + [rows[i]], b, f);
    SumJoins(a + [r], b, f);
    assert (a + [rows[i]])[..i] == a && (a + [r])[..i] == a;
  }

  lemma {:induction false} SumAgrees(rows: seq<Row>, f: Row -> int, g: Row -> int)
    requires forall r | r in rows :: f(r) == g(r)
    ensures Sum(rows, f) == Sum(rows, g)
  {
    if rows != [] {
      assert rows[|rows| - 1] in rows;
      assert forall r | r in rows[..|rows| - 1] :: r in rows;
      SumAgrees(rows[..|rows| - 1], f, g);
    }
  }

  lemma {:induction false} SumVanishes(rows: seq<Row>, f: Row -> int)
    requires forall r | r in rows :: f(r) == 0
    ensures Sum(rows, f) == 0
  {
    if rows != [] {
      assert rows[|rows| - 1] in rows;
      assert forall r | r in rows[..|rows| - 1] :: r in rows;
      SumVanishes(rows[..|rows| - 1], f);
    }
  }

  lemma {:induction false} SumGrows(rows: seq<Row>, f: Row -> int, g: Row -> int)
    requires forall r | r in rows :: f(r) <= g(r)
    ensures Sum(rows, f) <= Sum(rows, g)
    ensures (exists r | r in rows :: f(r) < g(r)) ==> Sum(rows, f) < Sum(rows, g)
  {
    if rows != [] {
      var rest, last := rows[..|rows| - 1], rows[|rows| - 1];
      assert last in rows;
      assert forall r | r in rest :: r in rows;
      SumGrows(rest, f, g);
      assert forall r | r in rows :: r in rest || r == last;
    }
  }

  lemma {:induction false} SumAdds(rows: seq<Row>, f: Row -> int, g: Row -> int, h: Row -> int)
    requires forall r | r in rows :: f(r) + g(r) <= h(r)
    ensures Sum(rows, f) + Sum(rows, g) <= Sum(rows, h)
    ensures (forall r | r in rows :: f(r) + g(r) == h(r)) ==> Sum(rows, f) + Sum(rows, g) == Sum(rows, h)
  {
    if rows != [] {
      assert rows[|rows| - 1] in rows;
      assert forall r | r in rows[..|rows| - 1] :: r in rows;
      SumAdds(rows[..|rows| - 1], f, g, h);
    }
  }

  /** The share of a request in the given groups. */
  function Weight(keys: set<Key>, c: Column): Row -> int {
    (r: Row) => if r.GroupedBy() in keys then Share(r, c) else 0
  }

  /** Recomputation from the requests themselves. */
  function Recomputed(rows: seq<Row>, keys: set<Key>, c: Column): int {
    Sum(rows, Weight(keys, c))
  }

  // ---- The database ----

  predicate DistinctIds(rows: seq<Row>) {
    forall i, j | 0 <= i < j < |rows| :: rows[i].id != rows[j].id
  }

  /** Every daily row is exactly what recomputation gives, and there is one for every group
      that has a request, kept or already expired. */
  ghost predicate Balanced(daily: map<Key, Usage>, rows: seq<Row>) {
    (forall r | r in rows :: r.GroupedBy() in daily) && (forall k | k in daily :: daily[k].requests > 0) &&
    (forall k, c: Column | k in daily :: daily[k].At(c) == Recomputed(rows, {k}, c))
  }

  predicate Tidy(rows: seq<Row>) {
    forall r | r in rows :: !r.finished ==> r.Open()
  }

  function Closed(r: Row): Row {
    if r.finished then r else r.(finished := true, outcome := "interrupted", error := true)
  }

  function AllClosed(rows: seq<Row>): (s: seq<Row>)
    ensures |s| == |rows| && forall i | 0 <= i < |rows| :: s[i] == Closed(rows[i])
  {
    seq(|rows|, i requires 0 <= i < |rows| => Closed(rows[i]))
  }

  function Interrupted(u: Usage): Usage {
    u.(failed := u.failed + u.pending, errors := u.errors + u.pending, pending := 0)
  }

  lemma ClosedShare(r: Row, c: Column)
    requires !r.finished ==> r.Open()
    ensures Share(Closed(r), c) ==
            if c == Pending then 0
            else if c == Failed || c == Errors then Share(r, c) + Share(r, Pending)
            else Share(r, c)
  {
    match c
    case Requests => case Input => case Output => case Unknown => case Pending => case Failed => case Errors =>
    case LongInput => case LongOutput => case Duration => case DurationSamples => case Ttft => case TtftSamples =>
  }

  lemma {:induction false} SumClosed(rows: seq<Row>, f: Row -> int, g: Row -> int)
    requires forall r | r in rows :: f(Closed(r)) == g(r)
    ensures Sum(AllClosed(rows), f) == Sum(rows, g)
  {
    if rows != [] {
      var rest := rows[..|rows| - 1];
      assert rows[|rows| - 1] in rows;
      assert forall r | r in rest :: r in rows;
      assert AllClosed(rows)[..|rows| - 1] == AllClosed(rest);
      SumClosed(rest, f, g);
    }
  }

  /** Closing every open request does to recomputation what the restart does to the rollup. */
  lemma RecomputedInterrupted(rows: seq<Row>, keys: set<Key>, c: Column)
    requires Tidy(rows)
    ensures Recomputed(AllClosed(rows), keys, c) ==
            if c == Pending then 0
            else if c == Failed || c == Errors then Recomputed(rows, keys, c) + Recomputed(rows, keys, Pending)
            else Recomputed(rows, keys, c)
  {
    forall r | r in rows
      ensures Closed(r).GroupedBy() == r.GroupedBy()
      ensures Weight(keys, c)(Closed(r)) ==
              if c == Pending then 0
              else if c == Failed || c == Errors then Weight(keys, c)(r) + Weight(keys, Pending)(r)
              else Weight(keys, c)(r)
    {
      ClosedShare(r, c);
    }
    if c == Pending {
      SumClosed(rows, Weight(keys, c), (r: Row) => 0);
      SumVanishes(rows, (r: Row) => 0);
    } else if c == Failed || c == Errors {
      var both := (r: Row) => Weight(keys, c)(r) + Weight(keys, Pending)(r);
      SumClosed(rows, Weight(keys, c), both);
      SumAdds(rows, Weight(keys, c), Weight(keys, Pending), both);
    } else {
      SumClosed(rows, Weight(keys, c), Weight(keys, c));
    }
  }

  function Since(rows: seq<Row>, day: int): (s: seq<Row>)
    ensures forall r :: r in s <==> r in rows && r.day >= day
  {
    if rows == [] then []
    else
      var last := rows[|rows| - 1];
      Since(rows[..|rows| - 1], day) + if last.day >= day then [last] else []
  }

  lemma {:induction false} SinceKeepsIds(rows: seq<Row>, day: int)
    requires DistinctIds(rows)
    ensures DistinctIds(Since(rows, day))
  {
    if rows != [] {
      var rest, last := rows[..|rows| - 1], rows[|rows| - 1];
      SinceKeepsIds(rest, day);
      assert forall r | r in Since(rest, day) :: r in rest;
      assert forall r | r in rest :: r.id != last.id;
    }
  }

  function Before(rows: seq<Row>, day: int): (s: seq<Row>)
    ensures forall r :: r in s <==> r in rows && r.day < day
  {
    if rows == [] then []
    else
      var last := rows[|rows| - 1];
      Before(rows[..|rows| - 1], day) + if last.day < day then [last] else []
  }

  /** No request is lost or counted twice by a cut in time. */
  lemma {:induction false} SumCut(rows: seq<Row>, day: int, f: Row -> int)
    ensures Sum(rows, f) == Sum(Before(rows, day), f) + Sum(Since(rows, day), f)
  {
    if rows != [] {
      var rest, last := rows[..|rows| - 1], rows[|rows| - 1];
      SumCut(rest, day, f);
      SumJoins(Before(rest, day), [last], f);
      SumJoins(Since(rest, day), [last], f);
      assert [last][..0] == [];
      assert Since(rest, day) + [] == Since(rest, day) && Before(rest, day) + [] == Before(rest, day);
    }
  }

  // ---- Every statement keeps the rollup balanced ----

  lemma BeginBalances(daily: map<Key, Usage>, rows: seq<Row>, r: Row, u: Usage)
    requires Balanced(daily, rows)
    requires var k := r.GroupedBy(); forall c: Column ::
               u.At(c) == (if k in daily then daily[k].At(c) else 0) + Share(r, c)
    ensures Balanced(daily[r.GroupedBy() := u], rows + [r])
  {
    var g := r.GroupedBy();
    var next := daily[g := u];
    assert u.At(Requests) > 0;
    forall k, c: Column | k in next
      ensures next[k].At(c) == Recomputed(rows + [r], {k}, c)
    {
      SumJoins(rows, [r], Weight({k}, c));
      assert [r][..0] == [];
      if k !in daily {
        SumVanishes(rows, Weight({k}, c));
      }
    }
  }

  /** The upsert of the daily row in `begin`. */
  function Begun(daily: map<Key, Usage>, k: Key): Usage {
    if k in daily then
      daily[k].(requests := daily[k].requests + 1, unknown := daily[k].unknown + 1, pending := daily[k].pending + 1)
    else
      Usage(1, 0, 0, 1, 1, 0, 0, 0, 0, 0, 0, 0, 0)
  }

  lemma BegunMoves(daily: map<Key, Usage>, r: Row)
    requires r.Open()
    ensures forall c: Column ::
              Begun(daily, r.GroupedBy()).At(c) ==
              (if r.GroupedBy() in daily then daily[r.GroupedBy()].At(c) else 0) + Share(r, c)
  {
    forall c: Column
      ensures Begun(daily, r.GroupedBy()).At(c) ==
              (if r.GroupedBy() in daily then daily[r.GroupedBy()].At(c) else 0) + Share(r, c)
    {
      match c
      case Requests => case Input => case Output => case Unknown => case Pending => case Failed => case Errors =>
      case LongInput => case LongOutput => case Duration => case DurationSamples => case Ttft => case TtftSamples =>
    }
  }

  lemma BeginKeeps(rows: seq<Row>, daily: map<Key, Usage>, r: Row)
    requires r.Open() && Tidy(rows) && Balanced(daily, rows)
    ensures Tidy(rows + [r]) && Balanced(daily[r.GroupedBy() := Begun(daily, r.GroupedBy())], rows + [r])
  {
    BegunMoves(daily, r);
    BeginBalances(daily, rows, r, Begun(daily, r.GroupedBy()));
  }

  lemma RecordBalances(daily: map<Key, Usage>, rows: seq<Row>, i: nat, r: Row, u: Usage)
    requires Balanced(daily, rows) && i < |rows| && r.GroupedBy() == rows[i].GroupedBy()
    requires var k := r.GroupedBy();
             k in daily && forall c: Column :: u.At(c) == daily[k].At(c) - Share(rows[i], c) + Share(r, c)
    ensures Balanced(daily[r.GroupedBy() := u], rows[i := r])
  {
    var next := daily[r.GroupedBy() := u];
    assert u.At(Requests) == daily[r.GroupedBy()].At(Requests);
    forall k, c: Column | k in next
      ensures next[k].At(c) == Recomputed(rows[i := r], {k}, c)
    {
      SumReplaced(rows, i, r, Weight({k}, c));
    }
    assert forall q | q in rows[i := r] :: q == r || q in rows;
  }

  /** The update of the daily row in `record`. */
  function Recorded(u: Usage, r: Row): Usage {
    var input, output := InputOf(r.counts), OutputOf(r.counts);
    var long := input > LONG_CONTEXT;
    Usage(u.requests, u.input + input, u.output + output, u.unknown - Bit(r.counts.Some?), u.pending - 1,
          u.failed + Bit(r.outcome != "succeeded"), u.errors + Bit(r.error),
          u.longInput + (if long then input else 0), u.longOutput + (if long then output else 0),
          u.duration + OrZero(r.duration), u.durationSamples + Bit(r.duration.Some?),
          u.ttft + OrZero(r.ttft), u.ttftSamples + Bit(r.ttft.Some?))
  }

  lemma RecordedMoves(u: Usage, open: Row, r: Row)
    requires open.Open() && r.finished
    ensures forall c: Column :: Recorded(u, r).At(c) == u.At(c) - Share(open, c) + Share(r, c)
  {
    forall c: Column
      ensures Recorded(u, r).At(c) == u.At(c) - Share(open, c) + Share(r, c)
    {
      match c
      case Requests => case Input => case Output => case Unknown => case Pending => case Failed => case Errors =>
      case LongInput => case LongOutput => case Duration => case DurationSamples => case Ttft => case TtftSamples =>
    }
  }

  lemma RecordKeeps(rows: seq<Row>, daily: map<Key, Usage>, i: nat, r: Row)
    requires i < |rows| && rows[i].Open() && r.finished && r.GroupedBy() == rows[i].GroupedBy()
    requires Tidy(rows) && Balanced(daily, rows) && r.GroupedBy() in daily
    ensures Tidy(rows[i := r])
    ensures Balanced(daily[r.GroupedBy() := Recorded(daily[r.GroupedBy()], r)], rows[i := r])
  {
    var k := r.GroupedBy();
    assert forall q | q in rows[i := r] :: q == r || q in rows;
    RecordedMoves(daily[k], rows[i], r);
    RecordBalances(daily, rows, i, r, Recorded(daily[k], r));
  }

  lemma InterruptBalances(daily: map<Key, Usage>, rows: seq<Row>)
    requires Balanced(daily, rows) && Tidy(rows)
    ensures Balanced(map k | k in daily :: Interrupted(daily[k]), AllClosed(rows))
  {
    forall k, c: Column | k in daily
      ensures Interrupted(daily[k]).At(c) == Recomputed(AllClosed(rows), {k}, c)
    {
      RecomputedInterrupted(rows, {k}, c);
      assert daily[k].At(Pending) == Recomputed(rows, {k}, Pending);
    }
    forall r | r in AllClosed(rows)
      ensures r.GroupedBy() in daily
    {
      var i :| 0 <= i < |rows| && r == Closed(rows[i]);
      assert rows[i] in rows;
    }
  }

  lemma CleanupBalances(daily: map<Key, Usage>, rows: seq<Row>, today: int)
    requires Balanced(daily, rows)
    ensures Balanced(map k | k in daily && k.day >= today - ROLLUP_DAYS :: daily[k], Since(rows, today - ROLLUP_DAYS))
  {
    forall k, c: Column | k in daily && k.day >= today - ROLLUP_DAYS
      ensures daily[k].At(c) == Recomputed(Since(rows, today - ROLLUP_DAYS), {k}, c)
    {
      SumCut(rows, today - ROLLUP_DAYS, Weight({k}, c));
      SumVanishes(Before(rows, today - ROLLUP_DAYS), Weight({k}, c));
    }
  }

  // ---- The history of requests ----

  /** A request since it was begun; `kept` while its row is in panel_requests. It is forgotten
      only when the daily row that counts it expires. */
  datatype Entry = Entry(row: Row, kept: bool)

  function Rows(h: seq<Entry>): (rows: seq<Row>)
    ensures |rows| == |h| && forall i | 0 <= i < |h| :: rows[i] == h[i].row
  {
    seq(|h|, i requires 0 <= i < |h| => h[i].row)
  }

  function KeptRows(h: seq<Entry>): seq<Row> {
    if h == [] then []
    else
      var last := h[|h| - 1];
      KeptRows(h[..|h| - 1]) + if last.kept then [last.row] else []
  }

  lemma {:induction false} KeptRowsAre(h: seq<Entry>, r: Row)
    ensures r in KeptRows(h) <==> Entry(r, true) in h
  {
    if h != [] {
      KeptRowsAre(h[..|h| - 1], r);
      assert h == h[..|h| - 1] + [h[|h| - 1]];
    }
  }

  /** What happens to the database. */
  datatype Statement =
    | Beginning(row: Row)
    | Recording(id: string, counts: Option<(nat, nat)>, outcome: string, incomplete: bool,
                duration: Option<nat>, ttft: Option<nat>)
    | Restart
    | Expiry(today: int)

  predicate Hits(e: Entry, id: string) {
    e.kept && e.row.id == id && !e.row.finished
  }

  function Each(h: seq<Entry>, f: Entry -> Entry): (g: seq<Entry>)
    ensures |g| == |h| && forall i | 0 <= i < |h| :: g[i] == f(h[i])
  {
    seq(|h|, i requires 0 <= i < |h| => f(h[i]))
  }

  function Expired(h: seq<Entry>, today: int): seq<Entry> {
    if h == [] then []
    else
      var last := h[|h| - 1];
      Expired(h[..|h| - 1], today) +
      if last.row.day < today - ROLLUP_DAYS then []
      else [Survivor(last, today)]
  }

  /** The history that one statement leaves: a request is begun once, settled once, closed by
      a restart and forgotten with its daily row. No table is mentioned. */
  function Next(h: seq<Entry>, s: Statement): seq<Entry> {
    match s
    case Beginning(row) => if exists e | e in h :: e.kept && e.row.id == row.id then h else h + [Entry(row, true)]
    case Recording(id, counts, outcome, incomplete, duration, ttft) =>
      Each(h, (e: Entry) =>
             if Hits(e, id) then Entry(Settled(e.row, counts, outcome, incomplete, duration, ttft), true) else e)
    case Restart => Each(h, (e: Entry) => Entry(Closed(e.row), e.kept))
    case Expiry(today) => Expired(h, today)
  }

  function HistoryOf(h: seq<Entry>, statements: seq<Statement>): seq<Entry> {
    if statements == [] then h
    else Next(HistoryOf(h, statements[..|statements| - 1]), statements[|statements| - 1])
  }

  lemma KeptRowsGrow(h: seq<Entry>, e: Entry)
    ensures KeptRows(h + [e]) == KeptRows(h) + if e.kept then [e.row] else []
    ensures Rows(h + [e]) == Rows(h) + [e.row]
  {
    assert (h + [e])[..|h|] == h;
  }

  /** Where the `i`-th kept request is in the history. */
  lemma {:induction false} KeptAt(h: seq<Entry>, i: nat, r: Row) returns (n: nat)
    requires i < |KeptRows(h)|
    ensures n < |h| && h[n] == Entry(KeptRows(h)[i], true)
    ensures KeptRows(h[n := Entry(r, true)]) == KeptRows(h)[i := r]
  {
    var rest, last := h[..|h| - 1], h[|h| - 1];
    var e, kept := Entry(r, true), KeptRows(rest);
    if i == |kept| {
      n := |h| - 1;
      KeptRowsGrow(rest, e);
      assert h[n := e] == rest + [e];
      assert (kept + [last.row])[i := r] == kept + [r];
    } else {
      n := KeptAt(rest, i, r);
      var more := if last.kept then [last.row] else [];
      KeptRowsGrow(rest[n := e], last);
      assert h[n := e] == rest[n := e] + [last];
      assert (kept + more)[i := r] == kept[i := r] + more;
    }
  }

  lemma {:induction false} KeptIdsDiffer(h: seq<Entry>, n: nat, m: nat)
    requires DistinctIds(KeptRows(h)) && n < m < |h| && h[n].kept && h[m].kept
    ensures h[n].row.id != h[m].row.id
  {
    var rest, last := h[..|h| - 1], h[|h| - 1];
    assert forall i | 0 <= i < |KeptRows(rest)| :: KeptRows(h)[i] == KeptRows(rest)[i];
    if m == |h| - 1 {
      assert rest[n] == Entry(h[n].row, true) && Entry(h[n].row, true) in rest;
      KeptRowsAre(rest, h[n].row);
      var j :| 0 <= j < |KeptRows(rest)| && KeptRows(rest)[j] == h[n].row;
      assert KeptRows(h)[j] == h[n].row && KeptRows(h)[|KeptRows(rest)|] == last.row;
    } else {
      KeptIdsDiffer(rest, n, m);
    }
  }

  lemma {:induction false} RestartKeeps(h: seq<Entry>)
    ensures Rows(Next(h, Restart)) == AllClosed(Rows(h))
    ensures KeptRows(Next(h, Restart)) == AllClosed(KeptRows(h))
  {
    if h != [] {
      var rest, last := h[..|h| - 1], h[|h| - 1];
      RestartKeeps(rest);
      assert Next(h, Restart) == Next(rest, Restart) + [Entry(Closed(last.row), last.kept)];
      KeptRowsGrow(Next(rest, Restart), Entry(Closed(last.row), last.kept));
      assert AllClosed(KeptRows(rest) + [last.row]) == AllClosed(KeptRows(rest)) + [Closed(last.row)];
    }
  }

  lemma {:induction false} ExpiryKeeps(h: seq<Entry>, today: int)
    ensures Rows(Expired(h, today)) == Since(Rows(h), today - ROLLUP_DAYS)
    ensures KeptRows(Expired(h, today)) == Since(KeptRows(h), today - REQUEST_DAYS)
  {
    if h != [] {
      var rest, last := h[..|h| - 1], h[|h| - 1];
      assert h == rest + [last];
      ExpiryKeeps(rest, today);
      ExpiredGrows(rest, last, today);
      ExpiredRows(rest, last, today);
      ExpiredKeptRows(rest, last, today);
    }
  }

  function Survivor(e: Entry, today: int): Entry {
    Entry(e.row, e.kept && e.row.day >= today - REQUEST_DAYS)
  }

  lemma ExpiredGrows(rest: seq<Entry>, last: Entry, today: int)
    ensures Expired(rest + [last], today) ==
            if last.row.day < today - ROLLUP_DAYS then Expired(rest, today)
            else Expired(rest, today) + [Survivor(last, today)]
  {
    assert (rest + [last])[..|rest|] == rest;
  }

  lemma ExpiredRows(rest: seq<Entry>, last: Entry, today: int)
    requires Rows(Expired(rest, today)) == Since(Rows(rest), today - ROLLUP_DAYS)
    ensures Rows(Expired(rest + [last], today)) == Since(Rows(rest + [last]), today - ROLLUP_DAYS)
  {
    ExpiredGrows(rest, last, today);
    KeptRowsGrow(rest, last);
    KeptRowsGrow(Expired(rest, today), Survivor(last, today));
    SinceGrows(Rows(rest), last.row, today - ROLLUP_DAYS);
  }

  lemma ExpiredKeptRows(rest: seq<Entry>, last: Entry, today: int)
    requires KeptRows(Expired(rest, today)) == Since(KeptRows(rest), today - REQUEST_DAYS)
    ensures KeptRows(Expired(rest + [last], today)) == Since(KeptRows(rest + [last]), today - REQUEST_DAYS)
  {
    ExpiredGrows(rest, last, today);
    KeptRowsGrow(rest, last);
    KeptRowsGrow(Expired(rest, today), Survivor(last, today));
    SinceGrows(KeptRows(rest), last.row, today - REQUEST_DAYS);
    var was, now := KeptRows(rest), KeptRows(Expired(rest, today));
    assert was + [] == was && now + [] == now;
  }

  lemma SinceGrows(rows: seq<Row>, r: Row, day: int)
    ensures Since(rows + [r], day) == Since(rows, day) + if r.day >= day then [r] else []
  {
    assert (rows + [r])[..|rows|] == rows;
  }

  /** A request begins unless its id is taken. */
  lemma BeginningKeeps(h: seq<Entry>, r: Row)
    ensures var taken := exists q | q in KeptRows(h) :: q.id == r.id;
            Next(h, Beginning(r)) == (if taken then h else h + [Entry(r, true)]) &&
            KeptRows(Next(h, Beginning(r))) == (if taken then KeptRows(h) else KeptRows(h) + [r]) &&
            Rows(Next(h, Beginning(r))) == (if taken then Rows(h) else Rows(h) + [r])
  {
    if q :| q in KeptRows(h) && q.id == r.id {
      KeptRowsAre(h, q);
      assert Entry(q, true) in h;
    }
    forall e | e in h && e.kept
      ensures e.row in KeptRows(h)
    {
      KeptRowsAre(h, e.row);
      assert e == Entry(e.row, true);
    }
    KeptRowsGrow(h, Entry(r, true));
  }

  /** Settling the request that a recording hits. */
  lemma RecordingKeeps(h: seq<Entry>, i: nat, s: Statement, r: Row) returns (n: nat)
    requires DistinctIds(KeptRows(h)) && i < |KeptRows(h)| && s.Recording?
    requires KeptRows(h)[i].id == s.id && !KeptRows(h)[i].finished
    requires r == Settled(KeptRows(h)[i], s.counts, s.outcome, s.incomplete, s.duration, s.ttft)
    ensures n < |h| && h[n].row == KeptRows(h)[i]
    ensures KeptRows(Next(h, s)) == KeptRows(h)[i := r] && Rows(Next(h, s)) == Rows(h)[n := r]
  {
    n := KeptAt(h, i, r);
    forall m | 0 <= m < |h| && m != n
      ensures !Hits(h[m], s.id)
    {
      if h[m].kept {
        KeptIdsDiffer(h, if m < n then m else n, if m < n then n else m);
      }
    }
    assert Next(h, s) == h[n := Entry(r, true)];
  }

  /** A recording that hits nothing. */
  lemma RecordingMisses(h: seq<Entry>, s: Statement)
    requires s.Recording? && forall r | r in KeptRows(h) :: r.id != s.id || r.finished
    ensures Next(h, s) == h
  {
    forall m | 0 <= m < |h|
      ensures !Hits(h[m], s.id)
    {
      KeptRowsAre(h, h[m].row);
      assert h[m].kept ==> Entry(h[m].row, true) in h;
    }
    assert Next(h, s) == h;
  }

  // ---- The database ----

  /** The tables hold what a history of requests leaves in them. */
  ghost predicate Sound(h: seq<Entry>, kept: seq<Row>, daily: map<Key, Usage>) {
    kept == KeptRows(h) && DistinctIds(kept) && Tidy(Rows(h)) && Balanced(daily, Rows(h))
  }

  const NOTHING := Usage(0, 0, 0, 0, 0, 0, 0, 0, 0, 0, 0, 0, 0)

  /** One more request, of which nothing is known yet. */
  predicate Opening(u: Usage, v: Usage) {
    v == u.(requests := u.requests + 1, unknown := u.unknown + 1, pending := u.pending + 1)
  }

  /** Whatever was pending has failed, with an accounting error. */
  predicate Closing(u: Usage, v: Usage) {
    v == u.(pending := 0, failed := u.failed + u.pending, errors := u.errors + u.pending)
  }

  /** A request got its answer: the outcome as given, times cut at what the column holds, and
      nothing else about it changed. */
  predicate Answered(was: Row, now: Row, counts: Option<(nat, nat)>, outcome: string, incomplete: bool,
                     duration: Option<nat>, ttft: Option<nat>)
  {
    now.finished && now.counts == counts && now.outcome == outcome && now.error == incomplete &&
    now.duration.Some? == duration.Some? && now.ttft.Some? == ttft.Some? &&
    (duration.Some? ==> now.duration.value == Cut(duration.value)) &&
    (ttft.Some? ==> now.ttft.value == Cut(ttft.value)) &&
    now.id == was.id && now.day == was.day && now.model == was.model && now.instance == was.instance &&
    now.token == was.token && now.integration == was.integration && now.session == was.session &&
    now.generation == was.generation && now.protocol == was.protocol
  }

  function Cut(n: nat): nat {
    if n > 0x7fff_ffff_ffff_ffff then 0x7fff_ffff_ffff_ffff else n
  }

  /** And its daily row moved accordingly. */
  predicate Settling(u: Usage, v: Usage, counts: Option<(nat, nat)>, outcome: string, incomplete: bool,
                     duration: Option<nat>, ttft: Option<nat>)
  {
    v.requests == u.requests && v.pending == u.pending - 1 &&
    v.failed == u.failed + (if outcome == "succeeded" then 0 else 1) &&
    v.errors == u.errors + (if incomplete then 1 else 0) &&
    (counts.None? ==>
       v.unknown == u.unknown && v.input == u.input && v.output == u.output &&
       v.longInput == u.longInput && v.longOutput == u.longOutput) &&
    (counts.Some? ==>
       var long := counts.value.0 > 272000;
       v.unknown == u.unknown - 1 && v.input == u.input + counts.value.0 && v.output == u.output + counts.value.1 &&
       v.longInput == u.longInput + (if long then counts.value.0 else 0) &&
       v.longOutput == u.longOutput + (if long then counts.value.1 else 0)) &&
    v.durationSamples == u.durationSamples + (if duration.Some? then 1 else 0) &&
    v.duration == u.duration + (if duration.Some? then Cut(duration.value) else 0) &&
    v.ttftSamples == u.ttftSamples + (if ttft.Some? then 1 else 0) &&
    v.ttft == u.ttft + (if ttft.Some? then Cut(ttft.value) else 0)
  }

  /** `history` is every request that a daily row may still count. */
  class Panel {
    var requests: seq<Row>
    var daily: map<Key, Usage>
    ghost var history: seq<Entry>

    ghost predicate Valid()
      reads this
    {
      Sound(history, requests, daily)
    }

    constructor ()
      ensures Valid() && requests == [] && history == []
    {
      requests, daily, history := [], map[], [];
    }

    function Find(id: string): (i: Option<nat>)
      reads this
      ensures i.None? <==> forall r | r in requests :: r.id != id || r.finished
      ensures i.Some? ==> i.value < |requests| && requests[i.value].id == id && !requests[i.value].finished
    {
      FindFrom(requests, id, 0)
    }

    /** `begin`, inside the transaction of its caller: both tables or neither. */
    method Begin(r: Row) returns (done: bool)
      requires Valid() && r.Open()
      modifies this
      ensures Valid() && history == Next(old(history), Beginning(r))
      ensures done <==> forall q | q in old(requests) :: q.id != r.id
      ensures requests == if done then old(requests) + [r] else old(requests)
      ensures !done ==> daily == old(daily)
      ensures done ==>
                var k := Key(r.day, r.model, r.instance, r.token, r.integration,
                             if r.session.Some? then r.session.value else "", r.generation, r.protocol);
                k in daily && daily == old(daily)[k := daily[k]] &&
                Opening(if k in old(daily) then old(daily)[k] else NOTHING, daily[k])
    {
      BeginningKeeps(history, r);
      if exists q | q in requests :: q.id == r.id {
        return false;
      }
      var k := r.GroupedBy();
      BegunIsSound(history, requests, daily, r);
      requests := requests + [r];
      history := Next(history, Beginning(r));
      daily := daily[k := Begun(daily, k)];
      return true;
    }

    /** `record`: the first call for an open request settles it; others change nothing. */
    method Record(id: string, counts: Option<(nat, nat)>, outcome: string, incomplete: bool,
                  duration: Option<nat>, ttft: Option<nat>)
      requires Valid()
      modifies this
      ensures Valid() && history == Next(old(history), Recording(id, counts, outcome, incomplete, duration, ttft))
      ensures old(Find(id)).None? ==> requests == old(requests) && daily == old(daily) && history == old(history)
      ensures old(Find(id)).Some? ==>
                var i := old(Find(id)).value;
                |requests| == |old(requests)| && requests == old(requests)[i := requests[i]] &&
                Answered(old(requests)[i], requests[i], counts, outcome, incomplete, duration, ttft)
      ensures old(Find(id)).Some? ==>
                var r := old(requests[Find(id).value]);
                var k := Key(r.day, r.model, r.instance, r.token, r.integration,
                             if r.session.Some? then r.session.value else "", r.generation, r.protocol);
                k in old(daily) && k in daily && daily == old(daily)[k := daily[k]] &&
                Settling(old(daily)[k], daily[k], counts, outcome, incomplete, duration, ttft)
    {
      ghost var s := Recording(id, counts, outcome, incomplete, duration, ttft);
      var found := Find(id);
      if found.None? {
        RecordingMisses(history, s);
        return;
      }
      var i := found.value;
      var r := Settled(requests[i], counts, outcome, incomplete, duration, ttft);
      var k := r.GroupedBy();
      RecordedIsSound(history, requests, daily, i, s, r);
      SettledIsAnswered(requests[i], daily[k], counts, outcome, incomplete, duration, ttft);
      daily := daily[k := Recorded(daily[k], r)];
      requests := requests[i := r];
      history := Next(history, s);
    }

    /** `interrupt_pending`, at every start. */
    method InterruptPending()
      requires Valid()
      modifies this
      ensures Valid() && daily.Keys == old(daily.Keys)
      ensures requests == AllClosed(old(requests)) && history == Next(old(history), Restart)
      ensures |requests| == |old(requests)| && forall i | 0 <= i < |requests| ::
                requests[i] == if old(requests)[i].finished then old(requests)[i]
                else old(requests)[i].(finished := true, outcome := "interrupted", error := true)
      ensures forall k | k in daily :: Closing(old(daily)[k], daily[k])
    {
      InterruptedIsSound(history, requests, daily);
      daily := map k | k in daily :: Interrupted(daily[k]);
      requests := AllClosed(requests);
      history := Next(history, Restart);
    }

    /** `cleanup` on a given day: requests go long before the daily rows that count them. */
    method Cleanup(today: int)
      requires Valid()
      modifies this
      ensures Valid() && history == Next(old(history), Expiry(today))
      ensures requests == Since(old(requests), today - REQUEST_DAYS)
      ensures forall r :: r in requests <==> r in old(requests) && r.day >= today - 90
      ensures daily == map k | k in old(daily) && k.day >= today - 365 :: old(daily)[k]
    {
      ExpiredIsSound(history, requests, daily, today);
      requests := Since(requests, today - REQUEST_DAYS);
      daily := map k | k in daily && k.day >= today - ROLLUP_DAYS :: daily[k];
      history := Expired(history, today);
    }
  }

  lemma BegunIsSound(h: seq<Entry>, kept: seq<Row>, daily: map<Key, Usage>, r: Row)
    requires Sound(h, kept, daily) && r.Open() && forall q | q in kept :: q.id != r.id
    ensures Sound(Next(h, Beginning(r)), kept + [r], daily[r.GroupedBy() := Begun(daily, r.GroupedBy())])
  {
    BeginningKeeps(h, r);
    BeginKeeps(Rows(h), daily, r);
    var next := kept + [r];
    forall i, j | 0 <= i < j < |next|
      ensures next[i].id != next[j].id
    {
      assert next[i] in kept;
    }
  }

  lemma RecordedIsSound(h: seq<Entry>, kept: seq<Row>, daily: map<Key, Usage>, i: nat, s: Statement, r: Row)
    requires Sound(h, kept, daily) && i < |kept| && s.Recording? && kept[i].id == s.id && !kept[i].finished
    requires r == Settled(kept[i], s.counts, s.outcome, s.incomplete, s.duration, s.ttft)
    ensures var k := r.GroupedBy();
            k in daily && Sound(Next(h, s), kept[i := r], daily[k := Recorded(daily[k], r)])
  {
    var n := RecordingKeeps(h, i, s, r);
    assert Rows(h)[n] in Rows(h);
    RecordKeeps(Rows(h), daily, n, r);
    assert forall j, l | 0 <= j < l < |kept| :: kept[i := r][j].id == kept[j].id && kept[i := r][l].id == kept[l].id;
  }

  lemma InterruptedIsSound(h: seq<Entry>, kept: seq<Row>, daily: map<Key, Usage>)
    requires Sound(h, kept, daily)
    ensures Sound(Next(h, Restart), AllClosed(kept), map k | k in daily :: Interrupted(daily[k]))
  {
    RestartKeeps(h);
    InterruptBalances(daily, Rows(h));
  }

  lemma ExpiredIsSound(h: seq<Entry>, kept: seq<Row>, daily: map<Key, Usage>, today: int)
    requires Sound(h, kept, daily)
    ensures Sound(Expired(h, today), Since(kept, today - REQUEST_DAYS),
                  map k | k in daily && k.day >= today - ROLLUP_DAYS :: daily[k])
  {
    ExpiryKeeps(h, today);
    SinceKeepsIds(kept, today - REQUEST_DAYS);
    CleanupBalances(daily, Rows(h), today);
  }

  function FindFrom(rows: seq<Row>, id: string, from: nat): (i: Option<nat>)
    requires from <= |rows|
    ensures i.None? <==> forall r | r in rows[from..] :: r.id != id || r.finished
    ensures i.Some? ==> from <= i.value < |rows| && rows[i.value].id == id && !rows[i.value].finished
    decreases |rows| - from
  {
    if from == |rows| then None
    else if rows[from].id == id && !rows[from].finished then Some(from)
    else assert rows[from..] == [rows[from]] + rows[from + 1..]; FindFrom(rows, id, from + 1)
  }

  /** The row as `record` leaves it; durations are clamped to what the column holds. */
  function Settled(r: Row, counts: Option<(nat, nat)>, outcome: string, incomplete: bool,
                   duration: Option<nat>, ttft: Option<nat>): Row
  {
    r.(finished := true, counts := counts, outcome := outcome, error := incomplete,
    duration := Clamped(duration), ttft := Clamped(ttft))
  }

  function Clamped(n: Option<nat>): Option<nat> {
    if n.Some? && n.value > I64_MAX then Some(I64_MAX) else n
  }

  /** What `record` writes is what it was told. */
  lemma SettledIsAnswered(r: Row, u: Usage, counts: Option<(nat, nat)>, outcome: string, incomplete: bool,
                          duration: Option<nat>, ttft: Option<nat>)
    ensures var now := Settled(r, counts, outcome, incomplete, duration, ttft);
            Answered(r, now, counts, outcome, incomplete, duration, ttft) &&
            Settling(u, Recorded(u, now), counts, outcome, incomplete, duration, ttft)
  {
  }

  // ---- What a summary may rely on ----

  predicate Sane(u: Usage) {
    0 <= u.pending <= u.unknown <= u.requests && 0 <= u.failed && u.pending + u.failed <= u.requests &&
    0 <= u.errors <= u.requests && 0 <= u.longInput <= u.input && 0 <= u.longOutput <= u.output
  }

  /** The share of a chosen request. */
  function Chosen(keep: Row -> bool, c: Column): Row -> int {
    (r: Row) => if keep(r) then Share(r, c) else 0
  }

  const PARTS: set<(Column, Column)> :=
    {(Pending, Unknown), (Unknown, Requests), (Errors, Requests), (LongInput, Input), (LongOutput, Output)}

  lemma SaneByColumns(u: Usage)
    requires forall c: Column :: 0 <= u.At(c)
    requires forall c: Column, d: Column | (c, d) in PARTS :: u.At(c) <= u.At(d)
    requires u.At(Pending) + u.At(Failed) <= u.At(Requests)
    ensures Sane(u)
  {
    assert u.At(Pending) <= u.At(Unknown) <= u.At(Requests) && 0 <= u.At(Errors) <= u.At(Requests);
    assert 0 <= u.At(LongInput) <= u.At(Input) && 0 <= u.At(LongOutput) <= u.At(Output);
  }

  /** Every sum over any selection of requests keeps its parts within their wholes. */
  lemma SelectionIsSane(rows: seq<Row>, keep: Row -> bool, u: Usage)
    requires Tidy(rows) && forall c: Column :: u.At(c) == Sum(rows, Chosen(keep, c))
    ensures Sane(u)
  {
    forall c: Column
      ensures 0 <= u.At(c)
    {
      SumVanishes(rows, (r: Row) => 0);
      SumGrows(rows, (r: Row) => 0, Chosen(keep, c));
    }
    forall c: Column, d: Column | (c, d) in PARTS
      ensures u.At(c) <= u.At(d)
    {
      SumGrows(rows, Chosen(keep, c), Chosen(keep, d));
    }
    SumAdds(rows, Chosen(keep, Pending), Chosen(keep, Failed), Chosen(keep, Requests));
    SaneByColumns(u);
  }

  /** Every daily row that a run can produce. */
  lemma BalancedIsSane(daily: map<Key, Usage>, rows: seq<Row>, k: Key)
    requires Tidy(rows) && Balanced(daily, rows) && k in daily
    ensures Sane(daily[k])
  {
    var keep := (r: Row) => r.GroupedBy() == k;
    forall c: Column
      ensures daily[k].At(c) == Sum(rows, Chosen(keep, c))
    {
      SumAgrees(rows, Weight({k}, c), Chosen(keep, c));
    }
    SelectionIsSane(rows, keep, daily[k]);
  }

  // ---- Queries ----

  datatype Filter = Filter(start: int, end: int, model: Option<string>, instance: Option<string>,
                           token: Option<string>, integration: Option<string>, session: Option<string>)
  {
    predicate Admits(k: Key) {
      start <= k.day < end &&
      (model.None? || model.value == k.model) && (instance.None? || instance.value == k.instance) &&
      (token.None? || token.value == k.token) && (integration.None? || integration.value == k.integration) &&
      (session.None? || session.value == k.session)
    }

    /** The same said of a single request. */
    predicate Covers(r: Row) {
      start <= r.day < end && (model.Some? ==> r.model == model.value) &&
      (instance.Some? ==> r.instance == instance.value) && (token.Some? ==> r.token == token.value) &&
      (integration.Some? ==> r.integration == integration.value) &&
      (session.Some? ==> r.session == session || (r.session.None? && session.value == ""))
    }
  }

  function Plus(a: Usage, b: Usage): (u: Usage)
    ensures forall c: Column :: u.At(c) == a.At(c) + b.At(c)
  {
    Usage(a.requests + b.requests, a.input + b.input, a.output + b.output, a.unknown + b.unknown,
          a.pending + b.pending, a.failed + b.failed, a.errors + b.errors,
          a.longInput + b.longInput, a.longOutput + b.longOutput,
          a.duration + b.duration, a.durationSamples + b.durationSamples,
          a.ttft + b.ttft, a.ttftSamples + b.ttftSamples)
  }

  /** The share of a request in a query. */
  function Admitted(q: Filter, c: Column): Row -> int {
    (r: Row) => if q.Covers(r) then Share(r, c) else 0
  }

  /** Selecting daily rows is selecting requests. */
  lemma AdmitsGroupIff(q: Filter, r: Row)
    ensures q.Admits(r.GroupedBy()) <==> q.Covers(r)
  {
  }

  /** A daily row counts some request. */
  lemma GroupHasRequest(daily: map<Key, Usage>, rows: seq<Row>, k: Key) returns (r: Row)
    requires Balanced(daily, rows) && k in daily
    ensures r in rows && r.GroupedBy() == k
  {
    assert daily[k].At(Requests) == Recomputed(rows, {k}, Requests);
    if forall r | r in rows :: r.GroupedBy() != k {
      SumVanishes(rows, Weight({k}, Requests));
      assert false;
    }
    r :| r in rows && r.GroupedBy() == k;
  }

  /** The totals of a summary: read from the daily rows alone, they are the totals over the
      single requests that the filter admits. */
  method Summarize(daily: map<Key, Usage>, q: Filter, ghost rows: seq<Row>) returns (u: Usage)
    requires Balanced(daily, rows)
    ensures forall c: Column :: u.At(c) == Sum(rows, Admitted(q, c))
    ensures Tidy(rows) ==> Sane(u)
  {
    u := Usage(0, 0, 0, 0, 0, 0, 0, 0, 0, 0, 0, 0, 0);
    var todo := set k | k in daily && q.Admits(k);
    ghost var done: set<Key> := {};
    forall c: Column
      ensures Recomputed(rows, done, c) == 0
    {
      SumVanishes(rows, Weight(done, c));
    }
    while todo != {}
      invariant done !! todo && done + todo == set k | k in daily && q.Admits(k)
      invariant forall c: Column :: u.At(c) == Recomputed(rows, done, c)
      decreases |todo|
    {
      var k :| k in todo;
      forall c: Column
        ensures Recomputed(rows, done + {k}, c) == Recomputed(rows, done, c) + daily[k].At(c)
      {
        SumAdds(rows, Weight(done, c), Weight({k}, c), Weight(done + {k}, c));
      }
      u := Plus(u, daily[k]);
      done, todo := done + {k}, todo - {k};
    }
    forall c: Column
      ensures u.At(c) == Sum(rows, Admitted(q, c))
    {
      SumAgrees(rows, Weight(done, c), Admitted(q, c));
    }
    if Tidy(rows) {
      SummaryIsSane(rows, q, u);
    }
  }

  /** Every summary, however many daily rows it adds up. */
  lemma SummaryIsSane(rows: seq<Row>, q: Filter, u: Usage)
    requires Tidy(rows) && forall c: Column :: u.At(c) == Sum(rows, Admitted(q, c))
    ensures Sane(u)
  {
    var keep := (r: Row) => q.Covers(r);
    forall c: Column
      ensures u.At(c) == Sum(rows, Chosen(keep, c))
    {
      SumAgrees(rows, Admitted(q, c), Chosen(keep, c));
    }
    SelectionIsSane(rows, keep, u);
  }


  // ---- First start with older data ----

  /** The columns of the grouping query in `migrate`. */
  function Imported(r: Row, c: Column): int {
    match c
    case Failed => Bit(r.outcome != "succeeded" && r.outcome != "pending")
    case Duration => 0
    case DurationSamples => 0
    case Ttft => 0
    case TtftSamples => 0
    case _ => Share(r, c)
  }

  function ImportedUsage(rows: seq<Row>, k: Key): Usage {
    var total := (c: Column) => Sum(rows, (r: Row) => if r.GroupedBy() == k then Imported(r, c) else 0);
    Usage(total(Requests), total(Input), total(Output), total(Unknown), total(Pending), total(Failed), total(Errors),
          total(LongInput), total(LongOutput), total(Duration), total(DurationSamples), total(Ttft), total(TtftSamples))
  }

  /** Historical requests carry no times; a settled one has an outcome. */
  predicate Historical(r: Row) {
    (!r.finished ==> r.Open()) && (r.finished ==> r.outcome != "pending") && r.duration.None? && r.ttft.None?
  }

  lemma ImportedIsShare(r: Row, c: Column)
    requires Historical(r)
    ensures Imported(r, c) == Share(r, c)
  {
  }

  lemma ImportedIsRecomputed(rows: seq<Row>, k: Key, c: Column)
    requires forall r | r in rows :: Historical(r)
    ensures ImportedUsage(rows, k).At(c) == Recomputed(rows, {k}, c)
  {
    var f := (r: Row) => if r.GroupedBy() == k then Imported(r, c) else 0;
    assert ImportedUsage(rows, k).At(c) == Sum(rows, f);
    forall r | r in rows
      ensures f(r) == Weight({k}, c)(r)
    {
      ImportedIsShare(r, c);
    }
    SumAgrees(rows, f, Weight({k}, c));
  }

  /** Seeding the rollup from history starts it balanced. */
  lemma ImportBalances(rows: seq<Row>)
    requires forall r | r in rows :: Historical(r)
    ensures Tidy(rows)
    ensures Balanced(map k | k in (set r | r in rows :: r.GroupedBy()) :: ImportedUsage(rows, k), rows)
  {
    forall k: Key, c: Column
      ensures ImportedUsage(rows, k).At(c) == Recomputed(rows, {k}, c)
    {
      ImportedIsRecomputed(rows, k, c);
    }
    forall r | r in rows
      ensures ImportedUsage(rows, r.GroupedBy()).requests > 0
    {
      var k := r.GroupedBy();
      SumVanishes(rows, (q: Row) => 0);
      SumGrows(rows, (q: Row) => 0, Weight({k}, Requests));
      assert ImportedUsage(rows, k).At(Requests) == Recomputed(rows, {k}, Requests);
    }
  }

  // ---- Every run ----

  /** Whatever is begun, recorded, repeated, interrupted or expired, in any order: the history
      is that of the statements, and the rollup stays what recomputation from it gives. */
  method Replay(panel: Panel, statements: seq<Statement>)
    requires panel.Valid() && forall s | s in statements :: s.Beginning? ==> s.row.Open()
    modifies panel
    ensures panel.Valid() && panel.history == HistoryOf(old(panel.history), statements)
  {
    for i := 0 to |statements|
      invariant panel.Valid() && panel.history == HistoryOf(old(panel.history), statements[..i])
    {
      assert statements[..i + 1][..i] == statements[..i];
      match statements[i] {
        case Beginning(row) =>
          var begun := panel.Begin(row);
        case Recording(id, counts, outcome, incomplete, duration, ttft) =>
          panel.Record(id, counts, outcome, incomplete, duration, ttft);
        case Restart =>
          panel.InterruptPending();
        case Expiry(today) =>
          panel.Cleanup(today);
      }
    }
    assert statements[..|statements|] == statements;
  }
}
