/** What the recorded usage would have cost elsewhere (analytics.rs, economics.rs). */
module Economics {
  import opened Durable
  import opened Analytics

  /** Prices in millionths of a dollar per million tokens, each an unsigned 64-bit number. */
  datatype Price = Price(input: nat, output: nat, longInput: Option<nat>, longOutput: Option<nat>,
                         threshold: Option<nat>)
  {
    function LongInputRate(): nat {
      if longInput.Some? then longInput.value else input
    }

    function LongOutputRate(): nat {
      if longOutput.Some? then longOutput.value else output
    }

    predicate Fits64() {
      input <= U64_MAX && output <= U64_MAX && LongInputRate() <= U64_MAX && LongOutputRate() <= U64_MAX
    }
  }

  /** The four products of `cost`, in the order in which they are added. */
  function Terms(u: Usage, p: Price): seq<int> {
    [(u.input - u.longInput) * p.input, (u.output - u.longOutput) * p.output,
     u.longInput * p.LongInputRate(), u.longOutput * p.LongOutputRate()]
  }

  function Exact(u: Usage, p: Price): int {
    var t := Terms(u, p);
    t[0] + t[1] + t[2] + t[3]
  }

  /** `cost`, with every conversion and subtraction that can fail. */
  function Cost(u: Usage, p: Price): Option<int> {
    if u.requests < 0 then None
    else if u.requests > 0 && (u.unknown < 0 || u.unknown == u.requests) then None
    else if p.threshold.Some? && p.threshold.value != LONG_CONTEXT then None
    else if u.input < 0 || u.output < 0 || u.longInput < 0 || u.longOutput < 0 then None
    else if u.input < u.longInput || u.output < u.longOutput then None
    else
      var nanos := Exact(u, p) / 1000;
      if nanos > U64_MAX then None else Some(nanos)
  }

  predicate Fits63(u: Usage) {
    u.requests <= I64_MAX && u.input <= I64_MAX && u.output <= I64_MAX
  }

  lemma Scaled(a: int, b: int, m: nat, n: nat)
    requires 0 <= a <= m && 0 <= b <= n
    ensures 0 <= a * b <= m * n
  {
    assert a * b <= m * b;
    assert m * b <= m * n;
  }

  lemma TwoRates(part: int, whole: int, rate: nat, longRate: nat)
    requires 0 <= part <= whole <= I64_MAX && rate <= U64_MAX && longRate <= U64_MAX
    ensures 0 <= (whole - part) * rate && 0 <= part * longRate
    ensures (whole - part) * rate + part * longRate <= I64_MAX * U64_MAX
  {
    Scaled(whole - part, rate, whole - part, U64_MAX);
    Scaled(part, longRate, part, U64_MAX);
    assert (whole - part) * U64_MAX + part * U64_MAX == whole * U64_MAX;
    Scaled(whole, U64_MAX, I64_MAX, U64_MAX);
  }

  /** Of a daily row that a run can produce, nothing in `cost` overflows or underflows: every
      partial sum fits 128 bits. A cost is missing exactly when no usage is known, when the
      tariff breaks at another context length, or when the amount does not fit 64 bits. */
  lemma CostIsDefined(u: Usage, p: Price)
    requires Sane(u) && Fits63(u) && p.Fits64()
    ensures var t := Terms(u, p);
            0 <= t[0] && 0 <= t[1] && 0 <= t[2] && 0 <= t[3] && t[0] + t[1] + t[2] + t[3] <= U128_MAX
    ensures Cost(u, p).None? <==>
            (u.requests > 0 && u.unknown == u.requests) ||
            (p.threshold.Some? && p.threshold.value != LONG_CONTEXT) ||
            Exact(u, p) / 1000 > U64_MAX
  {
    TwoRates(u.longInput, u.input, p.input, p.LongInputRate());
    TwoRates(u.longOutput, u.output, p.output, p.LongOutputRate());
    assert 2 * (I64_MAX * U64_MAX) <= U128_MAX;
  }

  /** The tariff of one request: above the threshold all of it is charged at the long rates. */
  function Charge(r: Row, p: Price): int {
    var input, output := InputOf(r.counts), OutputOf(r.counts);
    if input > LONG_CONTEXT then input * p.LongInputRate() + output * p.LongOutputRate()
    else input * p.input + output * p.output
  }

  /** The charge of a request in a query. */
  function Charged(q: Filter, p: Price): Row -> int {
    (r: Row) => if q.Covers(r) then Charge(r, p) else 0
  }

  lemma Distributes(a: int, b: int, rate: int)
    ensures (a + b) * rate == a * rate + b * rate
  {
  }

  /** Before rounding, pricing the totals is pricing every single request: the rollup has kept
      enough to apply both tariffs. */
  lemma {:induction false} TotalsPriceTheRequests(rows: seq<Row>, q: Filter, p: Price, u: Usage)
    requires u.input == Sum(rows, Admitted(q, Input)) && u.output == Sum(rows, Admitted(q, Output))
    requires u.longInput == Sum(rows, Admitted(q, LongInput)) && u.longOutput == Sum(rows, Admitted(q, LongOutput))
    ensures Exact(u, p) == Sum(rows, Charged(q, p))
  {
    if rows != [] {
      var rest, last := rows[..|rows| - 1], rows[|rows| - 1];
      var before := u.(input := Sum(rest, Admitted(q, Input)), output := Sum(rest, Admitted(q, Output)))
      .(longInput := Sum(rest, Admitted(q, LongInput)), longOutput := Sum(rest, Admitted(q, LongOutput)));
      TotalsPriceTheRequests(rest, q, p, before);
      var input, output := Admitted(q, Input)(last), Admitted(q, Output)(last);
      var longInput, longOutput := Admitted(q, LongInput)(last), Admitted(q, LongOutput)(last);
      Distributes(before.input - before.longInput, input - longInput, p.input);
      Distributes(before.output - before.longOutput, output - longOutput, p.output);
      Distributes(before.longInput, longInput, p.LongInputRate());
      Distributes(before.longOutput, longOutput, p.LongOutputRate());
    }
  }

  /** Splitting a period, or a model into its instances, loses at most one unit to rounding. */
  lemma SplittingCostsAtMostOne(a: Usage, b: Usage, p: Price, x: int, y: int, z: int)
    requires Cost(a, p) == Some(x) && Cost(b, p) == Some(y) && Cost(Plus(a, b), p) == Some(z)
    ensures x + y <= z <= x + y + 1
  {
    var ab := Plus(a, b);
    assert forall c: Column :: ab.At(c) == a.At(c) + b.At(c);
    assert ab.At(Input) == a.At(Input) + b.At(Input) && ab.At(Output) == a.At(Output) + b.At(Output);
    assert ab.At(LongInput) == a.At(LongInput) + b.At(LongInput) &&
           ab.At(LongOutput) == a.At(LongOutput) + b.At(LongOutput);
    Distributes(a.input - a.longInput, b.input - b.longInput, p.input);
    Distributes(a.output - a.longOutput, b.output - b.longOutput, p.output);
    Distributes(a.longInput, b.longInput, p.LongInputRate());
    Distributes(a.longOutput, b.longOutput, p.LongOutputRate());
    assert Exact(ab, p) == Exact(a, p) + Exact(b, p);
  }

  // ---- The headline figure ----

  function SumOf(values: seq<Option<int>>): int {
    if values == [] then 0
    else
      var last := values[|values| - 1];
      SumOf(values[..|values| - 1]) + if last.Some? then last.value else 0
  }

  lemma {:induction false} SumOfGrows(values: seq<Option<int>>, n: nat)
    requires n <= |values| && forall v | v in values :: v.Some? ==> v.value >= 0
    ensures 0 <= SumOf(values[..n]) <= SumOf(values)
    decreases |values|
  {
    if n == |values| {
      assert values[..n] == values;
      if values != [] {
        assert values[|values| - 1] in values;
        assert forall v | v in values[..|values| - 1] :: v in values;
        SumOfGrows(values[..|values| - 1], |values| - 1);
      }
    } else {
      var rest := values[..|values| - 1];
      assert values[|values| - 1] in values;
      assert forall v | v in rest :: v in values;
      SumOfGrows(rest, n);
      assert rest[..n] == values[..n];
    }
  }

  /** The loop over models in the summary: a figure only if every model has one, and then
      the full sum. One unpriced model or one overflow removes it for good. */
  method Equivalent(values: seq<Option<int>>) returns (total: Option<int>)
    requires forall v | v in values :: v.Some? ==> 0 <= v.value <= U64_MAX
    ensures total == if (forall v | v in values :: v.Some?) && SumOf(values) <= U64_MAX
                     then Some(SumOf(values)) else None
  {
    total := Some(0);
    for i := 0 to |values|
      invariant total == if (forall v | v in values[..i] :: v.Some?) && SumOf(values[..i]) <= U64_MAX
                         then Some(SumOf(values[..i])) else None
    {
      assert values[i] in values;
      assert values[..i + 1][..i] == values[..i];
      assert forall v :: v in values[..i + 1] <==> v in values[..i] || v == values[i];
      assert forall v | v in values[..i + 1] :: v in values;
      SumOfGrows(values[..i + 1], i);
      total := if total.Some? && values[i].Some? && total.value + values[i].value <= U64_MAX
      then Some(total.value + values[i].value) else None;
    }
    assert values[..|values|] == values;
  }

  // ---- The headline figure of a summary ----

  /** The requests of one model within a query. */
  function Only(q: Filter, model: string): Filter {
    q.(model := Some(model))
  }

  /** The totals over the single requests that a filter admits. */
  function Totals(rows: seq<Row>, q: Filter): Usage {
    Usage(Sum(rows, Admitted(q, Requests)), Sum(rows, Admitted(q, Input)), Sum(rows, Admitted(q, Output)),
          Sum(rows, Admitted(q, Unknown)), Sum(rows, Admitted(q, Pending)), Sum(rows, Admitted(q, Failed)),
          Sum(rows, Admitted(q, Errors)), Sum(rows, Admitted(q, LongInput)), Sum(rows, Admitted(q, LongOutput)),
          Sum(rows, Admitted(q, Duration)), Sum(rows, Admitted(q, DurationSamples)),
          Sum(rows, Admitted(q, Ttft)), Sum(rows, Admitted(q, TtftSamples)))
  }

  lemma TotalsAt(rows: seq<Row>, q: Filter, c: Column)
    ensures Totals(rows, q).At(c) == Sum(rows, Admitted(q, c))
  {
    match c
    case Requests => case Input => case Output => case Unknown => case Pending => case Failed => case Errors =>
    case LongInput => case LongOutput => case Duration => case DurationSamples => case Ttft => case TtftSamples =>
  }

  lemma SameColumns(u: Usage, v: Usage)
    requires forall c: Column :: u.At(c) == v.At(c)
    ensures u == v
  {
    assert u.At(Requests) == v.At(Requests) && u.At(Input) == v.At(Input) && u.At(Output) == v.At(Output);
    assert u.At(Unknown) == v.At(Unknown) && u.At(Pending) == v.At(Pending) && u.At(Failed) == v.At(Failed);
    assert u.At(Errors) == v.At(Errors) && u.At(LongInput) == v.At(LongInput) && u.At(LongOutput) == v.At(LongOutput);
    assert u.At(Duration) == v.At(Duration) && u.At(DurationSamples) == v.At(DurationSamples);
    assert u.At(Ttft) == v.At(Ttft) && u.At(TtftSamples) == v.At(TtftSamples);
  }

  lemma TotalsByColumn(rows: seq<Row>, q: Filter, u: Usage)
    requires forall c: Column :: u.At(c) == Sum(rows, Admitted(q, c))
    ensures u == Totals(rows, q)
  {
    forall c: Column
      ensures u.At(c) == Totals(rows, q).At(c)
    {
      TotalsAt(rows, q, c);
    }
    SameColumns(u, Totals(rows, q));
  }

  /** The cost of one model's requests; a model without a price has none. */
  function ModelCost(rows: seq<Row>, q: Filter, model: string, catalog: string -> Option<Price>): Option<int> {
    var price := catalog(model);
    if price.None? then None else Cost(Totals(rows, Only(q, model)), price.value)
  }

  /** Every model with a request that the query covers, once, and no other. */
  predicate Enumerates(models: seq<string>, rows: seq<Row>, q: Filter) {
    (forall i, j | 0 <= i < j < |models| :: models[i] != models[j]) &&
    (forall m | m in models :: exists r | r in rows :: r.model == m && q.Covers(r)) &&
    (forall r | r in rows :: q.Covers(r) ==> r.model in models)
  }

  /** The loop of the summary over its models: each is priced from its own totals, and the
      figure is their sum, if every model has one and it fits. */
  method Headline(daily: map<Key, Usage>, q: Filter, catalog: string -> Option<Price>, ghost rows: seq<Row>)
    returns (total: Option<int>, models: seq<string>)
    requires Balanced(daily, rows) && Tidy(rows)
    ensures Enumerates(models, rows, q)
    ensures var values := seq(|models|, i requires 0 <= i < |models| => ModelCost(rows, q, models[i], catalog));
            total == if (forall v | v in values :: v.Some?) && SumOf(values) <= U64_MAX
            then Some(SumOf(values)) else None
  {
    var values;
    models, values := PriceModels(daily, q, catalog, rows);
    forall i | 0 <= i < |values|
      ensures values[i].Some? ==> 0 <= values[i].value <= U64_MAX
    {
      ModelCostFits(rows, q, models[i], catalog);
    }
    total := Equivalent(values);
  }

  /** The costs of all models that a query admits, in some order. */
  method PriceModels(daily: map<Key, Usage>, q: Filter, catalog: string -> Option<Price>, ghost rows: seq<Row>)
    returns (models: seq<string>, values: seq<Option<int>>)
    requires Balanced(daily, rows) && Tidy(rows)
    ensures Enumerates(models, rows, q)
    ensures values == seq(|models|, i requires 0 <= i < |models| => ModelCost(rows, q, models[i], catalog))
  {
    var todo := set k | k in daily && q.Admits(k) :: k.model;
    ghost var all := todo;
    values, models := [], [];
    while todo != {}
      invariant todo <= all && |values| == |models|
      invariant forall m :: m in models <==> m in all && m !in todo
      invariant forall i, j | 0 <= i < j < |models| :: models[i] != models[j]
      invariant forall i | 0 <= i < |models| :: values[i] == ModelCost(rows, q, models[i], catalog)
      decreases |todo|
    {
      var m :| m in todo;
      var value := PriceModel(daily, q, m, catalog, rows);
      values := values + [value];
      models := models + [m];
      todo := todo - {m};
    }
    ModelsOfGroups(daily, q, rows);
    EnumeratesAll(models, all, rows, q);
  }

  lemma EnumeratesAll(models: seq<string>, all: set<string>, rows: seq<Row>, q: Filter)
    requires forall i, j | 0 <= i < j < |models| :: models[i] != models[j]
    requires forall m :: m in models <==> m in all
    requires all == set r | r in rows && q.Covers(r) :: r.model
    ensures Enumerates(models, rows, q)
  {
  }

  /** The models of the selected daily rows are those of the selected requests. */
  lemma ModelsOfGroups(daily: map<Key, Usage>, q: Filter, rows: seq<Row>)
    requires Balanced(daily, rows)
    ensures (set k | k in daily && q.Admits(k) :: k.model) == (set r | r in rows && q.Covers(r) :: r.model)
  {
    forall k | k in daily && q.Admits(k)
      ensures exists r | r in rows :: q.Covers(r) && r.model == k.model
    {
      var r := GroupHasRequest(daily, rows, k);
      AdmitsGroupIff(q, r);
    }
    forall r | r in rows && q.Covers(r)
      ensures r.GroupedBy() in daily && q.Admits(r.GroupedBy())
    {
      AdmitsGroupIff(q, r);
    }
  }

  method PriceModel(daily: map<Key, Usage>, q: Filter, m: string, catalog: string -> Option<Price>,
                    ghost rows: seq<Row>) returns (value: Option<int>)
    requires Balanced(daily, rows)
    ensures value == ModelCost(rows, q, m, catalog)
  {
    var u := Summarize(daily, Only(q, m), rows);
    TotalsByColumn(rows, Only(q, m), u);
    var price := catalog(m);
    value := if price.None? then None else Cost(u, price.value);
  }

  lemma ModelCostFits(rows: seq<Row>, q: Filter, model: string, catalog: string -> Option<Price>)
    ensures var c := ModelCost(rows, q, model, catalog); c.Some? ==> 0 <= c.value <= U64_MAX
  {
    var price := catalog(model);
    if price.Some? {
      CostIsNatural(Totals(rows, Only(q, model)), price.value);
    }
  }

  lemma CostIsNatural(u: Usage, p: Price)
    ensures Cost(u, p).Some? ==> 0 <= Cost(u, p).value <= U64_MAX
  {
    if Cost(u, p).Some? {
      Scaled(u.input - u.longInput, p.input, u.input - u.longInput, p.input);
      Scaled(u.output - u.longOutput, p.output, u.output - u.longOutput, p.output);
      Scaled(u.longInput, p.LongInputRate(), u.longInput, p.LongInputRate());
      Scaled(u.longOutput, p.LongOutputRate(), u.longOutput, p.LongOutputRate());
    }
  }

  /** For every model of a summary `cost` is defined as stated: nothing over- or underflows. */
  lemma ModelCostIsDefined(rows: seq<Row>, q: Filter, model: string, p: Price)
    requires Tidy(rows) && Fits63(Totals(rows, Only(q, model))) && p.Fits64()
    ensures var u := Totals(rows, Only(q, model));
            Cost(u, p).None? <==>
            (u.requests > 0 && u.unknown == u.requests) ||
            (p.threshold.Some? && p.threshold.value != LONG_CONTEXT) ||
            Exact(u, p) / 1000 > U64_MAX
  {
    var u := Totals(rows, Only(q, model));
    forall c: Column
      ensures u.At(c) == Sum(rows, Admitted(Only(q, model), c))
    {
      TotalsAt(rows, Only(q, model), c);
    }
    SummaryIsSane(rows, Only(q, model), u);
    CostIsDefined(u, p);
  }

  /** The charge of a request by the tariff of its own model, among the given models. */
  function Bill(q: Filter, models: seq<string>, catalog: string -> Option<Price>): Row -> int {
    (r: Row) =>
      if q.Covers(r) && r.model in models && catalog(r.model).Some?
      then Charge(r, catalog(r.model).value) else 0
  }

  /** The headline misses the sum of the single charges by less than one unit per model, and
      never exceeds it. */
  lemma {:induction false} HeadlineIsClose(rows: seq<Row>, q: Filter, models: seq<string>,
                                           catalog: string -> Option<Price>, values: seq<Option<int>>)
    requires |values| == |models|
    requires forall i | 0 <= i < |models| :: values[i].Some? && values[i] == ModelCost(rows, q, models[i], catalog)
    requires forall i, j | 0 <= i < j < |models| :: models[i] != models[j]
    requires forall m | m in models :: q.model.None? || q.model == Some(m)
    ensures 1000 * SumOf(values) <= Sum(rows, Bill(q, models, catalog)) <= 1000 * SumOf(values) + 999 * |models|
  {
    if models == [] {
      SumVanishes(rows, Bill(q, models, catalog));
    } else {
      var rest, m := models[..|models| - 1], models[|models| - 1];
      var paid, last := values[..|models| - 1], values[|models| - 1];
      assert m in models && forall x | x in rest :: x in models;
      HeadlineIsClose(rows, q, rest, catalog, paid);
      OneModelIsClose(rows, q, m, catalog);
      assert models == rest + [m];
      BillsAdd(rows, q, rest, m, catalog);
      assert SumOf(values) == SumOf(paid) + last.value;
    }
  }

  lemma BillsAdd(rows: seq<Row>, q: Filter, rest: seq<string>, m: string, catalog: string -> Option<Price>)
    requires m !in rest && catalog(m).Some? && (q.model.None? || q.model == Some(m))
    ensures Sum(rows, Bill(q, rest + [m], catalog)) ==
            Sum(rows, Bill(q, rest, catalog)) + Sum(rows, Charged(Only(q, m), catalog(m).value))
  {
    forall r | r in rows
      ensures Bill(q, rest, catalog)(r) + Charged(Only(q, m), catalog(m).value)(r) ==
              Bill(q, rest + [m], catalog)(r)
    {
      BillGrows(q, rest, m, catalog, r);
    }
    SumAdds(rows, Bill(q, rest, catalog), Charged(Only(q, m), catalog(m).value), Bill(q, rest + [m], catalog));
  }

  lemma BillGrows(q: Filter, rest: seq<string>, m: string, catalog: string -> Option<Price>, r: Row)
    requires m !in rest && catalog(m).Some? && (q.model.None? || q.model == Some(m))
    ensures Bill(q, rest, catalog)(r) + Charged(Only(q, m), catalog(m).value)(r) == Bill(q, rest + [m], catalog)(r)
  {
    assert r.GroupedBy().model == r.model;
  }

  lemma OneModelIsClose(rows: seq<Row>, q: Filter, m: string, catalog: string -> Option<Price>)
    requires ModelCost(rows, q, m, catalog).Some?
    ensures catalog(m).Some?
    ensures var c, exact := ModelCost(rows, q, m, catalog).value, Sum(rows, Charged(Only(q, m), catalog(m).value));
            1000 * c <= exact <= 1000 * c + 999
  {
    TotalsPriceTheRequests(rows, Only(q, m), catalog(m).value, Totals(rows, Only(q, m)));
  }
}
