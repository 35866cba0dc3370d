/** The cash-flow analysis engine of analysis.py: a compound-growth forecast,
    a discounted-cash-flow valuation with a Gordon-growth terminal value, and
    a 5 x 5 sensitivity sweep over growth and discount rates.

    Amounts and rates are exact reals. A data frame is modelled as the set of
    its column names together with its rows; a row keeps the values of the
    columns the engine reads, and those values are only consulted once the
    column check has passed. */
module Analysis {
  import opened Wrappers

  // ---------------------------------------------------------------------------
  // Data model
  // ---------------------------------------------------------------------------

  const DateColumn := "Date"
  const InflowColumn := "Inflow"
  const OutflowColumn := "Outflow"
  const NetColumn := "Net Cash Flow"

  /** The columns of every frame the forecaster produces. */
  const ForecastColumns: set<string> := {DateColumn, InflowColumn, OutflowColumn, NetColumn}

  /** Defaults of the source's keyword arguments. */
  const DefaultPeriods := 12
  const DefaultTerminalGrowth := 0.02

  /** A calendar date, kept as an opaque day number. */
  type Day = int

  /** One historical observation. */
  datatype CashFlowRecord = CashFlowRecord(date: Day, inflow: real, outflow: real)

  /** The historical frame handed to the forecaster. */
  datatype CashFlowTable = CashFlowTable(columns: set<string>, rows: seq<CashFlowRecord>)

  /** The date of a forecast row: `origin` rolled forward by `steps` month ends
      (the source adds pd.offsets.MonthEnd(steps)). No calendar arithmetic is
      done; a first-of-month origin reaches the end of its own month at step 1. */
  datatype ForecastDate = MonthEndAfter(origin: Day, steps: nat)

  /** A row as the forecast loop appends it: date, inflow, outflow. */
  datatype Projection = Projection(date: ForecastDate, inflow: real, outflow: real)

  /** A row of a forecast frame, once the net column has been added. */
  datatype ForecastRow = ForecastRow(date: ForecastDate, inflow: real, outflow: real, net: real)

  /** A forecast frame; the valuator reads only its net column. */
  datatype ForecastFrame = ForecastFrame(columns: set<string>, rows: seq<ForecastRow>)

  /** The exceptions the engine can raise. */
  datatype Error =
    | MissingColumns            // ValueError: Date, Inflow or Outflow absent
    | EmptySeries               // IndexError: iloc[-1] of an empty frame
    | MissingNetCashFlow        // ValueError: no 'Net Cash Flow' column
    | DiscountNotAboveTerminal  // ValueError: discount rate <= terminal growth
    | EmptyForecast             // IndexError: cash_flows[-1] of an empty column

  /** One row of the sensitivity table; None stands for the NaN valuation. */
  datatype Cell = Cell(growth: real, discount: real, valuation: Option<real>)

  // ---------------------------------------------------------------------------
  // Arithmetic
  // ---------------------------------------------------------------------------

  /** x ** n for a non-negative integer exponent. */
  function Pow(x: real, n: nat): (r: real)
    ensures x > 0.0 ==> r > 0.0
    ensures x != 0.0 ==> r != 0.0
    ensures n > 0 && x == 0.0 ==> r == 0.0
  {
    if n == 0 then 1.0 else x * Pow(x, n - 1)
  }

  lemma {:induction false} PowOfOne(n: nat)
    ensures Pow(1.0, n) == 1.0
  {
    if n > 0 {
      PowOfOne(n - 1);
    }
  }

  /** Python's sum() over a list of amounts. */
  function Sum(xs: seq<real>): (total: real)
  {
    if xs == [] then 0.0 else xs[0] + Sum(xs[1..])
  }

  /** Every element multiplied by k. */
  function ScaleAll(k: real, xs: seq<real>): (scaled: seq<real>)
  {
    seq(|xs|, i requires 0 <= i < |xs| => k * xs[i])
  }

  /** Element-wise sum of two sequences of the same length. */
  function AddAll(xs: seq<real>, ys: seq<real>): (sums: seq<real>)
    requires |xs| == |ys|
  {
    seq(|xs|, i requires 0 <= i < |xs| => xs[i] + ys[i])
  }

  lemma {:induction false} SumScale(k: real, xs: seq<real>)
    ensures Sum(ScaleAll(k, xs)) == k * Sum(xs)
  {
    if xs != [] {
      var l, r := ScaleAll(k, xs)[1..], ScaleAll(k, xs[1..]);
      assert |l| == |r|;
      forall i | 0 <= i < |l|
        ensures l[i] == r[i]
      {
      }
      assert l == r;
      SumScale(k, xs[1..]);
    }
  }

  lemma {:induction false} SumAdd(xs: seq<real>, ys: seq<real>)
    requires |xs| == |ys|
    ensures Sum(AddAll(xs, ys)) == Sum(xs) + Sum(ys)
  {
    if xs != [] {
      var l, r := AddAll(xs, ys)[1..], AddAll(xs[1..], ys[1..]);
      assert |l| == |r|;
      forall i | 0 <= i < |l|
        ensures l[i] == r[i]
      {
      }
      assert l == r;
      SumAdd(xs[1..], ys[1..]);
    }
  }

  lemma {:induction false} SumPositive(xs: seq<real>)
    requires |xs| > 0
    requires forall i :: 0 <= i < |xs| ==> xs[i] > 0.0
    ensures Sum(xs) > 0.0
  {
    if |xs| > 1 {
      SumPositive(xs[1..]);
    }
  }

  // Small facts of real arithmetic, stated once so that the proofs below need
  // no nonlinear search.

  lemma MulRegroup(a: real, x: real, p: real)
    ensures a * (x * p) == (a * p) * x
  {
  }

  lemma MulSubRegroup(a: real, b: real, x: real, p: real)
    ensures a * (x * p) - b * (x * p) == (a * p - b * p) * x
  {
  }

  lemma Distribute(k: real, a: real, b: real)
    ensures k * a + k * b == k * (a + b)
  {
  }

  lemma QuotientScale(k: real, a: real, b: real)
    requires b != 0.0
    ensures (k * a) / b == k * (a / b)
  {
  }

  lemma ScaleByInverse(a: real, x: real)
    requires x != 0.0
    ensures (1.0 / x) * a == a / x
  {
  }

  lemma QuotientAdd(a: real, b: real, c: real)
    requires c != 0.0
    ensures (a + b) / c == a / c + b / c
  {
  }

  lemma QuotientOfProduct(a: real, x: real, p: real)
    requires x != 0.0 && p != 0.0
    ensures a / (x * p) == (1.0 / x) * (a / p)
  {
  }

  lemma QuotientPositive(a: real, b: real)
    requires a > 0.0 && b > 0.0
    ensures a / b > 0.0
  {
  }

  lemma ProductPositive(a: real, b: real)
    requires a > 0.0 && b > 0.0
    ensures a * b > 0.0
  {
  }

  // ---------------------------------------------------------------------------
  // Forecaster: forecast_cash_flows
  // ---------------------------------------------------------------------------

  predicate HasRequiredColumns(data: CashFlowTable)
  {
    DateColumn in data.columns && InflowColumn in data.columns && OutflowColumn in data.columns
  }

  /** The number of iterations of range(periods). */
  function PeriodCount(periods: int): (count: nat)
  {
    if periods > 0 then periods else 0
  }

  /** The row the forecast loop appends at 1-based step `step`. */
  function Project(seed: CashFlowRecord, step: nat, growthRate: real): (p: Projection)
  {
    var factor := Pow(1.0 + growthRate, step);
    Projection(MonthEndAfter(seed.date, step), seed.inflow * factor, seed.outflow * factor)
  }

  /** The frame built from the appended rows, with Net Cash Flow = Inflow - Outflow
      added column-wise. */
  function WithNetCashFlow(ps: seq<Projection>): (frame: ForecastFrame)
  {
    ForecastFrame(ForecastColumns,
      seq(|ps|, i requires 0 <= i < |ps| =>
        ForecastRow(ps[i].date, ps[i].inflow, ps[i].outflow, ps[i].inflow - ps[i].outflow)))
  }

  /** What forecast_cash_flows returns or raises. */
  function Forecast(data: CashFlowTable, periods: int, growthRate: real): (r: Result<ForecastFrame, Error>)
    ensures r == Failure(MissingColumns) <==> !HasRequiredColumns(data)
    ensures r == Failure(EmptySeries) <==> HasRequiredColumns(data) && data.rows == []
    ensures r.Success? <==> HasRequiredColumns(data) && data.rows != []
    ensures r.Success? ==> r.value.columns == ForecastColumns
    ensures r.Success? ==> forall i :: 0 <= i < |r.value.rows| ==>
              r.value.rows[i].net == r.value.rows[i].inflow - r.value.rows[i].outflow
    ensures r.Success? && periods > 0 ==> |r.value.rows| == periods
    ensures r.Success? && periods <= 0 ==> r.value.rows == []
  {
    if !HasRequiredColumns(data) then Failure(MissingColumns)
    else if data.rows == [] then Failure(EmptySeries)
    else
      var last := data.rows[|data.rows| - 1];
      Success(WithNetCashFlow(seq(PeriodCount(periods), i requires 0 <= i => Project(last, i + 1, growthRate))))
  }

  /** forecast_cash_flows: the loop appends one projected row per period, seeded
      from the last historical row. */
  method ForecastCashFlows(data: CashFlowTable, periods: int, growthRate: real)
    returns (r: Result<ForecastFrame, Error>)
    ensures r == Forecast(data, periods, growthRate)
  {
    if !HasRequiredColumns(data) {
      return Failure(MissingColumns);
    }
    if |data.rows| == 0 {
      return Failure(EmptySeries);
    }
    var last := data.rows[|data.rows| - 1];
    var forecast: seq<Projection> := [];
    var i := 0;
    while i < periods
      invariant 0 <= i <= PeriodCount(periods)
      invariant |forecast| == i
      invariant forall k :: 0 <= k < i ==> forecast[k] == Project(last, k + 1, growthRate)
    {
      var date := MonthEndAfter(last.date, i + 1);
      var inflow := last.inflow * Pow(1.0 + growthRate, i + 1);
      var outflow := last.outflow * Pow(1.0 + growthRate, i + 1);
      forecast := forecast + [Projection(date, inflow, outflow)];
      i := i + 1;
    }
    assert forecast == seq(PeriodCount(periods), k requires 0 <= k => Project(last, k + 1, growthRate));
    r := Success(WithNetCashFlow(forecast));
  }

  /** Row i (1-based) of a forecast: the seed's amounts grown by (1+g)^i, dated
      i month ends after the last historical date. */
  lemma ForecastRowValues(data: CashFlowTable, periods: int, growthRate: real, i: nat)
    requires Forecast(data, periods, growthRate).Success?
    requires 1 <= i <= PeriodCount(periods)
    ensures var rows := Forecast(data, periods, growthRate).value.rows;
            var seed := data.rows[|data.rows| - 1];
            var factor := Pow(1.0 + growthRate, i);
            && rows[i - 1].date == MonthEndAfter(seed.date, i)
            && rows[i - 1].inflow == seed.inflow * factor
            && rows[i - 1].outflow == seed.outflow * factor
            && rows[i - 1].net == (seed.inflow - seed.outflow) * factor
  {
  }

  /** One more step of growth multiplies a projected row by (1+g). */
  lemma ProjectStep(seed: CashFlowRecord, step: nat, growthRate: real)
    ensures var x := 1.0 + growthRate;
            var now, next := Project(seed, step, growthRate), Project(seed, step + 1, growthRate);
            && next.inflow == now.inflow * x
            && next.outflow == now.outflow * x
            && next.inflow - next.outflow == (now.inflow - now.outflow) * x
  {
    var x := 1.0 + growthRate;
    var p := Pow(x, step);
    assert Pow(x, step + 1) == x * p;
    MulRegroup(seed.inflow, x, p);
    MulRegroup(seed.outflow, x, p);
    MulSubRegroup(seed.inflow, seed.outflow, x, p);
  }

  /** The first forecast row is the seed grown once, one month end later. */
  lemma ForecastFirstRow(data: CashFlowTable, periods: int, growthRate: real)
    requires Forecast(data, periods, growthRate).Success?
    requires PeriodCount(periods) >= 1
    ensures var rows := Forecast(data, periods, growthRate).value.rows;
            var seed := data.rows[|data.rows| - 1];
            && rows[0].date == MonthEndAfter(seed.date, 1)
            && rows[0].inflow == seed.inflow * (1.0 + growthRate)
            && rows[0].outflow == seed.outflow * (1.0 + growthRate)
            && rows[0].net == (seed.inflow - seed.outflow) * (1.0 + growthRate)
  {
    var seed := data.rows[|data.rows| - 1];
    var x := 1.0 + growthRate;
    assert Pow(x, 1) == x;
    assert seed.inflow * x - seed.outflow * x == (seed.inflow - seed.outflow) * x;
  }

  /** A forecast row is the previous one grown by (1+g). */
  lemma ForecastGrowthStep(data: CashFlowTable, periods: int, growthRate: real, i: nat)
    requires Forecast(data, periods, growthRate).Success?
    requires i + 1 < PeriodCount(periods)
    ensures var rows := Forecast(data, periods, growthRate).value.rows;
            && rows[i + 1].date.steps == rows[i].date.steps + 1
            && rows[i + 1].inflow == rows[i].inflow * (1.0 + growthRate)
            && rows[i + 1].outflow == rows[i].outflow * (1.0 + growthRate)
            && rows[i + 1].net == rows[i].net * (1.0 + growthRate)
  {
    var seed := data.rows[|data.rows| - 1];
    ProjectStep(seed, i + 1, growthRate);
  }

  /** Only the last historical row matters: two frames with the required
      columns and the same last row forecast the same rows. */
  lemma ForecastSeededByLastRow(a: CashFlowTable, b: CashFlowTable, periods: int, growthRate: real)
    requires HasRequiredColumns(a) && HasRequiredColumns(b)
    requires a.rows != [] && b.rows != []
    requires a.rows[|a.rows| - 1] == b.rows[|b.rows| - 1]
    ensures Forecast(a, periods, growthRate) == Forecast(b, periods, growthRate)
  {
  }

  /** With zero growth every forecast row repeats the seed. */
  lemma ForecastFlatWithoutGrowth(data: CashFlowTable, periods: int)
    requires Forecast(data, periods, 0.0).Success?
    ensures var rows := Forecast(data, periods, 0.0).value.rows;
            var seed := data.rows[|data.rows| - 1];
            forall i :: 0 <= i < |rows| ==>
              rows[i].inflow == seed.inflow && rows[i].outflow == seed.outflow &&
              rows[i].net == seed.inflow - seed.outflow
  {
    var rows := Forecast(data, periods, 0.0).value.rows;
    var seed := data.rows[|data.rows| - 1];
    forall i | 0 <= i < |rows|
      ensures rows[i].inflow == seed.inflow && rows[i].outflow == seed.outflow
    {
      PowOfOne(i + 1);
    }
  }

  // ---------------------------------------------------------------------------
  // Valuator: dcf_valuation
  // ---------------------------------------------------------------------------

  /** The values of a frame's net column. */
  function NetFlows(rows: seq<ForecastRow>): (cfs: seq<real>)
  {
    seq(|rows|, i requires 0 <= i < |rows| => rows[i].net)
  }

  /** [cf / (1 + d) ** (i+1) for i, cf in enumerate(cash_flows)] */
  function Discounted(cfs: seq<real>, discountRate: real): (pvs: seq<real>)
    requires 1.0 + discountRate != 0.0
  {
    seq(|cfs|, i requires 0 <= i < |cfs| => cfs[i] / Pow(1.0 + discountRate, i + 1))
  }

  /** The Gordon-growth value of the flows after the horizon, at the horizon. */
  function TerminalValue(lastFlow: real, discountRate: real, terminalGrowth: real): (tv: real)
    requires discountRate > terminalGrowth
  {
    lastFlow * (1.0 + terminalGrowth) / (discountRate - terminalGrowth)
  }

  /** The valuation of a non-empty net column once the guards have passed. */
  function Valuation(cfs: seq<real>, discountRate: real, terminalGrowth: real): (value: real)
    requires |cfs| > 0
    requires discountRate > terminalGrowth && 1.0 + discountRate != 0.0
  {
    Sum(Discounted(cfs, discountRate))
      + TerminalValue(cfs[|cfs| - 1], discountRate, terminalGrowth) / Pow(1.0 + discountRate, |cfs|)
  }

  /** What dcf_valuation returns or raises. The source divides by (1 + d);
      with d > tg that divisor must not vanish (numpy would give inf). */
  function DcfValuation(cashFlows: ForecastFrame, discountRate: real, terminalGrowth: real)
    : (r: Result<real, Error>)
    requires discountRate > terminalGrowth ==> 1.0 + discountRate != 0.0
    ensures NetColumn !in cashFlows.columns ==> r == Failure(MissingNetCashFlow)
    ensures NetColumn in cashFlows.columns && discountRate <= terminalGrowth
            ==> r == Failure(DiscountNotAboveTerminal)
    ensures NetColumn in cashFlows.columns && discountRate > terminalGrowth && cashFlows.rows == []
            ==> r == Failure(EmptyForecast)
    ensures r.Success? <==>
            NetColumn in cashFlows.columns && discountRate > terminalGrowth && cashFlows.rows != []
  {
    if NetColumn !in cashFlows.columns then Failure(MissingNetCashFlow)
    else if discountRate <= terminalGrowth then Failure(DiscountNotAboveTerminal)
    else if cashFlows.rows == [] then Failure(EmptyForecast)
    else Success(Valuation(NetFlows(cashFlows.rows), discountRate, terminalGrowth))
  }

  /** An independent statement of the present value: discount the first flow
      one period and everything after it one period more. */
  function PresentValueBackward(cfs: seq<real>, discountRate: real): (pv: real)
    requires 1.0 + discountRate != 0.0
  {
    if cfs == [] then 0.0
    else (cfs[0] + PresentValueBackward(cfs[1..], discountRate)) / (1.0 + discountRate)
  }

  /** Discounting the tail of a series is discounting it once more than its
      own first period. */
  lemma DiscountedUnfold(cfs: seq<real>, discountRate: real)
    requires 1.0 + discountRate != 0.0
    requires cfs != []
    ensures Discounted(cfs, discountRate)[1..]
            == ScaleAll(1.0 / (1.0 + discountRate), Discounted(cfs[1..], discountRate))
  {
    var x := 1.0 + discountRate;
    var lhs := Discounted(cfs, discountRate)[1..];
    var rhs := ScaleAll(1.0 / x, Discounted(cfs[1..], discountRate));
    forall i | 0 <= i < |lhs|
      ensures lhs[i] == rhs[i]
    {
      var p := Pow(x, i + 1);
      assert Pow(x, i + 2) == x * p;
      QuotientOfProduct(cfs[i + 1], x, p);
    }
  }

  /** The discounted tail sums to the tail's own discounted sum, discounted
      one period more. */
  lemma DiscountedTailSum(cfs: seq<real>, discountRate: real)
    requires 1.0 + discountRate != 0.0
    requires cfs != []
    ensures Sum(Discounted(cfs, discountRate)[1..])
            == Sum(Discounted(cfs[1..], discountRate)) / (1.0 + discountRate)
  {
    var x := 1.0 + discountRate;
    var tail := Discounted(cfs[1..], discountRate);
    DiscountedUnfold(cfs, discountRate);
    SumScale(1.0 / x, tail);
    ScaleByInverse(Sum(tail), x);
  }

  /** Peeling the first period off the discounted sum. */
  lemma SumDiscountedStep(cfs: seq<real>, discountRate: real)
    requires 1.0 + discountRate != 0.0
    requires cfs != []
    ensures Sum(Discounted(cfs, discountRate))
            == cfs[0] / (1.0 + discountRate) + Sum(Discounted(cfs[1..], discountRate)) / (1.0 + discountRate)
  {
    var ds := Discounted(cfs, discountRate);
    assert Pow(1.0 + discountRate, 1) == 1.0 + discountRate;
    DiscountedTailSum(cfs, discountRate);
    assert Sum(ds) == ds[0] + Sum(ds[1..]);
  }

  /** The sum of discounted flows equals the backward recursion. */
  lemma {:induction false} PresentValueForms(cfs: seq<real>, discountRate: real)
    requires 1.0 + discountRate != 0.0
    ensures Sum(Discounted(cfs, discountRate)) == PresentValueBackward(cfs, discountRate)
  {
    if cfs != [] {
      SumDiscountedStep(cfs, discountRate);
      PresentValueForms(cfs[1..], discountRate);
      QuotientAdd(cfs[0], PresentValueBackward(cfs[1..], discountRate), 1.0 + discountRate);
    }
  }

  lemma DiscountedScale(k: real, cfs: seq<real>, discountRate: real)
    requires 1.0 + discountRate != 0.0
    ensures Discounted(ScaleAll(k, cfs), discountRate) == ScaleAll(k, Discounted(cfs, discountRate))
  {
    var lhs := Discounted(ScaleAll(k, cfs), discountRate);
    var rhs := ScaleAll(k, Discounted(cfs, discountRate));
    forall i | 0 <= i < |cfs|
      ensures lhs[i] == rhs[i]
    {
      var p := Pow(1.0 + discountRate, i + 1);
      assert (k * cfs[i]) / p == k * (cfs[i] / p);
    }
  }

  lemma DiscountedAdd(xs: seq<real>, ys: seq<real>, discountRate: real)
    requires 1.0 + discountRate != 0.0
    requires |xs| == |ys|
    ensures Discounted(AddAll(xs, ys), discountRate)
            == AddAll(Discounted(xs, discountRate), Discounted(ys, discountRate))
  {
    var lhs := Discounted(AddAll(xs, ys), discountRate);
    var rhs := AddAll(Discounted(xs, discountRate), Discounted(ys, discountRate));
    forall i | 0 <= i < |xs|
      ensures lhs[i] == rhs[i]
    {
      var p := Pow(1.0 + discountRate, i + 1);
      assert (xs[i] + ys[i]) / p == xs[i] / p + ys[i] / p;
    }
  }

  lemma TerminalValueScales(k: real, lastFlow: real, scaledFlow: real, discountRate: real, terminalGrowth: real)
    requires discountRate > terminalGrowth
    requires scaledFlow == k * lastFlow
    ensures TerminalValue(scaledFlow, discountRate, terminalGrowth)
            == k * TerminalValue(lastFlow, discountRate, terminalGrowth)
  {
    var c, s := 1.0 + terminalGrowth, discountRate - terminalGrowth;
    assert scaledFlow * c == k * (lastFlow * c);
    QuotientScale(k, lastFlow * c, s);
  }

  lemma TerminalValueAdds(a: real, b: real, sum: real, discountRate: real, terminalGrowth: real)
    requires discountRate > terminalGrowth
    requires sum == a + b
    ensures TerminalValue(sum, discountRate, terminalGrowth)
            == TerminalValue(a, discountRate, terminalGrowth) + TerminalValue(b, discountRate, terminalGrowth)
  {
    var c, s := 1.0 + terminalGrowth, discountRate - terminalGrowth;
    assert sum * c == a * c + b * c;
    QuotientAdd(a * c, b * c, s);
  }

  lemma PresentValueScales(k: real, cfs: seq<real>, discountRate: real)
    requires 1.0 + discountRate != 0.0
    ensures Sum(Discounted(ScaleAll(k, cfs), discountRate)) == k * Sum(Discounted(cfs, discountRate))
  {
    DiscountedScale(k, cfs, discountRate);
    SumScale(k, Discounted(cfs, discountRate));
  }

  lemma QuotientOfTerminalScales(k: real, lastFlow: real, scaledFlow: real, p: real,
                                 discountRate: real, terminalGrowth: real)
    requires discountRate > terminalGrowth && p != 0.0
    requires scaledFlow == k * lastFlow
    ensures TerminalValue(scaledFlow, discountRate, terminalGrowth) / p
            == k * (TerminalValue(lastFlow, discountRate, terminalGrowth) / p)
  {
    var t := TerminalValue(lastFlow, discountRate, terminalGrowth);
    TerminalValueScales(k, lastFlow, scaledFlow, discountRate, terminalGrowth);
    QuotientScale(k, t, p);
  }

  lemma DiscountedTerminalScales(k: real, cfs: seq<real>, discountRate: real, terminalGrowth: real)
    requires |cfs| > 0
    requires discountRate > terminalGrowth && 1.0 + discountRate != 0.0
    ensures var n := |cfs|;
            var p := Pow(1.0 + discountRate, n);
            TerminalValue(ScaleAll(k, cfs)[n - 1], discountRate, terminalGrowth) / p
            == k * (TerminalValue(cfs[n - 1], discountRate, terminalGrowth) / p)
  {
    var n := |cfs|;
    assert ScaleAll(k, cfs)[n - 1] == k * cfs[n - 1];
    QuotientOfTerminalScales(k, cfs[n - 1], ScaleAll(k, cfs)[n - 1], Pow(1.0 + discountRate, n),
                             discountRate, terminalGrowth);
  }

  /** Scaling every cash flow by k scales the valuation by k. */
  lemma ValuationScales(k: real, cfs: seq<real>, discountRate: real, terminalGrowth: real)
    requires |cfs| > 0
    requires discountRate > terminalGrowth && 1.0 + discountRate != 0.0
    ensures Valuation(ScaleAll(k, cfs), discountRate, terminalGrowth)
            == k * Valuation(cfs, discountRate, terminalGrowth)
  {
    var n := |cfs|;
    assert |ScaleAll(k, cfs)| == n;
    PresentValueScales(k, cfs, discountRate);
    DiscountedTerminalScales(k, cfs, discountRate, terminalGrowth);
    Distribute(k, Sum(Discounted(cfs, discountRate)),
               TerminalValue(cfs[n - 1], discountRate, terminalGrowth) / Pow(1.0 + discountRate, n));
  }

  lemma PresentValueAdds(xs: seq<real>, ys: seq<real>, discountRate: real)
    requires 1.0 + discountRate != 0.0
    requires |xs| == |ys|
    ensures Sum(Discounted(AddAll(xs, ys), discountRate))
            == Sum(Discounted(xs, discountRate)) + Sum(Discounted(ys, discountRate))
  {
    DiscountedAdd(xs, ys, discountRate);
    SumAdd(Discounted(xs, discountRate), Discounted(ys, discountRate));
  }

  lemma DiscountedTerminalAdds(xs: seq<real>, ys: seq<real>, discountRate: real, terminalGrowth: real)
    requires |xs| == |ys| > 0
    requires discountRate > terminalGrowth && 1.0 + discountRate != 0.0
    ensures var n := |xs|;
            var p := Pow(1.0 + discountRate, n);
            TerminalValue(AddAll(xs, ys)[n - 1], discountRate, terminalGrowth) / p
            == TerminalValue(xs[n - 1], discountRate, terminalGrowth) / p
               + TerminalValue(ys[n - 1], discountRate, terminalGrowth) / p
  {
    var n := |xs|;
    var p := Pow(1.0 + discountRate, n);
    assert AddAll(xs, ys)[n - 1] == xs[n - 1] + ys[n - 1];
    TerminalValueAdds(xs[n - 1], ys[n - 1], AddAll(xs, ys)[n - 1], discountRate, terminalGrowth);
    QuotientAdd(TerminalValue(xs[n - 1], discountRate, terminalGrowth),
                TerminalValue(ys[n - 1], discountRate, terminalGrowth), p);
  }

  /** The valuation of element-wise summed cash flows is the sum of the valuations. */
  lemma ValuationAdditive(xs: seq<real>, ys: seq<real>, discountRate: real, terminalGrowth: real)
    requires |xs| == |ys| > 0
    requires discountRate > terminalGrowth && 1.0 + discountRate != 0.0
    ensures Valuation(AddAll(xs, ys), discountRate, terminalGrowth)
            == Valuation(xs, discountRate, terminalGrowth) + Valuation(ys, discountRate, terminalGrowth)
  {
    assert |AddAll(xs, ys)| == |xs|;
    PresentValueAdds(xs, ys, discountRate);
    DiscountedTerminalAdds(xs, ys, discountRate, terminalGrowth);
  }

  /** A frame whose net column is multiplied by k. */
  function ScaleNet(k: real, cashFlows: ForecastFrame): (scaled: ForecastFrame)
  {
    cashFlows.(rows := seq(|cashFlows.rows|, i requires 0 <= i < |cashFlows.rows| =>
                             cashFlows.rows[i].(net := k * cashFlows.rows[i].net)))
  }

  /** dcf_valuation is linear in the cash flows: it accepts the scaled frame
      exactly when it accepts the original, and the value scales by k. */
  lemma DcfScales(k: real, cashFlows: ForecastFrame, discountRate: real, terminalGrowth: real)
    requires discountRate > terminalGrowth ==> 1.0 + discountRate != 0.0
    ensures DcfValuation(ScaleNet(k, cashFlows), discountRate, terminalGrowth).Success?
            == DcfValuation(cashFlows, discountRate, terminalGrowth).Success?
    ensures DcfValuation(cashFlows, discountRate, terminalGrowth).Success? ==>
            DcfValuation(ScaleNet(k, cashFlows), discountRate, terminalGrowth).value
            == k * DcfValuation(cashFlows, discountRate, terminalGrowth).value
  {
    if DcfValuation(cashFlows, discountRate, terminalGrowth).Success? {
      var l, r := NetFlows(ScaleNet(k, cashFlows).rows), ScaleAll(k, NetFlows(cashFlows.rows));
      assert |l| == |r|;
      forall i | 0 <= i < |l|
        ensures l[i] == r[i]
      {
      }
      assert l == r;
      ValuationScales(k, NetFlows(cashFlows.rows), discountRate, terminalGrowth);
    }
  }

  /** Positive cash flows, a discount rate above the terminal growth and a
      terminal growth above -100% give a positive valuation. */
  lemma ValuationPositive(cfs: seq<real>, discountRate: real, terminalGrowth: real)
    requires |cfs| > 0
    requires forall i :: 0 <= i < |cfs| ==> cfs[i] > 0.0
    requires discountRate > terminalGrowth > -1.0
    ensures Valuation(cfs, discountRate, terminalGrowth) > 0.0
  {
    var ds := Discounted(cfs, discountRate);
    forall i | 0 <= i < |ds|
      ensures ds[i] > 0.0
    {
      QuotientPositive(cfs[i], Pow(1.0 + discountRate, i + 1));
    }
    SumPositive(ds);
    var last := cfs[|cfs| - 1];
    ProductPositive(last, 1.0 + terminalGrowth);
    QuotientPositive(last * (1.0 + terminalGrowth), discountRate - terminalGrowth);
    var tv := TerminalValue(last, discountRate, terminalGrowth);
    QuotientPositive(tv, Pow(1.0 + discountRate, |cfs|));
  }

  /** The worked case: last row inflow 125000 and outflow 92000, growth 2%:
      the first forecast row has inflow 127500 and outflow 93840, and the
      valuation at 10% discount and 2% terminal growth is positive. */
  lemma SampleScenario(data: CashFlowTable)
    requires HasRequiredColumns(data) && data.rows != []
    requires data.rows[|data.rows| - 1].inflow == 125000.0
    requires data.rows[|data.rows| - 1].outflow == 92000.0
    ensures var f := Forecast(data, 12, 0.02);
            && f.Success? && |f.value.rows| == 12
            && f.value.rows[0].inflow == 127500.0 && f.value.rows[0].outflow == 93840.0
            && DcfValuation(f.value, 0.10, 0.02).Success?
            && DcfValuation(f.value, 0.10, 0.02).value > 0.0
  {
    var f := Forecast(data, 12, 0.02).value;
    assert Pow(1.02, 1) == 1.02;
    var cfs := NetFlows(f.rows);
    forall i | 0 <= i < |cfs|
      ensures cfs[i] > 0.0
    {
      ForecastRowValues(data, 12, 0.02, i + 1);
      assert Pow(1.02, i + 1) > 0.0;
    }
    ValuationPositive(cfs, 0.10, 0.02);
  }

  // ---------------------------------------------------------------------------
  // Sensitivity engine: sensitivity_analysis
  // ---------------------------------------------------------------------------

  /** np.arange(base - 0.02, base + 0.03, 0.01), taken as exactly its five
      points: start at base - 0.02, step 0.01, all below the stop value, and
      one more step would reach it. */
  function RateAxis(base: real): (axis: seq<real>)
    ensures |axis| == 5
    ensures axis[0] == base - 0.02
    ensures forall k :: 0 <= k < 4 ==> axis[k + 1] == axis[k] + 0.01
    ensures forall k :: 0 <= k < 5 ==> axis[k] < base + 0.03
    ensures axis[4] + 0.01 >= base + 0.03
  {
    seq(5, k requires 0 <= k < 5 => base - 0.02 + k as real * 0.01)
  }

  /** The valuation recorded for one (g, d) pair: the forecast over the default
      12 periods, valued at the default terminal growth; any failure of either
      step becomes the NaN sentinel. */
  function CellValue(data: CashFlowTable, growthRate: real, discountRate: real): (v: Option<real>)
    ensures HasRequiredColumns(data) && data.rows != [] ==>
              (v.None? <==> discountRate <= DefaultTerminalGrowth)
    ensures HasRequiredColumns(data) && data.rows != [] && discountRate > DefaultTerminalGrowth ==>
              v == Some(Valuation(NetFlows(Forecast(data, DefaultPeriods, growthRate).value.rows),
                                  discountRate, DefaultTerminalGrowth))
    ensures !HasRequiredColumns(data) || data.rows == [] ==> v == None
  {
    match Forecast(data, DefaultPeriods, growthRate)
    case Failure(_) => None
    case Success(forecast) =>
      match DcfValuation(forecast, discountRate, DefaultTerminalGrowth)
      case Failure(_) => None
      case Success(valuation) => Some(valuation)
  }

  /** The whole table, growth outer and discount inner. */
  function SensitivityGrid(data: CashFlowTable, baseGrowth: real, baseDiscount: real): (grid: seq<Cell>)
  {
    var growthRates := RateAxis(baseGrowth);
    var discountRates := RateAxis(baseDiscount);
    seq(25, n requires 0 <= n < 25 =>
      Cell(growthRates[n / 5], discountRates[n % 5],
           CellValue(data, growthRates[n / 5], discountRates[n % 5])))
  }

  lemma GridIndex(j: int, k: int)
    requires 0 <= j < 5 && 0 <= k < 5
    ensures 0 <= 5 * j + k < 25 && (5 * j + k) / 5 == j && (5 * j + k) % 5 == k
  {
  }

  /** sensitivity_analysis: nested loops over the two axes; every cell runs the
      forecaster and the valuator and never lets a failure escape. */
  method SensitivityAnalysis(data: CashFlowTable, baseGrowth: real, baseDiscount: real)
    returns (results: seq<Cell>)
    ensures |results| == 25
    ensures results == SensitivityGrid(data, baseGrowth, baseDiscount)
    ensures forall n :: 0 <= n < |results| ==>
              && results[n].growth == baseGrowth + (n / 5 - 2) as real * 0.01
              && results[n].discount == baseDiscount + (n % 5 - 2) as real * 0.01
    ensures HasRequiredColumns(data) && data.rows != [] ==>
              forall n :: 0 <= n < |results| ==>
                (results[n].valuation.None? <==> results[n].discount <= DefaultTerminalGrowth)
    ensures !HasRequiredColumns(data) || data.rows == [] ==>
              forall n :: 0 <= n < |results| ==> results[n].valuation.None?
  {
    var growthRates := RateAxis(baseGrowth);
    var discountRates := RateAxis(baseDiscount);
    ghost var grid := SensitivityGrid(data, baseGrowth, baseDiscount);
    results := [];
    var j := 0;
    while j < |growthRates|
      invariant 0 <= j <= 5
      invariant |results| == 5 * j
      invariant forall n :: 0 <= n < |results| ==> results[n] == grid[n]
    {
      var g := growthRates[j];
      var k := 0;
      while k < |discountRates|
        invariant 0 <= k <= 5
        invariant |results| == 5 * j + k
        invariant forall n :: 0 <= n < |results| ==> results[n] == grid[n]
      {
        var d := discountRates[k];
        var valuation: Option<real>;
        var forecast := ForecastCashFlows(data, DefaultPeriods, g);
        if forecast.Failure? {
          valuation := None;
        } else {
          var v := DcfValuation(forecast.value, d, DefaultTerminalGrowth);
          valuation := if v.Success? then Some(v.value) else None;
        }
        GridIndex(j, k);
        results := results + [Cell(g, d, valuation)];
        k := k + 1;
      }
      j := j + 1;
    }
  }

  /** Cell (j, k) holds growth base + (j-2)%, discount base + (k-2)% and the
      valuation for that pair. */
  lemma SensitivityLayout(data: CashFlowTable, baseGrowth: real, baseDiscount: real, j: int, k: int)
    requires 0 <= j < 5 && 0 <= k < 5
    ensures var grid := SensitivityGrid(data, baseGrowth, baseDiscount);
            var g := baseGrowth + (j - 2) as real * 0.01;
            var d := baseDiscount + (k - 2) as real * 0.01;
            |grid| == 25 && grid[5 * j + k] == Cell(g, d, CellValue(data, g, d))
  {
    GridIndex(j, k);
  }

  /** On a series lacking a required column, or with no rows, every cell is NaN. */
  lemma SensitivityUnusableSeries(data: CashFlowTable, baseGrowth: real, baseDiscount: real)
    requires !HasRequiredColumns(data) || data.rows == []
    ensures forall n :: 0 <= n < 25 ==>
            SensitivityGrid(data, baseGrowth, baseDiscount)[n].valuation == None
  {
  }
}
