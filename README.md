# Treasury cash-flow analysis engine, modelled in Dafny

This project models the quantitative core of a treasury and investment
dashboard for renewable-energy projects:

- **forecasting** (`forecast_cash_flows`): a compound-growth projection of
  inflows and outflows, seeded from the last historical row;
- **valuation** (`dcf_valuation`): a discounted-cash-flow value of the
  forecast's net column, plus a Gordon-growth terminal value;
- **sensitivity sweep** (`sensitivity_analysis`): a 5 x 5 grid of growth and
  discount rates around the base values, in which a failing cell becomes a
  not-a-number valuation instead of an exception;
- the **risk-adjusted return metric** (RARM) of the dashboard: an equal-weight
  risk score and the valuation per unit invested, scaled by one minus that
  score.

Files:

- `wrappers.dfy`: module `Wrappers`, the `Option` and `Result` types.
- `analysis.dfy`: module `Analysis`, covering `analysis.py`.
- `risk_metric.dfy`: module `RiskMetric`, covering the RARM lines of `main.py`.

Modelling choices:

- Amounts and rates are exact `real`s. `x ** n` is the recursive `Pow`.
- A pandas frame is the set of its column names plus its rows. A row keeps
  only the values of the columns the engine reads.
- Each exception the source can raise is a `Failure` value of type `Error`.
  The source raises `ValueError` for a missing column and for
  discount rate <= terminal growth. It raises `IndexError` for `iloc[-1]` or
  `[-1]` on an empty frame. The sweep's NaN is `None`.
- An empty historical frame is an error result (`EmptySeries`), not a
  precondition. The sweep catches every exception, so it stays total on such
  a frame. An empty forecast given to the valuator is `EmptyForecast`. That
  check comes after the column check and the rate check, in the source's order.
- The forecaster's `periods` is an `int`. As with `range(periods)`, zero or a
  negative count gives an empty forecast, not an error.
- Forecast dates are symbolic: `MonthEndAfter(lastDate, i)` stands for the
  last historical date plus `pd.offsets.MonthEnd(i)`. No calendar is computed.
  Note that `MonthEnd(1)` applied to a first-of-month date gives the end of
  that same month, not a date one month later.
- `forecast_cash_flows` is a method with a loop (`ForecastCashFlows`). It is
  proved equal to the specification function `Forecast`. The net column is
  added after the loop (`WithNetCashFlow`), as in the source.
  `sensitivity_analysis` is a method with nested loops
  (`SensitivityAnalysis`). It is proved equal to `SensitivityGrid`, and it
  calls the forecasting method for every cell. `dcf_valuation` and the RARM
  are pure functions.
- The valuator requires `d > tg ==> 1 + d != 0`. Without it the discounting
  would divide by zero; numpy would yield infinity, which reals cannot
  represent. Inside the sweep, tg = 0.02, so this always holds.
- The RARM requires `initialInvestment > 0`. The dashboard's input accepts
  nothing below 1.

## Model

| member | source | states |
|---|---|---|
| `Analysis.Pow` | analysis.py:13-14 | `(1+g)**i` is positive for a positive base, non-zero for a non-zero base, and zero for base 0 with i > 0; this is what lets every discounting division go through |
| `Analysis.PowOfOne` | analysis.py:13-14 | a growth factor of 1 raised to any period count is 1 |
| `Analysis.Forecast` | analysis.py:4-19 | fails with MissingColumns exactly when Date, Inflow or Outflow is absent; fails with EmptySeries exactly when the columns are present and there are no rows; succeeds otherwise; on success the frame has exactly the columns Date, Inflow, Outflow and Net Cash Flow, every row's net is its inflow minus its outflow, and there are `periods` rows (none when periods <= 0) |
| `Analysis.ForecastCashFlows` | analysis.py:4-19 | the loop that appends one projected row per period computes exactly `Forecast`, the error cases included |
| `Analysis.ForecastRowValues` | analysis.py:8-18 | row i (1-based) is dated i month ends after the last historical date; its inflow and outflow are the last row's values times (1+g)^i; its net is (lastInflow - lastOutflow)·(1+g)^i |
| `Analysis.ForecastFirstRow` | analysis.py:11-18 | whenever at least one period is forecast, the first row is dated one month end after the last historical date, and its inflow, outflow and net are the last row's values times (1+g) |
| `Analysis.ForecastGrowthStep` | analysis.py:11-18 | each later row is one month end further on, and its inflow, outflow and net are the previous row's values times (1+g) |
| `Analysis.ForecastSeededByLastRow` | analysis.py:8 | two usable frames with the same last row give the same forecast: the earlier rows have no influence |
| `Analysis.ForecastFlatWithoutGrowth` | analysis.py:13-18 | with g = 0 every forecast row repeats the seed's inflow and outflow, so its net is the seed's net |
| `Analysis.DcfValuation` | analysis.py:21-36 | rejects a frame without Net Cash Flow; then rejects every discount rate <= terminal growth, equality included; then rejects an empty forecast; succeeds exactly when none of these holds |
| `Analysis.PresentValueForms` | analysis.py:31-35 | the sum of `cf_i/(1+d)^i` equals an independent backward recursion, in which each flow is discounted one period and everything after it one period more |
| `Analysis.ValuationScales` | analysis.py:28-36 | multiplying every net cash flow by k multiplies the valuation, terminal value included, by k |
| `Analysis.ValuationAdditive` | analysis.py:28-36 | the valuation of two element-wise summed cash-flow series is the sum of their valuations |
| `Analysis.DcfScales` | analysis.py:21-36 | scaling the frame's net column by k leaves the accept/reject decision unchanged and scales an accepted valuation by k |
| `Analysis.ValuationPositive` | analysis.py:31-35 | positive cash flows, d > tg and tg > -1 give a positive valuation |
| `Analysis.SampleScenario` | analysis.py:11-36 | a last row of 125000 in and 92000 out at 2% growth forecasts 12 rows; the first has inflow 127500 and outflow 93840; the valuation at 10% discount and 2% terminal growth is accepted and positive |
| `Analysis.RateAxis` | analysis.py:40-41 | the rate axis has five points: it starts at base - 0.02, steps by 0.01, stays below the stop base + 0.03, and one more step would reach the stop |
| `Analysis.CellValue` | analysis.py:46-51 | on a frame with the required columns and at least one row, a cell is NaN exactly when its discount rate is <= 0.02, and otherwise it is the DCF value of the 12-period forecast's net flows at terminal growth 0.02; on a frame lacking a column or with no rows the cell is NaN |
| `Analysis.SensitivityAnalysis` | analysis.py:38-52 | the nested loops never fail and return exactly 25 cells, equal to `SensitivityGrid`. Cell n has growth base + (n/5 - 2)·0.01 and discount base + (n%5 - 2)·0.01, so growth is the outer loop. On a usable frame a cell is NaN exactly when its discount rate is <= 0.02. On an unusable frame every cell is NaN |
| `Analysis.SensitivityLayout` | analysis.py:40-49 | cell 5j+k holds growth base + (j-2)·0.01 and discount base + (k-2)·0.01 with that pair's valuation: growth is the outer loop, discount the inner |
| `Analysis.SensitivityUnusableSeries` | analysis.py:46-51 | on a frame lacking a required column, or with no rows, every one of the 25 cells is NaN |
| `RiskMetric.TotalRiskScore` | main.py:137-144 | the score lies between the smallest and the largest of the four risks; four equal risks give that risk; four risks in [0,1] give a score in [0,1] |
| `RiskMetric.Rarm` | main.py:145 | score 0 gives valuation/investment; score 1 gives 0; a score below 1 keeps the sign of the valuation; a score in [0,1] puts the metric between 0 and valuation/investment |
| `RiskMetric.RiskAdjustedReturn` | main.py:135-145 | all risks 0 give valuation/investment; all risks 1 give 0; risks in [0,1] give a metric between 0 and valuation/investment |
| `RiskMetric.RarmMonotoneInRisk` | main.py:145 | for a non-negative valuation, a higher total risk score never gives a higher metric |

## Left out

- The Streamlit interface: checkboxes, sliders, file upload and its temporary
  file, CSV reading (main.py:25-63, 86-88, 100-105, 120-122). These are
  presentation and I/O. The slider ranges appear only as the
  `initialInvestment > 0` requirement and the [0,1] hypotheses of the RARM
  lemmas.
- Column mapping and pandas type coercion (main.py:66-84). These are library
  parsing (`pd.to_datetime`, `pd.to_numeric`) whose behaviour is not visible.
- The 10-year Treasury yield fetch and its fallback (main.py:11-16, 107-120).
  This is a network client; the discount rate is an ordinary parameter.
- Charts and the heatmap pivot (main.py:163-189), and the spreadsheet export
  (reporting.py, main.py:191-205). These are presentation and serialisation.
- `data_input.py` and both `journal_entry_bot.py` files: a `read_csv` wrapper
  and print-only stubs.
- Calendar arithmetic with `pd.offsets.MonthEnd` (analysis.py:12). A forecast
  date is kept as the pair (last historical date, number of month ends).
- IEEE floating point: rounding in `**` and `/`, and infinity from a division
  by zero.
- Analysis.RateAxis: states the five points that `np.arange` yields in exact
  arithmetic, not what it yields in floating point. `np.arange` sizes an axis
  as ceil((stop - start) / step), and float drift makes that six for
  reachable inputs. For example, the discount slider value 0.11 (main.py:122)
  gives (0.14 - 0.09) / 0.01 = 5.000000000000002, so the source then has six
  discount points and 30 rows. The model always has 5 x 5 = 25 cells.
- Logging, and the dashboard's error messages after a caught exception.
