/** The renewable-energy risk-adjusted return metric (RARM) of main.py: four
    risk estimates in [0, 1] are averaged with equal weights, and the DCF
    valuation per unit of initial investment is scaled by one minus that
    score. */
module RiskMetric {

  /** The range of every risk slider: 0 is no risk, 1 extreme risk. */
  predicate InUnitInterval(x: real)
  {
    0.0 <= x <= 1.0
  }

  predicate AllInUnitInterval(policy: real, intermittency: real, market: real, operational: real)
  {
    InUnitInterval(policy) && InUnitInterval(intermittency) &&
    InUnitInterval(market) && InUnitInterval(operational)
  }

  function Min(a: real, b: real): (m: real)
  {
    if a <= b then a else b
  }

  function Max(a: real, b: real): (m: real)
  {
    if a <= b then b else a
  }

  /** x lies between a and b, in whichever order they come. */
  predicate Between(x: real, a: real, b: real)
  {
    Min(a, b) <= x <= Max(a, b)
  }

  /** The equal-weight mean of the four risk estimates. */
  function TotalRiskScore(policy: real, intermittency: real, market: real, operational: real)
    : (score: real)
    ensures Min(Min(policy, intermittency), Min(market, operational)) <= score
    ensures score <= Max(Max(policy, intermittency), Max(market, operational))
    ensures policy == intermittency == market == operational ==> score == policy
    ensures AllInUnitInterval(policy, intermittency, market, operational) ==> InUnitInterval(score)
  {
    (policy + intermittency + market + operational) / 4.0
  }

  /** The valuation per unit invested, discounted by the share of risk. The
      initial-investment input accepts nothing below 1. */
  function Rarm(valuation: real, initialInvestment: real, score: real): (rarm: real)
    requires initialInvestment > 0.0
    ensures score == 0.0 ==> rarm == valuation / initialInvestment
    ensures score == 1.0 ==> rarm == 0.0
    ensures score < 1.0 ==> (rarm > 0.0 <==> valuation > 0.0) && (rarm < 0.0 <==> valuation < 0.0)
    ensures InUnitInterval(score) ==> Between(rarm, 0.0, valuation / initialInvestment)
  {
    var ratio := valuation / initialInvestment;
    SignOfQuotient(valuation, initialInvestment);
    ScaledBetween(ratio, 1.0 - score);
    SignOfProduct(ratio, 1.0 - score);
    ratio * (1.0 - score)
  }

  lemma SignOfQuotient(a: real, b: real)
    requires b > 0.0
    ensures (a / b > 0.0 <==> a > 0.0) && (a / b < 0.0 <==> a < 0.0)
  {
  }

  lemma SignOfProduct(a: real, f: real)
    ensures f > 0.0 ==> (a * f > 0.0 <==> a > 0.0) && (a * f < 0.0 <==> a < 0.0)
  {
  }

  lemma MulNonNeg(x: real, y: real)
    requires x >= 0.0 && y >= 0.0
    ensures x * y >= 0.0
  {
  }

  /** A fraction f in [0, 1] of a lies between 0 and a: a*f and a*(1-f) share
      the sign of a and add up to a. */
  lemma ScaledBetween(a: real, f: real)
    ensures InUnitInterval(f) ==> Between(a * f, 0.0, a)
  {
    if InUnitInterval(f) {
      var g := 1.0 - f;
      assert a * f + a * g == a * (f + g);
      if a >= 0.0 {
        MulNonNeg(a, f);
        MulNonNeg(a, g);
      } else {
        MulNonNeg(-a, f);
        MulNonNeg(-a, g);
        assert (-a) * f == -(a * f) && (-a) * g == -(a * g);
      }
    }
  }

  /** The metric as the dashboard computes it from the four risk inputs. */
  function RiskAdjustedReturn(valuation: real, initialInvestment: real,
                              policy: real, intermittency: real, market: real, operational: real)
    : (rarm: real)
    requires initialInvestment > 0.0
    ensures policy == 0.0 && intermittency == 0.0 && market == 0.0 && operational == 0.0
            ==> rarm == valuation / initialInvestment
    ensures policy == 1.0 && intermittency == 1.0 && market == 1.0 && operational == 1.0
            ==> rarm == 0.0
    ensures AllInUnitInterval(policy, intermittency, market, operational)
            ==> Between(rarm, 0.0, valuation / initialInvestment)
  {
    Rarm(valuation, initialInvestment, TotalRiskScore(policy, intermittency, market, operational))
  }

  /** For a non-negative valuation, more total risk never raises the metric. */
  lemma RarmMonotoneInRisk(valuation: real, initialInvestment: real, lower: real, higher: real)
    requires initialInvestment > 0.0 && valuation >= 0.0
    requires lower <= higher
    ensures Rarm(valuation, initialInvestment, higher) <= Rarm(valuation, initialInvestment, lower)
  {
    var ratio := valuation / initialInvestment;
    assert ratio >= 0.0;
    assert ratio * (1.0 - higher) <= ratio * (1.0 - lower);
  }
}
