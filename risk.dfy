/**
 * The three-tier risk classifier of the dashboard: a project's forecast gross
 * margin (a percentage) decides its tier, red below 12, yellow below 18,
 * green from 18 up. The tier is never stored; it is always derived.
 */
module Risk {

  datatype RiskLevel = Red | Yellow | Green

  /** Margins below this are red. */
  const RedBelow: real := 12.0
  /** Margins below this (and not red) are yellow. */
  const YellowBelow: real := 18.0

  /** `getRiskLevel`: the tier of a forecast margin, with no clamping of the input. */
  function GetRiskLevel(forecastMarginPct: real): (r: RiskLevel)
    ensures r == Red <==> forecastMarginPct < 12.0
    ensures r == Yellow <==> 12.0 <= forecastMarginPct < 18.0
    ensures r == Green <==> 18.0 <= forecastMarginPct
  {
    if forecastMarginPct < RedBelow then Red
    else if forecastMarginPct < YellowBelow then Yellow
    else Green
  }

  /** The sort order `{ red: 0, yellow: 1, green: 2 }`: the most severe tier first. */
  function Order(level: RiskLevel): (n: nat)
    ensures n <= 2
    ensures level == Red <==> n == 0
    ensures level == Green <==> n == 2
  {
    match level
    case Red => 0
    case Yellow => 1
    case Green => 2
  }

  /** A larger margin is never in a more severe tier. */
  lemma RiskLevelMonotone(x: real, y: real)
    requires x <= y
    ensures Order(GetRiskLevel(x)) <= Order(GetRiskLevel(y))
  {
  }

  /** Margins in the same tier are exactly those on the same side of both thresholds. */
  lemma SameLevelIffSameBand(x: real, y: real)
    ensures GetRiskLevel(x) == GetRiskLevel(y)
            <==> (x < 12.0 <==> y < 12.0) && (x < 18.0 <==> y < 18.0)
  {
  }
}
