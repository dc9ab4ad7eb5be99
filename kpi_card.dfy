/**
 * The KPI row of the home view: the forecast card is coloured by its own
 * inline conditional on the average forecast, which has to agree with the
 * risk classifier.
 */
module KpiCard {
  import opened Risk
  import opened Data
  import opened Metrics

  /**
   * The colour of the forecast KPI, written as `renderKPI` writes it rather
   * than by calling the classifier: the same tier the classifier gives.
   */
  function ForecastColour(avgForecast: real): (c: RiskLevel)
    ensures c == GetRiskLevel(avgForecast)
  {
    if avgForecast < 12.0 then Red
    else if avgForecast < 18.0 then Yellow
    else Green
  }

  /** The numbers of the three KPI cards. */
  datatype KpiRow = KpiRow(avgForecast: real, colour: RiskLevel, avgTarget: real, highRisk: nat)

  /** `renderKPI` without the markup: the averages, the forecast colour and the count. */
  function RenderKpi(projects: seq<Project>): (k: KpiRow)
    requires |projects| > 0
    ensures k.avgForecast == GetAvgForecastMargin(projects)
    ensures k.avgTarget == GetAvgTargetMargin(projects)
    ensures k.colour == GetRiskLevel(k.avgForecast)
    ensures k.highRisk == GetHighRiskCount(projects)
    ensures k.highRisk <= |projects|
  {
    var avg := GetAvgForecastMargin(projects);
    KpiRow(avg, ForecastColour(avg), GetAvgTargetMargin(projects), GetHighRiskCount(projects))
  }

  /** On the shipped table the forecast card shows 15.0 in yellow. */
  lemma ShippedKpiRow()
    ensures RenderKpi(ShippedProjects()) == KpiRow(15.0, Yellow, 19.7, 2)
  {
    ShippedKpis();
  }
}
