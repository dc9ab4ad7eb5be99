/**
 * The dashboard's derived numbers: the two monthly KPI averages, the count of
 * high-risk projects, and the loss implied by a project's margin shortfall.
 */
module Metrics {
  import opened JsRuntime
  import opened Risk
  import opened Data

  function ForecastOf(p: Project): real { p.forecastMarginPct }
  function TargetOf(p: Project): real { p.targetMarginPct }

  /** `projects.reduce((s, p) => s + field(p), 0)`, folded from the left. */
  function SumOf(ps: seq<Project>, field: Project -> real): real
  {
    if ps == [] then 0.0 else SumOf(ps[..|ps| - 1], field) + field(ps[|ps| - 1])
  }

  /** The exact mean of a field over a non-empty table. */
  function Mean(ps: seq<Project>, field: Project -> real): real
    requires |ps| > 0
  {
    SumOf(ps, field) / |ps| as real
  }

  /** `Math.round(x * 10) / 10`: x to one decimal place, a tie going up. */
  function RoundToTenth(x: real): (r: real)
    ensures x - 0.05 < r <= x + 0.05
    ensures (r * 10.0).Floor as real == r * 10.0
  {
    Round(x * 10.0) as real / 10.0
  }

  /**
   * `getAvgForecastMargin`: the mean forecast margin to one decimal. The
   * source divides by the table's length, so the table must not be empty.
   */
  function GetAvgForecastMargin(projects: seq<Project>): (r: real)
    requires |projects| > 0
    ensures Mean(projects, ForecastOf) - 0.05 < r <= Mean(projects, ForecastOf) + 0.05
    ensures (r * 10.0).Floor as real == r * 10.0
  {
    RoundToTenth(SumOf(projects, ForecastOf) / |projects| as real)
  }

  /** `getAvgTargetMargin`: the mean target margin to one decimal, on a non-empty table. */
  function GetAvgTargetMargin(projects: seq<Project>): (r: real)
    requires |projects| > 0
    ensures Mean(projects, TargetOf) - 0.05 < r <= Mean(projects, TargetOf) + 0.05
    ensures (r * 10.0).Floor as real == r * 10.0
  {
    RoundToTenth(SumOf(projects, TargetOf) / |projects| as real)
  }

  /** A sum of n values that all lie in [lo, hi] lies in [n * lo, n * hi]. */
  lemma {:induction false} SumBounds(ps: seq<Project>, field: Project -> real, lo: real, hi: real)
    requires forall i :: 0 <= i < |ps| ==> lo <= field(ps[i]) <= hi
    ensures |ps| as real * lo <= SumOf(ps, field) <= |ps| as real * hi
    decreases |ps|
  {
    if ps != [] {
      var init := ps[..|ps| - 1];
      SumBounds(init, field, lo, hi);
      assert |ps| as real * lo == |init| as real * lo + lo;
      assert |ps| as real * hi == |init| as real * hi + hi;
    }
  }

  /** The mean of values that all lie in [lo, hi] lies in [lo, hi]. */
  lemma MeanBounds(ps: seq<Project>, field: Project -> real, lo: real, hi: real)
    requires |ps| > 0
    requires forall i :: 0 <= i < |ps| ==> lo <= field(ps[i]) <= hi
    ensures lo <= Mean(ps, field) <= hi
  {
    SumBounds(ps, field, lo, hi);
    var n := |ps| as real;
    var s := SumOf(ps, field);
    assert s / n >= lo by {
      assert n * (s / n) == s;
    }
    assert s / n <= hi by {
      assert n * (s / n) == s;
    }
  }

  /**
   * The forecast KPI lies within 0.05 of the range of the forecasts themselves,
   * so it is never outside what some project forecasts.
   */
  lemma AvgForecastWithinRange(projects: seq<Project>, lo: real, hi: real)
    requires |projects| > 0
    requires forall i :: 0 <= i < |projects| ==> lo <= projects[i].forecastMarginPct <= hi
    ensures lo - 0.05 < GetAvgForecastMargin(projects) <= hi + 0.05
  {
    MeanBounds(projects, ForecastOf, lo, hi);
  }

  /** The positions of the red projects. */
  ghost function RedPositions(ps: seq<Project>): set<int>
  {
    set i | 0 <= i < |ps| && ps[i].forecastMarginPct < RedBelow
  }

  /** The red group has one entry per red position of the table. */
  lemma {:induction false} RedCount(ps: seq<Project>)
    ensures |OfLevel(ps, Red)| == |RedPositions(ps)|
    decreases |ps|
  {
    if ps != [] {
      var n := |ps| - 1;
      var init := ps[..n];
      RedCount(init);
      assert forall i :: 0 <= i < n ==> init[i] == ps[i];
      if ps[n].forecastMarginPct < RedBelow {
        assert RedPositions(ps) == RedPositions(init) + {n};
      } else {
        assert RedPositions(ps) == RedPositions(init);
      }
    }
  }

  /** `getHighRiskCount`: how many projects are red, that is, forecast below 12. */
  function GetHighRiskCount(projects: seq<Project>): (r: nat)
    ensures r == |set i | 0 <= i < |projects| && projects[i].forecastMarginPct < 12.0|
  {
    RedCount(projects);
    |OfLevel(projects, Red)|
  }

  /** The exact money a project stands to lose: its contract times the margin gap. */
  function Shortfall(p: Project): real
  {
    p.contractAmount as real * (p.targetMarginPct - p.forecastMarginPct) / 100.0
  }

  /**
   * `estimateLoss`: nothing when the forecast meets the target; otherwise the
   * shortfall rounded to a whole currency unit, never negative for a
   * non-negative contract.
   */
  function EstimateLoss(p: Project): (r: int)
    ensures p.targetMarginPct <= p.forecastMarginPct ==> r == 0
    ensures p.forecastMarginPct < p.targetMarginPct
            ==> Shortfall(p) - 0.5 < r as real <= Shortfall(p) + 0.5
    ensures p.contractAmount >= 0 ==> r >= 0
  {
    var diff := p.targetMarginPct - p.forecastMarginPct;
    if diff <= 0.0 then 0
    else
      assert p.contractAmount as real * (diff / 100.0) == Shortfall(p);
      assert p.contractAmount >= 0 ==> p.contractAmount as real * (diff / 100.0) >= 0.0;
      Round(p.contractAmount as real * (diff / 100.0))
  }

  /**
   * For one contract and one target, a lower forecast never estimates a
   * smaller loss.
   */
  lemma LossGrowsWithGap(p: Project, q: Project)
    requires p.contractAmount == q.contractAmount >= 0
    requires p.targetMarginPct == q.targetMarginPct
    requires q.forecastMarginPct <= p.forecastMarginPct
    ensures EstimateLoss(p) <= EstimateLoss(q)
  {
    if p.forecastMarginPct < p.targetMarginPct {
      var a := p.contractAmount as real;
      var dp := p.targetMarginPct - p.forecastMarginPct;
      var dq := q.targetMarginPct - q.forecastMarginPct;
      assert a * (dp / 100.0) <= a * (dq / 100.0) by {
        assert a * (dq / 100.0) - a * (dp / 100.0) == a * ((dq - dp) / 100.0);
      }
      RoundMonotone(a * (dp / 100.0), a * (dq / 100.0));
    }
  }

  // ---------------------------------------------------------------------------
  // The shipped table

  /** The loss shown for P001: 5835168 at target 20 and forecast 9. */
  lemma ShippedLossOfP001()
    ensures EstimateLoss(ShippedProjects()[0]) == 641868
  {
    var p := ShippedProjects()[0];
    assert Shortfall(p) == 641868.48;
  }

  /** The KPI row for the shipped table: 15.0 forecast, 19.7 target, 2 high-risk. */
  lemma ShippedKpis()
    ensures GetAvgForecastMargin(ShippedProjects()) == 15.0
    ensures GetAvgTargetMargin(ShippedProjects()) == 19.7
    ensures GetHighRiskCount(ShippedProjects()) == 2
  {
    var ps := ShippedProjects();
    forall k | 1 <= k <= |ps| ensures ps[..k][..k - 1] == ps[..k - 1] { }
    assert SumOf(ps[..0], ForecastOf) == 0.0 && SumOf(ps[..0], TargetOf) == 0.0;
    assert SumOf(ps[..1], ForecastOf) == 9.0 && SumOf(ps[..1], TargetOf) == 20.0;
    assert SumOf(ps[..2], ForecastOf) == 16.0 && SumOf(ps[..2], TargetOf) == 38.0;
    assert SumOf(ps[..3], ForecastOf) == 31.0 && SumOf(ps[..3], TargetOf) == 58.0;
    assert SumOf(ps[..4], ForecastOf) == 47.0 && SumOf(ps[..4], TargetOf) == 80.0;
    assert SumOf(ps[..5], ForecastOf) == 68.0 && SumOf(ps[..5], TargetOf) == 98.0;
    assert ps[..6] == ps;
    assert SumOf(ps, ForecastOf) == 90.0 && SumOf(ps, TargetOf) == 118.0;
    assert RedPositions(ps) == {0, 1};
  }
}
