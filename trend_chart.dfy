/**
 * The numeric part of the project-detail trend chart: the y-axis range snapped
 * to multiples of 5 with a margin of 5 on each side, the linear maps from week
 * index and margin value to canvas coordinates, and the two label loops.
 * The SVG markup built from these numbers is not modelled.
 */
module TrendChart {
  import opened JsRuntime

  /** Canvas height and paddings, in pixels. */
  const H: real := 180.0
  const PadL: real := 36.0
  const PadR: real := 16.0
  const PadT: real := 16.0
  const PadB: real := 30.0
  const ChartH: real := H - PadT - PadB

  /** `container.clientWidth || 320`: a zero width falls back to 320. */
  function CanvasWidth(clientWidth: nat): (w: nat)
    ensures w > 0
    ensures clientWidth == 0 ==> w == 320
    ensures clientWidth > 0 ==> w == clientWidth
  {
    if clientWidth == 0 then 320 else clientWidth
  }

  /** `Math.floor(Math.min(...values) / 5) * 5 - 5`. */
  function YMin(values: seq<real>): (r: int)
    requires |values| > 0
    ensures r % 5 == 0
    ensures r as real + 5.0 <= MinOf(values) < r as real + 10.0
  {
    (MinOf(values) / 5.0).Floor * 5 - 5
  }

  /** `Math.ceil(Math.max(...values) / 5) * 5 + 5`. */
  function YMax(values: seq<real>): (r: int)
    requires |values| > 0
    ensures r % 5 == 0
    ensures r as real - 10.0 < MaxOf(values) <= r as real - 5.0
  {
    Ceil(MaxOf(values) / 5.0) * 5 + 5
  }

  /** The scale of one chart: canvas width, number of weeks, and the y-axis range. */
  datatype Scale = Scale(width: nat, weeks: nat, yMin: int, yMax: int)
  {
    /** `chartW = W - padL - padR`. */
    function ChartW(): real { width as real - PadL - PadR }
  }

  /**
   * The scale `drawTrendChart` sets up for a trend and its target: the axis
   * range holds every sample and the target with at least 5 to spare on each
   * side, so the range is at least 10 wide.
   */
  function MakeScale(trend: seq<real>, target: real, clientWidth: nat): (s: Scale)
    ensures s.weeks == |trend| && s.width == CanvasWidth(clientWidth)
    ensures s.yMin % 5 == 0 && s.yMax % 5 == 0
    ensures s.yMax - s.yMin >= 10
    ensures forall i :: 0 <= i < |trend| ==> s.yMin as real + 5.0 <= trend[i] <= s.yMax as real - 5.0
    ensures s.yMin as real + 5.0 <= target <= s.yMax as real - 5.0
  {
    var all := trend + [target];
    assert all[|trend|] == target;
    assert forall i :: 0 <= i < |trend| ==> all[i] == trend[i];
    Scale(CanvasWidth(clientWidth), |trend|, YMin(all), YMax(all))
  }

  /** `xPos(i)`: week i of `weeks` spread evenly across the plot width. */
  function XPos(s: Scale, i: int): (x: real)
    requires s.weeks >= 2
    ensures i == 0 ==> x == PadL
    ensures i == s.weeks - 1 ==> x == PadL + s.ChartW()
  {
    PadL + (i as real / (s.weeks - 1) as real) * s.ChartW()
  }

  /** `yPos(v)`: a value on the axis range mapped onto the plot height, upside down. */
  function YPos(s: Scale, v: real): (y: real)
    requires s.yMin < s.yMax
    ensures v == s.yMin as real ==> y == PadT + ChartH
    ensures v == s.yMax as real ==> y == PadT
  {
    PadT + ChartH - ((v - s.yMin as real) / (s.yMax - s.yMin) as real) * ChartH
  }

  /** For a positive d, a/d lies in [0, 1] when a does in [0, d], strictly so inside. */
  lemma FractionBounds(a: real, d: real)
    requires d > 0.0 && 0.0 <= a <= d
    ensures 0.0 <= a / d <= 1.0
    ensures 0.0 < a < d ==> 0.0 < a / d < 1.0
  {
    assert d * (a / d) == a;
  }

  /** Dividing by a positive number keeps the order strict. */
  lemma DivideStrict(a: real, b: real, d: real)
    requires d > 0.0 && a < b
    ensures a / d < b / d
  {
    assert d * (a / d) == a && d * (b / d) == b;
  }

  /** The first week sits on the left padding, the last on the right edge of the plot. */
  lemma XPosEnds(s: Scale)
    requires s.weeks >= 2
    ensures XPos(s, 0) == PadL
    ensures XPos(s, s.weeks - 1) == PadL + s.ChartW()
  {
  }

  /** On a plot of positive width, a later week is strictly further right. */
  lemma XPosIncreasing(s: Scale, i: int, j: int)
    requires s.weeks >= 2 && s.ChartW() > 0.0
    requires i < j
    ensures XPos(s, i) < XPos(s, j)
  {
    var n := (s.weeks - 1) as real;
    DivideStrict(i as real, j as real, n);
    var w := s.ChartW();
    assert (j as real / n) * w - (i as real / n) * w == (j as real / n - i as real / n) * w;
  }

  /** Every week of the trend lies on the plot's horizontal extent. */
  lemma XPosInside(s: Scale, i: int)
    requires s.weeks >= 2 && s.ChartW() >= 0.0
    requires 0 <= i < s.weeks
    ensures PadL <= XPos(s, i) <= PadL + s.ChartW()
  {
    var n := (s.weeks - 1) as real;
    FractionBounds(i as real, n);
    var f := i as real / n;
    var w := s.ChartW();
    assert f * w <= w by {
      assert w - f * w == (1.0 - f) * w;
    }
  }

  /** The bottom of the axis maps to the bottom of the plot and the top to the top. */
  lemma YPosEnds(s: Scale)
    requires s.yMin < s.yMax
    ensures YPos(s, s.yMin as real) == PadT + ChartH
    ensures YPos(s, s.yMax as real) == PadT
  {
  }

  /** A larger value is drawn strictly higher up, that is, at a smaller y. */
  lemma YPosDecreasing(s: Scale, u: real, v: real)
    requires s.yMin < s.yMax
    requires u < v
    ensures YPos(s, v) < YPos(s, u)
  {
    DivideStrict(u - s.yMin as real, v - s.yMin as real, (s.yMax - s.yMin) as real);
  }

  /** A value on the axis range is drawn inside the plot, strictly inside when off the ends. */
  lemma YPosInside(s: Scale, v: real)
    requires s.yMin < s.yMax
    requires s.yMin as real <= v <= s.yMax as real
    ensures PadT <= YPos(s, v) <= PadT + ChartH
    ensures s.yMin as real < v < s.yMax as real ==> PadT < YPos(s, v) < PadT + ChartH
  {
    FractionBounds(v - s.yMin as real, (s.yMax - s.yMin) as real);
  }

  /**
   * Every sample of a trend and its target line are drawn strictly inside the
   * plot vertically, whatever the number of weeks; with at least two weeks on
   * a plot of non-negative width every sample is inside it horizontally.
   */
  lemma TrendFitsPlot(trend: seq<real>, target: real, clientWidth: nat)
    ensures var s := MakeScale(trend, target, clientWidth);
            && (forall i :: 0 <= i < |trend| ==> PadT < YPos(s, trend[i]) < PadT + ChartH)
            && PadT < YPos(s, target) < PadT + ChartH
            && (|trend| >= 2 && s.ChartW() >= 0.0
                ==> forall i :: 0 <= i < |trend| ==> PadL <= XPos(s, i) <= PadL + s.ChartW())
  {
    var s := MakeScale(trend, target, clientWidth);
    forall i | 0 <= i < |trend| ensures PadT < YPos(s, trend[i]) < PadT + ChartH {
      YPosInside(s, trend[i]);
    }
    YPosInside(s, target);
    if |trend| >= 2 && s.ChartW() >= 0.0 {
      forall i | 0 <= i < |trend| ensures PadL <= XPos(s, i) <= PadL + s.ChartW() {
        XPosInside(s, i);
      }
    }
  }

  // ---------------------------------------------------------------------------
  // The label loops

  /** A horizontal gridline with its tick label: the value and its y coordinate. */
  datatype GridLine = GridLine(value: int, y: real)

  /** A week label `W<week>` at its x coordinate. */
  datatype WeekLabel = WeekLabel(x: real, week: nat)

  /**
   * The y-axis loop `for (v = yMin; v <= yMax; v += 5)`: one gridline per step
   * of 5 from yMin up to yMax, each at the y coordinate of its value, all
   * inside the plot and each strictly above the one before.
   */
  method YAxisGridLines(s: Scale) returns (lines: seq<GridLine>)
    requires s.yMin < s.yMax
    ensures |lines| == (s.yMax - s.yMin) / 5 + 1
    ensures forall k :: 0 <= k < |lines| ==> lines[k].value == s.yMin + 5 * k
    ensures forall k :: 0 <= k < |lines| ==> lines[k].y == YPos(s, lines[k].value as real)
    ensures forall k :: 0 <= k < |lines| ==> PadT <= lines[k].y <= PadT + ChartH
    ensures forall k :: 0 < k < |lines| ==> lines[k].y < lines[k - 1].y
  {
    lines := [];
    var v := s.yMin;
    while v <= s.yMax
      invariant v == s.yMin + 5 * |lines|
      invariant v <= s.yMax + 5
      invariant forall k :: 0 <= k < |lines| ==> lines[k].value == s.yMin + 5 * k
      invariant forall k :: 0 <= k < |lines| ==> lines[k].y == YPos(s, lines[k].value as real)
      invariant forall k :: 0 <= k < |lines| ==> PadT <= lines[k].y <= PadT + ChartH
      invariant forall k :: 0 < k < |lines| ==> lines[k].y < lines[k - 1].y
      decreases s.yMax - v
    {
      YPosInside(s, v as real);
      if |lines| > 0 {
        YPosDecreasing(s, (v - 5) as real, v as real);
      }
      lines := lines + [GridLine(v, YPos(s, v as real))];
      v := v + 5;
    }
    assert s.yMax - s.yMin < 5 * |lines| <= s.yMax - s.yMin + 5;
  }

  /**
   * On a range whose ends are multiples of 5, the gridline values are exactly
   * the multiples of 5 from yMin to yMax.
   */
  lemma GridLinesAreMultiplesOfFive(s: Scale, lines: seq<GridLine>)
    requires s.yMin < s.yMax && s.yMin % 5 == 0
    requires |lines| == (s.yMax - s.yMin) / 5 + 1
    requires forall k :: 0 <= k < |lines| ==> lines[k].value == s.yMin + 5 * k
    ensures forall v :: (exists k :: 0 <= k < |lines| && lines[k].value == v)
                        <==> s.yMin <= v <= s.yMax && v % 5 == 0
  {
    forall v ensures (exists k :: 0 <= k < |lines| && lines[k].value == v)
                     <==> s.yMin <= v <= s.yMax && v % 5 == 0
    {
      if s.yMin <= v <= s.yMax && v % 5 == 0 {
        var k := (v - s.yMin) / 5;
        assert lines[k].value == v;
      }
    }
  }

  /** The x-axis loop `for (i = 0; i < weeks; i++)`: label `W(i+1)` at `xPos(i)`. */
  method WeekLabels(s: Scale) returns (labels: seq<WeekLabel>)
    requires s.weeks >= 2
    ensures |labels| == s.weeks
    ensures forall i :: 0 <= i < s.weeks ==> labels[i] == WeekLabel(XPos(s, i), i + 1)
    ensures labels[0].x == PadL && labels[s.weeks - 1].x == PadL + s.ChartW()
  {
    labels := [];
    for i := 0 to s.weeks
      invariant |labels| == i
      invariant forall k :: 0 <= k < i ==> labels[k] == WeekLabel(XPos(s, k), k + 1)
    {
      labels := labels + [WeekLabel(XPos(s, i), i + 1)];
    }
    XPosEnds(s);
  }
}
