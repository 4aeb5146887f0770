/** The drawable geometry of the three chart kinds: bars of a column chart,
    points and paths of a line chart, wedges of a pie chart. */
module Geometry {
  import opened Options
  import opened Canvas
  import opened Scale

  // ---------------------------------------------------------------------
  // Vector paths
  // ---------------------------------------------------------------------

  /** One instruction of a 2D vector path (move, line, elliptical arc, close). */
  datatype PathCmd =
    | MoveTo(x: real, y: real)
    | LineTo(x: real, y: real)
    | ArcTo(rx: real, ry: real, rotation: real, largeArc: int, sweep: int, x: real, y: real)
    | ClosePath

  /** One sub-path: a move first, then only drawing commands, and a close
      command, if any, only at the very end. */
  predicate IsSubpath(path: seq<PathCmd>)
  {
    |path| > 0 && path[0].MoveTo? &&
    (forall i :: 0 < i < |path| ==> !path[i].MoveTo?) &&
    (forall i :: 0 <= i < |path| - 1 ==> !path[i].ClosePath?)
  }

  /** A sub-path that is closed. */
  predicate IsClosedPath(path: seq<PathCmd>)
  {
    IsSubpath(path) && path[|path| - 1].ClosePath?
  }

  // ---------------------------------------------------------------------
  // The data maximum
  // ---------------------------------------------------------------------

  /** The largest value of a non-empty series. */
  function MaxValue(series: seq<DataPoint>): (m: real)
    requires |series| > 0
    ensures forall i :: 0 <= i < |series| ==> series[i].value <= m
    ensures exists i :: 0 <= i < |series| && series[i].value == m
  {
    if |series| == 1 then series[0].value
    else
      var rest := MaxValue(series[1..]);
      assert forall i :: 1 <= i < |series| ==> series[i] == series[1..][i - 1];
      if series[0].value >= rest then series[0].value else rest
  }

  // ---------------------------------------------------------------------
  // Column chart
  // ---------------------------------------------------------------------

  /** 40% of the inner width is left for the gaps. */
  function TotalGap(innerWidth: real): (g: real)
    ensures innerWidth >= 0.0 ==> 0.0 <= g <= innerWidth
  {
    innerWidth * 0.4
  }

  /** The width of each of n bars. */
  function BarWidth(innerWidth: real, n: nat): real
    requires n > 0
  {
    (innerWidth - TotalGap(innerWidth)) / n as real
  }

  /** The width of each of the n + 1 gaps around n bars. */
  function BarGap(innerWidth: real, n: nat): real
  {
    TotalGap(innerWidth) / (n + 1) as real
  }

  /** One drawn bar, carrying its data point for labels and tooltips. */
  datatype Bar = Bar(x: real, y: real, width: real, height: real, color: string, name: string, value: real)

  /** Bar i: after i bars and i + 1 gaps, rising from the baseline. */
  function ColumnBar(p: DataPoint, i: nat, nicedMax: real, barWidth: real, barGap: real, innerHeight: real): Bar
    requires nicedMax > 0.0
  {
    var h := BarHeight(p.value, nicedMax, innerHeight);
    Bar(PaddingLeft + barGap + i as real * (barWidth + barGap), PaddingTop + innerHeight - h,
        barWidth, h, p.color, p.name, p.value)
  }

  /** The bars of a column chart, one per data point. */
  function ColumnBars(series: seq<DataPoint>, nicedMax: real, barWidth: real, barGap: real, innerHeight: real): (bars: seq<Bar>)
    requires nicedMax > 0.0
    ensures |bars| == |series|
  {
    seq(|series|, i requires 0 <= i < |series| => ColumnBar(series[i], i, nicedMax, barWidth, barGap, innerHeight))
  }

  /** n bars and n + 1 gaps fill the inner width exactly, the gaps taking 40%
      of it and the bars 60%; on a non-negative width neither bars nor gaps are
      negative. */
  lemma ColumnSpacing(innerWidth: real, n: nat)
    requires n > 0
    ensures (n as real) * BarWidth(innerWidth, n) + ((n + 1) as real) * BarGap(innerWidth, n) == innerWidth
    ensures innerWidth >= 0.0 ==> BarWidth(innerWidth, n) >= 0.0 && BarGap(innerWidth, n) >= 0.0
    ensures ((n + 1) as real) * BarGap(innerWidth, n) == 0.4 * innerWidth
    ensures (n as real) * BarWidth(innerWidth, n) == 0.6 * innerWidth
  {
    var w := innerWidth * 0.6;
    var g := innerWidth * 0.4;
    assert (n as real) * (w / n as real) == w;
    assert ((n + 1) as real) * (g / (n + 1) as real) == g;
    if innerWidth >= 0.0 {
      MulMono(0.0, w / n as real, n as real);
      MulMono(0.0, g / (n + 1) as real, (n + 1) as real);
    }
  }

  /** i steps of a fixed stride, one step further. */
  lemma StrideStep(i: real, stride: real)
    ensures (i + 1.0) * stride == i * stride + stride
  {
  }

  /** The bar layout: the first bar starts one gap in, consecutive bars are one
      bar width plus one gap apart, the last bar ends one gap before the right
      edge, every bar stands on the baseline, and each bar carries its data
      point, in input order. */
  lemma ColumnBarsLayout(series: seq<DataPoint>, nicedMax: real, innerWidth: real, innerHeight: real)
    requires |series| > 0 && nicedMax > 0.0
    ensures var n := |series|;
            var w := BarWidth(innerWidth, n);
            var g := BarGap(innerWidth, n);
            var bars := ColumnBars(series, nicedMax, w, g, innerHeight);
            && bars[0].x == PaddingLeft + g
            && (forall i :: 0 <= i < n - 1 ==> bars[i + 1].x == bars[i].x + w + g)
            && bars[n - 1].x + w + g == PaddingLeft + innerWidth
            && (forall i :: 0 <= i < n ==>
                  bars[i].y + bars[i].height == PaddingTop + innerHeight &&
                  bars[i].width == w &&
                  bars[i].name == series[i].name && bars[i].value == series[i].value &&
                  bars[i].color == series[i].color)
  {
    var n := |series|;
    var w := BarWidth(innerWidth, n);
    var g := BarGap(innerWidth, n);
    ColumnBarsSpacing(series, nicedMax, w, g, innerHeight);
    ColumnBarsOnBaseline(series, nicedMax, w, g, innerHeight);
    ColumnSpacing(innerWidth, n);
    LastBarEnd(n as real, w, g, innerWidth);
  }

  /** Horizontal placement of the bars for any width and gap. */
  lemma ColumnBarsSpacing(series: seq<DataPoint>, nicedMax: real, w: real, g: real, innerHeight: real)
    requires |series| > 0 && nicedMax > 0.0
    ensures var bars := ColumnBars(series, nicedMax, w, g, innerHeight);
            && bars[0].x == PaddingLeft + g
            && (forall i :: 0 <= i < |series| - 1 ==> bars[i + 1].x == bars[i].x + w + g)
            && bars[|series| - 1].x == PaddingLeft + g + (|series| as real - 1.0) * (w + g)
  {
    var bars := ColumnBars(series, nicedMax, w, g, innerHeight);
    forall i | 0 <= i < |series| - 1
      ensures bars[i + 1].x == bars[i].x + w + g
    {
      StrideStep(i as real, w + g);
    }
  }

  /** Every bar stands on the baseline, has the common width and carries its data point. */
  lemma ColumnBarsOnBaseline(series: seq<DataPoint>, nicedMax: real, w: real, g: real, innerHeight: real)
    requires nicedMax > 0.0
    ensures var bars := ColumnBars(series, nicedMax, w, g, innerHeight);
            forall i :: 0 <= i < |series| ==>
              bars[i].y + bars[i].height == PaddingTop + innerHeight &&
              bars[i].width == w &&
              bars[i].name == series[i].name && bars[i].value == series[i].value &&
              bars[i].color == series[i].color
  {
  }

  lemma LastBarEnd(n: real, w: real, g: real, width: real)
    requires n * w + (n + 1.0) * g == width
    ensures g + (n - 1.0) * (w + g) + w + g == width
  {
  }

  /** With the axis maximum taken from the data, bar i is no taller than the
      inner height and its top does not rise above the inner rectangle. */
  lemma ColumnBarFits(series: seq<DataPoint>, innerWidth: real, innerHeight: real, i: nat)
    requires i < |series| && innerHeight >= 0.0
    ensures var n := |series|;
            var bar := ColumnBars(series, NiceMax(MaxValue(series)), BarWidth(innerWidth, n), BarGap(innerWidth, n), innerHeight)[i];
            bar.height <= innerHeight && bar.y >= PaddingTop
  {
    ValueBelowNiceMax(series, i);
    BarHeightBounds(series[i].value, NiceMax(MaxValue(series)), innerHeight);
  }

  /** Every value of the series is at most the axis maximum derived from it. */
  lemma ValueBelowNiceMax(series: seq<DataPoint>, i: nat)
    requires i < |series|
    ensures series[i].value <= NiceMax(MaxValue(series))
  {
    var m := MaxValue(series);
    if m <= 0.0 {
      assert series[i].value <= m <= 0.0 < 10.0;
    }
  }

  // ---------------------------------------------------------------------
  // Line chart
  // ---------------------------------------------------------------------

  /** One point of a line chart, carrying its data point. */
  datatype LinePoint = LinePoint(x: real, y: real, value: real, name: string, color: string)

  /** Horizontal distance between consecutive points. */
  function StepX(innerWidth: real, n: nat): real
  {
    innerWidth / (if n > 1 then (n - 1) as real else 1.0)
  }

  /** Point i of n: spread over the inner width, or centred when alone. */
  function LinePointAt(p: DataPoint, i: nat, n: nat, nicedMax: real, innerWidth: real, innerHeight: real): LinePoint
    requires nicedMax > 0.0
  {
    LinePoint(PaddingLeft + (if n == 1 then innerWidth / 2.0 else i as real * StepX(innerWidth, n)),
              ValueToY(p.value, nicedMax, innerHeight), p.value, p.name, p.color)
  }

  /** The points of a line chart, one per data point. */
  function LinePoints(series: seq<DataPoint>, nicedMax: real, innerWidth: real, innerHeight: real): (points: seq<LinePoint>)
    requires nicedMax > 0.0
    ensures |points| == |series|
  {
    seq(|series|, i requires 0 <= i < |series| => LinePointAt(series[i], i, |series|, nicedMax, innerWidth, innerHeight))
  }

  /** Points spread evenly from the left edge to the right edge of the inner
      rectangle (a single point sits in the middle), each at the height of the
      column-chart bar top for its value, carrying its data point in order. */
  lemma LinePointsLayout(series: seq<DataPoint>, nicedMax: real, innerWidth: real, innerHeight: real)
    requires |series| > 0 && nicedMax > 0.0
    ensures var n := |series|;
            var pts := LinePoints(series, nicedMax, innerWidth, innerHeight);
            var bars := ColumnBars(series, nicedMax, BarWidth(innerWidth, n), BarGap(innerWidth, n), innerHeight);
            && (n == 1 ==> pts[0].x == PaddingLeft + innerWidth / 2.0)
            && (n > 1 ==> pts[0].x == PaddingLeft && pts[n - 1].x == PaddingLeft + innerWidth)
            && (n > 1 ==> forall i :: 0 <= i < n - 1 ==> pts[i + 1].x - pts[i].x == innerWidth / (n - 1) as real)
            && (forall i :: 0 <= i < n ==>
                  pts[i].y == bars[i].y &&
                  pts[i].name == series[i].name && pts[i].value == series[i].value &&
                  pts[i].color == series[i].color)
  {
    var n := |series|;
    var pts := LinePoints(series, nicedMax, innerWidth, innerHeight);
    if n > 1 {
      var step := innerWidth / (n - 1) as real;
      assert ((n - 1) as real) * step == innerWidth;
      forall i | 0 <= i < n - 1
        ensures pts[i + 1].x - pts[i].x == step
      {
        StrideStep(i as real, step);
      }
    }
  }

  /** The polyline: a move to the first point, then a line to each later point. */
  function Polyline(points: seq<LinePoint>): (path: seq<PathCmd>)
    ensures |path| == |points|
  {
    seq(|points|, i requires 0 <= i < |points| =>
      if i == 0 then MoveTo(points[i].x, points[i].y) else LineTo(points[i].x, points[i].y))
  }

  /** The area path: the polyline, down to the baseline under the last point,
      across to the baseline under the first point, closed. */
  function AreaPath(polyline: seq<PathCmd>, points: seq<LinePoint>, baseY: real): seq<PathCmd>
    requires |points| > 0
  {
    polyline + [LineTo(points[|points| - 1].x, baseY), LineTo(points[0].x, baseY), ClosePath]
  }

  /** The polyline is one open sub-path that visits every point in order. */
  lemma PolylineVisitsPoints(points: seq<LinePoint>)
    requires |points| > 0
    ensures var path := Polyline(points);
            && IsSubpath(path)
            && !path[|path| - 1].ClosePath?
            && path[0] == MoveTo(points[0].x, points[0].y)
            && (forall i :: 0 < i < |points| ==> path[i] == LineTo(points[i].x, points[i].y))
  {
  }

  /** The area path is one closed sub-path: the polyline followed by the two
      baseline corners; for a single point it degenerates to a closed segment. */
  lemma AreaPathClosed(points: seq<LinePoint>, baseY: real)
    requires |points| > 0
    ensures var area := AreaPath(Polyline(points), points, baseY);
            var n := |points|;
            && IsClosedPath(area)
            && |area| == n + 3
            && area[..n] == Polyline(points)
            && area[n] == LineTo(points[n - 1].x, baseY)
            && area[n + 1] == LineTo(points[0].x, baseY)
    ensures |points| == 1 ==>
              AreaPath(Polyline(points), points, baseY) ==
              [MoveTo(points[0].x, points[0].y), LineTo(points[0].x, baseY), LineTo(points[0].x, baseY), ClosePath]
  {
    var poly := Polyline(points);
    var area := AreaPath(poly, points, baseY);
    var n := |points|;
    PolylineVisitsPoints(points);
    assert area[..n] == poly;
    forall i | 0 < i < |area|
      ensures !area[i].MoveTo?
    {
      if i < n { assert area[i] == poly[i]; }
    }
    forall i | 0 <= i < |area| - 1
      ensures !area[i].ClosePath?
    {
      if i < n { assert area[i] == poly[i]; }
    }
  }

  // ---------------------------------------------------------------------
  // Pie chart
  // ---------------------------------------------------------------------

  /** Cosine and sine, supplied from outside the model. */
  datatype Trig = Trig(cos: real -> real, sin: real -> real)

  /** One wedge of a pie chart. */
  datatype PieSlice = PieSlice(
    name: string, value: real, color: string, percent: real,
    startAngle: real, endAngle: real, path: seq<PathCmd>, labelX: real, labelY: real)

  /** The sum of the values, folded from the left starting at 0. */
  function Sum(series: seq<DataPoint>): real
  {
    if |series| == 0 then 0.0 else Sum(series[..|series| - 1]) + series[|series| - 1].value
  }

  /** The wedge path: centre, out to the start point, clockwise along the arc
      to the end point (the long way round when the wedge spans more than a
      half turn), closed back to the centre. */
  function DescribeArc(cx: real, cy: real, r: real, startAngle: real, endAngle: real, trig: Trig): (path: seq<PathCmd>)
    ensures |path| == 4 && IsClosedPath(path)
    ensures path[0] == MoveTo(cx, cy)
    ensures path[1] == LineTo(cx + r * trig.cos(startAngle), cy + r * trig.sin(startAngle))
    ensures path[2].ArcTo? && path[2].rx == r && path[2].ry == r && path[2].rotation == 0.0
    ensures path[2].x == cx + r * trig.cos(endAngle) && path[2].y == cy + r * trig.sin(endAngle)
    ensures path[2].largeArc == 1 <==> endAngle - startAngle > Pi
    ensures path[2].largeArc == 0 <==> endAngle - startAngle <= Pi
    ensures path[2].sweep == 1
  {
    var x1 := cx + r * trig.cos(startAngle);
    var y1 := cy + r * trig.sin(startAngle);
    var x2 := cx + r * trig.cos(endAngle);
    var y2 := cy + r * trig.sin(endAngle);
    var largeArc := if endAngle - startAngle > Pi then 1 else 0;
    [MoveTo(cx, cy), LineTo(x1, y1), ArcTo(r, r, 0.0, largeArc, 1, x2, y2), ClosePath]
  }

  /** The wedge of one data point, starting at startAngle. */
  function MakeSlice(p: DataPoint, total: real, startAngle: real, trig: Trig): PieSlice
    requires total != 0.0
  {
    var percent := p.value / total;
    var endAngle := startAngle + percent * 2.0 * Pi;
    var midAngle := (startAngle + endAngle) / 2.0;
    var labelR := PieRadius * 0.65;
    PieSlice(p.name, p.value, p.color, percent, startAngle, endAngle,
             DescribeArc(PieCx, PieCy, PieRadius, startAngle, endAngle, trig),
             PieCx + trig.cos(midAngle) * labelR, PieCy + trig.sin(midAngle) * labelR)
  }

  /** Where wedge i starts: at 12 o'clock, turned on by the share of the
      values before it. */
  function SliceStart(series: seq<DataPoint>, total: real, i: nat): real
    requires total != 0.0 && i <= |series|
  {
    -Pi / 2.0 + (Sum(series[..i]) / total) * 2.0 * Pi
  }

  /** The wedges of a pie chart, one per data point. */
  function PieSlices(series: seq<DataPoint>, total: real, trig: Trig): (slices: seq<PieSlice>)
    requires total != 0.0
    ensures |slices| == |series|
  {
    seq(|series|, i requires 0 <= i < |series| => MakeSlice(series[i], total, SliceStart(series, total, i), trig))
  }

  lemma AddDiv(a: real, b: real, t: real)
    requires t != 0.0
    ensures (a + b) / t == a / t + b / t
  {
  }

  /** Wedge i ends exactly where wedge i + 1 starts. */
  lemma SliceEndIsNextStart(series: seq<DataPoint>, total: real, trig: Trig, i: nat)
    requires total != 0.0 && i < |series|
    ensures MakeSlice(series[i], total, SliceStart(series, total, i), trig).endAngle == SliceStart(series, total, i + 1)
  {
    assert series[..i + 1][..i] == series[..i];
    assert Sum(series[..i + 1]) == Sum(series[..i]) + series[i].value;
    AddDiv(Sum(series[..i]), series[i].value, total);
  }

  /** The accumulator loop that lays the wedges out one after another. */
  method LayoutPie(series: seq<DataPoint>, total: real, trig: Trig) returns (slices: seq<PieSlice>)
    requires total != 0.0
    ensures slices == PieSlices(series, total, trig)
  {
    var currentAngle := -Pi / 2.0;
    slices := [];
    assert series[..0] == [];
    for i := 0 to |series|
      invariant slices == PieSlices(series, total, trig)[..i]
      invariant currentAngle == SliceStart(series, total, i)
    {
      var slice := MakeSlice(series[i], total, currentAngle, trig);
      SliceEndIsNextStart(series, total, trig, i);
      currentAngle := slice.endAngle;
      slices := slices + [slice];
    }
  }

  /** Wedges are contiguous from 12 o'clock: wedge 0 starts at -pi/2 and
      each later wedge starts where the previous one ends. */
  lemma PieSlicesContiguous(series: seq<DataPoint>, total: real, trig: Trig)
    requires total != 0.0 && |series| > 0
    ensures var s := PieSlices(series, total, trig);
            && s[0].startAngle == -Pi / 2.0
            && (forall i :: 0 <= i < |s| - 1 ==> s[i + 1].startAngle == s[i].endAngle)
  {
    var s := PieSlices(series, total, trig);
    assert series[..0] == [];
    forall i | 0 <= i < |s| - 1
      ensures s[i + 1].startAngle == s[i].endAngle
    {
      SliceEndIsNextStart(series, total, trig, i);
    }
  }

  /** Wedge i spans its share of the full turn and carries its data point;
      its label sits at the middle angle, at 65% of the radius. */
  lemma PieSliceShape(series: seq<DataPoint>, total: real, trig: Trig, i: nat)
    requires total != 0.0 && i < |series|
    ensures var s := PieSlices(series, total, trig)[i];
            && s.percent == series[i].value / total
            && s.endAngle - s.startAngle == s.percent * 2.0 * Pi
            && s.name == series[i].name && s.value == series[i].value && s.color == series[i].color
            && s.labelX == PieCx + trig.cos((s.startAngle + s.endAngle) / 2.0) * (PieRadius * 0.65)
            && s.labelY == PieCy + trig.sin((s.startAngle + s.endAngle) / 2.0) * (PieRadius * 0.65)
  {
  }

  /** The sum of the wedges' shares, folded from the left. */
  function PercentSum(slices: seq<PieSlice>): real
  {
    if |slices| == 0 then 0.0 else PercentSum(slices[..|slices| - 1]) + slices[|slices| - 1].percent
  }

  lemma {:induction false} PercentSumPrefix(series: seq<DataPoint>, total: real, trig: Trig, i: nat)
    requires total != 0.0 && i <= |series|
    ensures PercentSum(PieSlices(series, total, trig)[..i]) == Sum(series[..i]) / total
  {
    if i > 0 {
      var s := PieSlices(series, total, trig);
      PercentSumPrefix(series, total, trig, i - 1);
      PercentSumSnoc(s, i);
      SumSnoc(series, i);
      PieSliceShape(series, total, trig, i - 1);
      PrefixStep(PercentSum(s[..i - 1]), Sum(series[..i - 1]), s[i - 1].percent, series[i - 1].value, total);
    }
  }

  lemma PrefixStep(p: real, q: real, x: real, v: real, t: real)
    requires t != 0.0 && p == q / t && x == v / t
    ensures p + x == (q + v) / t
  {
    AddDiv(q, v, t);
  }

  /** The shares of the first i wedges: those of the first i - 1, plus wedge i - 1's. */
  lemma PercentSumSnoc(s: seq<PieSlice>, i: nat)
    requires 0 < i <= |s|
    ensures PercentSum(s[..i]) == PercentSum(s[..i - 1]) + s[i - 1].percent
  {
    assert s[..i][..i - 1] == s[..i - 1];
  }

  /** The sum of the first i values: that of the first i - 1, plus value i - 1. */
  lemma SumSnoc(series: seq<DataPoint>, i: nat)
    requires 0 < i <= |series|
    ensures Sum(series[..i]) == Sum(series[..i - 1]) + series[i - 1].value
  {
    assert series[..i][..i - 1] == series[..i - 1];
  }

  lemma DivSelf(t: real)
    requires t != 0.0
    ensures t / t == 1.0
  {
  }

  /** With the total equal to the sum, the whole series starts a full turn on. */
  lemma FullTurn(series: seq<DataPoint>)
    requires Sum(series) != 0.0
    ensures SliceStart(series, Sum(series), |series|) == -Pi / 2.0 + 2.0 * Pi
  {
    assert series[..|series|] == series;
    DivSelf(Sum(series));
  }

  /** When the total is the sum of the values, the shares add up to one. */
  lemma PercentsSumToOne(series: seq<DataPoint>, trig: Trig)
    requires Sum(series) != 0.0
    ensures PercentSum(PieSlices(series, Sum(series), trig)) == 1.0
  {
    var total := Sum(series);
    var s := PieSlices(series, total, trig);
    var n := |series|;
    PercentSumPrefix(series, total, trig, n);
    assert s[..n] == s;
    assert series[..n] == series;
    DivSelf(total);
  }

  /** When the total is the sum of the values, the last wedge ends where the
      first began, a full turn later. */
  lemma PieClosesCircle(series: seq<DataPoint>, trig: Trig)
    requires |series| > 0 && Sum(series) != 0.0
    ensures var s := PieSlices(series, Sum(series), trig);
            s[|s| - 1].endAngle == -Pi / 2.0 + 2.0 * Pi
  {
    var total := Sum(series);
    var n := |series|;
    SliceEndIsNextStart(series, total, trig, n - 1);
    FullTurn(series);
  }

  /** A wedge takes the long way round exactly when its share exceeds one half. */
  lemma LargeArcIffOverHalf(series: seq<DataPoint>, total: real, trig: Trig, i: nat)
    requires total != 0.0 && i < |series|
    ensures var s := PieSlices(series, total, trig)[i];
            s.path[2].largeArc == 1 <==> s.percent > 0.5
  {
  }
}
