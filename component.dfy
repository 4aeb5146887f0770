/** The chart component: it holds the options it was given and, each time they
    change, recomputes the geometry of the chart kind they ask for. */
module ChartComponent {
  import opened Options
  import opened Canvas
  import opened Scale
  import opened Geometry

  /** No data point is hovered. */
  const NoHover: int := -1

  class IoChartComponent {
    /** The input binding; None until the host sets it. */
    var chartOptions: Option<ChartOptions>

    var hoveredIndex: int

    // Column and line chart state
    var maxValue: real
    var barWidth: real
    var barGap: real
    var innerWidth: real
    var innerHeight: real
    var yTicks: seq<Tick>
    var columnBars: seq<Bar>

    // Line chart state
    var linePoints: seq<LinePoint>
    var polylinePath: seq<PathCmd>
    var areaPath: seq<PathCmd>

    // Pie chart state
    var pieSlices: seq<PieSlice>
    var total: real

    /** The series to draw, when there are options with at least one data point. */
    predicate HasSeries()
      reads this`chartOptions
    {
      chartOptions.Some? && |chartOptions.value.series| > 0
    }

    /** The state of a freshly created component: nothing hovered, nothing drawn. */
    constructor ()
      ensures chartOptions == None && hoveredIndex == NoHover
      ensures maxValue == 0.0 && barWidth == 0.0 && barGap == 0.0
      ensures innerWidth == 0.0 && innerHeight == 0.0 && total == 0.0
      ensures yTicks == [] && columnBars == [] && linePoints == []
      ensures polylinePath == [] && areaPath == [] && pieSlices == []
    {
      chartOptions := None;
      hoveredIndex := NoHover;
      maxValue := 0.0;
      barWidth := 0.0;
      barGap := 0.0;
      innerWidth := 0.0;
      innerHeight := 0.0;
      yTicks := [];
      columnBars := [];
      linePoints := [];
      polylinePath := [];
      areaPath := [];
      pieSlices := [];
      total := 0.0;
    }

    /** Reacts to a change of the options. Without options or without data
        points nothing changes; otherwise the hover is cleared, the inner
        rectangle is fixed at 630 x 260 and the fields of the requested chart
        kind are recomputed, leaving those of the other kinds as they were. */
    method NgOnChanges(trig: Trig)
      requires HasSeries() && chartOptions.value.kind == Pie ==> Sum(chartOptions.value.series) != 0.0
      modifies this`hoveredIndex, this`innerWidth, this`innerHeight, this`maxValue, this`barWidth,
               this`barGap, this`columnBars, this`yTicks, this`linePoints, this`polylinePath,
               this`areaPath, this`total, this`pieSlices
      ensures !HasSeries() ==> unchanged(this)
      ensures HasSeries() ==> hoveredIndex == NoHover && innerWidth == InnerWidth() && innerHeight == InnerHeight()
      ensures HasSeries() && chartOptions.value.kind == Column ==>
                ColumnChartDrawn() && LineStateKept() && PieStateKept()
      ensures HasSeries() && chartOptions.value.kind == Line ==>
                LineChartDrawn() && barWidth == old(barWidth) && barGap == old(barGap) &&
                columnBars == old(columnBars) && PieStateKept()
      ensures HasSeries() && chartOptions.value.kind == Pie ==>
                PieChartDrawn(trig) && maxValue == old(maxValue) && barWidth == old(barWidth) &&
                barGap == old(barGap) && columnBars == old(columnBars) && yTicks == old(yTicks) &&
                LineStateKept()
    {
      if !HasSeries() {
        return;
      }
      hoveredIndex := NoHover;
      innerWidth := ChartWidth - PaddingLeft - PaddingRight;
      innerHeight := SvgHeight - PaddingTop - PaddingBottom;
      Redraw(trig);
    }

    /** The switch on the chart kind: recomputes the fields of that kind only. */
    method Redraw(trig: Trig)
      requires HasSeries()
      requires chartOptions.value.kind == Pie ==> Sum(chartOptions.value.series) != 0.0
      modifies this`maxValue, this`barWidth, this`barGap, this`columnBars, this`yTicks, this`linePoints,
               this`polylinePath, this`areaPath, this`total, this`pieSlices
      ensures chartOptions.value.kind == Column ==>
                ColumnChartDrawn() && LineStateKept() && PieStateKept()
      ensures chartOptions.value.kind == Line ==>
                LineChartDrawn() && barWidth == old(barWidth) && barGap == old(barGap) &&
                columnBars == old(columnBars) && PieStateKept()
      ensures chartOptions.value.kind == Pie ==>
                PieChartDrawn(trig) && maxValue == old(maxValue) && barWidth == old(barWidth) &&
                barGap == old(barGap) && columnBars == old(columnBars) && yTicks == old(yTicks) &&
                LineStateKept()
    {
      match chartOptions.value.kind {
        case Column => ComputeColumnChart();
        case Line => ComputeLineChart();
        case Pie => ComputePieChart(trig);
      }
    }

    /** The line-chart fields are as they were before the call. */
    twostate predicate LineStateKept()
      reads this
    {
      linePoints == old(linePoints) && polylinePath == old(polylinePath) && areaPath == old(areaPath)
    }

    /** The pie-chart fields are as they were before the call. */
    twostate predicate PieStateKept()
      reads this
    {
      total == old(total) && pieSlices == old(pieSlices)
    }

    /** The column-chart fields hold the layout of the current series. */
    predicate ColumnChartDrawn()
      reads this
    {
      HasSeries() &&
      var series := chartOptions.value.series;
      var nicedMax := NiceMax(MaxValue(series));
      && maxValue == MaxValue(series)
      && barWidth == BarWidth(innerWidth, |series|)
      && barGap == BarGap(innerWidth, |series|)
      && columnBars == ColumnBars(series, nicedMax, barWidth, barGap, innerHeight)
      && yTicks == Ticks(nicedMax, innerHeight)
    }

    /** The line-chart fields hold the layout of the current series. */
    predicate LineChartDrawn()
      reads this
    {
      HasSeries() &&
      var series := chartOptions.value.series;
      var nicedMax := NiceMax(MaxValue(series));
      && maxValue == MaxValue(series)
      && linePoints == LinePoints(series, nicedMax, innerWidth, innerHeight)
      && polylinePath == Polyline(linePoints)
      && areaPath == AreaPath(polylinePath, linePoints, PaddingTop + innerHeight)
      && yTicks == Ticks(nicedMax, innerHeight)
    }

    /** The pie-chart fields hold the wedges of the current series. */
    predicate PieChartDrawn(trig: Trig)
      reads this
    {
      HasSeries() &&
      var series := chartOptions.value.series;
      && total == Sum(series)
      && total != 0.0
      && pieSlices == PieSlices(series, total, trig)
    }

    /** A drawn column chart stays inside the inner rectangle: no bar is
        taller than the inner height and no bar top rises above the top margin. */
    lemma DrawnColumnsFit()
      requires ColumnChartDrawn() && innerHeight >= 0.0
      ensures forall i :: 0 <= i < |columnBars| ==>
                columnBars[i].height <= innerHeight && columnBars[i].y >= PaddingTop
    {
      var series := chartOptions.value.series;
      var bars := ColumnBars(series, NiceMax(MaxValue(series)), BarWidth(innerWidth, |series|),
                             BarGap(innerWidth, |series|), innerHeight);
      assert columnBars == bars;
      forall i | 0 <= i < |columnBars|
        ensures columnBars[i].height <= innerHeight && columnBars[i].y >= PaddingTop
      {
        ColumnBarFits(series, innerWidth, innerHeight, i);
      }
    }

    /** A drawn pie covers the circle exactly once: the shares add up to one
        and the last wedge ends a full turn after 12 o'clock. */
    lemma DrawnPieIsFullTurn(trig: Trig)
      requires PieChartDrawn(trig)
      ensures PercentSum(pieSlices) == 1.0
      ensures pieSlices[|pieSlices| - 1].endAngle == -Pi / 2.0 + 2.0 * Pi
    {
      PercentsSumToOne(chartOptions.value.series, trig);
      PieClosesCircle(chartOptions.value.series, trig);
    }

    /** Lays out a column chart: the maximum value, bar width and gap for the
        series, one bar per data point, and the axis ticks. */
    method ComputeColumnChart()
      requires HasSeries()
      modifies this`maxValue, this`barWidth, this`barGap, this`columnBars, this`yTicks
      ensures ColumnChartDrawn()
    {
      var series := chartOptions.value.series;
      maxValue := MaxValue(series);
      var nicedMax := NiceMax(maxValue);
      var totalBars := |series|;
      barWidth := BarWidth(innerWidth, totalBars);
      barGap := BarGap(innerWidth, totalBars);
      columnBars := ColumnBars(series, nicedMax, barWidth, barGap, innerHeight);
      yTicks := BuildTicks(nicedMax, innerHeight);
    }

    /** Lays out a line chart: the maximum value, one point per data point,
        the polyline through them, the area under it, and the axis ticks. */
    method ComputeLineChart()
      requires HasSeries()
      modifies this`maxValue, this`linePoints, this`polylinePath, this`areaPath, this`yTicks
      ensures LineChartDrawn()
    {
      var series := chartOptions.value.series;
      maxValue := MaxValue(series);
      var nicedMax := NiceMax(maxValue);
      linePoints := LinePoints(series, nicedMax, innerWidth, innerHeight);
      polylinePath := Polyline(linePoints);
      var baseY := PaddingTop + innerHeight;
      areaPath := AreaPath(polylinePath, linePoints, baseY);
      yTicks := BuildTicks(nicedMax, innerHeight);
    }

    /** Lays out a pie chart: the total of the values and one wedge per data
        point, laid out clockwise from 12 o'clock. */
    method ComputePieChart(trig: Trig)
      requires HasSeries() && Sum(chartOptions.value.series) != 0.0
      modifies this`total, this`pieSlices
      ensures PieChartDrawn(trig)
    {
      var series := chartOptions.value.series;
      total := Sum(series);
      pieSlices := LayoutPie(series, total, trig);
    }

    /** Marks data point index as hovered. */
    method OnHover(index: int)
      modifies this`hoveredIndex
      ensures hoveredIndex == index
    {
      hoveredIndex := index;
    }

    /** Clears the hover. */
    method OnLeave()
      modifies this`hoveredIndex
      ensures hoveredIndex == NoHover
    {
      hoveredIndex := NoHover;
    }
  }
}
