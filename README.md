# io-chart in Dafny

A model of io-chart, an Angular chart component. It draws line, column and pie charts as SVG from a
`ChartOptions` value: a chart kind, a title and a series of named, coloured values. The project also
models the demo application's live playground, an editable table from which a fresh `ChartOptions`
is built after every edit.

Modules:

- `Options` holds the options value: `ChartKind`, `DataPoint`, `ChartOptions`.
  `Canvas` holds the fixed drawing constants: a 700 x 320 canvas, paddings of 50/20/20/40, and a
  pie centred at (180, 160) with radius 130.
- `Scale` is the value axis.
  - The "nice" axis maximum. For a positive data maximum it is proved to be the least number of the
    form 1, 2 or 5 times a power of ten that covers it, and less than 2.5 times it; a non-positive
    maximum gets 10. It is also shown idempotent, and monotone on positive data maxima.
  - The value-to-pixel map.
  - The axis-label format.
  - The six-tick loop.
- `Geometry` holds the drawable output of each chart kind.
  - Bars: `n` bars and `n + 1` gaps fill the inner width exactly. No bar is taller than the inner
    height, and no bar top rises above the top padding.
  - Line points, the polyline and the closed area path.
  - Pie wedges: contiguous from 12 o'clock, shares summing to one, the circle closed after a full turn,
    and the large-arc flag set exactly for shares over one half.
  - SVG path strings are modelled as sequences of path commands.
- `ChartComponent` is the component class `IoChartComponent`. It has the fields of the source and
  `NgOnChanges`, which recomputes the fields of the requested chart kind and leaves the others as they
  were. The `Compute*` methods, hover handling and lemmas about the drawn state are also there.
- `Playground` is the `App` class of the demo.
  - Row filtering: the name is trimmed of ECMAScript white space, and the value must be a number.
  - The title and colour defaults.
  - `addRow`, `removeRow` with the full `splice(index, 1)` rules, and the type/field change handlers.
    Each of them leaves the chart options in step with the table.

Numbers are exact `real`s. Cosine and sine are a parameter `Trig` of the pie layout, and pi is the
16-digit decimal literal of `Math.PI`.

## Model

| member | source | states |
|---|---|---|
| Geometry.MaxValue | src/app/chart/chart.component.ts:91 | the result is at least every value of the non-empty series and equals one of them |
| Scale.Exponent | src/app/chart/chart.component.ts:179 | floor(log10 v): the integer k with 10^k <= v < 10^(k+1), which exists and is unique for v > 0 |
| Scale.BracketExists | src/app/chart/chart.component.ts:179 | every positive number lies between two consecutive powers of ten |
| Scale.BracketUnique | src/app/chart/chart.component.ts:179 | at most one exponent brackets a positive number |
| Scale.ExponentFrom | src/app/chart/chart.component.ts:179 | searching upwards from 10^k <= v finds the bracketing exponent, at least k |
| Scale.ExponentBelow | src/app/chart/chart.component.ts:179 | searching downwards for v < 10^(k+1) finds the bracketing exponent, at most k |
| Scale.Pow10Less | src/app/chart/chart.component.ts:179 | powers of ten grow at least tenfold per larger exponent |
| Scale.NiceStep | src/app/chart/chart.component.ts:181-185 | the chosen multiplier is one of 1, 2, 5, 10; it covers a normalized value up to 10; every smaller candidate is below the value |
| Scale.NiceMax | src/app/chart/chart.component.ts:177-187 | the axis maximum is positive, is 10 for a non-positive maximum, and covers a positive maximum |
| Scale.NormalizedRange | src/app/chart/chart.component.ts:179-180 | the normalized value lies in [1, 10) and scaling back restores v |
| Scale.NiceMaxDecomposition | src/app/chart/chart.component.ts:177-187 | for positive v the result is m * 10^k with k = floor(log10 v) and m the first of 1, 2, 5, 10 covering v / 10^k |
| Scale.NiceMaxIsRound | src/app/chart/chart.component.ts:177-187 | the axis maximum is always 1, 2 or 5 times a power of ten |
| Scale.NiceMaxRoundWitness | src/app/chart/chart.component.ts:177-187 | returns the multiplier and exponent that make the axis maximum round |
| Scale.NiceMaxIsLeast | src/app/chart/chart.component.ts:177-187 | for positive v, no round number that covers v is smaller than the axis maximum |
| Scale.NiceMaxIdempotent | src/app/chart/chart.component.ts:177-187 | rounding an axis maximum again leaves it unchanged |
| Scale.NiceMaxMonotone | src/app/chart/chart.component.ts:177-187 | a larger positive data maximum never gets a smaller axis maximum |
| Scale.NiceMaxTight | src/app/chart/chart.component.ts:177-187 | the axis maximum is below 2.5 times a positive data maximum |
| Scale.BarHeight | src/app/chart/chart.component.ts:100 | the pixel height of a value, proportional to value / nicedMax; its bounds and end points are stated by BarHeightBounds |
| Scale.ValueToY | src/app/chart/chart.component.ts:102 | the pixel row of a value, the baseline minus its bar height; the rows of the ticks are stated by TickPosition and the line points share the bar tops by LinePointsLayout |
| Scale.BarHeightBounds | src/app/chart/chart.component.ts:100 | value 0 has height 0, the axis maximum has the full inner height, values up to the maximum stay within it, non-negative values are not negative |
| Scale.FormatValueCases | src/app/chart/chart.component.ts:189-193 | exactly one label form per value (M from 10^6, K from 10^3, plain below); the shown number is the value divided by the suffix's factor; written whole exactly when below 1000 with no fraction |
| Scale.FormatValue | src/app/chart/chart.component.ts:189-193 | the axis label: the branch is chosen by the 10^6 and 10^3 thresholds, the label shows the value scaled by its suffix's factor, and a plain label is written whole exactly when it has no fraction; stated by FormatValueCases |
| Scale.TickAt | src/app/chart/chart.component.ts:109-111 | tick i of the loop; its value and row are stated by TickPosition |
| Scale.Ticks | src/app/chart/chart.component.ts:106-112 | there are TickCount + 1 = 6 ticks |
| Scale.BuildTicks | src/app/chart/chart.component.ts:106-112 | the loop produces exactly the tick sequence |
| Scale.TickPosition | src/app/chart/chart.component.ts:109-110 | tick i has value nicedMax * i / 5 and sits (5 - i) fifths of the inner height below the top padding |
| Scale.TicksEvenlySpaced | src/app/chart/chart.component.ts:106-112 | every tick sits at its fifth of value and height with its formatted label; the first is 0 on the baseline and the last is nicedMax at the top |
| Scale.TicksStrictlyOrdered | src/app/chart/chart.component.ts:106-112 | on a plot of positive height, later ticks have strictly larger values and strictly smaller pixel rows |
| Canvas.InnerWidth | src/app/chart/chart.component.ts:73 | the inner width is 700 - 50 - 20 = 630 |
| Canvas.InnerHeight | src/app/chart/chart.component.ts:74 | the inner height is 320 - 20 - 40 = 260 |
| Geometry.TotalGap | src/app/chart/chart.component.ts:95 | the gap budget; ColumnSpacing states that the n + 1 gaps together take exactly 40% of the inner width, and on a non-negative inner width it lies between none and all of it |
| Geometry.BarWidth | src/app/chart/chart.component.ts:96 | the width of each bar; ColumnSpacing states that the n bars take exactly 60% of the inner width |
| Geometry.BarGap | src/app/chart/chart.component.ts:97 | the width of each gap; ColumnSpacing states that the n + 1 gaps take exactly 40% of the inner width |
| Geometry.ColumnBar | src/app/chart/chart.component.ts:100-103 | bar i; its position, baseline and data are stated by ColumnBarsLayout and its bounds by ColumnBarFits |
| Geometry.ColumnBars | src/app/chart/chart.component.ts:99-104 | one bar per data point |
| Geometry.ColumnSpacing | src/app/chart/chart.component.ts:94-97 | the n + 1 gaps take exactly 40% of the inner width and the n bars exactly 60%, so together they fill it; neither is negative on a non-negative width |
| Geometry.ColumnBarsLayout | src/app/chart/chart.component.ts:99-104 | the first bar starts one gap in; consecutive bars are one width plus one gap apart; the last ends one gap before the right edge; every bar stands on the baseline and carries its data point in order |
| Geometry.ColumnBarsSpacing | src/app/chart/chart.component.ts:101 | for any width and gap, the first bar starts one gap in, consecutive bars are one width plus one gap apart, and the last starts n - 1 strides after the first |
| Geometry.ColumnBarsOnBaseline | src/app/chart/chart.component.ts:99-104 | every bar's top plus its height is the baseline, it has the common width, and it carries its data point in order |
| Geometry.ColumnBarFits | src/app/chart/chart.component.ts:92-104 | with the axis maximum taken from the series, no bar is taller than the inner height or rises above the top padding |
| Geometry.ValueBelowNiceMax | src/app/chart/chart.component.ts:91-92 | every value of the series is at most the axis maximum |
| Geometry.StepX | src/app/chart/chart.component.ts:120 | the distance between consecutive points; LinePointsLayout states that it spreads the points from edge to edge |
| Geometry.LinePointAt | src/app/chart/chart.component.ts:123-125 | point i; its position and data are stated by LinePointsLayout |
| Geometry.LinePoints | src/app/chart/chart.component.ts:122-126 | one point per data point |
| Geometry.LinePointsLayout | src/app/chart/chart.component.ts:120-126 | points span the inner width evenly from left to right edge, a single point is centred; each point is at its bar-top height and carries its data point in order |
| Geometry.Polyline | src/app/chart/chart.component.ts:128 | one path command per point |
| Geometry.PolylineVisitsPoints | src/app/chart/chart.component.ts:128 | the polyline is one open sub-path: a move to the first point, then a line to each later point |
| Geometry.AreaPath | src/app/chart/chart.component.ts:130-133 | the area under the polyline; AreaPathClosed states it is one closed sub-path through the two baseline corners |
| Geometry.AreaPathClosed | src/app/chart/chart.component.ts:130-133 | the area path is one closed sub-path: the polyline, then down to the baseline under the last point and across under the first |
| Geometry.DescribeArc | src/app/chart/chart.component.ts:168-175 | a closed four-command wedge: centre, start point on the circle, clockwise arc of radius r to the end point, close; large-arc exactly when the span exceeds pi |
| Geometry.Sum | src/app/chart/chart.component.ts:146 | the left fold of the values from 0; SumSnoc states its step, and PercentsSumToOne that shares over it sum to one |
| Geometry.MakeSlice | src/app/chart/chart.component.ts:153-164 | one wedge; PieSliceShape states its share, span, data and label point, and SliceEndIsNextStart that it ends where the next begins |
| Geometry.PieSlices | src/app/chart/chart.component.ts:152-165 | one wedge per data point |
| Geometry.SliceEndIsNextStart | src/app/chart/chart.component.ts:153-156 | each wedge ends at the angle where the next one starts |
| Geometry.LayoutPie | src/app/chart/chart.component.ts:151-165 | the accumulator loop produces exactly the wedge sequence |
| Geometry.PieSlicesContiguous | src/app/chart/chart.component.ts:151-156 | the first wedge starts at 12 o'clock (-pi/2) and each later wedge starts where the previous ends |
| Geometry.PieSliceShape | src/app/chart/chart.component.ts:153-164 | wedge i has share value/total, spans that share of a full turn, carries its data point, and has its label at the mid angle at 65% of the radius |
| Geometry.SumSnoc | src/app/chart/chart.component.ts:146 | the left fold of the first i values is that of the first i - 1 plus value i - 1 |
| Geometry.PercentSumPrefix | src/app/chart/chart.component.ts:153 | the shares of the first i wedges add up to the sum of the first i values over the total |
| Geometry.FullTurn | src/app/chart/chart.component.ts:146-156 | with the total equal to the sum of the values, the angle after all wedges is one full turn past 12 o'clock |
| Geometry.PercentsSumToOne | src/app/chart/chart.component.ts:146-153 | with the total from the series, the shares add up to one |
| Geometry.PieClosesCircle | src/app/chart/chart.component.ts:146-156 | with the total from the series, the last wedge ends a full turn after 12 o'clock |
| Geometry.LargeArcIffOverHalf | src/app/chart/chart.component.ts:153-163 | a wedge's arc takes the long way round exactly when its share exceeds one half |
| ChartComponent.IoChartComponent.constructor | src/app/chart/chart.component.ts:40-67 | a new component has no options and nothing hovered, and all drawing fields are zero or empty |
| ChartComponent.IoChartComponent.HasSeries | src/app/chart/chart.component.ts:70 | the guard: options are set and the series has at least one point; NgOnChanges changes nothing without it |
| ChartComponent.IoChartComponent.NgOnChanges | src/app/chart/chart.component.ts:69-87 | without options or data points nothing changes; otherwise the hover is cleared, the inner area is 630 x 260, and the fields of the requested kind hold its layout while the other kinds' fields keep their values |
| ChartComponent.IoChartComponent.Redraw | src/app/chart/chart.component.ts:76-86 | the switch on the chart kind: the fields of the requested kind hold its layout while the other kinds' fields keep their values |
| ChartComponent.IoChartComponent.ComputeColumnChart | src/app/chart/chart.component.ts:89-113 | the maximum, bar width and gap, bars and ticks are those of the current series |
| ChartComponent.IoChartComponent.ComputeLineChart | src/app/chart/chart.component.ts:115-142 | the maximum, points, polyline, area path and ticks are those of the current series |
| ChartComponent.IoChartComponent.ComputePieChart | src/app/chart/chart.component.ts:144-166 | the total is the sum of the values and the wedges are those of the series |
| ChartComponent.IoChartComponent.DrawnColumnsFit | src/app/chart/chart.component.ts:89-104 | in a drawn column chart no bar is taller than the inner height and no bar top rises above the top padding |
| ChartComponent.IoChartComponent.DrawnPieIsFullTurn | src/app/chart/chart.component.ts:144-166 | in a drawn pie the shares add up to one and the last wedge ends a full turn after 12 o'clock |
| ChartComponent.IoChartComponent.OnHover | src/app/chart/chart.component.ts:199-201 | the given index becomes the hovered one |
| ChartComponent.IoChartComponent.OnLeave | src/app/chart/chart.component.ts:203-205 | nothing is hovered |
| Playground.TrimStart | src/app/app.ts:39 | the result is a suffix of s; everything dropped is white space; it does not start with white space |
| Playground.TrimEnd | src/app/app.ts:39 | the result is a prefix of s; everything dropped is white space; it does not end with white space |
| Playground.Trim | src/app/app.ts:39 | the trimmed name is no longer than the name and neither starts nor ends with white space |
| Playground.TrimEmptyIffAllSpace | src/app/app.ts:39 | a name trims to the empty string exactly when it is all white space |
| Playground.TrimIdempotent | src/app/app.ts:39 | trimming twice is trimming once |
| Playground.Plottable | src/app/app.ts:39 | the filter: a non-blank name and a numeric value; PointsOfOne states that exactly such rows reach the chart |
| Playground.ToDataPoint | src/app/app.ts:40 | the point keeps the row's name and number; an empty colour becomes the default colour, so the colour is never empty |
| Playground.Points | src/app/app.ts:38-40 | there are no more points than rows, and every point has a non-blank name and a non-empty colour |
| Playground.PointsOfOne | src/app/app.ts:39-40 | a single row contributes its point exactly when its name is not blank and its value is a number |
| Playground.PointsAppend | src/app/app.ts:38-40 | filtering and converting distributes over concatenation of tables |
| Playground.BuildOptions | src/app/app.ts:34-42 | the options have the selected kind, the title or "My Chart" when it is empty (never empty), and the points of the plottable rows |
| Playground.SpliceOne | src/app/app.ts:63 | at the start position (a negative index counts from the end, clamped at 0) the result is one shorter, keeps every element before that position and shifts every later one down by one; an index past the end changes nothing |
| Playground.SpliceInRange | src/app/app.ts:63 | for an index inside the table, the splice is the rows before it followed by the rows after it |
| Playground.RemovedRowPoints | src/app/app.ts:62-65 | removing row k removes exactly that row's point, if any, and keeps the other points in order |
| Playground.App.constructor | src/app/app.ts:22-32 | the playground starts as a "My Chart" line chart of three rows, in step with its options |
| Playground.App.OnTypeChange | src/app/app.ts:44-46 | the options are rebuilt from the table |
| Playground.App.OnFieldChange | src/app/app.ts:48-50 | the options are rebuilt from the table |
| Playground.App.AddRow | src/app/app.ts:52-60 | a blank row coloured from the palette in turn is appended; the chart stays in step and its options are the same as before the row was added |
| Playground.App.RemoveRow | src/app/app.ts:62-65 | the table loses the row at the index by the splice rules; the chart stays in step; for an index in range, its series is the old one without that row's point |

## Left out

- IEEE-754 doubles: all arithmetic is exact over the reals. Rounding, NaN and the infinities are not modelled. `Math.max` of an empty list cannot occur, because of the non-empty guard.
- `Math.log10` and `Math.pow` are replaced by the exact exponent `Scale.Exponent`. In doubles, `floor(log10(v))` can be off by one near exact powers of ten. The model does not capture that.
- `Math.cos` and `Math.sin` are a parameter `Trig` of the pie layout. `Math.PI` is its 16-digit decimal literal (3.141592653589793), not the exact value of the double.
- Number-to-text rendering: `toFixed(1)`, `toString` and the SVG path strings. Labels are `Scale.Label`, with `Scale.WrittenWhole` telling integer from one-decimal writing, and paths are sequences of `Geometry.PathCmd`. `formatPercent` (chart.component.ts:195-197) is pure text rendering and is not modelled.
- ChartComponent.IoChartComponent.DrawnColumnsFit: the bounds are on bar height and bar top only. The source does not reject negative values. A negative value gives a bar of negative height whose y lies below the baseline, possibly outside the 320-pixel canvas; nothing is promised about where such bars are drawn.
- ChartComponent.IoChartComponent.NgOnChanges: requires a non-zero sum of values for a pie chart. The source divides by the total unguarded and would produce NaN or infinite angles.
- ChartComponent.IoChartComponent.ComputePieChart: requires a non-zero sum of values, for the same reason.
- ChartComponent.IoChartComponent.Redraw: requires a non-zero sum of values for a pie chart, for the same reason.
- The canvas size and padding fields, which the source never changes, are the constants of module `Canvas`.
- The `SimpleChanges` argument is dropped, because it is unused.
- The tick loops build a local sequence that is then stored in `yTicks`; they do not push onto the field one element at a time. The final state is the same.
- Angular plumbing is not modelled: `@Input` binding, OnPush change detection, templates, styles and `trackByIndex`.
- Static demo charts (app.ts:67-108) are constant data with no behaviour.
- `Number(s.value)` and `isNaN` are modelled by `Playground.RowValue`: a cell is empty (`Null`), a number, or something that does not convert (`NaN`). String-to-number conversion is not modelled.
- Playground.RemoveRow: a non-integer index, which `splice` truncates, is not modelled; the index is an `int`.
- The chart-type list of the playground is the constant `Playground.ChartTypes`, used only by the template.
- Mutation of the rows array in place and object identity ("always a new reference") are not modelled. `liveSeries` and `liveChart` are values that are reassigned.
