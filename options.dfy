/** The chart specification handed to the chart component, and the fixed canvas
    the component draws on. */
module Options {

  /** A value that may be missing (an unset component input). */
  datatype Option<+T> = None | Some(value: T)

  /** The three chart kinds the component can draw. */
  datatype ChartKind = Line | Column | Pie

  /** One named data point of a series. */
  datatype DataPoint = DataPoint(name: string, value: real, color: string)

  /** The options record: kind, title and the ordered series. */
  datatype ChartOptions = ChartOptions(kind: ChartKind, title: string, series: seq<DataPoint>)
}

/** Canvas configuration of the chart component: the drawing area, its four
    padding margins and the pie's centre and radius. These never change. */
module Canvas {

  const ChartWidth: real := 700.0
  const SvgHeight: real := 320.0
  const PaddingLeft: real := 50.0
  const PaddingRight: real := 20.0
  const PaddingTop: real := 20.0
  const PaddingBottom: real := 40.0

  /** Width of the inner plotting rectangle. */
  function InnerWidth(): (w: real)
    ensures w == 630.0
  {
    ChartWidth - PaddingLeft - PaddingRight
  }

  /** Height of the inner plotting rectangle. */
  function InnerHeight(): (h: real)
    ensures h == 260.0
  {
    SvgHeight - PaddingTop - PaddingBottom
  }

  /** Centre and radius of the pie. */
  const PieCx: real := 180.0
  const PieCy: real := 160.0
  const PieRadius: real := 130.0

  /** The 16-digit decimal literal of Math.PI, as an exact real. */
  const Pi: real := 3.141592653589793
}
