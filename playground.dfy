/** The live playground of the demo application: an editable table of rows
    from which the options handed to the chart are rebuilt after every edit. */
module Playground {
  import opened Options

  // ---------------------------------------------------------------------
  // Table rows
  // ---------------------------------------------------------------------

  /** What the value cell of a row holds: nothing yet, a number, or an entry
      that does not convert to a number. */
  datatype RowValue = Null | Num(n: real) | NaN

  /** One editable row of the table. */
  datatype SeriesRow = SeriesRow(name: string, value: RowValue, color: string)

  const DefaultTitle: string := "My Chart"
  const DefaultColor: string := "#2563eb"

  /** The colours handed out, in turn, to newly added rows. */
  const Palette: seq<string> := ["#2563eb", "#16a34a", "#f97316", "#dc2626", "#7c3aed", "#0891b2"]

  /** The chart kinds offered by the type selector, in menu order. */
  const ChartTypes: seq<ChartKind> := [Line, Column, Pie]

  // ---------------------------------------------------------------------
  // Trimming
  // ---------------------------------------------------------------------

  /** White space and line terminators as string trimming understands them
      (ECMAScript 2024, sections 12.2 and 12.3). */
  predicate IsSpace(c: char)
  {
    c == '\t' || c == '\n' || c == '\U{000B}' || c == '\U{000C}' || c == '\r' || c == ' ' ||
    c == '\U{00A0}' || c == '\U{1680}' || ('\U{2000}' <= c <= '\U{200A}') ||
    c == '\U{2028}' || c == '\U{2029}' || c == '\U{202F}' || c == '\U{205F}' ||
    c == '\U{3000}' || c == '\U{FEFF}'
  }

  /** Every character of s is white space. */
  predicate AllSpace(s: string)
  {
    forall i :: 0 <= i < |s| ==> IsSpace(s[i])
  }

  /** s without its leading white space. */
  function TrimStart(s: string): (t: string)
    ensures |t| <= |s| && t == s[|s| - |t|..]
    ensures forall i :: 0 <= i < |s| - |t| ==> IsSpace(s[i])
    ensures |t| > 0 ==> !IsSpace(t[0])
  {
    if |s| > 0 && IsSpace(s[0]) then
      var t := TrimStart(s[1..]);
      assert s[1..][|s| - 1 - |t|..] == s[|s| - |t|..];
      t
    else s
  }

  /** s without its trailing white space. */
  function TrimEnd(s: string): (t: string)
    ensures |t| <= |s| && t == s[..|t|]
    ensures forall i :: |t| <= i < |s| ==> IsSpace(s[i])
    ensures |t| > 0 ==> !IsSpace(t[|t| - 1])
  {
    if |s| > 0 && IsSpace(s[|s| - 1]) then
      var t := TrimEnd(s[..|s| - 1]);
      assert s[..|s| - 1][..|t|] == s[..|t|];
      t
    else s
  }

  /** s without white space at either end. */
  function Trim(s: string): (t: string)
    ensures |t| <= |s|
    ensures |t| > 0 ==> !IsSpace(t[0]) && !IsSpace(t[|t| - 1])
  {
    var u := TrimStart(s);
    var t := TrimEnd(u);
    assert |t| > 0 ==> t[0] == u[0];
    t
  }

  /** A name trims to nothing exactly when it is all white space. */
  lemma TrimEmptyIffAllSpace(s: string)
    ensures Trim(s) == "" <==> AllSpace(s)
  {
    var t := TrimStart(s);
    var k := |s| - |t|;
    assert |t| > 0 ==> t[0] == s[k];
    assert |t| > 0 ==> TrimEnd(t) != "";
  }

  /** Trimming is idempotent. */
  lemma TrimIdempotent(s: string)
    ensures Trim(Trim(s)) == Trim(s)
  {
    var t := Trim(s);
    if |t| > 0 {
      assert !IsSpace(t[|t| - 1]);
      var u := TrimEnd(TrimStart(s));
      assert u == t;
      assert TrimStart(s)[..|t|] == t;
      assert !IsSpace(t[0]) by {
        assert t[0] == TrimStart(s)[0];
      }
    }
  }

  // ---------------------------------------------------------------------
  // Building the chart options
  // ---------------------------------------------------------------------

  /** A row reaches the chart when its name is not blank and its value is a number. */
  predicate Plottable(r: SeriesRow)
  {
    Trim(r.name) != "" && r.value.Num?
  }

  /** The data point of a plottable row; an empty colour becomes the default one. */
  function ToDataPoint(r: SeriesRow): (p: DataPoint)
    requires r.value.Num?
    ensures p.name == r.name && p.value == r.value.n
    ensures p.color == (if r.color == "" then DefaultColor else r.color)
    ensures p.color != ""
  {
    DataPoint(r.name, r.value.n, if r.color == "" then DefaultColor else r.color)
  }

  /** The points of the plottable rows, in table order (the filter followed
      by the map). */
  function Points(rows: seq<SeriesRow>): (ps: seq<DataPoint>)
    ensures |ps| <= |rows|
    ensures forall j :: 0 <= j < |ps| ==> Trim(ps[j].name) != "" && ps[j].color != ""
  {
    if |rows| == 0 then []
    else if Plottable(rows[0]) then [ToDataPoint(rows[0])] + Points(rows[1..])
    else Points(rows[1..])
  }

  /** The points of one row: its own point when plottable, none otherwise. */
  lemma PointsOfOne(r: SeriesRow)
    ensures Points([r]) == if Plottable(r) then [ToDataPoint(r)] else []
  {
    assert [r][1..] == [];
  }

  /** Filtering and converting a table split in two gives the points of the
      first part followed by those of the second. */
  lemma {:induction false} PointsAppend(a: seq<SeriesRow>, b: seq<SeriesRow>)
    ensures Points(a + b) == Points(a) + Points(b)
  {
    if |a| > 0 {
      assert (a + b)[1..] == a[1..] + b;
      PointsAppend(a[1..], b);
    } else {
      assert a + b == b;
    }
  }

  /** The options for the chart: the selected kind, the title or the default
      one when it is empty, and the points of the plottable rows. */
  function BuildOptions(kind: ChartKind, title: string, rows: seq<SeriesRow>): (o: ChartOptions)
    ensures o.kind == kind
    ensures o.title == (if title == "" then DefaultTitle else title) && o.title != ""
    ensures o.series == Points(rows)
  {
    ChartOptions(kind, if title == "" then DefaultTitle else title, Points(rows))
  }

  /** Array splice of one element, as `splice(index, 1)` does it: a negative
      index counts from the end (clamped at 0), and an index past the end
      removes nothing. */
  function SpliceOne<T>(s: seq<T>, index: int): (r: seq<T>)
    ensures var start := if index < 0 then (if |s| + index < 0 then 0 else |s| + index) else index;
            if start < |s| then
              && |r| == |s| - 1
              && (forall j :: 0 <= j < start ==> r[j] == s[j])
              && (forall j :: start <= j < |r| ==> r[j] == s[j + 1])
            else r == s
  {
    var start := if index < 0 then (if |s| + index < 0 then 0 else |s| + index) else index;
    if start < |s| then s[..start] + s[start + 1..] else s
  }

  /** Splicing at an index inside the table removes exactly that element. */
  lemma SpliceInRange<T>(s: seq<T>, k: int)
    requires 0 <= k < |s|
    ensures SpliceOne(s, k) == s[..k] + s[k + 1..]
  {
    var r := SpliceOne(s, k);
    assert forall j :: 0 <= j < |r| ==> r[j] == (s[..k] + s[k + 1..])[j];
  }

  /** A table is the rows before k, row k, and the rows after k. */
  lemma SplitAt<T>(s: seq<T>, k: nat)
    requires k < |s|
    ensures s == s[..k] + [s[k]] + s[k + 1..]
  {
    assert s[k..] == [s[k]] + s[k + 1..];
    assert s == s[..k] + s[k..];
  }

  /** Removing row k takes out exactly its point, if it had one, and keeps
      the others in order. */
  lemma RemovedRowPoints(rows: seq<SeriesRow>, k: nat)
    requires k < |rows|
    ensures var before := Points(rows[..k]);
            var after := Points(rows[k + 1..]);
            && Points(rows) == before + Points([rows[k]]) + after
            && Points(rows[..k] + rows[k + 1..]) == before + after
  {
    var a, r, c := rows[..k], [rows[k]], rows[k + 1..];
    SplitAt(rows, k);
    PointsAppend(a + r, c);
    PointsAppend(a, r);
    PointsAppend(a, c);
  }

  // ---------------------------------------------------------------------
  // The playground state
  // ---------------------------------------------------------------------

  class App {
    var liveType: ChartKind
    var liveTitle: string
    var liveSeries: seq<SeriesRow>
    /** The options handed to the chart; always replaced by a new value. */
    var liveChart: ChartOptions

    /** The chart shows what the table says. */
    predicate Synced()
      reads this
    {
      liveChart == BuildOptions(liveType, liveTitle, liveSeries)
    }

    /** The playground starts as a line chart of three rows. */
    constructor ()
      ensures liveType == Line && liveTitle == DefaultTitle
      ensures liveSeries == [SeriesRow("Category A", Num(40.0), "#2563eb"),
                             SeriesRow("Category B", Num(65.0), "#16a34a"),
                             SeriesRow("Category C", Num(30.0), "#f97316")]
      ensures Synced()
    {
      var rows := [SeriesRow("Category A", Num(40.0), "#2563eb"),
                   SeriesRow("Category B", Num(65.0), "#16a34a"),
                   SeriesRow("Category C", Num(30.0), "#f97316")];
      liveType := Line;
      liveTitle := DefaultTitle;
      liveSeries := rows;
      liveChart := BuildOptions(Line, DefaultTitle, rows);
    }

    /** After the type selector changed liveType: rebuild the options. */
    method OnTypeChange()
      modifies this`liveChart
      ensures Synced()
    {
      liveChart := BuildOptions(liveType, liveTitle, liveSeries);
    }

    /** After a title or table cell changed: rebuild the options. */
    method OnFieldChange()
      modifies this`liveChart
      ensures Synced()
    {
      liveChart := BuildOptions(liveType, liveTitle, liveSeries);
    }

    /** Appends an empty row coloured from the palette in turn, and rebuilds
        the options, which do not change since the new row is blank. */
    method AddRow()
      modifies this`liveSeries, this`liveChart
      ensures liveSeries == old(liveSeries) + [SeriesRow("", Null, Palette[|old(liveSeries)| % |Palette|])]
      ensures Synced()
      ensures liveChart == BuildOptions(liveType, liveTitle, old(liveSeries))
    {
      var colors := Palette;
      var row := SeriesRow("", Null, colors[|liveSeries| % |colors|]);
      PointsAppend(liveSeries, [row]);
      PointsOfOne(row);
      liveSeries := liveSeries + [row];
      liveChart := BuildOptions(liveType, liveTitle, liveSeries);
    }

    /** Removes the row at index (with the splice rules for out-of-range
        indices) and rebuilds the options. */
    method RemoveRow(index: int)
      modifies this`liveSeries, this`liveChart
      ensures liveSeries == SpliceOne(old(liveSeries), index)
      ensures Synced()
      ensures 0 <= index < |old(liveSeries)| ==>
                liveChart.series == Points(old(liveSeries)[..index]) + Points(old(liveSeries)[index + 1..])
    {
      if 0 <= index < |liveSeries| {
        RemovedRowPoints(liveSeries, index);
        SpliceInRange(liveSeries, index);
      }
      liveSeries := SpliceOne(liveSeries, index);
      liveChart := BuildOptions(liveType, liveTitle, liveSeries);
    }
  }
}
