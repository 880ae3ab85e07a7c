/**
 * The chart card (components/charts/portfolio-chart.tsx): rotation charts are
 * handed to the rotation graph; line charts get a Y axis symmetric about 0 %, one
 * line per series key with a cycling colour, and capitalised series names.
 */
module PortfolioChart {
  import opened Wrappers
  import opened Strings
  import opened Numeric
  import opened ChartTypes
  import RotationGraph

  /** The numbers of one row that feed the Y domain: every number not stored under "date". */
  function NumbersOf(rec: Record): (vs: seq<real>)
    ensures forall v :: v in vs <==> exists f :: f in rec && f.key != "date" && f.value == Num(v)
    decreases |rec|
  {
    if rec == [] then []
    else
      assert rec == [rec[0]] + rec[1..];
      (if rec[0].key != "date" && rec[0].value.Num? then [rec[0].value.n] else []) + NumbersOf(rec[1..])
  }

  /** `allValues`: the `flatMap` of NumbersOf over the rows. */
  function AllValues(rows: seq<Record>): (vs: seq<real>)
    ensures forall v :: v in vs <==> exists i :: 0 <= i < |rows| && v in NumbersOf(rows[i])
    decreases |rows|
  {
    if rows == [] then []
    else
      assert forall i :: 0 < i < |rows| ==> rows[i] == rows[1..][i - 1];
      NumbersOf(rows[0]) + AllValues(rows[1..])
  }

  /** `Math.max(Math.abs(minValue), Math.abs(maxValue))`: the largest magnitude among the values. */
  function MaxAbs(vs: seq<real>): (m: real)
    requires |vs| > 0
    ensures forall v :: v in vs ==> Abs(v) <= m
    ensures exists v :: v in vs && Abs(v) == m
  {
    var lo, hi := Min(vs), Max(vs);
    if Abs(lo) >= Abs(hi) then Abs(lo) else Abs(hi)
  }

  /** `Math.ceil(maxAbs / 2) * 2 + 4`: the next even number at or above `maxAbs`, plus 4. */
  function RoundedMax(maxAbs: real): (r: int)
    requires maxAbs >= 0.0
    ensures r % 2 == 0 && r >= 4
    ensures maxAbs + 4.0 <= r as real < maxAbs + 6.0
  {
    Ceil(maxAbs / 2.0) * 2 + 4
  }

  /** The Y domain `[-roundedMax, roundedMax]`. */
  datatype YDomain = YDomain(lo: int, hi: int)

  /** The domain is symmetric about 0 and leaves at least 4 units of margin around every value. */
  function SymmetricDomain(rows: seq<Record>): (d: YDomain)
    requires |AllValues(rows)| > 0
    ensures d.lo == -d.hi && d.hi >= 4 && d.hi % 2 == 0
    ensures forall v :: v in AllValues(rows) ==> d.lo as real + 4.0 <= v <= d.hi as real - 4.0
    ensures exists v :: v in AllValues(rows) && d.hi as real < Abs(v) + 6.0
  {
    var r := RoundedMax(MaxAbs(AllValues(rows)));
    YDomain(-r, r)
  }

  /** The worked case: values up to 6.4 in magnitude give the domain [-12, 12]. */
  lemma RoundedMaxExample()
    ensures RoundedMax(6.4) == 12
  {
    assert Ceil(3.2) == 4;
  }

  /** `colors`: line `i` is stroked with `Colors[i % 5]`. */
  const Colors: seq<string> := ["#8884d8", "#82ca9d", "#ffc658", "#ff7300", "#00ff00"]

  datatype LineSpec = LineSpec(dataKey: string, stroke: string, name: string)

  /** `Object.keys(first).slice(1).map(...)`: one line per key of the first row but its first. */
  function SeriesLines(first: Record): (lines: seq<LineSpec>)
    ensures |lines| == if |first| == 0 then 0 else |first| - 1
    ensures forall i :: 0 <= i < |lines| ==> lines[i].dataKey == Keys(first)[i + 1]
    ensures forall i :: 0 <= i < |lines| ==> lines[i].stroke == Colors[i % |Colors|]
    ensures forall i :: 0 <= i < |lines| ==> lines[i].name == Capitalize(lines[i].dataKey)
  {
    var keys := if |first| == 0 then [] else Keys(first)[1..];
    seq(|keys|, i requires 0 <= i < |keys| => LineSpec(keys[i], Colors[i % |Colors|], Capitalize(keys[i])))
  }

  /** Distinct keys in the first row give distinct lines. */
  lemma SeriesLinesDistinct(first: Record)
    requires DistinctKeys(first)
    ensures forall i, j :: 0 <= i < j < |SeriesLines(first)| ==>
      SeriesLines(first)[i].dataKey != SeriesLines(first)[j].dataKey
  {
    var lines := SeriesLines(first);
    forall i, j | 0 <= i < j < |lines| ensures lines[i].dataKey != lines[j].dataKey {
      assert lines[i].dataKey == Keys(first)[i + 1] && lines[j].dataKey == Keys(first)[j + 1];
    }
  }

  /** Lines five apart share a colour; lines fewer than five apart never do. */
  lemma ColorsCycle(first: Record, i: int, j: int)
    requires 0 <= i < j < |SeriesLines(first)|
    ensures SeriesLines(first)[i].stroke == SeriesLines(first)[j].stroke <==> (j - i) % 5 == 0
  {
    var lines := SeriesLines(first);
    assert lines[i].stroke == Colors[i % 5] && lines[j].stroke == Colors[j % 5];
    assert forall x, y :: 0 <= x < 5 && 0 <= y < 5 ==> (Colors[x] == Colors[y] <==> x == y);
    SameResidue(i, j);
  }

  lemma SameResidue(i: int, j: int)
    requires 0 <= i <= j
    ensures (j - i) % 5 == 0 <==> i % 5 == j % 5
  {
    var a, b := i / 5, j / 5;
    var ri, rj := i % 5, j % 5;
    assert i == 5 * a + ri && j == 5 * b + rj;
    assert j - i == 5 * (b - a) + (rj - ri);
    if rj >= ri {
      assert (j - i) % 5 == rj - ri;
    } else {
      assert j - i == 5 * (b - a - 1) + (rj - ri + 5);
      assert (j - i) % 5 == rj - ri + 5;
    }
  }

  /** The tooltip's `formatter`: the value to two decimals and the series name capitalised. */
  function TooltipEntry(value: real, name: string): (entry: (real, string))
    ensures IsHundredths(entry.0) && -0.005 <= entry.0 - value <= 0.005
    ensures entry.1 == Capitalize(name)
  {
    (RoundHundredths(value), Capitalize(name))
  }

  /**
   * The tooltip receives the line's display name and capitalises it once more, which
   * changes nothing: tooltip and legend show the same name. A value the chart request
   * already rounded is shown unchanged.
   */
  lemma TooltipMatchesLegend(first: Record, i: int, value: real)
    requires 0 <= i < |SeriesLines(first)|
    ensures TooltipEntry(value, SeriesLines(first)[i].name).1 == SeriesLines(first)[i].name
    ensures TooltipEntry(RoundHundredths(value), SeriesLines(first)[i].name).0 == RoundHundredths(value)
  {
    CapitalizeIdempotent(SeriesLines(first)[i].dataKey);
    RoundHundredthsIdempotent(value);
  }

  /** What the card renders, apart from the drawing. */
  datatype ChartView =
    | RotationView(graph: RotationGraph.GraphView)
    | LineView(title: string, xAxisKey: Option<string>, yDomain: YDomain, lines: seq<LineSpec>)

  /** A line chart can be drawn: it has a first row and at least one number (else `Math.min()` is Infinity). */
  predicate Drawable(chart: ChartData) {
    chart.LineChart? ==> |chart.rows| > 0 && |AllValues(chart.rows)| > 0
  }

  /** `PortfolioChart`. */
  function Render(chart: ChartData): (v: ChartView)
    requires Drawable(chart)
    ensures v.RotationView? <==> chart.RotationChart?
    ensures chart.RotationChart? ==>
      v.graph == RotationGraph.Render(chart.title, chart.points, chart.xAxisLabel, chart.yAxisLabel)
    ensures chart.LineChart? ==> (
      && v.title == chart.title
      && v.xAxisKey == (if |chart.rows[0]| > 0 then Some(chart.rows[0][0].key) else None)
      && v.yDomain == SymmetricDomain(chart.rows) && v.lines == SeriesLines(chart.rows[0]))
  {
    match chart
    case RotationChart(title, xLabel, yLabel, points) =>
      RotationView(RotationGraph.Render(title, points, xLabel, yLabel))
    case LineChart(title, _, _, rows) =>
      var xKey := if |rows[0]| > 0 then Some(Keys(rows[0])[0]) else None;
      LineView(title, xKey, SymmetricDomain(rows), SeriesLines(rows[0]))
  }
}
