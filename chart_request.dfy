/**
 * The chart-request endpoint (app/api/chart-request/route.ts): a keyword
 * dispatcher that picks one of five canned datasets, and the normaliser that
 * turns absolute portfolio values into percentage returns against the first
 * month.
 */
module ChartRequest {
  import opened Wrappers
  import opened Strings
  import opened Numeric
  import opened ChartTypes

  // ---------------------------------------------------------------------------
  // calculatePercentageReturns

  /**
   * What the normaliser needs to produce numbers. Record 0 is set to 0 without reading
   * anything, so a series of at most one record always normalises. A longer series needs
   * a number under the key in every record and a first one that is not zero. Otherwise
   * the source converts the value with JavaScript's `-` (a numeric string gives a number,
   * anything else NaN) or divides by zero; the model represents none of these.
   */
  predicate Normalisable(data: seq<Record>, key: string) {
    |data| > 1 ==>
      && (forall i :: 0 <= i < |data| ==> HasNum(data[i], key))
      && NumAt(data[0], key) != 0.0
  }

  /**
   * `parseFloat(((v - v0) / v0 * 100).toFixed(2))`: the change from `v0` to `v` in percent,
   * to the hundredth.
   */
  function PercentChange(v0: real, v: real): (r: real)
    requires v0 != 0.0
    ensures IsHundredths(r)
    ensures -0.005 <= r - (v - v0) / v0 * 100.0 <= 0.005
  {
    RoundHundredths((v - v0) / v0 * 100.0)
  }

  /** The value the chart shows for record `i`: 0 for the first, else the change against the first. */
  function ReturnAt(data: seq<Record>, key: string, i: int): (r: real)
    requires Normalisable(data, key) && 0 <= i < |data|
    ensures IsHundredths(r)
    ensures i == 0 ==> r == 0.0
    ensures i > 0 ==>
      -0.005 <= r - (NumAt(data[i], key) - NumAt(data[0], key)) / NumAt(data[0], key) * 100.0 <= 0.005
  {
    if i == 0 then
      assert (0.0 * 100.0).Floor == 0;
      0.0
    else PercentChange(NumAt(data[0], key), NumAt(data[i], key))
  }

  /** `calculatePercentageReturns(data, baselineKey)`. */
  function PercentageReturns(data: seq<Record>, baselineKey: string): (r: seq<Record>)
    requires Normalisable(data, baselineKey)
    ensures data == [] ==> r == []
    ensures |r| == |data|
    ensures |r| > 0 ==> Get(r[0], baselineKey) == Some(Num(0.0))
    ensures forall i :: 0 <= i < |r| ==> Get(r[i], baselineKey) == Some(Num(ReturnAt(data, baselineKey, i)))
    ensures forall i, k :: 0 <= i < |r| && k != baselineKey ==> Get(r[i], k) == Get(data[i], k)
    ensures forall i :: 0 <= i < |r| ==>
      Keys(r[i]) == if baselineKey in Keys(data[i]) then Keys(data[i]) else Keys(data[i]) + [baselineKey]
    ensures |data| > 1 ==> forall i :: 0 <= i < |r| ==> Keys(r[i]) == Keys(data[i])
    ensures forall i :: 0 <= i < |r| && DistinctKeys(data[i]) ==> DistinctKeys(r[i])
  {
    if |data| == 0 then data
    else
      seq(|data|, i requires 0 <= i < |data| =>
        var v := Num(ReturnAt(data, baselineKey, i));
        SetKeepsDistinctKeys(data[i], baselineKey, v);
        Set(data[i], baselineKey, v))
  }

  /**
   * A series of one record needs no baseline: the record gets 0 under the key, whatever
   * it held there, or the key is added with 0 when it was missing.
   */
  lemma OneRecordNeedsNoBaseline(rec: Record, key: string)
    ensures Normalisable([rec], key)
    ensures PercentageReturns([rec], key) == [Set(rec, key, Num(0.0))]
    ensures Keys(PercentageReturns([rec], key)[0]) == if key in Keys(rec) then Keys(rec) else Keys(rec) + [key]
  {
  }

  /**
   * The change can be read back into an absolute value: `v0` scaled by 1 + r/100 is
   * within 0.005 percent of `v0` of the true value `v`.
   */
  lemma PercentChangeRecoversValue(v0: real, v: real)
    requires v0 != 0.0
    ensures Abs(v0 + v0 * PercentChange(v0, v) / 100.0 - v) <= Abs(v0) * 0.00005
  {
    var e := (v - v0) / v0 * 100.0;
    var d := PercentChange(v0, v) - e;
    ScaleBack(v0, v);
    assert v0 * (e + d) / 100.0 == v0 * e / 100.0 + v0 * d / 100.0;
    SmallScaledError(v0, d);
  }

  /** Scaling the exact percentage back by `v0 / 100` gives the absolute change. */
  lemma ScaleBack(v0: real, v: real)
    requires v0 != 0.0
    ensures v0 * ((v - v0) / v0 * 100.0) / 100.0 == v - v0
  {
    var q := (v - v0) / v0;
    assert q * v0 == v - v0;
    assert v0 * (q * 100.0) / 100.0 == v0 * q;
  }

  /** Scaling an error of at most 0.005 by `a / 100` leaves it within `|a|` times 0.00005. */
  lemma SmallScaledError(a: real, d: real)
    requires -0.005 <= d <= 0.005
    ensures Abs(a * d / 100.0) <= Abs(a) * 0.00005
  {
    var p := a * d;
    assert a * (0.005 - d) == a * 0.005 - p;
    assert a * (d + 0.005) == p + a * 0.005;
    if a >= 0.0 {
      NonNegativeProduct(a, 0.005 - d);
      NonNegativeProduct(a, d + 0.005);
      assert Abs(a) == a;
    } else {
      NonNegativeProduct(-a, 0.005 - d);
      NonNegativeProduct(-a, d + 0.005);
      assert Abs(a) == -a;
    }
  }

  lemma NonNegativeProduct(x: real, y: real)
    requires x >= 0.0 && y >= 0.0
    ensures x * y >= 0.0
  {
  }

  /** Against a positive first value, a rise never shows as a loss and a fall never as a gain. */
  lemma PercentChangeSign(v0: real, v: real)
    requires v0 > 0.0
    ensures v >= v0 ==> PercentChange(v0, v) >= 0.0
    ensures v <= v0 ==> PercentChange(v0, v) <= 0.0
  {
    if v >= v0 {
      assert (v - v0) / v0 >= 0.0;
    } else {
      assert (v - v0) / v0 <= 0.0;
    }
  }

  // ---------------------------------------------------------------------------
  // The datasets and the per-index merge

  /** One literal month of absolute values: `{ date, k1: v1, k2: v2 }`. */
  function RawRow(date: string, k1: string, v1: real, k2: string, v2: real): Record {
    [Field("date", Text(date)), Field(k1, Num(v1)), Field(k2, Num(v2))]
  }

  /** A literal `rawData` table, month by month. */
  function RawSeries(dates: seq<string>, k1: string, v1s: seq<real>, k2: string, v2s: seq<real>): (raw: seq<Record>)
    requires |v1s| == |dates| && |v2s| == |dates|
    ensures |raw| == |dates|
  {
    seq(|dates|, i requires 0 <= i < |dates| => RawRow(dates[i], k1, v1s[i], k2, v2s[i]))
  }

  lemma RawRowFields(date: string, k1: string, v1: real, k2: string, v2: real)
    requires k1 != "date" && k2 != "date" && k1 != k2
    ensures Get(RawRow(date, k1, v1, k2, v2), "date") == Some(Text(date))
    ensures Get(RawRow(date, k1, v1, k2, v2), k1) == Some(Num(v1))
    ensures Get(RawRow(date, k1, v1, k2, v2), k2) == Some(Num(v2))
  {
    var row := RawRow(date, k1, v1, k2, v2);
    assert row[1..] == [Field(k1, Num(v1)), Field(k2, Num(v2))];
    assert row[1..][1..] == [Field(k2, Num(v2))];
    assert Get(row, k2) == Get(row[1..], k2) == Get(row[1..][1..], k2);
  }

  /** What the merge needs of a literal table, and where its numbers come from. */
  predicate RawSeriesWellFormedFacts(dates: seq<string>, k1: string, v1s: seq<real>, k2: string, v2s: seq<real>)
    requires |v1s| == |dates| && |v2s| == |dates|
  {
    var raw := RawSeries(dates, k1, v1s, k2, v2s);
    && Normalisable(raw, k1) && Normalisable(raw, k2)
    && (forall i :: 0 <= i < |dates| ==> Get(raw[i], "date") == Some(Text(dates[i])))
    && (forall i :: 0 <= i < |dates| ==> Get(raw[i], k1) == Some(Num(v1s[i])) && Get(raw[i], k2) == Some(Num(v2s[i])))
  }

  /** The preconditions of the merge hold of every literal table whose first values are not zero. */
  lemma RawSeriesWellFormed(dates: seq<string>, k1: string, v1s: seq<real>, k2: string, v2s: seq<real>)
    requires |v1s| == |dates| && |v2s| == |dates|
    requires k1 != "date" && k2 != "date" && k1 != k2
    requires |dates| > 0 ==> v1s[0] != 0.0 && v2s[0] != 0.0
    ensures RawSeriesWellFormedFacts(dates, k1, v1s, k2, v2s)
  {
    var raw := RawSeries(dates, k1, v1s, k2, v2s);
    forall i | 0 <= i < |dates|
      ensures Get(raw[i], "date") == Some(Text(dates[i]))
      ensures Get(raw[i], k1) == Some(Num(v1s[i])) && Get(raw[i], k2) == Some(Num(v2s[i]))
    {
      RawRowFields(dates[i], k1, v1s[i], k2, v2s[i]);
    }
  }

  /** A row of the merged chart: `{ date, name1: v1, name2: v2 }`. */
  function MergedRow(date: Value, name1: string, v1: real, name2: string, v2: real): (row: Record)
    requires name1 != "date" && name2 != "date" && name1 != name2
    ensures Keys(row) == ["date", name1, name2] && DistinctKeys(row)
    ensures Get(row, "date") == Some(date)
    ensures Get(row, name1) == Some(Num(v1)) && Get(row, name2) == Some(Num(v2))
  {
    var row := [Field("date", date), Field(name1, Num(v1)), Field(name2, Num(v2))];
    assert row[1..] == [Field(name1, Num(v1)), Field(name2, Num(v2))];
    assert row[1..][1..] == [Field(name2, Num(v2))];
    assert Get(row, name2) == Get(row[1..], name2) == Get(row[1..][1..], name2);
    row
  }

  /**
   * `rawData.map((_, index) => ...)` over the two independently normalised copies:
   * row `i` takes its date from raw row `i` and each series' return from its own
   * normalised copy, each measured against that series' own first value.
   */
  function MergeSeries(raw: seq<Record>, k1: string, name1: string, k2: string, name2: string): (rows: seq<Record>)
    requires Normalisable(raw, k1) && Normalisable(raw, k2)
    requires forall i :: 0 <= i < |raw| ==> Get(raw[i], "date").Some?
    requires name1 != "date" && name2 != "date" && name1 != name2
    ensures |rows| == |raw|
    ensures forall i :: 0 <= i < |raw| ==>
      rows[i] == MergedRow(Get(raw[i], "date").value, name1, ReturnAt(raw, k1, i), name2, ReturnAt(raw, k2, i))
  {
    var left := PercentageReturns(raw, k1);
    var right := PercentageReturns(raw, k2);
    seq(|raw|, i requires 0 <= i < |raw| =>
      NormalisedAt(raw, k1, i);
      NormalisedAt(raw, k2, i);
      MergedRow(Get(raw[i], "date").value, name1, NumAt(left[i], k1), name2, NumAt(right[i], k2)))
  }

  /** Row `i` of a normalised copy holds that row's return at the normalised key. */
  lemma NormalisedAt(raw: seq<Record>, k: string, i: int)
    requires Normalisable(raw, k) && 0 <= i < |raw|
    ensures |PercentageReturns(raw, k)| == |raw| && HasNum(PercentageReturns(raw, k)[i], k)
    ensures NumAt(PercentageReturns(raw, k)[i], k) == ReturnAt(raw, k, i)
  {
  }

  const Months6: seq<string> := ["Jan", "Feb", "Mar", "Apr", "May", "Jun"]
  const Months12: seq<string> := Months6 + ["Jul", "Aug", "Sep", "Oct", "Nov", "Dec"]

  const SP500Portfolio: seq<real> := [50000.0, 50300.0, 50900.0, 50200.0, 51100.0, 51600.0, 51400.0, 51800.0, 52200.0, 52500.0, 52800.0, 53200.0]
  const SP500Index: seq<real> := [50000.0, 50150.0, 50600.0, 50100.0, 50800.0, 51200.0, 51000.0, 51300.0, 51600.0, 51800.0, 52000.0, 52200.0]
  const NasdaqPortfolio: seq<real> := [100000.0, 100500.0, 101800.0, 100900.0, 102600.0, 103400.0, 103100.0, 103800.0, 104500.0, 105200.0, 105800.0, 106500.0]
  const NasdaqIndex: seq<real> := [100000.0, 100200.0, 101400.0, 100700.0, 102000.0, 102800.0, 102500.0, 103100.0, 103700.0, 104300.0, 104800.0, 105400.0]
  const TechHoldingsValues: seq<real> := [25000.0, 25150.0, 25450.0, 25200.0, 25800.0, 26100.0]
  const TechIndexValues: seq<real> := [25000.0, 25075.0, 25300.0, 25100.0, 25600.0, 25850.0]
  const DefaultPortfolio: seq<real> := [75000.0, 75450.0, 76200.0, 75800.0, 77100.0, 77850.0]
  const DefaultBenchmarkValues: seq<real> := [75000.0, 75300.0, 75900.0, 75600.0, 76500.0, 77200.0]

  /** Every series of the first row reads 0 %: the chart "starts at 0%". */
  predicate StartsAtZero(rows: seq<Record>) {
    |rows| > 0 && forall k :: k in Keys(rows[0]) && k != "date" ==> Get(rows[0], k) == Some(Num(0.0))
  }

  lemma MergedRowStartsAtZero(rows: seq<Record>, date: Value, name1: string, name2: string)
    requires name1 != "date" && name2 != "date" && name1 != name2
    requires |rows| > 0 && rows[0] == MergedRow(date, name1, 0.0, name2, 0.0)
    ensures StartsAtZero(rows)
  {
  }

  /** The merged rows of a literal table, stated in terms of the table's own numbers. */
  lemma MergedLiteralTable(dates: seq<string>, k1: string, v1s: seq<real>, name1: string,
                           k2: string, v2s: seq<real>, name2: string, rows: seq<Record>)
    requires |v1s| == |dates| && |v2s| == |dates| && |dates| > 0
    requires k1 != "date" && k2 != "date" && k1 != k2
    requires name1 != "date" && name2 != "date" && name1 != name2
    requires RawSeriesWellFormedFacts(dates, k1, v1s, k2, v2s)
    requires rows == MergeSeries(RawSeries(dates, k1, v1s, k2, v2s), k1, name1, k2, name2)
    ensures |rows| == |dates|
    ensures rows[0] == MergedRow(Text(dates[0]), name1, 0.0, name2, 0.0)
    ensures StartsAtZero(rows)
    ensures forall i :: 0 < i < |dates| ==>
      rows[i] == MergedRow(Text(dates[i]), name1, PercentChange(v1s[0], v1s[i]), name2, PercentChange(v2s[0], v2s[i]))
  {
    var raw := RawSeries(dates, k1, v1s, k2, v2s);
    assert rows[0] == MergedRow(Text(dates[0]), name1, 0.0, name2, 0.0);
    MergedRowStartsAtZero(rows, Text(dates[0]), name1, name2);
    forall i | 0 < i < |dates|
      ensures rows[i] == MergedRow(Text(dates[i]), name1, PercentChange(v1s[0], v1s[i]), name2, PercentChange(v2s[0], v2s[i]))
    {
      assert ReturnAt(raw, k1, i) == PercentChange(v1s[0], v1s[i]);
      assert ReturnAt(raw, k2, i) == PercentChange(v2s[0], v2s[i]);
    }
  }

  /** A line chart of percentage returns built from one literal table. */
  function ReturnsChart(title: string, dates: seq<string>, k1: string, v1s: seq<real>, name1: string,
                        k2: string, v2s: seq<real>, name2: string): (chart: ChartData)
    requires |v1s| == |dates| && |v2s| == |dates| && |dates| > 0
    requires k1 != "date" && k2 != "date" && k1 != k2
    requires name1 != "date" && name2 != "date" && name1 != name2
    requires v1s[0] != 0.0 && v2s[0] != 0.0
    ensures chart.LineChart? && chart.title == title && |chart.rows| == |dates|
    ensures chart.xAxisLabel == Some("Month") && chart.yAxisLabel == Some("Return (%)")
    ensures chart.rows[0] == MergedRow(Text(dates[0]), name1, 0.0, name2, 0.0)
    ensures forall i :: 0 < i < |dates| ==>
      (chart.rows[i] == MergedRow(Text(dates[i]), name1, PercentChange(v1s[0], v1s[i]), name2, PercentChange(v2s[0], v2s[i])))
    ensures StartsAtZero(chart.rows)
  {
    RawSeriesWellFormed(dates, k1, v1s, k2, v2s);
    var rows := MergeSeries(RawSeries(dates, k1, v1s, k2, v2s), k1, name1, k2, name2);
    MergedLiteralTable(dates, k1, v1s, name1, k2, v2s, name2, rows);
    LineChart(title, Some("Month"), Some("Return (%)"), rows)
  }

  // ---------------------------------------------------------------------------
  // Dispatch

  /** The five datasets the endpoint can answer with, in the order the handler tests for them. */
  datatype ChartIntent = RelativeRotation | VersusSP500 | VersusNasdaq | TechHoldings | DefaultBenchmark

  /** The words of the first test of the handler. */
  const RotationKeywords: seq<string> := ["relative", "rotation", "sector", "quadrant"]

  /** The first test of the handler, on the lower-cased message: one of the rotation words occurs in it. */
  predicate AsksForRotation(text: string)
    ensures AsksForRotation(text) <==> exists w, i :: w in RotationKeywords && OccursAt(text, w, i)
  {
    IncludesIffOccurs(text, "relative");
    IncludesIffOccurs(text, "rotation");
    IncludesIffOccurs(text, "sector");
    IncludesIffOccurs(text, "quadrant");
    Includes(text, "relative") || Includes(text, "rotation") || Includes(text, "sector") || Includes(text, "quadrant")
  }

  /** The words of the second test of the handler. */
  const SP500Keywords: seq<string> := ["s&p", "sp500"]

  /** The second test of the handler: "s&p" or "sp500" occurs in the lower-cased message. */
  predicate AsksForSP500(text: string)
    ensures AsksForSP500(text) <==> exists w, i :: w in SP500Keywords && OccursAt(text, w, i)
  {
    IncludesIffOccurs(text, "s&p");
    IncludesIffOccurs(text, "sp500");
    Includes(text, "s&p") || Includes(text, "sp500")
  }

  /** The if/else chain of `POST`: the first keyword group that matches wins. */
  function IntentOf(message: string): (intent: ChartIntent)
    ensures intent == RelativeRotation <==> AsksForRotation(Lower(message))
    ensures intent == VersusSP500 <==> !AsksForRotation(Lower(message)) && AsksForSP500(Lower(message))
    ensures intent == VersusNasdaq <==>
      !AsksForRotation(Lower(message)) && !AsksForSP500(Lower(message)) && Includes(Lower(message), "nasdaq")
    ensures intent == TechHoldings <==>
      !AsksForRotation(Lower(message)) && !AsksForSP500(Lower(message)) && !Includes(Lower(message), "nasdaq")
      && Includes(Lower(message), "tech")
  {
    var text := Lower(message);
    if AsksForRotation(text) then RelativeRotation
    else if AsksForSP500(text) then VersusSP500
    else if Includes(text, "nasdaq") then VersusNasdaq
    else if Includes(text, "tech") then TechHoldings
    else DefaultBenchmark
  }

  /** The dispatch ignores letter case. */
  lemma IntentIgnoresCase(message: string)
    ensures IntentOf(Lower(message)) == IntentOf(message)
  {
    LowerIdempotent(message);
  }

  /**
   * A rotation keyword, written in any letter case anywhere in the message, selects the
   * rotation chart whatever else the message mentions.
   */
  lemma RotationKeywordWins(pre: string, word: string, post: string)
    requires Lower(word) in RotationKeywords
    ensures IntentOf(pre + word + post) == RelativeRotation
  {
    LowerConcat(pre + word, post);
    LowerConcat(pre, word);
    IncludesInfix(Lower(pre), Lower(word), Lower(post));
  }

  /** The eight sectors of the rotation chart (the chat endpoint serves the same eight). */
  const SectorPoints: seq<RotationPoint> := [
    RotationPoint("Technology", 108.0, 105.0, Some(120.0), None),
    RotationPoint("Healthcare", 102.0, 98.0, Some(100.0), None),
    RotationPoint("Financial Services", 95.0, 92.0, Some(110.0), None),
    RotationPoint("Energy", 112.0, 89.0, Some(90.0), None),
    RotationPoint("Consumer Discretionary", 88.0, 103.0, Some(105.0), None),
    RotationPoint("Real Estate", 85.0, 87.0, Some(80.0), None),
    RotationPoint("Communication Services", 106.0, 107.0, Some(115.0), None),
    RotationPoint("Utilities", 92.0, 95.0, Some(85.0), None)
  ]

  /** The eight sectors have distinct names, no colour of their own, and a positive size each. */
  lemma SectorPointsAsListed()
    ensures |SectorPoints| == 8
    ensures forall p :: p in SectorPoints ==> p.color.None? && p.size.Some? && p.size.value > 0.0
    ensures forall i, j :: 0 <= i < j < |SectorPoints| ==> SectorPoints[i].name != SectorPoints[j].name
  {
    SectorNamesAsListed();
  }

  /** The sector names, in the order the chart lists them. */
  lemma SectorNamesAsListed()
    ensures SectorNames(SectorPoints) == ["Technology", "Healthcare", "Financial Services", "Energy",
      "Consumer Discretionary", "Real Estate", "Communication Services", "Utilities"]
  {
  }

  /** The `chartData` literal each branch of the handler builds. */
  function ChartFor(intent: ChartIntent): (chart: ChartData)
    ensures chart.RotationChart? <==> intent == RelativeRotation
    ensures chart.RotationChart? ==> chart.points == SectorPoints
    ensures chart.LineChart? ==> |chart.rows| == (if intent in {VersusSP500, VersusNasdaq} then 12 else 6)
    ensures chart.LineChart? ==> StartsAtZero(chart.rows)
  {
    match intent
    case RelativeRotation =>
      RotationChart("Sector Relative Rotation Analysis", Some("Relative Strength vs Benchmark"),
                    Some("Momentum (Rate of Change)"), SectorPoints)
    case VersusSP500 =>
      ReturnsChart("Portfolio vs S&P 500 (% Returns)", Months12,
                   "portfolio", SP500Portfolio, "portfolio", "sp500", SP500Index, "sp500")
    case VersusNasdaq =>
      ReturnsChart("Portfolio vs NASDAQ (% Returns)", Months12,
                   "portfolio", NasdaqPortfolio, "portfolio", "nasdaq", NasdaqIndex, "nasdaq")
    case TechHoldings =>
      ReturnsChart("Tech Holdings vs Tech Sector Index (% Returns)", Months6,
                   "techHoldings", TechHoldingsValues, "tech holdings", "techIndex", TechIndexValues, "tech index")
    case DefaultBenchmark =>
      ReturnsChart("Portfolio Performance Analysis (% Returns)", Months6,
                   "portfolio", DefaultPortfolio, "portfolio", "benchmark", DefaultBenchmarkValues, "benchmark")
  }

  const RotationReplyText: string :=
    "I've created a relative rotation graph showing sector performance analysis. This quadrant chart helps visualize which sectors are in leading, improving, weakening, or lagging phases based on their relative strength and momentum."
  const ReturnsReplyText: string :=
    "I've analyzed your request and created a chart comparing performance as percentage returns. The chart starts at 0% and shows relative profitability over time."

  /** The JSON the endpoint answers with: the reply and chart, or the 500 error object. */
  datatype ChartReply =
    | Reply(response: string, chartData: ChartData)
    | Failure(status: int, error: string)

  /**
   * `POST`: `message` is `None` when the body has no string `message`, in which case
   * `message.toLowerCase()` throws and the handler answers 500.
   */
  function Post(message: Option<string>): (reply: ChartReply)
    ensures message.None? <==> reply == Failure(500, "Failed to process chart request")
    ensures message.Some? ==> reply.Reply? && reply.chartData == ChartFor(IntentOf(message.value))
    ensures reply.Reply? ==> (reply.response == RotationReplyText <==> reply.chartData.RotationChart?)
    ensures reply.Reply? ==> (reply.response == ReturnsReplyText <==> reply.chartData.LineChart?)
  {
    match message
    case None => Failure(500, "Failed to process chart request")
    case Some(m) =>
      var chart := ChartFor(IntentOf(m));
      var response := if chart.RotationChart? then RotationReplyText else ReturnsReplyText;
      Reply(response, chart)
  }

  /** "tech sector" mentions a rotation keyword, which the handler checks first: it gets the rotation chart. */
  lemma TechSectorGetsRotation()
    ensures IntentOf("tech sector") == RelativeRotation
    ensures Post(Some("Show my TECH SECTOR")).chartData.RotationChart?
  {
    assert Lower("sector") == "sector";
    RotationKeywordWins("tech ", "sector", "");
    assert "tech " + "sector" + "" == "tech sector";
    assert Lower("SECTOR") == "sector";
    RotationKeywordWins("Show my TECH ", "SECTOR", "");
    assert "Show my TECH " + "SECTOR" + "" == "Show my TECH SECTOR";
  }

  /** February of the S&P chart: 50000 to 50300 is +0.6 %, 50000 to 50150 is +0.3 %. */
  lemma SP500February()
    ensures Get(ChartFor(VersusSP500).rows[1], "portfolio") == Some(Num(0.6))
    ensures Get(ChartFor(VersusSP500).rows[1], "sp500") == Some(Num(0.3))
  {
    SP500SecondRow();
    FebruaryChanges();
  }

  lemma SP500SecondRow()
    ensures ChartFor(VersusSP500).rows[1] == MergedRow(Text(Months12[1]),
      "portfolio", PercentChange(SP500Portfolio[0], SP500Portfolio[1]),
      "sp500", PercentChange(SP500Index[0], SP500Index[1]))
  {
    var chart := ReturnsChart("Portfolio vs S&P 500 (% Returns)", Months12,
                              "portfolio", SP500Portfolio, "portfolio", "sp500", SP500Index, "sp500");
    assert ChartFor(VersusSP500) == chart;
    assert |Months12| == 12;
  }

  lemma FebruaryChanges()
    ensures PercentChange(SP500Portfolio[0], SP500Portfolio[1]) == 0.6
    ensures PercentChange(SP500Index[0], SP500Index[1]) == 0.3
  {
    PercentChangeExample(SP500Portfolio[0], SP500Portfolio[1], SP500Index[0], SP500Index[1]);
  }

  lemma PercentChangeExample(p0: real, p1: real, s0: real, s1: real)
    requires p0 == 50000.0 && p1 == 50300.0 && s0 == 50000.0 && s1 == 50150.0
    ensures PercentChange(p0, p1) == 0.6 && PercentChange(s0, s1) == 0.3
  {
    assert (p1 - p0) / p0 * 100.0 == 0.6;
    RoundHundredthsOfHundredths(0.6);
    assert (s1 - s0) / s0 * 100.0 == 0.3;
    RoundHundredthsOfHundredths(0.3);
  }
}
