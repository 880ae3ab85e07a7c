/**
 * The mocked chat endpoint (app/api/chat/route.ts): a rotation question gets the
 * rotation answer; anything else gets one of the two other canned answers, picked
 * by `Math.random()`, which is an input of the model.
 */
module ChatRoute {
  import opened Wrappers
  import opened Strings
  import opened ChartTypes
  import ChartRequest
  import RotationGraph

  /** One canned reply: the text and the charts that come with it. */
  datatype MockResponse = MockResponse(response: string, charts: seq<ChartData>)

  /** A row of the mock line charts: a `month` label and numbered series. */
  function MonthRow(month: string, series: seq<(string, real)>): Record {
    [Field("month", Text(month))] + seq(|series|, i requires 0 <= i < |series| => Field(series[i].0, Num(series[i].1)))
  }

  const PortfolioVsSP500Rows: seq<Record> := [
    MonthRow("Jan", [("portfolio", 100.0), ("sp500", 100.0)]),
    MonthRow("Feb", [("portfolio", 105.0), ("sp500", 103.0)]),
    MonthRow("Mar", [("portfolio", 112.0), ("sp500", 108.0)]),
    MonthRow("Apr", [("portfolio", 118.0), ("sp500", 115.0)]),
    MonthRow("May", [("portfolio", 125.0), ("sp500", 120.0)]),
    MonthRow("Jun", [("portfolio", 120.0), ("sp500", 118.0)]),
    MonthRow("Jul", [("portfolio", 128.0), ("sp500", 125.0)]),
    MonthRow("Aug", [("portfolio", 122.0), ("sp500", 120.0)]),
    MonthRow("Sep", [("portfolio", 115.0), ("sp500", 115.0)]),
    MonthRow("Oct", [("portfolio", 110.0), ("sp500", 112.0)]),
    MonthRow("Nov", [("portfolio", 118.0), ("sp500", 116.0)]),
    MonthRow("Dec", [("portfolio", 115.0), ("sp500", 112.0)])
  ]

  const SectorComparisonRows: seq<Record> := [
    MonthRow("Q1", [("tech", 115.0), ("healthcare", 108.0), ("finance", 105.0)]),
    MonthRow("Q2", [("tech", 125.0), ("healthcare", 112.0), ("finance", 110.0)]),
    MonthRow("Q3", [("tech", 118.0), ("healthcare", 115.0), ("finance", 108.0)]),
    MonthRow("Q4", [("tech", 130.0), ("healthcare", 118.0), ("finance", 112.0)])
  ]

  const PerformanceText: string :=
    "Based on your portfolio analysis, you achieved a 15.2% return in 2023, outperforming the S&P 500 by 2.7%. Your tech-heavy allocation contributed significantly to this outperformance."
  const DiversificationText: string :=
    "Your portfolio shows strong diversification across sectors. However, I notice a 35% allocation to technology stocks, which while profitable in 2023, may expose you to sector-specific risks."
  const RotationText: string :=
    "Here's a relative rotation graph showing how different sectors are performing relative to the market. Technology and Communication Services are in the 'Leading' quadrant, showing strong relative strength and positive momentum."

  /** `mockResponses`. */
  const MockResponses: seq<MockResponse> := [
    MockResponse(
      PerformanceText,
      [LineChart("Portfolio vs S&P 500 - 2023", None, None, PortfolioVsSP500Rows)]),
    MockResponse(
      DiversificationText,
      [LineChart("Sector Performance Comparison", None, None, SectorComparisonRows)]),
    MockResponse(
      RotationText,
      [RotationChart("Sector Relative Rotation Analysis", Some("Relative Strength vs S&P 500"),
                     Some("Momentum (Rate of Change)"), ChartRequest.SectorPoints)])
  ]

  /** The keyword test of the chat handler, on the lower-cased message. */
  predicate AsksForRotation(text: string)
    ensures AsksForRotation(text) <==> ChartRequest.AsksForRotation(text)
  {
    Includes(text, "relative") || Includes(text, "rotation") || Includes(text, "sector") || Includes(text, "quadrant")
  }

  /** `Math.floor(Math.random() * 2)` for a draw `random` in [0, 1). */
  function RandomIndex(random: real): (i: int)
    requires 0.0 <= random < 1.0
    ensures i == 0 || i == 1
    ensures i == 0 <==> random < 0.5
  {
    (random * 2.0).Floor
  }

  datatype ChatReply = Json(body: MockResponse) | ChatError(status: int, error: string)

  /**
   * `POST`: `message` is `None` when the body has no string `message`, whose
   * `toLowerCase()` then throws; `random` is the value `Math.random()` returned.
   */
  function Post(message: Option<string>, random: real): (reply: ChatReply)
    requires 0.0 <= random < 1.0
    ensures message.None? ==> reply == ChatError(500, "Failed to process chat message")
    ensures message.Some? && AsksForRotation(Lower(message.value)) ==> reply == Json(MockResponses[2])
    ensures message.Some? && !AsksForRotation(Lower(message.value)) ==>
      reply == Json(MockResponses[0]) || reply == Json(MockResponses[1])
  {
    match message
    case None => ChatError(500, "Failed to process chat message")
    case Some(m) =>
      if AsksForRotation(Lower(m)) then Json(MockResponses[2])
      else Json(MockResponses[RandomIndex(random)])
  }

  /** The canned replies are told apart by their text. */
  lemma ResponsesDistinct()
    ensures MockResponses[0] != MockResponses[2] && MockResponses[1] != MockResponses[2]
    ensures MockResponses[0] != MockResponses[1]
  {
    assert |PerformanceText| == 182 && |DiversificationText| == 189 && |RotationText| == 226;
  }

  /**
   * The chat endpoint answers with the rotation reply exactly when the chart-request
   * endpoint would draw the rotation chart for the same message: both use the same
   * keywords on the lower-cased text.
   */
  lemma SameRotationTestAsChartRequest(message: string, random: real)
    requires 0.0 <= random < 1.0
    ensures AsksForRotation(Lower(message)) == ChartRequest.AsksForRotation(Lower(message))
    ensures Post(Some(message), random) == Json(MockResponses[2])
        <==> ChartRequest.IntentOf(message) == ChartRequest.RelativeRotation
  {
    ResponsesDistinct();
  }

  /** Every non-rotation question can get either of the two other replies, depending on the draw. */
  lemma BothOtherRepliesReachable(message: string)
    requires !AsksForRotation(Lower(message))
    ensures Post(Some(message), 0.0) == Json(MockResponses[0])
    ensures Post(Some(message), 0.5) == Json(MockResponses[1])
  {
  }

  /**
   * The rotation reply carries one rotation chart of eight distinct sectors, two of them
   * (Technology, Communication Services) in the Leading quadrant as its text says; the
   * other two replies carry one line chart each.
   */
  lemma MockResponseShapes()
    ensures |MockResponses[2].charts| == 1 && MockResponses[2].charts[0].RotationChart?
    ensures |MockResponses[2].charts[0].points| == 8
    ensures forall i, j :: 0 <= i < j < 8 ==>
      SectorNames(MockResponses[2].charts[0].points)[i] != SectorNames(MockResponses[2].charts[0].points)[j]
    ensures forall i :: 0 <= i < 8 ==>
      var p := MockResponses[2].charts[0].points[i];
      (RotationGraph.GetQuadrantInfo(p.relativeStrength, p.momentum).quadrant == "Leading" <==>
       p.name in ["Technology", "Communication Services"])
    ensures |MockResponses[0].charts| == 1 && MockResponses[0].charts[0].LineChart?
    ensures |MockResponses[1].charts| == 1 && MockResponses[1].charts[0].LineChart?
  {
    ChartRequest.SectorNamesAsListed();
  }
}
