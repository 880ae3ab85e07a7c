/**
 * The relative-rotation chart (components/charts/relative-rotation-graph.tsx):
 * the quadrant classifier, the colour/size defaults applied to each point, the
 * legend, and the axis bounds.
 */
module RotationGraph {
  import opened Wrappers
  import opened Numeric
  import opened ChartTypes

  /** `quadrantColors`. */
  const LeadingColor: string := "#22c55e"
  const WeakeningColor: string := "#eab308"
  const LaggingColor: string := "#ef4444"
  const ImprovingColor: string := "#3b82f6"

  /** What `getQuadrantInfo` returns and what a legend entry shows (`label` is `quadrant` here). */
  datatype QuadrantInfo = QuadrantInfo(quadrant: string, color: string, description: string)

  /** `legendData`: the four quadrants as the legend lists them. */
  const Legend: seq<QuadrantInfo> := [
    QuadrantInfo("Leading", LeadingColor, "Strong & Accelerating"),
    QuadrantInfo("Weakening", WeakeningColor, "Strong but Decelerating"),
    QuadrantInfo("Lagging", LaggingColor, "Weak & Decelerating"),
    QuadrantInfo("Improving", ImprovingColor, "Weak but Accelerating")
  ]

  /** The neutral value of both axes; a coordinate equal to it counts as high. */
  const Neutral: real := 100.0

  /** `getQuadrantInfo(rs, momentum)`. */
  function GetQuadrantInfo(rs: real, momentum: real): (info: QuadrantInfo)
    ensures info in Legend
    ensures info.quadrant == "Leading" <==> rs >= Neutral && momentum >= Neutral
    ensures info.quadrant == "Weakening" <==> rs >= Neutral && momentum < Neutral
    ensures info.quadrant == "Lagging" <==> rs < Neutral && momentum < Neutral
    ensures info.quadrant == "Improving" <==> rs < Neutral && momentum >= Neutral
  {
    if rs >= Neutral && momentum >= Neutral then
      QuadrantInfo("Leading", LeadingColor, "Strong & Accelerating")
    else if rs >= Neutral && momentum < Neutral then
      QuadrantInfo("Weakening", WeakeningColor, "Strong but Decelerating")
    else if rs < Neutral && momentum < Neutral then
      QuadrantInfo("Lagging", LaggingColor, "Weak & Decelerating")
    else
      QuadrantInfo("Improving", ImprovingColor, "Weak but Accelerating")
  }

  /** The legend names each quadrant once, with its own colour. */
  lemma LegendIsInjective()
    ensures forall i, j :: 0 <= i < j < |Legend| ==> Legend[i].quadrant != Legend[j].quadrant
    ensures forall i, j :: 0 <= i < j < |Legend| ==> Legend[i].color != Legend[j].color
  {
  }

  /**
   * The colour and description follow from the label alone, so the per-point colour,
   * the tooltip and the legend can never disagree about a quadrant.
   */
  lemma InfoDeterminedByLabel(rs1: real, m1: real, rs2: real, m2: real)
    ensures GetQuadrantInfo(rs1, m1).quadrant == GetQuadrantInfo(rs2, m2).quadrant
        <==> GetQuadrantInfo(rs1, m1) == GetQuadrantInfo(rs2, m2)
  {
    LegendIsInjective();
  }

  /** Each axis is judged on its own: the description's first word follows relative strength, its last momentum. */
  lemma DescriptionFollowsAxes(rs: real, momentum: real)
    ensures var d := GetQuadrantInfo(rs, momentum).description;
      (|d| >= 6 && d[..6] == "Strong") <==> rs >= Neutral
    ensures var d := GetQuadrantInfo(rs, momentum).description;
      (|d| >= 12 && d[|d| - 12..] == "Accelerating") <==> momentum >= Neutral
  {
    var d := GetQuadrantInfo(rs, momentum).description;
    assert "Weak & Decelerating"[..6][0] == 'W';
    assert "Weak but Accelerating"[..6][0] == 'W';
    assert "Strong but Decelerating"[23 - 12..][0] == 'D';
    assert "Weak & Decelerating"[19 - 12..][0] == 'D';
  }

  /** A point after `enhancedData`: the input fields plus the resolved colour, size and quadrant label. */
  datatype EnhancedPoint = EnhancedPoint(
    name: string, relativeStrength: real, momentum: real, size: real, color: string, quadrant: string)

  /** The size a point is drawn with when it has none (or 0). */
  const DefaultSize: real := 100.0

  /** One step of `enhancedData`: `color: item.color || quadrant.color`, `size: item.size || 100`. */
  function Enhance(p: RotationPoint): (e: EnhancedPoint)
    ensures e.name == p.name && e.relativeStrength == p.relativeStrength && e.momentum == p.momentum
    ensures e.quadrant == GetQuadrantInfo(p.relativeStrength, p.momentum).quadrant
    ensures p.color.Some? && p.color.value != "" ==> e.color == p.color.value
    ensures p.color.None? || p.color.value == "" ==> e.color == GetQuadrantInfo(p.relativeStrength, p.momentum).color
    ensures p.size.Some? && p.size.value != 0.0 ==> e.size == p.size.value
    ensures p.size.None? || p.size.value == 0.0 ==> e.size == DefaultSize
  {
    var quadrant := GetQuadrantInfo(p.relativeStrength, p.momentum);
    EnhancedPoint(
      p.name, p.relativeStrength, p.momentum,
      if p.size.Some? && p.size.value != 0.0 then p.size.value else DefaultSize,
      if p.color.Some? && p.color.value != "" then p.color.value else quadrant.color,
      quadrant.quadrant)
  }

  /** `enhancedData`: one enhanced point per input point, in the same order. */
  function EnhancedData(data: seq<RotationPoint>): (r: seq<EnhancedPoint>)
    ensures |r| == |data|
    ensures forall i :: 0 <= i < |data| ==> r[i] == Enhance(data[i])
  {
    seq(|data|, i requires 0 <= i < |data| => Enhance(data[i]))
  }

  /** An explicit colour changes how a point is drawn but never the quadrant it is reported in. */
  lemma ColorOverrideKeepsQuadrant(p: RotationPoint, c: string)
    ensures Enhance(p.(color := Some(c))).quadrant == Enhance(p).quadrant
    ensures c != "" ==> Enhance(p.(color := Some(c))).color == c
  {
  }

  /** Without an override, every drawn point has the legend colour of its quadrant. */
  lemma PointColorMatchesLegend(p: RotationPoint)
    requires p.color.None? || p.color.value == ""
    ensures exists i :: 0 <= i < |Legend| && Legend[i].quadrant == Enhance(p).quadrant && Legend[i].color == Enhance(p).color
  {
    var info := GetQuadrantInfo(p.relativeStrength, p.momentum);
    var i :| 0 <= i < |Legend| && Legend[i] == info;
  }

  /** `CustomTooltip`: it classifies the hovered point again from its two coordinates. */
  function TooltipInfo(e: EnhancedPoint): (info: QuadrantInfo)
    ensures info in Legend
  {
    GetQuadrantInfo(e.relativeStrength, e.momentum)
  }

  /** The tooltip names the same quadrant the point was coloured by. */
  lemma TooltipAgreesWithPoint(p: RotationPoint)
    ensures TooltipInfo(Enhance(p)).quadrant == Enhance(p).quadrant
    ensures p.color.None? || p.color.value == "" ==> TooltipInfo(Enhance(p)).color == Enhance(p).color
  {
  }

  function RSValues(data: seq<RotationPoint>): (r: seq<real>)
    ensures |r| == |data| && forall i :: 0 <= i < |data| ==> r[i] == data[i].relativeStrength
  {
    seq(|data|, i requires 0 <= i < |data| => data[i].relativeStrength)
  }

  function MomentumValues(data: seq<RotationPoint>): (r: seq<real>)
    ensures |r| == |data| && forall i :: 0 <= i < |data| ==> r[i] == data[i].momentum
  {
    seq(|data|, i requires 0 <= i < |data| => data[i].momentum)
  }

  /**
   * `Math.min(...values, 90)` and `Math.max(...values, 110)`, padded by 5: the axis always
   * spans [85, 115] at least and every value lies at least 5 inside it.
   */
  datatype Domain = Domain(lo: real, hi: real)

  function PaddedDomain(values: seq<real>): (d: Domain)
    ensures d.lo <= 85.0 && d.hi >= 115.0
    ensures forall v :: v in values ==> d.lo + 5.0 <= v <= d.hi - 5.0
    ensures d.lo + 5.0 == 90.0 || d.lo + 5.0 in values
    ensures d.hi - 5.0 == 110.0 || d.hi - 5.0 in values
  {
    var lo := Min(values + [90.0]);
    var hi := Max(values + [110.0]);
    assert 90.0 in values + [90.0] && 110.0 in values + [110.0];
    assert forall v :: v in values ==> v in values + [90.0] && v in values + [110.0];
    Domain(lo - 5.0, hi + 5.0)
  }

  /** The whole chart apart from its drawing. */
  datatype GraphView = GraphView(
    title: string, xAxisLabel: string, yAxisLabel: string,
    legend: seq<QuadrantInfo>, points: seq<EnhancedPoint>, xDomain: Domain, yDomain: Domain)

  /** `RelativeRotationGraph`: axis labels default to "Relative Strength" and "Momentum". */
  function Render(title: string, data: seq<RotationPoint>, xAxisLabel: Option<string>, yAxisLabel: Option<string>): (v: GraphView)
    ensures v.title == title && v.legend == Legend && v.points == EnhancedData(data)
    ensures v.xDomain == PaddedDomain(RSValues(data)) && v.yDomain == PaddedDomain(MomentumValues(data))
    ensures v.xAxisLabel == (if xAxisLabel.Some? then xAxisLabel.value else "Relative Strength")
    ensures v.yAxisLabel == (if yAxisLabel.Some? then yAxisLabel.value else "Momentum")
    ensures forall i :: 0 <= i < |data| ==>
      v.xDomain.lo < data[i].relativeStrength < v.xDomain.hi && v.yDomain.lo < data[i].momentum < v.yDomain.hi
    ensures v.xDomain.lo < Neutral < v.xDomain.hi && v.yDomain.lo < Neutral < v.yDomain.hi
  {
    var xs, ms := RSValues(data), MomentumValues(data);
    assert forall i :: 0 <= i < |data| ==> xs[i] in xs && ms[i] in ms;
    GraphView(
      title,
      if xAxisLabel.Some? then xAxisLabel.value else "Relative Strength",
      if yAxisLabel.Some? then yAxisLabel.value else "Momentum",
      Legend, EnhancedData(data), PaddedDomain(xs), PaddedDomain(ms))
  }
}
