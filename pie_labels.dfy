/**
 * The `pieLabelsLine` plugin: after a pie chart is drawn, each slice gets a leader
 * line from its outer edge to a label outside the chart, on the left or right
 * side, with the label's height nudged away from the labels already placed on
 * that side.
 *
 * Coordinates are reals. The exterior point of each slice (`point2X`, `point2Y`),
 * which the source derives with `atan2`, `cos` and `sin`, is an input, as is the
 * slice's centre point and outer radius. The canvas calls are not modelled: a
 * LabelPlacement records the geometry the plugin hands to them.
 */
module PieLabels {
  import opened Wrappers

  datatype Point = Point(x: real, y: real)

  /** The side of the chart a label goes on (the `direction` of `getSuitableY`). */
  datatype Side = Left | Right

  /** `ctx.textAlign` for the label text. */
  datatype Align = AlignLeft | AlignRight

  datatype ChartArea = ChartArea(left: real, right: real, top: real, bottom: real)

  /** What the plugin reads from one slice's arc element: `getCenterPoint()`,
      `outerRadius`, and the exterior point computed from them. */
  datatype Arc = Arc(centerPoint: Point, outerRadius: real, point2X: real, point2Y: real)

  /** A dataset; `data` is None when the dataset has no data array. */
  datatype PieDataset = PieDataset(data: Option<seq<real>>)

  /** The parts of the chart the plugin looks at. `labels` is None when the
      configured labels are not an array, `datasets` None when there are none
      configured, and `arcs` are the elements of dataset 0's metadata. */
  datatype PieChart = PieChart(
    chartArea: Option<ChartArea>,
    labels: Option<seq<string>>,
    datasets: Option<seq<PieDataset>>,
    arcs: seq<Arc>)

  /** The geometry drawn for one label. */
  datatype LabelPlacement = LabelPlacement(
    text: string,            // the label, as converted by `String(label)`
    side: Side,
    origin: Option<Point>,   // start of the leader line; None where the source computes NaN
    bend: Point,             // the exterior point, with its height after collision avoidance
    edgeX: real,             // end of the horizontal segment
    align: Align,
    textX: real,
    textY: real)

  /** The result of one `afterDraw` call: nothing drawn, all labels drawn, or the
      labels drawn before a label with no arc element, where the source throws. */
  datatype DrawOutcome = Skipped | Drawn(placements: seq<LabelPlacement>) | Aborted(placements: seq<LabelPlacement>)

  /** Half the height of the band around a used height that a new label must leave. */
  const LabelSpacing: real := 14.0

  /** The height a label moves to when it collides with `existingY`. */
  function Shift(existingY: real, direction: Side): real {
    if direction == Right then existingY + LabelSpacing else existingY - LabelSpacing
  }

  /** `result` lies strictly inside the band around `existingY`. */
  predicate InBand(result: real, existingY: real) {
    existingY - LabelSpacing < result && existingY + LabelSpacing > result
  }

  /** One step of the loop in `getSuitableY`. */
  function Nudge(result: real, existingY: real, direction: Side): real {
    if InBand(result, existingY) then Shift(existingY, direction) else result
  }

  /** `getSuitableY(y, ys, direction)`: one forward pass over `ys`, nudging on
      every hit. Written over the prefix processed so far, as the loop runs. */
  function SuitableY(y: real, ys: seq<real>, direction: Side): real
    decreases |ys|
  {
    if |ys| == 0 then y else Nudge(SuitableY(y, ys[..|ys| - 1], direction), ys[|ys| - 1], direction)
  }

  method GetSuitableY(y: real, yArray: seq<real>, direction: Side) returns (result: real)
    ensures result == SuitableY(y, yArray, direction)
    ensures |yArray| == 0 ==> result == y
  {
    result := y;
    var i := 0;
    while i < |yArray|
      invariant 0 <= i <= |yArray|
      invariant result == SuitableY(y, yArray[..i], direction)
    {
      var existingY := yArray[i];
      if existingY - 14.0 < result && existingY + 14.0 > result {
        result := if direction == Right then existingY + 14.0 else existingY - 14.0;
      }
      assert yArray[..i + 1][..i] == yArray[..i];
      i := i + 1;
    }
    assert yArray[..i] == yArray;
  }

  /** A nudge moves the height strictly in the side's direction, and only then. */
  lemma NudgeMoves(result: real, existingY: real, direction: Side)
    ensures Nudge(result, existingY, direction) != result <==> InBand(result, existingY)
    ensures InBand(result, existingY) && direction == Right ==> Nudge(result, existingY, direction) > result
    ensures InBand(result, existingY) && direction == Left ==> Nudge(result, existingY, direction) < result
  {
  }

  /** On the right side labels only move down the canvas (larger y), on the left only up. */
  lemma {:induction false} SuitableYMonotone(y: real, ys: seq<real>, direction: Side)
    ensures direction == Right ==> SuitableY(y, ys, direction) >= y
    ensures direction == Left ==> SuitableY(y, ys, direction) <= y
    decreases |ys|
  {
    if |ys| > 0 {
      SuitableYMonotone(y, ys[..|ys| - 1], direction);
      NudgeMoves(SuitableY(y, ys[..|ys| - 1], direction), ys[|ys| - 1], direction);
    }
  }

  /** The height found is the candidate itself or one spacing beyond some used height. */
  lemma {:induction false} SuitableYOrigin(y: real, ys: seq<real>, direction: Side)
    ensures SuitableY(y, ys, direction) == y ||
            exists k :: 0 <= k < |ys| && SuitableY(y, ys, direction) == Shift(ys[k], direction)
    decreases |ys|
  {
    if |ys| > 0 {
      var prefix := ys[..|ys| - 1];
      SuitableYOrigin(y, prefix, direction);
      if SuitableY(y, ys, direction) != y && SuitableY(y, ys, direction) != Shift(ys[|ys| - 1], direction) {
        var k :| 0 <= k < |prefix| && SuitableY(y, prefix, direction) == Shift(prefix[k], direction);
        assert prefix[k] == ys[k];
      }
    }
  }

  /** The height found is clear of the band around the LAST used height. */
  lemma SuitableYClearOfLast(y: real, ys: seq<real>, direction: Side)
    requires |ys| > 0
    ensures !InBand(SuitableY(y, ys, direction), ys[|ys| - 1])
  {
  }

  /** Earlier used heights are not checked again: a later nudge can land inside the
      band of an earlier one, so 14-unit spacing is not guaranteed across a side. */
  lemma SpacingNotGlobal()
    ensures SuitableY(105.0, [120.0, 100.0], Right) == 114.0
    ensures InBand(114.0, 120.0)
  {
    assert [120.0, 100.0][..1] == [120.0];
    assert [120.0][..0] == [];
  }

  /** The middle of the chart area. */
  function CenterOf(area: ChartArea): (c: Point)
    ensures c.x == (area.left + area.right) / 2.0 && c.y == (area.top + area.bottom) / 2.0
  {
    Point((area.right - area.left) / 2.0 + area.left, (area.bottom - area.top) / 2.0 + area.top)
  }

  /** `getOriginPoints(source, center, length)`: the leader line's start. For a
      nonzero length the length cancels and the result is the reflection of
      `source` through `center`; for length 0 the source divides by zero and gets
      NaN coordinates, which is None here. */
  function GetOriginPoints(source: Point, center: Point, length: real): (r: Option<Point>)
    ensures length != 0.0 ==> r == Some(Point(2.0 * center.x - source.x, 2.0 * center.y - source.y))
    ensures length == 0.0 ==> r.None?
  {
    if length == 0.0 then None
    else
      var dx := (center.x - source.x) / length;
      var dy := (center.y - source.y) / length;
      assert length * dx == center.x - source.x;
      assert length * dy == center.y - source.y;
      Some(Point(center.x + length * dx, center.y + length * dy))
  }

  /** The two per-side lists of label heights used so far in this pass. */
  datatype Registries = Registries(left: seq<real>, right: seq<real>)

  function Registry(reg: Registries, side: Side): seq<real> {
    if side == Left then reg.left else reg.right
  }

  /** `leftLabelCoordinates.push(y)` or `rightLabelCoordinates.push(y)`. */
  function Record(reg: Registries, side: Side, y: real): Registries {
    if side == Left then Registries(reg.left + [y], reg.right) else Registries(reg.left, reg.right + [y])
  }

  function SideOf(center: Point, arc: Arc): Side {
    if arc.point2X < center.x then Left else Right
  }

  /** The placement of one label, given the heights already used on each side. */
  function Place(center: Point, labelText: string, arc: Arc, reg: Registries): LabelPlacement {
    var side := SideOf(center, arc);
    var y := SuitableY(arc.point2Y, Registry(reg, side), side);
    var edgeX := if side == Left then center.x - arc.outerRadius - 16.0 else center.x + arc.outerRadius + 16.0;
    LabelPlacement(
      text := labelText,
      side := side,
      origin := GetOriginPoints(center, arc.centerPoint, arc.outerRadius),
      bend := Point(arc.point2X, y),
      edgeX := edgeX,
      align := if edgeX < center.x then AlignRight else AlignLeft,
      textX := if edgeX < center.x then edgeX else edgeX + 2.0,
      textY := y + 7.0)
  }

  /** The placements of the first |labels| labels and the registries after them,
      starting from two empty registries. */
  function PlaceAll(center: Point, labels: seq<string>, arcs: seq<Arc>): (r: (seq<LabelPlacement>, Registries))
    requires |labels| <= |arcs|
    ensures |r.0| == |labels|
    decreases |labels|
  {
    if |labels| == 0 then ([], Registries([], []))
    else
      var n := |labels| - 1;
      var prev := PlaceAll(center, labels[..n], arcs);
      var p := Place(center, labels[n], arcs[n], prev.1);
      (prev.0 + [p], Record(prev.1, p.side, p.bend.y))
  }

  /** The heights of the placements on `side`, in placement order. */
  function YsOn(ps: seq<LabelPlacement>, side: Side): seq<real>
    decreases |ps|
  {
    if |ps| == 0 then []
    else YsOn(ps[..|ps| - 1], side) + (if ps[|ps| - 1].side == side then [ps[|ps| - 1].bend.y] else [])
  }

  lemma {:induction false} YsOnSplit(ps: seq<LabelPlacement>)
    ensures |YsOn(ps, Left)| + |YsOn(ps, Right)| == |ps|
    decreases |ps|
  {
    if |ps| > 0 {
      YsOnSplit(ps[..|ps| - 1]);
    }
  }

  /** After the pass, each registry holds exactly the heights of the labels placed on
      its side, in order; so every label added one height to one registry. */
  lemma {:induction false} PlaceAllRegistries(center: Point, labels: seq<string>, arcs: seq<Arc>)
    requires |labels| <= |arcs|
    ensures PlaceAll(center, labels, arcs).1
            == Registries(YsOn(PlaceAll(center, labels, arcs).0, Left), YsOn(PlaceAll(center, labels, arcs).0, Right))
    ensures |PlaceAll(center, labels, arcs).1.left| + |PlaceAll(center, labels, arcs).1.right| == |labels|
    decreases |labels|
  {
    var ps := PlaceAll(center, labels, arcs).0;
    if |labels| > 0 {
      var n := |labels| - 1;
      PlaceAllRegistries(center, labels[..n], arcs);
      assert ps[..n] == PlaceAll(center, labels[..n], arcs).0;
    }
    YsOnSplit(ps);
  }

  /** Placing fewer labels gives a prefix of the placements: a label's placement
      never depends on the labels after it. */
  lemma {:induction false} PlaceAllPrefix(center: Point, labels: seq<string>, arcs: seq<Arc>, i: nat)
    requires |labels| <= |arcs| && i <= |labels|
    ensures PlaceAll(center, labels[..i], arcs).0 == PlaceAll(center, labels, arcs).0[..i]
    decreases |labels|
  {
    if i < |labels| {
      var n := |labels| - 1;
      assert labels[..n][..i] == labels[..i];
      PlaceAllPrefix(center, labels[..n], arcs, i);
    } else {
      assert labels[..i] == labels;
    }
  }

  /** Label i goes on the left exactly when its exterior point is left of the centre,
      and its height is pushed onto that side's registry and no other. */
  lemma PlaceAllStep(center: Point, labels: seq<string>, arcs: seq<Arc>, i: nat)
    requires |labels| <= |arcs| && i < |labels|
    ensures var before := PlaceAll(center, labels[..i], arcs).1;
            var after := PlaceAll(center, labels[..i + 1], arcs).1;
            var p := PlaceAll(center, labels[..i + 1], arcs).0[i];
            && (p.side == Left <==> arcs[i].point2X < center.x)
            && (p.side == Left ==> after == Registries(before.left + [p.bend.y], before.right))
            && (p.side == Right ==> after == Registries(before.left, before.right + [p.bend.y]))
  {
    assert labels[..i + 1][..i] == labels[..i];
  }

  /** Label i is placed against the heights of the EARLIER labels on its own side only. */
  lemma PlaceAllAt(center: Point, labels: seq<string>, arcs: seq<Arc>, i: nat)
    requires |labels| <= |arcs| && i < |labels|
    ensures var ps := PlaceAll(center, labels, arcs).0;
            ps[i] == Place(center, labels[i], arcs[i], Registries(YsOn(ps[..i], Left), YsOn(ps[..i], Right)))
  {
    var ps := PlaceAll(center, labels, arcs).0;
    var pre := PlaceAll(center, labels[..i], arcs);
    var p := Place(center, labels[i], arcs[i], pre.1);
    assert PlaceAll(center, labels[..i + 1], arcs).0 == pre.0 + [p] by {
      assert labels[..i + 1][..i] == labels[..i] && labels[..i + 1][i] == labels[i];
    }
    assert ps[i] == p by { PlaceAllPrefix(center, labels, arcs, i + 1); }
    assert ps[..i] == pre.0 by { PlaceAllPrefix(center, labels, arcs, i); }
    assert pre.1 == Registries(YsOn(pre.0, Left), YsOn(pre.0, Right)) by {
      PlaceAllRegistries(center, labels[..i], arcs);
    }
  }

  /** Every label moves away from the centre line only in its side's direction. */
  lemma PlacementDirection(center: Point, labels: seq<string>, arcs: seq<Arc>, i: nat)
    requires |labels| <= |arcs| && i < |labels|
    ensures var p := PlaceAll(center, labels, arcs).0[i];
            && p.text == labels[i]
            && (p.side == Right ==> p.bend.y >= arcs[i].point2Y)
            && (p.side == Left ==> p.bend.y <= arcs[i].point2Y)
  {
    var ps := PlaceAll(center, labels, arcs).0;
    PlaceAllAt(center, labels, arcs, i);
    var side := SideOf(center, arcs[i]);
    SuitableYMonotone(arcs[i].point2Y, Registry(Registries(YsOn(ps[..i], Left), YsOn(ps[..i], Right)), side), side);
  }

  lemma {:induction false} YsOnSkipsOtherSide(ps: seq<LabelPlacement>, j: nat, i: nat, side: Side)
    requires j < i <= |ps|
    requires forall m :: j < m < i ==> ps[m].side != side
    ensures YsOn(ps[..i], side) == YsOn(ps[..j + 1], side)
    decreases i
  {
    if i > j + 1 {
      assert ps[..i][..i - 1] == ps[..i - 1];
      YsOnSkipsOtherSide(ps, j, i - 1, side);
    }
  }

  /** A label's height is clear of the band of the last earlier height on its side. */
  lemma {:induction false} ClearOfPreviousSameSide(ps: seq<LabelPlacement>, raw: real, j: nat, i: nat)
    requires j < i < |ps|
    requires ps[i].bend.y == SuitableY(raw, YsOn(ps[..i], ps[i].side), ps[i].side)
    requires ps[j].side == ps[i].side
    requires forall m :: j < m < i ==> ps[m].side != ps[i].side
    ensures !InBand(ps[i].bend.y, ps[j].bend.y)
  {
    var side := ps[i].side;
    YsOnSkipsOtherSide(ps, j, i, side);
    assert ps[..j + 1][..j] == ps[..j];
    var used := YsOn(ps[..i], side);
    assert used == YsOn(ps[..j], side) + [ps[j].bend.y];
    SuitableYClearOfLast(raw, used, side);
  }

  /** Two consecutive labels on the same side end up at least 14 apart. */
  lemma SameSideSpacing(center: Point, labels: seq<string>, arcs: seq<Arc>, j: nat, i: nat)
    requires |labels| <= |arcs| && j < i < |labels|
    requires var ps := PlaceAll(center, labels, arcs).0;
             ps[j].side == ps[i].side && forall m :: j < m < i ==> ps[m].side != ps[i].side
    ensures var ps := PlaceAll(center, labels, arcs).0;
            ps[i].bend.y <= ps[j].bend.y - 14.0 || ps[i].bend.y >= ps[j].bend.y + 14.0
  {
    var ps := PlaceAll(center, labels, arcs).0;
    var reg := Registries(YsOn(ps[..i], Left), YsOn(ps[..i], Right));
    PlaceAllAt(center, labels, arcs, i);
    PlaceGeometry(center, labels[i], arcs[i], reg);
    assert Registry(reg, ps[i].side) == YsOn(ps[..i], ps[i].side);
    ClearOfPreviousSameSide(ps, arcs[i].point2Y, j, i);
  }

  /** The geometry of one label: the side follows the exterior point, the horizontal
      segment ends 16 beyond the radius, the text is anchored so that it grows away
      from the chart and sits 7 below the bend. */
  lemma PlaceGeometry(center: Point, labelText: string, arc: Arc, reg: Registries)
    ensures var p := Place(center, labelText, arc, reg);
            && p.text == labelText
            && (p.side == Left <==> arc.point2X < center.x)
            && p.bend == Point(arc.point2X, SuitableY(arc.point2Y, Registry(reg, p.side), p.side))
            && p.edgeX == (if p.side == Left then center.x - arc.outerRadius - 16.0 else center.x + arc.outerRadius + 16.0)
            && (p.align == AlignRight <==> (p.side == Left && arc.outerRadius > -16.0) || (p.side == Right && arc.outerRadius < -16.0))
            && (arc.outerRadius >= 0.0 ==> (p.align == AlignRight <==> p.side == Left))
            && (arc.outerRadius >= 0.0 ==> p.textX == if p.side == Left then p.edgeX else p.edgeX + 2.0)
            && (arc.outerRadius >= 0.0 && p.side == Left ==> p.textX < center.x - arc.outerRadius)
            && (arc.outerRadius >= 0.0 && p.side == Right ==> p.textX > center.x + arc.outerRadius)
            && p.textY == p.bend.y + 7.0
            && (arc.outerRadius != 0.0 ==>
                  p.origin == Some(Point(2.0 * arc.centerPoint.x - center.x, 2.0 * arc.centerPoint.y - center.y)))
  {
  }

  /** The plugin draws only when there is a chart area, the labels are an array,
      there is at least one dataset and dataset 0 has at least one value. */
  predicate Drawable(chart: PieChart) {
    && chart.chartArea.Some?
    && chart.labels.Some?
    && chart.datasets.Some? && |chart.datasets.value| > 0
    && |chart.datasets.value[0].data.GetOr([])| > 0
  }

  /** What one `afterDraw` call draws. */
  function LabelPass(chart: PieChart): DrawOutcome {
    if !Drawable(chart) then Skipped
    else
      var center := CenterOf(chart.chartArea.value);
      var labels := chart.labels.value;
      if |labels| <= |chart.arcs| then Drawn(PlaceAll(center, labels, chart.arcs).0)
      else Aborted(PlaceAll(center, labels[..|chart.arcs|], chart.arcs).0)
  }

  /** A pass draws nothing exactly when a guard fails; otherwise it places one label
      per label in order, stopping at the first label without an arc element. */
  lemma LabelPassShape(chart: PieChart)
    ensures LabelPass(chart).Skipped? <==> !Drawable(chart)
    ensures LabelPass(chart).Drawn? <==> Drawable(chart) && |chart.labels.value| <= |chart.arcs|
    ensures LabelPass(chart).Drawn? ==>
              var ps := LabelPass(chart).placements;
              |ps| == |chart.labels.value| && forall i :: 0 <= i < |ps| ==> ps[i].text == chart.labels.value[i]
    ensures LabelPass(chart).Aborted? ==>
              var ps := LabelPass(chart).placements;
              |ps| == |chart.arcs| < |chart.labels.value| &&
              forall i :: 0 <= i < |ps| ==> ps[i].text == chart.labels.value[i]
  {
    if Drawable(chart) {
      var center := CenterOf(chart.chartArea.value);
      var labels := chart.labels.value;
      var shown := if |labels| <= |chart.arcs| then labels else labels[..|chart.arcs|];
      forall i | 0 <= i < |shown| ensures PlaceAll(center, shown, chart.arcs).0[i].text == labels[i] {
        PlacementDirection(center, shown, chart.arcs, i);
      }
    }
  }

  /** The callback `afterDraw` runs for each label: place it and record its height
      on its side. */
  method DrawLabel(chartCenterPoint: Point, labelText: string, arc: Arc,
                   leftLabelCoordinates: seq<real>, rightLabelCoordinates: seq<real>)
    returns (placement: LabelPlacement, left: seq<real>, right: seq<real>)
    ensures placement == Place(chartCenterPoint, labelText, arc, Registries(leftLabelCoordinates, rightLabelCoordinates))
    ensures Registries(left, right)
            == Record(Registries(leftLabelCoordinates, rightLabelCoordinates), placement.side, placement.bend.y)
  {
    var point2X := arc.point2X;
    var point2Y := arc.point2Y;
    if point2X < chartCenterPoint.x {
      point2Y := GetSuitableY(point2Y, leftLabelCoordinates, Left);
    } else {
      point2Y := GetSuitableY(point2Y, rightLabelCoordinates, Right);
    }
    var edgePointX := if point2X < chartCenterPoint.x
      then chartCenterPoint.x - arc.outerRadius - 16.0
      else chartCenterPoint.x + arc.outerRadius + 16.0;
    left, right := leftLabelCoordinates, rightLabelCoordinates;
    var side: Side;
    if point2X < chartCenterPoint.x {
      left := left + [point2Y];
      side := Left;
    } else {
      right := right + [point2Y];
      side := Right;
    }
    var originPoint := GetOriginPoints(chartCenterPoint, arc.centerPoint, arc.outerRadius);
    var labelAlignStyle := if edgePointX < chartCenterPoint.x then AlignRight else AlignLeft;
    var labelX := if edgePointX < chartCenterPoint.x then edgePointX else edgePointX + 2.0;
    var labelY := point2Y + 7.0;
    placement := LabelPlacement(labelText, side, originPoint, Point(point2X, point2Y),
                                edgePointX, labelAlignStyle, labelX, labelY);
  }

  /** `pieLabelsLine.afterDraw`. */
  method AfterDraw(chart: PieChart) returns (outcome: DrawOutcome)
    ensures outcome == LabelPass(chart)
    ensures outcome.Skipped? <==> !Drawable(chart)
  {
    if chart.chartArea.None? || chart.labels.None? || chart.datasets.None? || |chart.datasets.value| == 0 {
      return Skipped;
    }
    var leftLabelCoordinates: seq<real> := [];
    var rightLabelCoordinates: seq<real> := [];
    var area := chart.chartArea.value;
    var chartCenterPoint := Point((area.right - area.left) / 2.0 + area.left, (area.bottom - area.top) / 2.0 + area.top);
    var labels := chart.labels.value;
    var datasetValues := chart.datasets.value[0].data.GetOr([]);
    if |datasetValues| == 0 {
      return Skipped;
    }
    var placements: seq<LabelPlacement> := [];
    var i := 0;
    while i < |labels|
      invariant 0 <= i <= |labels| && i <= |chart.arcs|
      invariant (placements, Registries(leftLabelCoordinates, rightLabelCoordinates))
                == PlaceAll(chartCenterPoint, labels[..i], chart.arcs)
    {
      if i >= |chart.arcs| {
        // the arc element is missing: `arc.getCenterPoint()` throws
        return Aborted(placements);
      }
      ghost var registries := Registries(leftLabelCoordinates, rightLabelCoordinates);
      var placement;
      placement, leftLabelCoordinates, rightLabelCoordinates :=
        DrawLabel(chartCenterPoint, labels[i], chart.arcs[i], leftLabelCoordinates, rightLabelCoordinates);
      assert labels[..i + 1][..i] == labels[..i] && labels[..i + 1][i] == labels[i];
      PlaceAllStepAt(chartCenterPoint, labels[..i + 1], chart.arcs, placements, registries, placement);
      placements := placements + [placement];
      i := i + 1;
    }
    assert labels[..i] == labels;
    outcome := Drawn(placements);
  }

  /** A right-side test chart: centre (100, 100), three slices whose exterior points
      are right of the centre at the given heights. */
  function RightStackChart(labels: seq<string>, y0: real, y1: real, y2: real): PieChart {
    PieChart(Some(ChartArea(0.0, 200.0, 0.0, 200.0)), Some(labels),
             Some([PieDataset(Some([1.0, 1.0, 1.0]))]),
             [RightArc(y0), RightArc(y1), RightArc(y2)])
  }

  /** On RightStackChart the pass draws every label, placed as PlaceAll places them. */
  lemma RightStackDrawn(labels: seq<string>, y0: real, y1: real, y2: real)
    requires |labels| == 3
    ensures LabelPass(RightStackChart(labels, y0, y1, y2))
            == Drawn(PlaceAll(Point(100.0, 100.0), labels, RightStackChart(labels, y0, y1, y2).arcs).0)
  {
    var chart := RightStackChart(labels, y0, y1, y2);
    assert CenterOf(chart.chartArea.value) == Point(100.0, 100.0);
    assert labels[..3] == labels;
  }

  /** The slice of RightStackChart whose exterior point is at height `y`. */
  function RightArc(y: real): Arc {
    Arc(Point(120.0, 100.0), 50.0, 150.0, y)
  }

  /** A label of a RightArc slice goes on the right, at the height SuitableY gives. */
  lemma RightArcPlace(labelText: string, y: real, right: seq<real>)
    ensures Place(Point(100.0, 100.0), labelText, RightArc(y), Registries([], right)).side == Right
    ensures Place(Point(100.0, 100.0), labelText, RightArc(y), Registries([], right)).bend.y
            == SuitableY(y, right, Right)
  {
  }

  /** Three successive placements, spelled out. */
  lemma PlaceThree(center: Point, labels: seq<string>, arcs: seq<Arc>,
                   p0: LabelPlacement, p1: LabelPlacement, p2: LabelPlacement)
    requires |labels| == 3 <= |arcs|
    requires p0 == Place(center, labels[0], arcs[0], Registries([], []))
    requires p1 == Place(center, labels[1], arcs[1], Record(Registries([], []), p0.side, p0.bend.y))
    requires p2 == Place(center, labels[2], arcs[2],
                         Record(Record(Registries([], []), p0.side, p0.bend.y), p1.side, p1.bend.y))
    ensures PlaceAll(center, labels, arcs).0 == [p0, p1, p2]
  {
    var r0 := Registries([], []);
    var r1 := Record(r0, p0.side, p0.bend.y);
    var r2 := Record(r1, p1.side, p1.bend.y);
    assert labels[..1][..0] == labels[..0] && labels[..2][..1] == labels[..1] && labels[..3][..2] == labels[..2];
    assert labels[..1][0] == labels[0] && labels[..2][1] == labels[1] && labels[..3] == labels;
    PlaceAllStepAt(center, labels[..1], arcs, [], r0, p0);
    assert [] + [p0] == [p0];
    PlaceAllStepAt(center, labels[..2], arcs, [p0], r1, p1);
    assert [p0] + [p1] == [p0, p1];
    PlaceAllStepAt(center, labels[..3], arcs, [p0, p1], r2, p2);
    assert [p0, p1] + [p2] == [p0, p1, p2];
  }

  /** One unfolding of PlaceAll, for stepping through a concrete pass. */
  lemma PlaceAllStepAt(center: Point, labels: seq<string>, arcs: seq<Arc>,
                       ps: seq<LabelPlacement>, reg: Registries, p: LabelPlacement)
    requires 0 < |labels| <= |arcs|
    requires PlaceAll(center, labels[..|labels| - 1], arcs) == (ps, reg)
    requires p == Place(center, labels[|labels| - 1], arcs[|labels| - 1], reg)
    ensures PlaceAll(center, labels, arcs) == (ps + [p], Record(reg, p.side, p.bend.y))
  {
  }

  /** Three crowded labels on one side are pushed down in turn: 100, 114, 128. */
  lemma CrowdedSideExample(labels: seq<string>)
    requires |labels| == 3
    ensures LabelPass(RightStackChart(labels, 100.0, 105.0, 108.0)).Drawn?
    ensures var ps := LabelPass(RightStackChart(labels, 100.0, 105.0, 108.0)).placements;
            |ps| == 3 && ps[0].bend.y == 100.0 && ps[1].bend.y == 114.0 && ps[2].bend.y == 128.0
  {
    var center := Point(100.0, 100.0);
    var arcs := RightStackChart(labels, 100.0, 105.0, 108.0).arcs;
    var a0, a1, a2 := RightArc(100.0), RightArc(105.0), RightArc(108.0);
    assert arcs == [a0, a1, a2];
    var p0 := Place(center, labels[0], a0, Registries([], []));
    assert p0.side == Right && p0.bend.y == 100.0 by { RightArcPlace(labels[0], 100.0, []); }
    var p1 := Place(center, labels[1], a1, Registries([], [100.0]));
    assert p1.side == Right && p1.bend.y == 114.0 by { RightArcPlace(labels[1], 105.0, [100.0]); }
    var p2 := Place(center, labels[2], a2, Registries([], [100.0, 114.0]));
    assert p2.side == Right && p2.bend.y == 128.0 by { RightArcPlace(labels[2], 108.0, [100.0, 114.0]); }
    assert Record(Record(Registries([], []), Right, 100.0), Right, 114.0) == Registries([], [100.0, 114.0]);
    PlaceThree(center, labels, arcs, p0, p1, p2);
    RightStackDrawn(labels, 100.0, 105.0, 108.0);
  }

  /** A nudge can land next to an older label: heights 120, 100, 105 on one side
      become 120, 100, 114, and 114 is only 6 from 120. */
  lemma CrowdedSideOverlapExample(labels: seq<string>)
    requires |labels| == 3
    ensures LabelPass(RightStackChart(labels, 120.0, 100.0, 105.0)).Drawn?
    ensures var ps := LabelPass(RightStackChart(labels, 120.0, 100.0, 105.0)).placements;
            |ps| == 3 && ps[0].bend.y == 120.0 && ps[1].bend.y == 100.0 && ps[2].bend.y == 114.0
            && InBand(ps[2].bend.y, ps[0].bend.y)
  {
    var center := Point(100.0, 100.0);
    var arcs := RightStackChart(labels, 120.0, 100.0, 105.0).arcs;
    var a0, a1, a2 := RightArc(120.0), RightArc(100.0), RightArc(105.0);
    assert arcs == [a0, a1, a2];
    var p0 := Place(center, labels[0], a0, Registries([], []));
    assert p0.side == Right && p0.bend.y == 120.0 by { RightArcPlace(labels[0], 120.0, []); }
    var p1 := Place(center, labels[1], a1, Registries([], [120.0]));
    assert p1.side == Right && p1.bend.y == 100.0 by { RightArcPlace(labels[1], 100.0, [120.0]); }
    var p2 := Place(center, labels[2], a2, Registries([], [120.0, 100.0]));
    assert p2.side == Right && p2.bend.y == 114.0 by { RightArcPlace(labels[2], 105.0, [120.0, 100.0]); }
    assert Record(Record(Registries([], []), Right, 120.0), Right, 100.0) == Registries([], [120.0, 100.0]);
    PlaceThree(center, labels, arcs, p0, p1, p2);
    RightStackDrawn(labels, 120.0, 100.0, 105.0);
  }
}
