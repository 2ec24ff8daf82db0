/** The older route editor of `features/Map/Map.tsx`. It follows the same
    click and drag rules as `RouteEditor`, with three differences: dragging
    the last point names segment `pointIndex` instead of `pointIndex - 1`,
    the drag preview point is component state, and the chart cursor uses
    `null` (not 0) for "no cursor". */
module LegacyRouteEditor {
  import opened Geo
  import opened Seqs
  import RouteEditor
  import D3Chart

  /** What a click dispatches. */
  datatype ClickAction =
    | AddRoute(newPoint: Coord, start: Coord, clipPath: bool, totalDistance: real)
    | FetchSinglePoint(coord: Coord)

  /** What a drag end dispatches. */
  datatype DragEndAction =
    | UpdateStartAfterDrag(coord: Coord)
    | UpdateRouteAfterDrag(pointIndex: nat, waypoints: seq<Option<Coord>>, lineIndices: seq<int>,
                           pointsLength: int, totalDistance: real)

  /** The case analysis of this variant's multi-point drag end. */
  function DragEndPlan(points: seq<Coord>, lineCount: nat, pointIndex: nat, newLngLat: Coord): (plan: RouteEditor.DragPlan)
    ensures |plan.waypoints| == |plan.lineIndices| + 1
    ensures 1 <= |plan.lineIndices| <= 2 && RouteEditor.Ascending(plan.lineIndices)
    ensures forall j :: 0 <= j < |plan.lineIndices| ==>
              0 <= plan.lineIndices[j] && (plan.lineIndices[j] == pointIndex - 1 || plan.lineIndices[j] == pointIndex)
    ensures Some(newLngLat) in plan.waypoints
  {
    if pointIndex == 0 then
      RouteEditor.DragPlan([Some(newLngLat), At(points, 1)], [0])
    else if pointIndex == lineCount then
      RouteEditor.DragPlan([At(points, |points| - 2), Some(newLngLat)], [pointIndex])
    else
      RouteEditor.DragPlan([At(points, pointIndex - 1), Some(newLngLat), At(points, pointIndex + 1)],
                           [pointIndex - 1, pointIndex])
  }

  /** The two variants build the same waypoints for every drag, and the same
      segment indices for every drag except the last point's, where this
      variant's index is one larger. */
  lemma VariantsDifferOnlyAtEnd(points: seq<Coord>, lineCount: nat, pointIndex: nat, newLngLat: Coord)
    ensures var legacy := DragEndPlan(points, lineCount, pointIndex, newLngLat);
            var current := RouteEditor.DragEndPlan(points, lineCount, pointIndex, newLngLat);
      && legacy.waypoints == current.waypoints
      && (pointIndex == 0 || pointIndex != lineCount <==> legacy.lineIndices == current.lineIndices)
      && (pointIndex != 0 && pointIndex == lineCount ==> legacy.lineIndices == [current.lineIndices[0] + 1])
  {
  }

  /** Under the store's invariant, dragging the last point of a route with
      at least two points names segment `lines.length`, which does not
      exist: the last segment is `lines.length - 1`. */
  lemma EndIndexPastLastSegment(points: seq<Coord>, lineCount: nat, newLngLat: Coord)
    requires RouteEditor.Consistent(points, lineCount) && |points| >= 2
    ensures var plan := DragEndPlan(points, lineCount, |points| - 1, newLngLat);
      plan.lineIndices == [lineCount] && !(plan.lineIndices[0] < lineCount)
  {
  }

  /** The smallest case: two points, one segment (index 0), the second
      point dragged; the plan replaces segment 1. */
  lemma EndIndexCounterexample()
    ensures DragEndPlan([Coord(0.0, 0.0), Coord(0.0, 1.0)], 1, 1, Coord(1.0, 1.0)).lineIndices == [1]
  {
  }

  /** The body of this variant's multi-point branch, filled by `push`. */
  method PlanDragEnd(points: seq<Coord>, lineCount: nat, pointIndex: nat, newLngLat: Coord)
    returns (waypoints: seq<Option<Coord>>, lineIndices: seq<int>)
    ensures RouteEditor.DragPlan(waypoints, lineIndices) == DragEndPlan(points, lineCount, pointIndex, newLngLat)
  {
    waypoints := [];
    lineIndices := [];
    if pointIndex == 0 {
      waypoints := waypoints + [Some(newLngLat), At(points, 1)];
      lineIndices := lineIndices + [0];
    } else if pointIndex == lineCount {
      waypoints := waypoints + [At(points, |points| - 2), Some(newLngLat)];
      lineIndices := lineIndices + [pointIndex];
    } else {
      waypoints := waypoints + [At(points, pointIndex - 1), Some(newLngLat), At(points, pointIndex + 1)];
      lineIndices := lineIndices + [pointIndex - 1, pointIndex];
    }
  }

  /** The cursor effect: `null` means "no cursor"; any other distance, in
      meters, is converted to miles and looked up along the whole route. */
  function PointAlongPath(distanceAlongPath: Option<real>, lines: seq<Line>,
                          metersToMiles: real -> real,
                          along: (Line, real, string) -> Coord): (pointAlongPath: Option<Coord>)
    ensures pointAlongPath.None? <==> distanceAlongPath.None?
    ensures pointAlongPath.Some? ==>
              pointAlongPath.value == along(Flatten(lines), metersToMiles(distanceAlongPath.value), "miles")
  {
    match distanceAlongPath
    case Some(d) => Some(along(Flatten(lines), metersToMiles(d), "miles"))
    case None => None
  }

  /** What this editor does with the D3 chart's reset value, supposing the
      reset reaches it: this map renders its chart through
      `./ElevationProfile`, which is not part of this model, so the wiring
      is an assumption. The reset is 0, not `null`, and this editor treats
      only `null` as "no cursor", so it looks up a cursor point at 0 meters
      converted to miles. */
  lemma MouseOutKeepsLegacyCursor(lines: seq<Line>, metersToMiles: real -> real, along: (Line, real, string) -> Coord)
    ensures PointAlongPath(Some(D3Chart.MouseOut()), lines, metersToMiles, along)
            == Some(along(Flatten(lines), metersToMiles(0.0), "miles"))
  {
  }

  /** The map component of this variant: route from the store, drag flag,
      preview point (`[]` is `None`) and dragged index as component state. */
  class LegacyMapEditor {
    var points: seq<Coord>
    var lines: seq<Line>
    var isDragging: bool
    var point: Option<Coord>
    var index: int

    constructor (points: seq<Coord>, lines: seq<Line>)
      ensures this.points == points && this.lines == lines
      ensures !isDragging && point.None? && index == 0
    {
      this.points := points;
      this.lines := lines;
      isDragging := false;
      point := None;
      index := 0;
    }

    /** `handleClick`: append from the last point, or start the route. */
    method HandleClick(newPoint: Coord, clipPath: bool, totalDistance: real) returns (action: ClickAction)
      ensures |points| > 0 <==> action.AddRoute?
      ensures action.AddRoute? ==>
                action.start == points[|points| - 1] && action.newPoint == newPoint
                && action.clipPath == clipPath && action.totalDistance == totalDistance
      ensures action.FetchSinglePoint? ==> action.coord == newPoint
    {
      if |points| > 0 {
        var start := points[|points| - 1];
        action := AddRoute(newPoint, start, clipPath, totalDistance);
      } else {
        action := FetchSinglePoint(newPoint);
      }
    }

    /** `handleDragStart`: always raises the drag flag and records the index. */
    method HandleDragStart(i: int)
      modifies this
      ensures isDragging && index == i
      ensures point == old(point) && points == old(points) && lines == old(lines)
    {
      isDragging := true;
      index := i;
    }

    /** `handleDrag`: only the local preview point moves; nothing is sent to
        the store and the drag flag and index are untouched. */
    method HandleDrag(i: int, coords: Coord)
      modifies this
      ensures point == Some(coords)
      ensures isDragging == old(isDragging) && index == old(index)
      ensures points == old(points) && lines == old(lines)
    {
      point := Some(coords);
    }

    /** `handleDragEnd` for the marker at `pointIndex`. */
    method HandleDragEnd(newLngLat: Coord, pointIndex: nat, totalDistance: real) returns (action: DragEndAction)
      requires pointIndex < |points|
      modifies this
      ensures |points| == 1 ==>
                action == UpdateStartAfterDrag(newLngLat)
                && isDragging == old(isDragging) && point == old(point)
      ensures |points| != 1 ==>
                && action.UpdateRouteAfterDrag?
                && action.pointIndex == pointIndex
                && action.pointsLength == |points| - 1 && action.totalDistance == totalDistance
                && RouteEditor.DragPlan(action.waypoints, action.lineIndices)
                   == DragEndPlan(points, |lines|, pointIndex, newLngLat)
                && !isDragging && point.None?
      ensures points == old(points) && lines == old(lines) && index == old(index)
    {
      if |points| == 1 {
        action := UpdateStartAfterDrag(newLngLat);
      } else {
        var waypoints, lineIndices := PlanDragEnd(points, |lines|, pointIndex, newLngLat);
        action := UpdateRouteAfterDrag(pointIndex, waypoints, lineIndices, |points| - 1, totalDistance);
        isDragging := false;
        point := None;
      }
    }
  }
}
