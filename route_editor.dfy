/** The route editor of `src/features/Map/Map.tsx`: clicking appends a point,
    dragging a marker re-places it, and the drag end tells the route store
    which waypoints to send to the directions service and which segments
    (`lines`) the answer replaces. The store itself is not modelled: the
    editor's methods return the action they dispatch. */
module RouteEditor {
  import opened Geo
  import opened Seqs
  import ElevationProfile

  /** What a click dispatches. */
  datatype ClickAction =
    | AddRoute(newPoint: Coord, start: Coord, clipPath: bool, distance: real)
    | FetchSinglePoint(coord: Coord, points: seq<Coord>)

  /** What a drag move dispatches. */
  datatype DragAction = UpdatePointCoords(index: int, coords: Coord)

  /** What a drag end dispatches. */
  datatype DragEndAction =
    | FetchSinglePointAfterDrag(coord: Coord, points: seq<Coord>)
    | UpdateRouteAfterDrag(pointIndex: nat, waypoints: seq<Option<Coord>>, lines: seq<Line>, lineIndices: seq<int>)

  /** The two arrays a multi-point drag end builds: the waypoints to route
      through (`undefined` entries kept as `None`) and the indices of the
      segments to replace. */
  datatype DragPlan = DragPlan(waypoints: seq<Option<Coord>>, lineIndices: seq<int>)

  /** The store's invariant: one segment between each pair of neighbouring points. */
  predicate Consistent(points: seq<Coord>, lineCount: nat)
  {
    |points| >= 1 && lineCount == |points| - 1
  }

  /** The segments that touch point `i`: the one ending at it and the one
      starting at it, where they exist. */
  function AffectedSegments(i: nat, lineCount: nat): set<int>
  {
    (if 1 <= i <= lineCount then {i - 1} else {}) + (if i < lineCount then {i} else {})
  }

  /** Strictly increasing integers. */
  predicate Ascending(s: seq<int>)
  {
    forall j, k :: 0 <= j < k < |s| ==> s[j] < s[k]
  }

  /** The case analysis of the multi-point branch of `handleDragEnd`: the
      first point, the point whose index equals the number of segments
      (the last one), or an interior point. */
  function DragEndPlan(points: seq<Coord>, lineCount: nat, pointIndex: nat, newLngLat: Coord): (plan: DragPlan)
    ensures |plan.waypoints| == |plan.lineIndices| + 1
    ensures 1 <= |plan.lineIndices| <= 2 && Ascending(plan.lineIndices)
    ensures forall j :: 0 <= j < |plan.lineIndices| ==>
              0 <= plan.lineIndices[j] && (plan.lineIndices[j] == pointIndex - 1 || plan.lineIndices[j] == pointIndex)
    ensures plan.lineIndices[0] <= pointIndex < plan.lineIndices[0] + |plan.waypoints|
    ensures plan.waypoints[pointIndex - plan.lineIndices[0]] == Some(newLngLat)
  {
    if pointIndex == 0 then
      DragPlan([Some(newLngLat), At(points, 1)], [0])
    else if pointIndex == lineCount then
      DragPlan([At(points, |points| - 2), Some(newLngLat)], [pointIndex - 1])
    else
      DragPlan([At(points, pointIndex - 1), Some(newLngLat), At(points, pointIndex + 1)], [pointIndex - 1, pointIndex])
  }

  /** Under the store's invariant a drag end names only existing segments,
      exactly the segments touching the dragged point, and routes through
      the current points of that stretch with the dragged one moved: no
      waypoint is `undefined` and no other segment is recomputed. */
  lemma PlanStaysInRange(points: seq<Coord>, lineCount: nat, pointIndex: nat, newLngLat: Coord)
    requires Consistent(points, lineCount) && |points| >= 2 && pointIndex < |points|
    ensures var plan := DragEndPlan(points, lineCount, pointIndex, newLngLat);
      && (forall j :: 0 <= j < |plan.lineIndices| ==> 0 <= plan.lineIndices[j] < lineCount)
      && (forall k :: k in plan.lineIndices <==> k in AffectedSegments(pointIndex, lineCount))
      && plan.lineIndices[0] + |plan.waypoints| <= |points|
      && (forall j :: 0 <= j < |plan.waypoints| ==>
            plan.waypoints[j] == Some(points[pointIndex := newLngLat][plan.lineIndices[0] + j]))
  {
  }

  /** The body of the multi-point branch: both arrays start empty and are
      filled by `push` in one of the three cases. */
  method PlanDragEnd(points: seq<Coord>, lineCount: nat, pointIndex: nat, newLngLat: Coord)
    returns (waypoints: seq<Option<Coord>>, lineIndices: seq<int>)
    ensures DragPlan(waypoints, lineIndices) == DragEndPlan(points, lineCount, pointIndex, newLngLat)
  {
    waypoints := [];
    lineIndices := [];
    if pointIndex == 0 {
      waypoints := waypoints + [Some(newLngLat), At(points, 1)];
      lineIndices := lineIndices + [0];
    } else if pointIndex == lineCount {
      waypoints := waypoints + [At(points, |points| - 2), Some(newLngLat)];
      lineIndices := lineIndices + [pointIndex - 1];
    } else {
      waypoints := waypoints + [At(points, pointIndex - 1), Some(newLngLat), At(points, pointIndex + 1)];
      lineIndices := lineIndices + [pointIndex - 1, pointIndex];
    }
  }

  /** The cursor effect: a distance of 0 means "no cursor"; any other
      distance is looked up along the whole route, all segments joined. */
  function PointAlongPath(distanceAlongPath: real, lines: seq<Line>, units: string,
                          along: (Line, real, string) -> Coord): (pointAlongPath: Option<Coord>)
    ensures pointAlongPath.None? <==> distanceAlongPath == 0.0
    ensures pointAlongPath.Some? ==> pointAlongPath.value == along(Flatten(lines), distanceAlongPath, units)
  {
    if distanceAlongPath != 0.0 then Some(along(Flatten(lines), distanceAlongPath, units)) else None
  }

  /** Leaving the elevation profile hides this map's cursor, whose "no
      cursor" value is 0, supposing the profile's reset reaches this map: it
      renders its chart through `./ElevationProfile`, which is not part of
      this model, so the wiring is an assumption. */
  lemma MouseLeaveHidesCursor(lines: seq<Line>, units: string, along: (Line, real, string) -> Coord)
    ensures PointAlongPath(ElevationProfile.HandleMouseLeave(), lines, units, along).None?
  {
  }

  /** The map component's view of the route and its drag flags. `points` and
      `lines` are read from the store; `isDragging` and `index` are the
      component's own state. */
  class MapEditor {
    var points: seq<Coord>
    var lines: seq<Line>
    var isDragging: bool
    var index: int

    constructor (points: seq<Coord>, lines: seq<Line>)
      ensures this.points == points && this.lines == lines
      ensures !isDragging && index == 0
    {
      this.points := points;
      this.lines := lines;
      isDragging := false;
      index := 0;
    }

    /** `handleClick`: a non-empty route gets a new segment from its last
        point to the clicked one; an empty route gets its first point. */
    method HandleClick(newPoint: Coord, clipPath: bool, distance: real) returns (action: ClickAction)
      ensures |points| > 0 <==> action.AddRoute?
      ensures action.AddRoute? ==>
                action.start == points[|points| - 1] && action.newPoint == newPoint
                && action.clipPath == clipPath && action.distance == distance
      ensures action.FetchSinglePoint? ==> action.coord == newPoint && action.points == points
    {
      if |points| > 0 {
        var start := points[|points| - 1];
        action := AddRoute(newPoint, start, clipPath, distance);
      } else {
        action := FetchSinglePoint(newPoint, points);
      }
    }

    /** `handleDragStart`: the drag flag is raised only on a multi-point
        route; the marker index is always recorded. */
    method HandleDragStart(i: int)
      modifies this
      ensures isDragging == (|old(points)| > 1 || old(isDragging))
      ensures index == i
      ensures points == old(points) && lines == old(lines)
    {
      if |points| > 1 {
        isDragging := true;
      }
      index := i;
    }

    /** `handleDrag`: every move is sent to the store as a coordinate update;
        no component state changes. */
    method HandleDrag(i: int, coords: Coord) returns (action: DragAction)
      ensures action.index == i && action.coords == coords
    {
      action := UpdatePointCoords(i, coords);
    }

    /** `handleDragEnd` for the marker at `pointIndex` (the caller maps over
        `points`, so the index exists). */
    method HandleDragEnd(newLngLat: Coord, pointIndex: nat) returns (action: DragEndAction)
      requires pointIndex < |points|
      modifies this
      ensures |points| == 1 ==> action == FetchSinglePointAfterDrag(newLngLat, points) && isDragging == old(isDragging)
      ensures |points| != 1 ==>
                && action.UpdateRouteAfterDrag?
                && action.pointIndex == pointIndex && action.lines == lines
                && DragPlan(action.waypoints, action.lineIndices) == DragEndPlan(points, |lines|, pointIndex, newLngLat)
                && !isDragging
      ensures points == old(points) && lines == old(lines) && index == old(index)
    {
      if |points| == 1 {
        action := FetchSinglePointAfterDrag(newLngLat, points);
      } else {
        var waypoints, lineIndices := PlanDragEnd(points, |lines|, pointIndex, newLngLat);
        action := UpdateRouteAfterDrag(pointIndex, waypoints, lines, lineIndices);
        if |points| > 1 {
          isDragging := false;
        }
      }
    }
  }
}
