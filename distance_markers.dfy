/** The mile (or kilometre) markers of `features/Map/DistanceMarkers.tsx`:
    one marker at every whole distance unit along the route, labelled with
    its count. The route length (`turf.length`) and the point lookup
    (`turf.along`) are function parameters. */
module DistanceMarkers {
  import opened Geo
  import opened Seqs

  /** A marker as rendered: its position and the number shown on it. */
  datatype LabelledMarker = LabelledMarker(point: Coord, number: int)

  /** The `for` loop of the effect: positions `0..routeDistance` are looked
      up and every one but the first is kept, so there is one marker per
      whole unit, the k-th (from 0) at distance k + 1. */
  method PlaceMarkers(line: Line, routeDistance: int, units: string,
                      along: (Line, real, string) -> Coord) returns (markers: seq<Coord>)
    ensures |markers| == if routeDistance > 0 then routeDistance else 0
    ensures forall k :: 0 <= k < |markers| ==> markers[k] == along(line, (k + 1) as real, units)
  {
    markers := [];
    var i := 0;
    while i < routeDistance + 1
      invariant 0 <= i && (i <= routeDistance + 1 || i == 0)
      invariant |markers| == if i > 0 then i - 1 else 0
      invariant forall k :: 0 <= k < |markers| ==> markers[k] == along(line, (k + 1) as real, units)
      decreases routeDistance + 1 - i
    {
      var segment := along(line, i as real, units);
      if i != 0 {
        markers := markers + [segment];
      }
      i := i + 1;
    }
  }

  /** The rendered list: marker `i` shows `i + 1`. */
  function Labelled(markers: seq<Coord>): (rendered: seq<LabelledMarker>)
    ensures |rendered| == |markers|
    ensures forall i :: 0 <= i < |rendered| ==> rendered[i].point == markers[i] && rendered[i].number == i + 1
  {
    if |markers| == 0 then []
    else Labelled(markers[..|markers| - 1]) + [LabelledMarker(markers[|markers| - 1], |markers|)]
  }

  /** The labels count up from 1 without gaps, and each labelled marker
      stands at the distance its number names. */
  lemma LabelsAreDistances(line: Line, markers: seq<Coord>, units: string,
                             along: (Line, real, string) -> Coord)
    requires forall k :: 0 <= k < |markers| ==> markers[k] == along(line, (k + 1) as real, units)
    ensures forall i :: 0 <= i < |markers| ==>
              Labelled(markers)[i].point == along(line, Labelled(markers)[i].number as real, units)
    ensures forall i, j :: 0 <= i < j < |markers| ==> Labelled(markers)[i].number < Labelled(markers)[j].number
    ensures |markers| > 0 ==> Labelled(markers)[0].number == 1 && Labelled(markers)[|markers| - 1].number == |markers|
  {
  }

  /** The component, holding `distanceMarkers` as state. */
  class DistanceMarkerLayer {
    var distanceMarkers: seq<Coord>

    constructor ()
      ensures distanceMarkers == []
    {
      distanceMarkers := [];
    }

    /** The effect run on a change of `lines` or `units`. A route is joined
        into one line and its length rounded down; a length below one
        unit gives no markers, and an empty route clears them. */
    method Update(lines: seq<Line>, units: string, lengthOf: (Line, string) -> real,
                  along: (Line, real, string) -> Coord)
      modifies this
      ensures |lines| == 0 ==> distanceMarkers == []
      ensures |lines| > 0 ==>
                var routeDistance := lengthOf(Flatten(lines), units).Floor;
                && |distanceMarkers| == (if routeDistance > 0 then routeDistance else 0)
                && forall k :: 0 <= k < |distanceMarkers| ==>
                     distanceMarkers[k] == along(Flatten(lines), (k + 1) as real, units)
    {
      if |lines| > 0 {
        var line := Flatten(lines);
        var routeDistance := lengthOf(line, units).Floor;
        if routeDistance != 0 {
          var markers := PlaceMarkers(line, routeDistance, units, along);
          distanceMarkers := markers;
        } else {
          distanceMarkers := [];
        }
      } else if |lines| == 0 && |distanceMarkers| > 0 {
        distanceMarkers := [];
      }
    }
  }
}
