/** The React elevation profile of
    `src/features/Map/UpdatedElevationProfile/UpdatedElevationProfile.tsx`:
    its render guards, its unit labels and its pointer handlers. */
module ElevationProfile {
  import opened Geo
  import opened Seqs
  import ArcSearch

  /** The optional `showElevation?: boolean | null` prop. */
  datatype ShowElevation = Omitted | Null | Given(show: bool)

  /** What the component draws inside its container. */
  datatype Content = Chart | Placeholder(text: string)

  /** The component renders nothing only for an explicit `false`: an
      omitted prop defaults to `true`, and `null` still renders. */
  predicate Renders(showElevation: ShowElevation)
    ensures !Renders(showElevation) <==> showElevation == Given(false)
  {
    var value := if showElevation.Omitted? then Given(true) else showElevation;
    !(value.Given? && !value.show)
  }

  /** Without segments there is no chart, only the invitation to draw one. */
  function Body(lines: seq<Line>): (content: Content)
    ensures content.Placeholder? <==> |lines| == 0
    ensures content.Placeholder? ==> content.text == "Create a line to see the elevation chart"
  {
    if |lines| > 0 then Chart else Placeholder("Create a line to see the elevation chart")
  }

  /** Elevation unit label beside the cursor. */
  function ElevationAbbrev(units: string): (abbrev: string)
    ensures abbrev == (if IsMiles(units) then "ft" else "m")
  {
    if units == "miles" then "ft" else "m"
  }

  /** `handleMouseMove`: the same search as the d3 chart, with the same
      guarantees for the probe, then the reported distance and the two unit
      labels. */
  method HandleMouseMove(totalLength: nat, x: nat -> int, mouseX: int, invert: int -> real, units: string)
    returns (distanceAlongPath: real, target: nat, elevationAbbrev: string, distanceAbbrev: string)
    ensures target <= totalLength
    ensures distanceAlongPath == invert(x(target))
    ensures ArcSearch.NonDecreasing(x, totalLength) && x(target) != mouseX ==>
              forall t :: 0 <= t <= totalLength && x(t) == mouseX ==> target <= t <= target + 1
    ensures x(target) != mouseX ==>
              exists b: nat, e: nat :: b == target <= e <= totalLength && e - b <= 1
                                     && ArcSearch.Bracketed(x, totalLength, mouseX, b, e)
    ensures elevationAbbrev == (if IsMiles(units) then "ft" else "m")
    ensures distanceAbbrev == (if IsMiles(units) then "mi" else "km")
  {
    var beginning, end;
    ghost var probes;
    target, beginning, end, probes := ArcSearch.Search(totalLength, x, mouseX);
    distanceAlongPath := invert(x(target));
    elevationAbbrev := ElevationAbbrev(units);
    distanceAbbrev := DistanceAbbrev(units);
  }

  /** `handleMouseLeave`: the reported distance goes back to 0. It is the
      same value as `D3Chart.MouseOut`; the two are separate handlers of two
      separate components, and each is kept beside the handlers it belongs
      with. */
  function HandleMouseLeave(): (distanceAlongPath: real)
    ensures distanceAlongPath == 0.0
  {
    0.0
  }
}
