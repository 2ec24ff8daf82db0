/** Values shared by the map, chart and list components: coordinates,
    JavaScript's optional values, and the user's unit setting. */
module Geo {

  datatype Option<T> = None | Some(value: T)

  /** A `[longitude, latitude]` pair. The model never computes with the
      numbers; it only moves them between the route and the geometry calls. */
  datatype Coord = Coord(lng: real, lat: real)

  /** A segment's dense coordinate sequence (one entry of `lines`). */
  type Line = seq<Coord>

  /** JavaScript's `xs[k]`: the element when `k` is an index of `xs`,
      `undefined` otherwise. */
  function At<T>(xs: seq<T>, k: int): (r: Option<T>)
    ensures r.Some? <==> 0 <= k < |xs|
    ensures r.Some? ==> r.value == xs[k]
  {
    if 0 <= k < |xs| then Some(xs[k]) else None
  }

  /** The user's `units` setting is a string; only `'miles'` is special. */
  predicate IsMiles(units: string)
  {
    units == "miles"
  }

  /** The distance unit label used by the route list's badge and by the
      elevation profile's cursor text: "mi" for miles, "km" otherwise. */
  function DistanceAbbrev(units: string): (abbrev: string)
    ensures abbrev == (if IsMiles(units) then "mi" else "km")
  {
    if units == "miles" then "mi" else "km"
  }
}
