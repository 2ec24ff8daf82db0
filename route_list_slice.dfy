/** The saved-routes store of `features/RouteList/routeListSlice.ts`: the
    list of routes and the chosen sort term, with one reducer replacing
    each. */
module RouteListSlice {
  import opened Geo

  datatype ElevationPoint = ElevationPoint(distance: real, segDistance: real, elevation: real)

  /** A route as the store keeps it. */
  datatype SavedRoute = SavedRoute(id: int, name: string, image: string, points: seq<Coord>,
                                   lines: seq<Line>, totalDistance: seq<real>,
                                   elevationData: seq<seq<ElevationPoint>>, createdOn: string)

  /** The slice's state as a value. */
  datatype State = State(routes: seq<SavedRoute>, filter: string)

  /** `initialState`: no routes, sorted newest first. */
  function InitialState(): (s: State)
    ensures |s.routes| == 0 && s.filter == "newest"
  {
    State([], "newest")
  }

  /** `addRoutes`: the payload becomes the whole list; the sort term stays. */
  function AfterAddRoutes(s: State, payload: seq<SavedRoute>): (t: State)
    ensures t.routes == payload && t.filter == s.filter
  {
    s.(routes := payload)
  }

  /** `updateFilterTerm`: the payload becomes the sort term; the routes stay. */
  function AfterUpdateFilterTerm(s: State, payload: string): (t: State)
    ensures t.filter == payload && t.routes == s.routes
  {
    s.(filter := payload)
  }

  /** Dispatching the same action twice has the effect of dispatching it once. */
  lemma ReducersIdempotent(s: State, routes: seq<SavedRoute>, term: string)
    ensures AfterAddRoutes(AfterAddRoutes(s, routes), routes) == AfterAddRoutes(s, routes)
    ensures AfterUpdateFilterTerm(AfterUpdateFilterTerm(s, term), term) == AfterUpdateFilterTerm(s, term)
  {
  }

  /** The two reducers touch different fields, so their order does not
      matter, and a later action of the same kind overrides an earlier one. */
  lemma ReducersIndependent(s: State, routes: seq<SavedRoute>, routes': seq<SavedRoute>, term: string, term': string)
    ensures AfterAddRoutes(AfterUpdateFilterTerm(s, term), routes) == AfterUpdateFilterTerm(AfterAddRoutes(s, routes), term)
    ensures AfterAddRoutes(AfterAddRoutes(s, routes'), routes) == AfterAddRoutes(s, routes)
    ensures AfterUpdateFilterTerm(AfterUpdateFilterTerm(s, term'), term) == AfterUpdateFilterTerm(s, term)
  {
  }

  /** The slice as the store holds it; the reducers assign its fields in place. */
  class RouteListStore {
    var routes: seq<SavedRoute>
    var filter: string

    function Current(): State
      reads this
    {
      State(routes, filter)
    }

    constructor ()
      ensures Current() == InitialState()
    {
      routes := [];
      filter := "newest";
    }

    method AddRoutes(payload: seq<SavedRoute>)
      modifies this
      ensures Current() == AfterAddRoutes(old(Current()), payload)
    {
      routes := payload;
    }

    method UpdateFilterTerm(payload: string)
      modifies this
      ensures Current() == AfterUpdateFilterTerm(old(Current()), payload)
    {
      filter := payload;
    }
  }
}
