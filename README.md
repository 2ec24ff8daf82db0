# Run-tracker route editor, modelled in Dafny

This project models the parts of the run-tracker application (a React, Mapbox
and d3 route planner) that carry real logic:

- **The route editor.** It is modelled in two versions, `RouteEditor` for
  `src/features/Map/Map.tsx` and `LegacyRouteEditor` for
  `features/Map/Map.tsx`.
  - A click either starts a route with one point or appends a segment from
    the last point.
  - A marker drag goes through drag start, drag moves and drag end.
  - On drag end the editor chooses the neighbouring waypoints to re-route
    through and the indices of the segments (`lines`) the answer replaces.
  - The chart cursor maps a distance along the route to a point on the map.
  - The component state (`isDragging`, `index`, the old version's preview
    `point`) lives in a class.
  - Handlers return the action they dispatch to the route store. The store
    itself is not modelled.
- **The cursor search.** `ArcSearch.Search` is the integer bisection shared by
  the d3 chart (`D3Chart`) and the elevation profile (`ElevationProfile`). It
  searches the arc length of the rendered profile for the position whose x
  equals the pointer's.
- **The chart parts.**
  - `D3Chart` covers the chart's data flattening and the mouse-out reset.
  - `ElevationProfile` covers the profile's render guards and unit
    abbreviations.
- **The saved-route list (`RouteList`).**
  - Filtering by keyword, distance range, sports and surfaces, then sorting.
  - The distance-badge text and the rule for showing the badge.
  - The tag toggle, the slider guard and the slider maximum.
- **The distance markers (`DistanceMarkers`).** One marker at each whole
  distance unit along the route.
- **The saved-route slice (`RouteListSlice`).** Its initial state and its
  two reducers.

`Seqs` holds the models of `Array.prototype.flat` and
`Array.prototype.filter`, with their lemmas. `Geo` holds coordinates, an
`Option`, and `At`, which models a JavaScript array read: a missing element
is `undefined`, written `None`. `Geo` also holds the unit test `IsMiles` and
`DistanceAbbrev`, the distance label shared by the route list and the
elevation profile.

The editors import the chart modules, and not the other way round: the two
lemmas about what a chart's cursor reset does to a map live with the map
editors.

All geometry comes from outside the model as function parameters:

- `turf.along`
- `turf.length`
- `convertLength` together with `toFixed`
- `getPointAtLength(t).x`
- `xScale.invert`
- number formatting

The model assumes nothing about any of them.

Three facts about the code shape the editor model:

- **No bounds check on the drag index.** `handleDragEnd` does not check
  `pointIndex`. The index is always that of a rendered marker, so the
  drag-end methods require `pointIndex < |points|`.
- **Drag moves in the newer editor reach the store.** The newer editor
  (`src/features/Map/Map.tsx:102-104`) dispatches `updatePointCoords` to the
  store on every move. Only the older editor keeps a local preview point.
- **Two independent flags.** The drag state is two flags, `isDragging` and
  `index`, with no state machine joining them. The newer editor raises
  `isDragging` only on routes with more than one point.

## Model

All source paths below are relative to the repository root.

| member | source | states |
|---|---|---|
| Geo.At | src/features/Map/Map.tsx:121-136 | A JavaScript array read gives an element exactly for an index from 0 to `length - 1`, and then the element at that index. Any other index gives `undefined`. |
| Seqs.FlattenKeepsAll | utils/d3/utils.ts:257 | `flat()` of a list of arrays is as long as all of them together. Array `i` appears unchanged in it, starting after the arrays before it. |
| Seqs.FilterCount | src/features/RouteList/RouteList.tsx:271 | `filter` keeps every occurrence of a value that passes the test and drops every occurrence of one that fails. It adds nothing. |
| Seqs.FilterMember | src/features/RouteList/RouteList.tsx:121-123 | A value is in the filtered array exactly when it is in the input and passes the test. |
| Seqs.FilterSubsequence | src/features/RouteList/RouteList.tsx:271 | The kept elements stay in their original order: the result is the input with some elements left out. |
| Seqs.FilterCompose | src/features/RouteList/RouteList.tsx:120-161 | Filtering by one test and then by another gives the same array as one filter by both tests together. |
| RouteEditor.DragEndPlan | src/features/Map/Map.tsx:120-137 | Every multi-point drag end builds one more waypoint than segment indices, and one or two indices in strictly ascending order. Each index is `pointIndex - 1` or `pointIndex`. The dragged point's new position sits in the waypoints at `pointIndex - lineIndices[0]`. |
| RouteEditor.PlanStaysInRange | src/features/Map/Map.tsx:121-137 | Assume one segment between each pair of neighbouring points, and at least two points. Then every index names an existing segment (`0 <= k < lines.length`). The indices are exactly the segments touching the dragged point. The waypoints are the current points of that stretch with the dragged one moved, so none is `undefined`. |
| RouteEditor.PlanDragEnd | src/features/Map/Map.tsx:111-137 | The `push` code of the three cases (first, last, interior point) builds exactly the plan `DragEndPlan` describes. |
| RouteEditor.PointAlongPath | src/features/Map/Map.tsx:161-171 | A cursor distance of 0 gives no cursor point. Any other distance gives `along` applied to the joined segments at that distance. |
| RouteEditor.MouseLeaveHidesCursor | src/features/Map/Map.tsx:161-171 | Suppose the elevation profile's mouse-leave reset (`src/features/Map/UpdatedElevationProfile/UpdatedElevationProfile.tsx:139-143`) reaches this editor. It renders its chart through `./ElevationProfile`, which is not part of this model, so the wiring is an assumption. Leaving the profile then removes the cursor point from the map. |
| RouteEditor.MapEditor.constructor | src/features/Map/Map.tsx:62-63 | The drag flag starts false and the dragged index starts at 0. |
| RouteEditor.MapEditor.HandleClick | src/features/Map/Map.tsx:69-93 | On a non-empty route the click dispatches `addRoute` starting at the last point, passing the click point, `clipPath` and the distance. On an empty route it dispatches `fetchSinglePoint` with the click point. |
| RouteEditor.MapEditor.HandleDragStart | src/features/Map/Map.tsx:95-100 | Drag start raises `isDragging` only when there is more than one point, and always records the index. |
| RouteEditor.MapEditor.HandleDrag | src/features/Map/Map.tsx:102-104 | Every drag move dispatches `updatePointCoords` with the marker index and the pointer position. |
| RouteEditor.MapEditor.HandleDragEnd | src/features/Map/Map.tsx:106-152 | With one point the drag end dispatches `fetchSinglePoint` and leaves the drag flag alone. Otherwise it dispatches `updateRouteAfterDrag` with the plan of `DragEndPlan` and clears the drag flag. Points, lines and index do not change. |
| LegacyRouteEditor.DragEndPlan | features/Map/Map.tsx:103-120 | The older plan has the same shape: one more waypoint than indices, and ascending indices among `pointIndex - 1` and `pointIndex`. The new position is among the waypoints. |
| LegacyRouteEditor.VariantsDifferOnlyAtEnd | features/Map/Map.tsx:104-119 | The two versions build the same waypoints for every drag. Their indices are equal exactly when the dragged point is not the last one. For the last point the older index is one larger. |
| LegacyRouteEditor.EndIndexPastLastSegment | features/Map/Map.tsx:108-111 | Assume one segment between each pair of neighbouring points and at least two points. Dragging the last point then names segment `lines.length`, which does not exist. |
| LegacyRouteEditor.EndIndexCounterexample | features/Map/Map.tsx:108-111 | With two points and one segment, dragging the second point names segment 1. |
| LegacyRouteEditor.PlanDragEnd | features/Map/Map.tsx:96-120 | The older `push` code builds exactly the older plan. |
| LegacyRouteEditor.PointAlongPath | features/Map/Map.tsx:148-163 | A `null` distance gives no cursor point. Any other distance is converted from meters to miles and looked up along the joined segments in miles. |
| LegacyRouteEditor.MouseOutKeepsLegacyCursor | features/Map/Map.tsx:148-163 | Suppose the d3 chart's mouse-out reset (`utils/d3/utils.ts:167-173`) reaches this editor. It renders its chart through `./ElevationProfile`, which is not part of this model, so the wiring is an assumption. The reset 0 is not this editor's `null`, so it still looks up a cursor point, at 0 meters converted to miles. |
| LegacyRouteEditor.LegacyMapEditor.constructor | features/Map/Map.tsx:45-47 | The drag flag starts false, there is no preview point, and the index starts at 0. |
| LegacyRouteEditor.LegacyMapEditor.HandleClick | features/Map/Map.tsx:66-89 | On a non-empty route the click dispatches `addRoute` from the last point with the total distance. On an empty route it dispatches `fetchSinglePoint` with the click point. |
| LegacyRouteEditor.LegacyMapEditor.HandleDragStart | features/Map/Map.tsx:143-146 | Drag start always raises `isDragging` and records the index. |
| LegacyRouteEditor.LegacyMapEditor.HandleDrag | features/Map/Map.tsx:139-141 | A drag move only sets the local preview point. The drag flag, index and route do not change. |
| LegacyRouteEditor.LegacyMapEditor.HandleDragEnd | features/Map/Map.tsx:91-137 | With one point the drag end dispatches `updateStartAfterDrag`. Otherwise it dispatches `updateRouteAfterDrag` with the older plan and `pointsLength = points.length - 1`, then clears the drag flag and the preview point. |
| ArcSearch.Search | utils/d3/utils.ts:200-217 | The search starts on `[0, totalLength]` and ends on an interval inside it, with `target` its floored midpoint. It ends either on an exact match or on a collapsed interval (`end - beginning <= 1`), and the floored midpoint then puts `target` on `beginning`. Both bracket conditions hold throughout. For a non-decreasing x every exact match lies in the final interval. Every probe is in range. The number of probes is logarithmic in `totalLength`. The loop terminates. |
| ArcSearch.HalvingStep | utils/d3/utils.ts:214-215 | Given a step that at least halves the interval, up to rounding (the loop supplies this), the bound `(width - 1) * 2^steps <= totalLength - 1` carries over to the next step. It follows that `2^steps < totalLength` while the search goes on, which gives the logarithmic bound on the probes. |
| D3Chart.CreateChart | utils/d3/utils.ts:247-258 | The chart draws the concatenation of the per-segment elevation arrays. Segment `i` occupies its own stretch, in segment order, and the total length is the sum of the segment lengths. |
| D3Chart.MouseMove | utils/d3/utils.ts:182-219 | The reported distance is the inverted x of the final probe, and that probe is within the path. When the probe misses the pointer's x, it sits at the left end of an interval of width at most 1, because the midpoint is floored. That interval still brackets the pointer: each end is a path end or lies on its side of the pointer. For a non-decreasing x every exact match then lies at the probe or one unit to its right. |
| D3Chart.MouseOut | utils/d3/utils.ts:167-173 | Mouse-out reports a distance of 0. |
| ElevationProfile.Renders | src/features/Map/UpdatedElevationProfile/UpdatedElevationProfile.tsx:27-35 | The profile renders nothing exactly when `showElevation` is `false`. It still renders for `null`, and an omitted prop means `true`. |
| ElevationProfile.Body | src/features/Map/UpdatedElevationProfile/UpdatedElevationProfile.tsx:152-226 | With no segments the profile shows only the placeholder text "Create a line to see the elevation chart". Otherwise it shows the chart. |
| ElevationProfile.ElevationAbbrev | src/features/Map/UpdatedElevationProfile/UpdatedElevationProfile.tsx:124 | Elevation is in "ft" for miles and in "m" otherwise. |
| Geo.DistanceAbbrev | src/features/Map/UpdatedElevationProfile/UpdatedElevationProfile.tsx:125 | Distance is in "mi" for miles and in "km" otherwise. The same label is used by the route list's badge (`src/features/RouteList/RouteList.tsx:97`). |
| ElevationProfile.HandleMouseMove | src/features/Map/UpdatedElevationProfile/UpdatedElevationProfile.tsx:102-125 | It gives the same guarantees as the chart's mouse move. The probe is within the path. On a miss it sits at the left end of a bracketing interval of width at most 1, and for a non-decreasing x every exact match lies at the probe or one unit to its right. The two unit abbreviations are as above. |
| ElevationProfile.HandleMouseLeave | src/features/Map/UpdatedElevationProfile/UpdatedElevationProfile.tsx:139-143 | Mouse leave reports a distance of 0. |
| RouteList.ToLower | src/features/RouteList/RouteList.tsx:122 | Lower-casing keeps the length and lower-cases each letter on its own. |
| RouteList.IndexOf | src/features/RouteList/RouteList.tsx:122 | `indexOf` returns the first position where the keyword occurs, or -1 exactly when it does not occur. |
| RouteList.KeywordMatchMeans | src/features/RouteList/RouteList.tsx:120-124 | A route passes the keyword stage exactly when the lower-cased keyword occurs somewhere in its lower-cased name. An empty keyword lets every route pass. |
| RouteList.RangeInclusive | src/features/RouteList/RouteList.tsx:126-137 | A converted distance equal to either thumb passes the range stage. A distance below both thumbs or above both thumbs fails it. |
| RouteList.RangeOrderIrrelevant | src/features/RouteList/RouteList.tsx:126-137 | Neither the range filter nor the range badge depends on which slider thumb comes first. |
| RouteList.SharesTag | src/features/RouteList/RouteList.tsx:140-148 | The tag loop returns true exactly when some tag of the route is among the wanted tags. |
| RouteList.KeepSharingTag | src/features/RouteList/RouteList.tsx:139-161 | A tag stage keeps, in order, exactly the routes that share a tag with the filter. |
| RouteList.FilteredCount | src/features/RouteList/RouteList.tsx:117-161 | The filter stages keep every copy of a route that passes all four filters and drop every other route. An empty keyword or an empty tag list filters nothing. A non-empty keyword keeps the names that contain it, ignoring case. The range is inclusive. |
| RouteList.FilteredMember | src/features/RouteList/RouteList.tsx:117-161 | A route is in the filtered list exactly when it is in the input and passes all filters. |
| RouteList.FilteredIsFilter | src/features/RouteList/RouteList.tsx:117-161 | The four filter stages together equal one `filter` by the route's selection test: keyword, range, and the tag stages that apply. |
| RouteList.FilteredKeepsOrder | src/features/RouteList/RouteList.tsx:117-161 | The filtered list keeps the input's order: it is the input with some routes left out. |
| RouteList.SortKeyOrders | src/features/RouteList/RouteList.tsx:163-175 | For each of the four sort terms, one route's key is at most another's exactly when the comparator puts it first or level: later date first for 'newest', earlier for 'oldest', shorter for 'shortest', longer for 'longest'. |
| RouteList.SortByKey | src/features/RouteList/RouteList.tsx:163-175 | The in-place sort leaves the array ordered by the comparator's key and holding the same elements. |
| RouteList.InsertAt | src/features/RouteList/RouteList.tsx:163-175 | One insertion step extends the sorted prefix by one element and keeps the elements. |
| RouteList.SortRoutes | src/features/RouteList/RouteList.tsx:110-179 | The result is a permutation of the filtered routes. 'newest' and 'longest' sort by non-increasing date and distance. 'oldest' and 'shortest' sort by non-decreasing date and distance. Any other term returns the filtered list in its original order. |
| RouteList.RenderDistance | src/features/RouteList/RouteList.tsx:91-108 | Equal ends give "min unit". With `min > 0` and `max < maxDistance` it gives "min - max". With `min > 0` and `max == maxDistance` it gives "& greater". With `min == 0` and `max < maxDistance` it gives "& less". There is no text exactly when none of these cases applies. |
| RouteList.BadgeHiddenExactlyAtFullRange | src/features/RouteList/RouteList.tsx:230-241 | Take thumbs within the slider's `0..maxDistance`. The range badge is hidden exactly when the two thumbs sit at 0 and at `maxDistance`, in either order. |
| RouteList.BadgeLabelled | src/features/RouteList/RouteList.tsx:230-241 | Take thumbs within the slider's `0..maxDistance` (lines 333-336). A shown range badge then always has a text. When the badge is hidden, a text would exist only if `maxDistance` is 0. |
| RouteList.HandleSlide | src/features/RouteList/RouteList.tsx:257-266 | The slider dispatches nothing when the new thumbs equal the current ones. Otherwise it dispatches the new thumbs. |
| RouteList.ToggleTags | src/features/RouteList/RouteList.tsx:267-277 | Toggling removes every occurrence of a present title and appends an absent one at the end. The title is in the result exactly when it was not in the input. Every other tag keeps its count. When the title was present, the remaining tags keep their order. |
| RouteList.ToggleTwice | src/features/RouteList/RouteList.tsx:267-274 | Toggling a title that is not in the list twice gives back the original list. |
| RouteList.MaxDistanceFold | src/features/RouteList/RouteList.tsx:182-184 | The fold is at least its start value, 0, and at least every route distance. It is either the start value or one of the distances, so it is 0 for no routes. |
| RouteList.Ceil | src/features/RouteList/RouteList.tsx:185 | `Math.ceil` returns the least integer not below its argument. |
| RouteList.CalculateMaxDistance | src/features/RouteList/RouteList.tsx:181-186 | The slider maximum is the least integer not below the converted largest distance: at least that value and less than one above it. It is the rounded-up conversion of 0 when there are no routes. |
| DistanceMarkers.PlaceMarkers | features/Map/DistanceMarkers.tsx:21-31 | The loop produces exactly `n` markers for a rounded length `n >= 1`, and none otherwise. Marker `k` (from 0) is `along(line, k + 1)`, so the markers come in increasing distance. |
| DistanceMarkers.Labelled | features/Map/DistanceMarkers.tsx:44-48 | Marker `i` is rendered with the number `i + 1`. |
| DistanceMarkers.LabelsAreDistances | features/Map/DistanceMarkers.tsx:24-46 | The numbers count up from 1 without gaps. Each marker stands at the distance its number shows. |
| DistanceMarkers.DistanceMarkerLayer.constructor | features/Map/DistanceMarkers.tsx:12 | The component starts with no markers. |
| DistanceMarkers.DistanceMarkerLayer.Update | features/Map/DistanceMarkers.tsx:14-40 | The effect places markers along the joined segments, one per whole unit of the rounded-down length. A length below one unit gives none, and an empty route clears the markers. |
| RouteListSlice.InitialState | features/RouteList/routeListSlice.ts:24-27 | The slice starts with no routes and the term 'newest'. |
| RouteListSlice.AfterAddRoutes | features/RouteList/routeListSlice.ts:33-35 | `addRoutes` replaces the whole route list with the payload and keeps the term. |
| RouteListSlice.AfterUpdateFilterTerm | features/RouteList/routeListSlice.ts:36-38 | `updateFilterTerm` sets the term to the payload and keeps the routes. |
| RouteListSlice.ReducersIdempotent | features/RouteList/routeListSlice.ts:33-38 | Dispatching either action twice has the same effect as dispatching it once. |
| RouteListSlice.ReducersIndependent | features/RouteList/routeListSlice.ts:33-38 | The two reducers commute, and a later action of the same kind overrides an earlier one. |
| RouteListSlice.RouteListStore.constructor | features/RouteList/routeListSlice.ts:24-27 | The store starts in the initial state. |
| RouteListSlice.RouteListStore.AddRoutes | features/RouteList/routeListSlice.ts:33-35 | The in-place reducer leaves the store in the state `AfterAddRoutes` gives. |
| RouteListSlice.RouteListStore.UpdateFilterTerm | features/RouteList/routeListSlice.ts:36-38 | The in-place reducer leaves the store in the state `AfterUpdateFilterTerm` gives. |

## Left out

- The route store's reducers and thunks are not part of this model. This covers `addRoute`, `updateRouteAfterDrag`, `fetchSinglePoint`, `updatePointCoords` and `updateStartAfterDrag`, which call the directions and elevation services over the network. Only the route data the editor hands them is modelled. The older editor also hands over the two state setters; see the `LegacyRouteEditor.LegacyMapEditor.HandleDragEnd` line below.
- LegacyRouteEditor.LegacyMapEditor.HandleDragEnd: the `setIsDragging` and `setPoint` callbacks passed to `updateRouteAfterDrag` (`features/Map/Map.tsx:129-130`) are not modelled. `DragEndAction.UpdateRouteAfterDrag` carries neither. The store can call them later, so the ensured `!isDragging` and empty preview point hold only until it does.
- RouteEditor.PointAlongPath: the effect re-runs only when `distanceAlongPath` changes (`src/features/Map/Map.tsx:171`). A change to `lines` alone leaves a stale cursor point, and that is not modelled.
- RouteEditor.PointAlongPath: `turf.lineString` (`src/features/Map/Map.tsx:163`) rejects fewer than two positions and throws. The model returns `Some` for every non-zero cursor distance, whatever the number of positions.
- LegacyRouteEditor.PointAlongPath: the effect re-runs only when `distanceAlongPath` changes (`features/Map/Map.tsx:163`). A change to `lines` alone leaves a stale cursor point, and that is not modelled.
- LegacyRouteEditor.PointAlongPath: `turf.lineString` (`features/Map/Map.tsx:150`) rejects fewer than two positions and throws. The model returns `Some` for every non-null cursor distance, whatever the number of positions.
- DistanceMarkers.DistanceMarkerLayer.Update: `turf.lineString(lines.flat())` (`features/Map/DistanceMarkers.tsx:17`) throws when the joined segments hold fewer than two positions. The model places markers along whatever positions there are and does not model the throw.
- DistanceMarkers.DistanceMarkerLayer.Update: `units` is a string. The older map renders `<DistanceMarkers {...{ lines }} />` without `units` (`features/Map/Map.tsx:229-230`), so that caller passes `undefined`. That value is not modelled.
- The undo wrapper around the store and the rest of the Redux wiring are library calls with no visible logic.
- Geodesic primitives have no assumed behaviour. This covers `turf.lineString`, `turf.along`, `turf.length` and `convertLength`.
- `calculateNewLngLat` is left out because it is floating-point arithmetic.
- `xScale.invert`, `yScale.invert` and the `toFixed` text are left out for the same reason; they are parameters.
- ElevationProfile.HandleMouseMove: the `console.log(pos)` on every search step (`src/features/Map/UpdatedElevationProfile/UpdatedElevationProfile.tsx:111`) is console output and is not modelled.
- ArcSearch.Search: arc length and screen x are integers. In the source the initial `end` is a floating-point path length, so the exit test `target === end` can compare a floor against a fraction. That case is not modelled.
- RouteList.ToLower: only ASCII letters are lower-cased. Unicode case mapping is not modelled.
- RouteList.SortRoutes: the stability of `Array.sort` is not modelled. Equal keys may come out in any order of the same elements. The order among equal keys is not stated.
- RouteList.SortRoutes: `created_at` is an integer timestamp. Date parsing and `compareAsc` are not modelled.
- RouteList.SortRoutes: the `maxDistance` parameter of `sortRoutes` is unused in the source, so the model drops it.
- RouteList.ToggleTags: the filter name passed through to `updateFilter` is not modelled. The function gives the new value only.
- RouteList.RangeOrderIrrelevant: `toUnits` stands for `convertLength(...).toFixed(1)` read back by `parseFloat`. The rounding to one decimal is inside that parameter and is not modelled.
- The keyword and tag badges of `renderBadges` only print the filter values and are not modelled.
- The `fetchRoutes` effect, `handleSelect`, `handleChange`, the mobile filters and every other render path are I/O or plain dispatch.
- The elevation-data parsing, the axes, gradients and other d3 drawing are not modelled.
- Geolocation, keyboard handlers and viewport control are not modelled.
- Authentication, the user API and the static map image middleware are not modelled.

## Findings

| source | as written | input that shows it | evidently intended | confidence | as-written member | corrected member |
|---|---|---|---|---|---|---|
| features/Map/Map.tsx:108-111 | Dragging the last point (`pointIndex === lines.length`) pushes segment index `pointIndex`. | Two points, one segment (index 0); drag the second point. The plan names segment 1, which does not exist. | Replace the last segment, index `pointIndex - 1`, as `src/features/Map/Map.tsx:128` does. | not executed | LegacyRouteEditor.EndIndexPastLastSegment | RouteEditor.PlanStaysInRange |
