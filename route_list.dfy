/** The saved-route list of `src/features/RouteList/RouteList.tsx`: the
    `sortRoutes` pipeline (keyword, distance range, sports, surfaces, then
    the chosen order), the distance badge and its label, the tag toggle, the
    slider guard and the largest route distance. The length conversion
    (`convertLength` followed by `toFixed(1)`) and number formatting are
    function parameters. */
module RouteList {
  import opened Geo
  import opened Seqs

  /** The fields of a saved route that the list uses. `createdAt` stands for
      the date in `created_at`, as a timestamp. */
  datatype Route = Route(id: int, name: string, distance: real, createdAt: int,
                         sports: seq<string>, surfaces: seq<string>)

  /** The two slider thumbs, in either order. */
  datatype Range = Range(first: real, second: real)

  datatype Filters = Filters(keyword: string, range: Range, sports: seq<string>, surfaces: seq<string>)

  function Min(a: real, b: real): real { if a <= b then a else b }
  function Max(a: real, b: real): real { if a >= b then a else b }

  function RangeMin(range: Range): real { Min(range.first, range.second) }
  function RangeMax(range: Range): real { Max(range.first, range.second) }

  // ---------------------------------------------------------------------
  // Keyword filter

  /** `toLowerCase` on one character (ASCII letters only). */
  function LowerChar(c: char): char
  {
    if 'A' <= c <= 'Z' then (c as int + 32) as char else c
  }

  function ToLower(s: string): (r: string)
    ensures |r| == |s| && forall i :: 0 <= i < |s| ==> r[i] == LowerChar(s[i])
  {
    seq(|s|, i requires 0 <= i < |s| => LowerChar(s[i]))
  }

  /** `t` occurs in `s` starting at position `i`. */
  predicate OccursAt(s: string, t: string, i: nat)
  {
    i + |t| <= |s| && s[i..i + |t|] == t
  }

  /** `s.indexOf(t, from)`: the first position at or after `from` where `t`
      occurs, or -1. */
  function IndexOf(s: string, t: string, from: nat): (r: int)
    decreases |s| - from
    ensures r == -1 || (from <= r && OccursAt(s, t, r))
    ensures r == -1 <==> forall i :: from <= i <= |s| ==> !OccursAt(s, t, i)
    ensures r != -1 ==> forall i :: from <= i < r ==> !OccursAt(s, t, i)
  {
    if from + |t| > |s| then -1
    else if s[from..from + |t|] == t then from
    else IndexOf(s, t, from + 1)
  }

  /** The keyword stage: the lower-cased name contains the lower-cased keyword. */
  predicate KeywordMatch(r: Route, keyword: string)
  {
    IndexOf(ToLower(r.name), ToLower(keyword), 0) >= 0
  }

  /** A route passes the keyword stage exactly when the lower-cased keyword
      occurs somewhere in the lower-cased name; the empty keyword occurs in
      every name. */
  lemma KeywordMatchMeans(r: Route, keyword: string)
    ensures KeywordMatch(r, keyword) <==> exists i :: 0 <= i && OccursAt(ToLower(r.name), ToLower(keyword), i)
    ensures keyword == "" ==> KeywordMatch(r, keyword)
  {
    if keyword == "" {
      assert OccursAt(ToLower(r.name), ToLower(keyword), 0);
    }
  }

  function KeywordPred(keyword: string): Route -> bool
  {
    r => KeywordMatch(r, keyword)
  }

  // ---------------------------------------------------------------------
  // Range filter

  /** The range stage: the converted distance lies between the two thumbs,
      both ends included, whichever thumb is first. */
  predicate InRange(r: Route, range: Range, toUnits: real -> real)
  {
    RangeMin(range) <= toUnits(r.distance) <= RangeMax(range)
  }

  /** Both thumb values are inside the range, and nothing outside the two
      thumbs is. */
  lemma RangeInclusive(r: Route, range: Range, toUnits: real -> real)
    ensures toUnits(r.distance) == range.first ==> InRange(r, range, toUnits)
    ensures toUnits(r.distance) == range.second ==> InRange(r, range, toUnits)
    ensures toUnits(r.distance) < range.first && toUnits(r.distance) < range.second ==> !InRange(r, range, toUnits)
    ensures toUnits(r.distance) > range.first && toUnits(r.distance) > range.second ==> !InRange(r, range, toUnits)
  {
  }

  function RangePred(range: Range, toUnits: real -> real): Route -> bool
  {
    r => InRange(r, range, toUnits)
  }

  /** Neither the range filter nor the range badge depends on the order of
      the thumbs. */
  lemma RangeOrderIrrelevant(r: Route, a: real, b: real, maxDistance: real, toUnits: real -> real)
    ensures InRange(r, Range(a, b), toUnits) == InRange(r, Range(b, a), toUnits)
    ensures RangeBadgeShown(Range(a, b), maxDistance) == RangeBadgeShown(Range(b, a), maxDistance)
  {
  }

  // ---------------------------------------------------------------------
  // Tag filters

  /** Some tag of the route is one of the wanted tags. */
  predicate SharesAny(tags: seq<string>, wanted: seq<string>)
  {
    exists i :: 0 <= i < |tags| && tags[i] in wanted
  }

  function TagsOf(r: Route, surfaces: bool): seq<string>
  {
    if surfaces then r.surfaces else r.sports
  }

  function TagPred(wanted: seq<string>, surfaces: bool): Route -> bool
  {
    r => SharesAny(TagsOf(r, surfaces), wanted)
  }

  /** The `for` loop inside the tag filters: true as soon as one of the
      route's tags is among the wanted ones. */
  method SharesTag(tags: seq<string>, wanted: seq<string>) returns (shared: bool)
    ensures shared <==> exists i :: 0 <= i < |tags| && tags[i] in wanted
  {
    for i := 0 to |tags|
      invariant forall k :: 0 <= k < i ==> tags[k] !in wanted
    {
      if tags[i] in wanted {
        return true;
      }
    }
    return false;
  }

  /** One tag stage (`sports` or `surfaces`): `result.filter(...)` with the
      loop above as the test. */
  method KeepSharingTag(routes: seq<Route>, wanted: seq<string>, surfaces: bool) returns (kept: seq<Route>)
    ensures kept == Filter(routes, TagPred(wanted, surfaces))
  {
    kept := [];
    for i := 0 to |routes|
      invariant kept == Filter(routes[..i], TagPred(wanted, surfaces))
    {
      var shared := SharesTag(TagsOf(routes[i], surfaces), wanted);
      assert routes[..i + 1] == routes[..i] + [routes[i]];
      FilterSnoc(routes[..i], routes[i], TagPred(wanted, surfaces));
      if shared {
        kept := kept + [routes[i]];
      }
    }
    assert routes[..|routes|] == routes;
  }

  // ---------------------------------------------------------------------
  // The whole filter pipeline

  /** The four filter stages of `sortRoutes`, in order; an empty keyword and
      empty tag lists skip their stage. */
  function Filtered(routes: seq<Route>, filters: Filters, toUnits: real -> real): seq<Route>
  {
    var byKeyword := if filters.keyword != "" then Filter(routes, KeywordPred(filters.keyword)) else routes;
    var byRange := Filter(byKeyword, RangePred(filters.range, toUnits));
    var bySports := if |filters.sports| > 0 then Filter(byRange, TagPred(filters.sports, false)) else byRange;
    if |filters.surfaces| > 0 then Filter(bySports, TagPred(filters.surfaces, true)) else bySports
  }

  /** The condition a route must meet to survive all four stages. */
  predicate Selected(r: Route, filters: Filters, toUnits: real -> real)
  {
    && (filters.keyword == "" || KeywordMatch(r, filters.keyword))
    && InRange(r, filters.range, toUnits)
    && (|filters.sports| == 0 || SharesAny(r.sports, filters.sports))
    && (|filters.surfaces| == 0 || SharesAny(r.surfaces, filters.surfaces))
  }

  /** The pipeline keeps every copy of a route that meets all the filters
      and no copy of any other route: a non-empty keyword keeps exactly the
      names containing it (ignoring case), the range is inclusive, and a
      non-empty tag list keeps exactly the routes sharing a tag with it. */
  lemma FilteredCount(routes: seq<Route>, filters: Filters, toUnits: real -> real, r: Route)
    ensures multiset(Filtered(routes, filters, toUnits))[r]
            == if Selected(r, filters, toUnits) then multiset(routes)[r] else 0
  {
    var byKeyword := if filters.keyword != "" then Filter(routes, KeywordPred(filters.keyword)) else routes;
    var byRange := Filter(byKeyword, RangePred(filters.range, toUnits));
    var bySports := if |filters.sports| > 0 then Filter(byRange, TagPred(filters.sports, false)) else byRange;
    if filters.keyword != "" {
      FilterCount(routes, KeywordPred(filters.keyword), r);
    }
    FilterCount(byKeyword, RangePred(filters.range, toUnits), r);
    if |filters.sports| > 0 {
      FilterCount(byRange, TagPred(filters.sports, false), r);
    }
    if |filters.surfaces| > 0 {
      FilterCount(bySports, TagPred(filters.surfaces, true), r);
    }
  }

  function SelectedPred(filters: Filters, toUnits: real -> real): Route -> bool
  {
    r => Selected(r, filters, toUnits)
  }

  /** The four stages together are one filter by `Selected`. */
  lemma FilteredIsFilter(routes: seq<Route>, filters: Filters, toUnits: real -> real)
    ensures Filtered(routes, filters, toUnits) == Filter(routes, SelectedPred(filters, toUnits))
  {
    var k1 := (r: Route) => filters.keyword == "" || KeywordMatch(r, filters.keyword);
    var k2 := (r: Route) => k1(r) && InRange(r, filters.range, toUnits);
    var k3 := (r: Route) => k2(r) && (|filters.sports| == 0 || SharesAny(r.sports, filters.sports));
    var k4 := (r: Route) => k3(r) && (|filters.surfaces| == 0 || SharesAny(r.surfaces, filters.surfaces));
    var byKeyword := if filters.keyword != "" then Filter(routes, KeywordPred(filters.keyword)) else routes;
    var byRange := Filter(byKeyword, RangePred(filters.range, toUnits));
    var bySports := if |filters.sports| > 0 then Filter(byRange, TagPred(filters.sports, false)) else byRange;
    var bySurfaces := if |filters.surfaces| > 0 then Filter(bySports, TagPred(filters.surfaces, true)) else bySports;
    if filters.keyword != "" {
      FilterSame(routes, KeywordPred(filters.keyword), k1);
    } else {
      FilterAll(routes, k1);
    }
    assert byKeyword == Filter(routes, k1);
    FilterCompose(routes, k1, RangePred(filters.range, toUnits), k2);
    assert byRange == Filter(routes, k2);
    if |filters.sports| > 0 {
      FilterCompose(routes, k2, TagPred(filters.sports, false), k3);
    } else {
      FilterSame(routes, k2, k3);
    }
    assert bySports == Filter(routes, k3);
    if |filters.surfaces| > 0 {
      FilterCompose(routes, k3, TagPred(filters.surfaces, true), k4);
    } else {
      FilterSame(routes, k3, k4);
    }
    assert bySurfaces == Filter(routes, k4);
    FilterSame(routes, k4, SelectedPred(filters, toUnits));
  }

  /** The routes that survive the filters keep their original order. */
  lemma FilteredKeepsOrder(routes: seq<Route>, filters: Filters, toUnits: real -> real)
    ensures Subsequence(Filtered(routes, filters, toUnits), routes)
  {
    FilteredIsFilter(routes, filters, toUnits);
    FilterSubsequence(routes, SelectedPred(filters, toUnits));
  }

  /** Membership form of `FilteredCount`. */
  lemma FilteredMember(routes: seq<Route>, filters: Filters, toUnits: real -> real, r: Route)
    ensures r in Filtered(routes, filters, toUnits) <==> r in routes && Selected(r, filters, toUnits)
  {
    FilteredCount(routes, filters, toUnits, r);
    assert r in Filtered(routes, filters, toUnits) <==> multiset(Filtered(routes, filters, toUnits))[r] > 0;
    assert r in routes <==> multiset(routes)[r] > 0;
  }

  // ---------------------------------------------------------------------
  // Sorting

  /** The four orders `sortRoutes` knows. */
  predicate KnownTerm(sortTerm: string)
  {
    sortTerm == "newest" || sortTerm == "oldest" || sortTerm == "shortest" || sortTerm == "longest"
  }

  /** Each comparator of `sortRoutes` as an ascending key: newest first,
      oldest first, shortest first, longest first. */
  function SortKey(sortTerm: string): Route -> real
  {
    if sortTerm == "newest" then (r: Route) => -(r.createdAt as real)
    else if sortTerm == "oldest" then (r: Route) => r.createdAt as real
    else if sortTerm == "shortest" then (r: Route) => r.distance
    else (r: Route) => -r.distance
  }

  /** Ascending keys give the order each comparator of `sortRoutes` asks
      for. */
  lemma SortKeyOrders(a: Route, b: Route)
    ensures SortKey("newest")(a) <= SortKey("newest")(b) <==> a.createdAt >= b.createdAt
    ensures SortKey("oldest")(a) <= SortKey("oldest")(b) <==> a.createdAt <= b.createdAt
    ensures SortKey("shortest")(a) <= SortKey("shortest")(b) <==> a.distance <= b.distance
    ensures SortKey("longest")(a) <= SortKey("longest")(b) <==> a.distance >= b.distance
  {
  }

  ghost predicate SortedByKey<T>(s: seq<T>, key: T -> real)
  {
    forall i, j :: 0 <= i < j < |s| ==> key(s[i]) <= key(s[j])
  }

  /** `result.sort(...)`: sorts the array in place by the key, as an
      insertion sort. */
  method SortByKey<T>(a: array<T>, key: T -> real)
    modifies a
    ensures SortedByKey(a[..], key)
    ensures multiset(a[..]) == old(multiset(a[..]))
  {
    for i := 0 to a.Length
      invariant forall p, q :: 0 <= p < q < i ==> key(a[p]) <= key(a[q])
      invariant multiset(a[..]) == old(multiset(a[..]))
    {
      InsertAt(a, i, key);
    }
  }

  /** One insertion step: `a[i]` sinks into the sorted prefix `a[..i]`. */
  method InsertAt<T>(a: array<T>, i: nat, key: T -> real)
    requires i < a.Length
    requires forall p, q :: 0 <= p < q < i ==> key(a[p]) <= key(a[q])
    modifies a
    ensures forall p, q :: 0 <= p < q <= i ==> key(a[p]) <= key(a[q])
    ensures multiset(a[..]) == old(multiset(a[..]))
  {
    var j := i;
    while j > 0 && key(a[j - 1]) > key(a[j])
      invariant 0 <= j <= i
      invariant forall p, q :: 0 <= p < q <= i && q != j ==> key(a[p]) <= key(a[q])
      invariant 0 < j < i ==> key(a[j - 1]) <= key(a[j + 1])
      invariant multiset(a[..]) == old(multiset(a[..]))
    {
      Swap(a, j - 1, j);
      j := j - 1;
    }
  }

  /** Exchanges two elements. */
  method Swap<T>(a: array<T>, i: nat, j: nat)
    requires i < j < a.Length
    modifies a
    ensures a[..] == old(a[..])[i := old(a[j])][j := old(a[i])]
    ensures multiset(a[..]) == old(multiset(a[..]))
  {
    a[i], a[j] := a[j], a[i];
  }

  /** `sortRoutes`. The result holds exactly the filtered routes; a known
      order term sorts them by date or by distance, and any other term keeps
      the filtered order. */
  method SortRoutes(sortTerm: string, routes: seq<Route>, filters: Filters, toUnits: real -> real)
    returns (sorted: seq<Route>)
    ensures multiset(sorted) == multiset(Filtered(routes, filters, toUnits))
    ensures sortTerm == "newest" ==> forall i, j :: 0 <= i < j < |sorted| ==> sorted[i].createdAt >= sorted[j].createdAt
    ensures sortTerm == "oldest" ==> forall i, j :: 0 <= i < j < |sorted| ==> sorted[i].createdAt <= sorted[j].createdAt
    ensures sortTerm == "shortest" ==> forall i, j :: 0 <= i < j < |sorted| ==> sorted[i].distance <= sorted[j].distance
    ensures sortTerm == "longest" ==> forall i, j :: 0 <= i < j < |sorted| ==> sorted[i].distance >= sorted[j].distance
    ensures !KnownTerm(sortTerm) ==> sorted == Filtered(routes, filters, toUnits)
  {
    var result := routes;
    if filters.keyword != "" {
      result := Filter(result, KeywordPred(filters.keyword));
    }
    result := Filter(result, RangePred(filters.range, toUnits));
    if |filters.sports| > 0 {
      result := KeepSharingTag(result, filters.sports, false);
    }
    if |filters.surfaces| > 0 {
      result := KeepSharingTag(result, filters.surfaces, true);
    }
    assert result == Filtered(routes, filters, toUnits);
    if KnownTerm(sortTerm) {
      var a := new Route[|result|](i requires 0 <= i < |result| => result[i]);
      assert a[..] == result;
      var key := SortKey(sortTerm);
      SortByKey(a, key);
      sorted := a[..];
      assert forall i, j :: 0 <= i < j < |sorted| ==> key(sorted[i]) <= key(sorted[j]);
    } else {
      sorted := result;
    }
  }

  // ---------------------------------------------------------------------
  // Badges, labels, toggles

  /** `renderDistance`: the text of the distance badge, or `undefined` when
      none of its cases applies (`show` formats a number). */
  function RenderDistance(min: real, max: real, maxDistance: real, units: string, show: real -> string): (text: Option<string>)
    ensures text.Some? <==> min == max || (0.0 < min && max <= maxDistance) || (min == 0.0 && max < maxDistance)
    ensures min == max ==> text == Some(show(min) + DistanceAbbrev(units))
    ensures min != max && 0.0 < min && max < maxDistance ==>
              text == Some(show(min) + DistanceAbbrev(units) + " - " + show(max) + DistanceAbbrev(units))
    ensures min != max && 0.0 < min && max == maxDistance ==>
              text == Some(show(min) + DistanceAbbrev(units) + " & greater")
    ensures min != max && min == 0.0 && max < maxDistance ==>
              text == Some(show(max) + DistanceAbbrev(units) + " & less")
  {
    var abbrevUnits := DistanceAbbrev(units);
    if min == max then Some(show(min) + abbrevUnits)
    else if min > 0.0 && max < maxDistance then Some(show(min) + abbrevUnits + " - " + show(max) + abbrevUnits)
    else if min > 0.0 && max == maxDistance then Some(show(min) + abbrevUnits + " & greater")
    else if min == 0.0 && max < maxDistance then Some(show(max) + abbrevUnits + " & less")
    else None
  }

  /** The range badge of `renderBadges` is shown when the range is narrower
      than the full slider. */
  predicate RangeBadgeShown(range: Range, maxDistance: real)
  {
    RangeMin(range) > 0.0 || RangeMax(range) < maxDistance
  }

  /** With both thumbs on the slider (`0..maxDistance`), the range badge is
      hidden exactly when the thumbs span the whole slider. */
  lemma BadgeHiddenExactlyAtFullRange(range: Range, maxDistance: real)
    requires 0.0 <= range.first <= maxDistance && 0.0 <= range.second <= maxDistance
    ensures !RangeBadgeShown(range, maxDistance) <==>
              (range.first == 0.0 && range.second == maxDistance) || (range.first == maxDistance && range.second == 0.0)
  {
  }

  /** With both thumbs on the slider (`0..maxDistance`), a shown range badge
      always has a label, and a hidden one would have none unless the
      thumbs coincide. */
  lemma BadgeLabelled(range: Range, maxDistance: real, units: string, show: real -> string)
    requires 0.0 <= range.first <= maxDistance && 0.0 <= range.second <= maxDistance
    ensures RangeBadgeShown(range, maxDistance) ==>
              RenderDistance(RangeMin(range), RangeMax(range), maxDistance, units, show).Some?
    ensures !RangeBadgeShown(range, maxDistance) ==>
              (RenderDistance(RangeMin(range), RangeMax(range), maxDistance, units, show).Some?
               <==> maxDistance == 0.0)
  {
  }

  /** `handleSlide`: the new thumbs are dispatched unless they equal the
      current ones. */
  function HandleSlide(newValue: Range, filters: Filters): (update: Option<Range>)
    ensures update.None? <==> newValue.first == filters.range.first && newValue.second == filters.range.second
    ensures update.Some? ==> update.value == newValue
  {
    if newValue.first == filters.range.first && newValue.second == filters.range.second then None
    else Some(newValue)
  }

  /** `toggleTags`: a present title is removed (every occurrence) and the
      remaining tags keep their order; an absent one is appended; no other
      tag is touched. */
  function ToggleTags(title: string, tags: seq<string>): (value: seq<string>)
    ensures title in value <==> title !in tags
    ensures forall t :: t != title ==> multiset(value)[t] == multiset(tags)[t]
    ensures title in tags ==> Subsequence(value, tags)
    ensures title !in tags ==> value == tags + [title]
  {
    if title in tags then
      var value := Filter(tags, t => t != title);
      FilterMember(tags, t => t != title, title);
      FilterSubsequence(tags, t => t != title);
      forall t | t != title
        ensures multiset(value)[t] == multiset(tags)[t]
      {
        FilterCount(tags, t => t != title, t);
      }
      value
    else
      tags + [title]
  }

  /** Toggling an absent title twice gives back the original list. */
  lemma ToggleTwice(title: string, tags: seq<string>)
    requires title !in tags
    ensures ToggleTags(title, ToggleTags(title, tags)) == tags
  {
    var p := (t: string) => t != title;
    FilterSnoc(tags, title, p);
    FilterAll(tags, p);
  }

  // ---------------------------------------------------------------------
  // Largest distance

  /** `routes.reduce((accum, curr) => Math.max(accum, curr.distance), acc)`. */
  function MaxDistanceFold(routes: seq<Route>, acc: real): (m: real)
    ensures m >= acc
    ensures forall i :: 0 <= i < |routes| ==> m >= routes[i].distance
    ensures m == acc || exists i :: 0 <= i < |routes| && m == routes[i].distance
  {
    if |routes| == 0 then acc
    else
      var m := MaxDistanceFold(routes[1..], Max(acc, routes[0].distance));
      assert forall i :: 1 <= i < |routes| ==> routes[i] == routes[1..][i - 1];
      m
  }

  /** JavaScript's `Math.ceil`. */
  function Ceil(x: real): (c: int)
    ensures x <= c as real < x + 1.0
  {
    var f := x.Floor;
    if f as real == x then f else f + 1
  }

  /** `calculateMaxDistance`: the fold starts at 0, so it is 0 for no
      routes and otherwise the largest distance (if positive); the slider
      maximum is that distance converted and rounded up. */
  function CalculateMaxDistance(routes: seq<Route>, toUnits: real -> real): (maxDistance: int)
    ensures |routes| == 0 ==> maxDistance == Ceil(toUnits(0.0))
    ensures toUnits(MaxDistanceFold(routes, 0.0)) <= maxDistance as real < toUnits(MaxDistanceFold(routes, 0.0)) + 1.0
  {
    Ceil(toUnits(MaxDistanceFold(routes, 0.0)))
  }
}
