/** The d3 elevation chart of `utils/d3/utils.ts`: the data it plots, the
    distance its pointer handlers report to the map, and nothing of its
    drawing. */
module D3Chart {
  import opened Geo
  import opened Seqs
  import ArcSearch

  /** One elevation sample: meters from the route start, meters high. */
  datatype ElevationData = ElevationData(distance: real, elevation: real)

  /** `createChart`: the chart plots the per-segment samples joined into one
      series, every sample kept, segment after segment. */
  function CreateChart(data: seq<seq<ElevationData>>): (series: seq<ElevationData>)
    ensures |series| == Offset(data, |data|)
    ensures forall i {:trigger Offset(data, i)} :: 0 <= i < |data| ==>
              Offset(data, i + 1) <= |series| && series[Offset(data, i)..Offset(data, i + 1)] == data[i]
  {
    FlattenKeepsAll(data);
    Flatten(data)
  }

  /** `mouseMove`: search the rendered path for the pointer's x and report
      the distance under the probe found (`invert` stands for
      `xScale.invert` of the probe's x). On a non-decreasing path a probe
      that misses the pointer is within one arc unit of every position
      that would have matched, at or after it. On any path a miss leaves
      the probe at the left end of an interval of width at most one that
      still brackets the pointer: the probe is next to where the path
      crosses the pointer's x, or at the start or end of the path. */
  method MouseMove(totalLength: nat, x: nat -> int, mouseX: int, invert: int -> real)
    returns (distanceAlongPath: real, target: nat)
    ensures target <= totalLength
    ensures distanceAlongPath == invert(x(target))
    ensures ArcSearch.NonDecreasing(x, totalLength) && x(target) != mouseX ==>
              forall t :: 0 <= t <= totalLength && x(t) == mouseX ==> target <= t <= target + 1
    ensures x(target) != mouseX ==>
              exists b: nat, e: nat :: b == target <= e <= totalLength && e - b <= 1
                                     && ArcSearch.Bracketed(x, totalLength, mouseX, b, e)
  {
    var beginning, end;
    ghost var probes;
    target, beginning, end, probes := ArcSearch.Search(totalLength, x, mouseX);
    distanceAlongPath := invert(x(target));
  }

  /** `mouseOut`: the reported distance goes back to 0. */
  function MouseOut(): (distanceAlongPath: real)
    ensures distanceAlongPath == 0.0
  {
    0.0
  }
}
