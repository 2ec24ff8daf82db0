/** The cursor-sync search shared by the d3 chart (`mouseMove` in
    `utils/d3/utils.ts`) and the elevation profile (`handleMouseMove` in
    `UpdatedElevationProfile.tsx`): bisect the rendered path's arc length
    `[0, totalLength]` for the position whose screen x equals the pointer's.
    Arc length is an integer here and `x` stands for
    `getPointAtLength(t).x`, an arbitrary function of the arc position. */
module ArcSearch {

  function Pow2(n: nat): (r: nat)
    ensures r >= 1
  {
    if n == 0 then 1 else 2 * Pow2(n - 1)
  }

  /** Screen x does not decrease along the path (a left-to-right chart). */
  ghost predicate NonDecreasing(x: nat -> int, totalLength: nat)
  {
    forall s, t :: 0 <= s <= t <= totalLength ==> x(s) <= x(t)
  }

  /** Every position the search has let go of lies on the wrong side of the
      pointer: `beginning` is the start or left of it, `end` is the end or
      right of it. */
  ghost predicate Bracketed(x: nat -> int, totalLength: nat, mouseX: int, beginning: nat, end: nat)
  {
    && (beginning == 0 || x(beginning) < mouseX)
    && (end == totalLength || x(end) > mouseX)
  }

  lemma MulLeq(a: int, b: int, p: nat)
    requires a <= b
    ensures a * p <= b * p
  {
  }

  /** One interval width against the probe count: each step that goes on
      leaves at most half (rounded up) of the interval. */
  lemma HalvingStep(w: int, w': int, steps: nat, totalLength: nat)
    requires w >= 2 && 1 <= w' && 2 * (w' - 1) <= w - 1
    requires (w - 1) * Pow2(steps) <= totalLength - 1
    ensures (w' - 1) * Pow2(steps + 1) <= totalLength - 1
    ensures Pow2(steps) < totalLength
  {
    MulLeq(2 * (w' - 1), w - 1, Pow2(steps));
    MulLeq(1, w - 1, Pow2(steps));
  }

  /** The `while (true)` loop. It returns the last probe `target` together
      with the final interval, and the ghost list of every probed position. */
  method Search(totalLength: nat, x: nat -> int, mouseX: int)
    returns (target: nat, beginning: nat, end: nat, ghost probes: seq<nat>)
    ensures 0 <= beginning <= target <= end <= totalLength
    ensures target == (beginning + end) / 2
    ensures x(target) == mouseX || target == beginning || target == end
    ensures x(target) != mouseX ==> end - beginning <= 1 && target == beginning
    ensures Bracketed(x, totalLength, mouseX, beginning, end)
    ensures NonDecreasing(x, totalLength) ==>
              forall t :: 0 <= t <= totalLength && x(t) == mouseX ==> beginning <= t <= end
    ensures |probes| >= 1 && probes[|probes| - 1] == target
    ensures forall k :: 0 <= k < |probes| ==> probes[k] <= totalLength
    ensures |probes| == 1 || Pow2(|probes| - 2) < totalLength
  {
    beginning, end := 0, totalLength;
    target := 0;
    probes := [];
    while true
      invariant 0 <= beginning <= end <= totalLength
      invariant Bracketed(x, totalLength, mouseX, beginning, end)
      invariant forall k :: 0 <= k < |probes| ==> probes[k] <= totalLength
      invariant (end - beginning - 1) * Pow2(|probes|) <= totalLength - 1
      invariant |probes| == 0 || Pow2(|probes| - 1) < totalLength
      decreases end - beginning
    {
      target := (beginning + end) / 2;
      var posX := x(target);
      if (target == end || target == beginning) && posX != mouseX {
        probes := probes + [target];
        break;
      }
      ghost var w := end - beginning;
      if posX > mouseX {
        end := target;
      } else if posX < mouseX {
        beginning := target;
      } else {
        probes := probes + [target];
        break;
      }
      HalvingStep(w, end - beginning, |probes|, totalLength);
      probes := probes + [target];
    }
  }
}
