/**
 * The pure parts of the two resolution optimisers: which corners `Optimize`
 * inspects, what its scan computes, and what the outcome of the angle search
 * in `OptimizeByAngle` means. The angle test itself is a predicate
 * `rough(resolution, segment)`: "sampling drawable segment `segment` with
 * step `1 / resolution` bends by more than the allowed angle somewhere".
 */
module Optimization {
  import opened Geometry
  import opened PathMath

  /**
   * The corner indices `[start, end)` `Optimize` scans: every point of a
   * looped path; on an open path every point but the first, and but the last
   * too once there are four or more points.
   */
  function ScanRange(count: int, looped: bool): (r: (int, int))
    requires count >= 3
    ensures 0 <= r.0 < r.1 <= count
    ensures looped ==> r.1 - r.0 == count
    ensures !looped ==> r.0 == 1 && r.1 - r.0 == (if count == 3 then 2 else count - 2)
  {
    if looped then (0, count)
    else (1, if count == 3 then 3 else count - 1)
  }

  /** The estimate at corner `i`, from its wrapped neighbours. */
  function CornerEstimate(g: Geometry, points: seq<Point>, i: int): real
    requires |points| >= 3 && 0 <= i < |points|
  {
    var n := |points|;
    g.cornerResolution(points[CircularIndex(i - 1, n)], points[i], points[CircularIndex(i + 1, n)])
  }

  /** The estimate is the one the source takes from the `WrapIndex` neighbours. */
  lemma CornerEstimateWraps(g: Geometry, points: seq<Point>, i: int)
    requires |points| >= 3 && 0 <= i < |points|
    ensures var n := |points|;
            CornerEstimate(g, points, i)
            == g.cornerResolution(points[WrapIndex(i - 1, n)], points[i], points[WrapIndex(i + 1, n)])
  {
    WrapNear(i - 1, |points|);
    WrapNear(i + 1, |points|);
  }

  /** `m` is the largest of 1 and the estimates at the scanned corners. */
  ghost predicate IsMaxEstimate(g: Geometry, points: seq<Point>, looped: bool, m: real)
    requires |points| >= 3
  {
    var range := ScanRange(|points|, looped);
    && m >= 1.0
    && (forall i :: range.0 <= i < range.1 ==> CornerEstimate(g, points, i) <= m)
    && (m == 1.0 || exists i :: range.0 <= i < range.1 && CornerEstimate(g, points, i) == m)
  }

  /**
   * The running maximum `Optimize` keeps: 1 raised to each estimate at the
   * corners `start, ..., i-1` that exceeds it.
   */
  function RunningMax(g: Geometry, points: seq<Point>, start: int, i: int): (r: real)
    requires |points| >= 3 && 0 <= start <= i <= |points|
    decreases i - start
    ensures r >= 1.0
  {
    if i == start then 1.0
    else
      var m := RunningMax(g, points, start, i - 1);
      var e := CornerEstimate(g, points, i - 1);
      if e > m then e else m
  }

  lemma {:induction false} RunningMaxIsMax(g: Geometry, points: seq<Point>, start: int, i: int)
    requires |points| >= 3 && 0 <= start <= i <= |points|
    decreases i - start
    ensures var m := RunningMax(g, points, start, i);
            && m >= 1.0
            && (forall k :: start <= k < i ==> CornerEstimate(g, points, k) <= m)
            && (m == 1.0 || exists k :: start <= k < i && CornerEstimate(g, points, k) == m)
  {
    if i > start {
      RunningMaxIsMax(g, points, start, i - 1);
    }
  }

  /** The estimate `Optimize` ends its scan with. */
  function MaxCornerEstimate(g: Geometry, points: seq<Point>, looped: bool): (r: real)
    requires |points| >= 3
    ensures r >= 1.0
  {
    var range := ScanRange(|points|, looped);
    RunningMax(g, points, range.0, range.1)
  }

  /** The scan's result is the largest of 1 and the scanned corners' estimates. */
  lemma MaxCornerEstimateIsMax(g: Geometry, points: seq<Point>, looped: bool)
    requires |points| >= 3
    ensures IsMaxEstimate(g, points, looped, MaxCornerEstimate(g, points, looped))
  {
    var range := ScanRange(|points|, looped);
    RunningMaxIsMax(g, points, range.0, range.1);
  }

  /** The resolution `Optimize` installs for a maximal estimate `m`. */
  function OptimizedResolution(m: real): (r: int)
    requires m >= 1.0
    ensures 4 <= r <= 100
    ensures 4 <= TruncateToInt(m) <= 100 ==> r == TruncateToInt(m)
    ensures m < 5.0 ==> r == 4
    ensures m >= 100.0 ==> r == 100
  {
    Clamp(Max(TruncateToInt(m), 4), 1, 100)
  }

  /** Some drawable segment is rough when sampled at `resolution`. */
  ghost predicate RoughAt(rough: (int, int) -> bool, resolution: int, segments: int)
  {
    exists s :: 0 <= s < segments && rough(resolution, s)
  }

  /** Segment `segment` is smooth at some resolution from 3 up to `resolution`. */
  ghost predicate SmoothAt(rough: (int, int) -> bool, segment: int, resolution: int)
  {
    exists r :: 3 <= r <= resolution && !rough(r, segment)
  }

  /** A segment found smooth stays found smooth as more resolutions are tried. */
  lemma SmoothByGrows(rough: (int, int) -> bool, resolution: int, larger: int, segments: int)
    requires resolution <= larger
    requires SmoothBy(rough, resolution, segments)
    ensures SmoothBy(rough, larger, segments)
  {
    forall s | 0 <= s < segments ensures SmoothAt(rough, s, larger) {
      assert SmoothAt(rough, s, resolution);
      var r :| 3 <= r <= resolution && !rough(r, s);
      assert 3 <= r <= larger && !rough(r, s);
    }
  }

  /** Every resolution tried below `resolution` found a rough segment. */
  ghost predicate RoughBelow(rough: (int, int) -> bool, resolution: int, segments: int)
  {
    forall r :: 3 <= r < resolution ==> RoughAt(rough, r, segments)
  }

  /** Each of the first `segments` segments was found smooth at some resolution up to `resolution`. */
  ghost predicate SmoothBy(rough: (int, int) -> bool, resolution: int, segments: int)
  {
    forall s :: 0 <= s < segments ==> SmoothAt(rough, s, resolution)
  }

  /**
   * The first segment from `from` on that is rough at `resolution`, or
   * `segments` when all of them are smooth: where the inner loop of
   * `OptimizeByAngle` stops.
   */
  function FirstRough(rough: (int, int) -> bool, resolution: int, from: int, segments: int): (r: int)
    requires 0 <= from <= segments
    decreases segments - from
    ensures from <= r <= segments
    ensures forall s :: from <= s < r ==> !rough(resolution, s)
    ensures r < segments ==> rough(resolution, r)
  {
    if from == segments || rough(resolution, from) then from
    else FirstRough(rough, resolution, from + 1, segments)
  }

  /**
   * The resolution the search of `OptimizeByAngle` ends with when it is at
   * resolution `i` and segment `current`: it stops at the first resolution
   * where the remaining segments are all smooth, and at 100 in any case.
   */
  function SearchFrom(rough: (int, int) -> bool, i: int, current: int, segments: int): (r: int)
    requires 3 <= i <= 100 && 0 <= current < segments
    decreases 100 - i
    ensures i <= r <= 100
    ensures r == i || FirstRough(rough, i, current, segments) < segments
  {
    var next := FirstRough(rough, i, current, segments);
    if next == segments || i == 100 then i
    else SearchFrom(rough, i + 1, next, segments)
  }

  /** The resolution `OptimizeByAngle` installs on a path with `segments` drawable segments. */
  function AngleResolution(rough: (int, int) -> bool, segments: int): (r: int)
    requires segments >= 1
    ensures 3 <= r <= 100
  {
    SearchFrom(rough, 3, 0, segments)
  }

  /**
   * From a state where the segments before `current` were smooth at some
   * resolution below `i` and every resolution below `i` found a rough
   * segment, the search ends at a resolution in `i..100` below which every
   * resolution was rough, and at which every segment has been found smooth
   * unless it gave up at 100 on a rough segment.
   */
  lemma {:induction false} SearchFromOutcome(rough: (int, int) -> bool, i: int, current: int, segments: int)
    requires 3 <= i <= 100 && 0 <= current < segments
    requires SmoothBy(rough, i - 1, current) && RoughBelow(rough, i, segments)
    decreases 100 - i
    ensures var r := SearchFrom(rough, i, current, segments);
            && i <= r <= 100
            && RoughBelow(rough, r, segments)
            && (SmoothBy(rough, r, segments) || (r == 100 && RoughAt(rough, 100, segments)))
  {
    var next := FirstRough(rough, i, current, segments);
    SmoothByGrows(rough, i - 1, i, current);
    forall s | current <= s < next ensures SmoothAt(rough, s, i) {
      assert 3 <= i <= i && !rough(i, s);
    }
    assert SmoothBy(rough, i, next);
    if next < segments {
      assert RoughAt(rough, i, segments);
      assert RoughBelow(rough, i + 1, segments);
      if i < 100 {
        SearchFromOutcome(rough, i + 1, next, segments);
      }
    }
  }

  /** What the resolution `OptimizeByAngle` installs means. */
  lemma AngleResolutionOutcome(rough: (int, int) -> bool, segments: int)
    requires segments >= 1
    ensures var r := AngleResolution(rough, segments);
            && 3 <= r <= 100
            && RoughBelow(rough, r, segments)
            && (SmoothBy(rough, r, segments) || (r == 100 && RoughAt(rough, 100, segments)))
  {
    SearchFromOutcome(rough, 3, 0, segments);
  }

  /**
   * The search never re-checks a segment it has moved past, so `SmoothBy`
   * only says each segment was smooth at some resolution tried, not at the
   * final one. When smoothness, once reached, persists at every higher
   * resolution, the two coincide.
   */
  ghost predicate SmoothnessPersists(rough: (int, int) -> bool)
  {
    forall r, larger, s :: 3 <= r <= larger && !rough(r, s) ==> !rough(larger, s)
  }

  lemma SmoothByIsSmoothAtEnd(rough: (int, int) -> bool, resolution: int, segments: int)
    requires SmoothnessPersists(rough) && SmoothBy(rough, resolution, segments)
    ensures forall s :: 0 <= s < segments ==> !rough(resolution, s)
  {
    forall s | 0 <= s < segments ensures !rough(resolution, s) {
      assert SmoothAt(rough, s, resolution);
      var r :| 3 <= r <= resolution && !rough(r, s);
    }
  }

  /**
   * Without that persistence the installed resolution can leave a segment
   * rough: segment 1 is rough only at 3 and segment 0 only at 4, so the
   * search passes segment 0 at 3, is stopped by segment 1, passes segment 1
   * at 4 and installs 4, at which segment 0 is rough.
   */
  lemma PassedSegmentMayBeRoughAtEnd()
    ensures var rough := (r: int, s: int) => (r == 3 && s == 1) || (r == 4 && s == 0);
            AngleResolution(rough, 2) == 4 && rough(4, 0)
  {
    var rough := (r: int, s: int) => (r == 3 && s == 1) || (r == 4 && s == 0);
    assert FirstRough(rough, 3, 0, 2) == 1 by {
      assert FirstRough(rough, 3, 1, 2) == 1;
    }
    assert FirstRough(rough, 4, 1, 2) == 2 by {
      assert FirstRough(rough, 4, 2, 2) == 2;
    }
  }
}

