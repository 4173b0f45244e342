/**
 * The `Path` component: an ordered list of control points in local space, a
 * per-point length cache, the selected length calculator, the sampling
 * resolution and its step, the looped flag and the cached total length.
 *
 * `Valid()` is the invariant every public operation keeps: each cache entry
 * holds what the calculator for the current point count computes for the
 * current points and step, and `length` is the sum of the drawable entries.
 */
module Paths {
  import opened Geometry
  import opened Lists
  import opened Optimization
  import opened PathMath
  import opened Results
  import opened Sampling
  import opened SegmentCache
  import opened Segments

  class Path {
    /** The transform and the curve arithmetic the component relies on. */
    const geometry: Geometry

    var points: seq<Point>
    var segmentsLengths: seq<real>
    var segmentCalculatorIndex: int
    var resolution: int
    var step: real
    var looped: bool
    var length: real

    /**
     * The shape every method relies on: one cache entry per point, a
     * calculator for the current count (`ClearPoints` leaves the index of its
     * predecessor behind, which is harmless since an empty path recomputes
     * nothing) and a resolution in `1..100`.
     */
    ghost predicate Shaped()
      reads this
    {
      && |segmentsLengths| == |points|
      && 0 <= segmentCalculatorIndex <= 3
      && (|points| > 0 ==> segmentCalculatorIndex == Min(|points|, 3))
      && 1 <= resolution <= 100
    }

    /** The class invariant: the cache and the total length are exact. */
    ghost predicate Valid()
      reads this
    {
      && Shaped()
      && CacheCorrect(geometry, step, points, segmentsLengths)
      && length == PathLength(|points|, looped, segmentsLengths)
    }

    /** A fresh component: no points, resolution 1, step 1, open. */
    constructor (geometry: Geometry)
      ensures Valid()
      ensures this.geometry == geometry
      ensures points == [] && segmentsLengths == [] && segmentCalculatorIndex == 0
      ensures resolution == 1 && step == 1.0 && !looped && length == 0.0
    {
      this.geometry := geometry;
      points := [];
      segmentsLengths := [];
      segmentCalculatorIndex := 0;
      resolution := 1;
      step := 1.0;
      looped := false;
      length := 0.0;
    }

    /** Selects the calculator for the current number of entries. */
    method SetNewSegmentsCalculator()
      modifies this`segmentCalculatorIndex
      ensures segmentCalculatorIndex == Min(|segmentsLengths|, 3)
    {
      segmentCalculatorIndex := Min(|segmentsLengths|, 3);
    }

    /**
     * Runs the current calculator on entry `segment`. `ZeroSegmentsCalculator`
     * is only selected for an empty path, where there is no entry to pass.
     */
    method RecalculateSegmentLength(segment: int)
      requires Shaped() && 0 <= segment < |points|
      modifies this`segmentsLengths
      ensures segmentsLengths == old(segmentsLengths)[segment := CalculatedLength(geometry, step, points, segment)]
    {
      var n := |points|;
      if segmentCalculatorIndex == 1 {
        segmentsLengths := segmentsLengths[segment := 0.0];
      } else if segmentCalculatorIndex == 2 {
        segmentsLengths := segmentsLengths[segment := geometry.distance(points[0], points[1])];
      } else {
        WrapNear(segment - 1, n);
        WrapNear(segment + 1, n);
        WrapNear(segment + 2, n);
        var p0 := points[WrapIndex(segment - 1, n)];
        var p1 := points[segment];
        var p2 := points[WrapIndex(segment + 1, n)];
        var p3 := points[WrapIndex(segment + 2, n)];
        segmentsLengths := segmentsLengths[segment := geometry.splineLength(step, p0, p1, p2, p3)];
      }
    }

    /** Sums the drawable entries into `length`. */
    method RecalculatePathLength()
      requires Shaped()
      modifies this`length
      ensures length == PathLength(|points|, looped, segmentsLengths)
    {
      var segmentShift := if |points| > 2 && !looped then 1 else 0;
      var count := SegmentsCount(|points|, looped);
      length := 0.0;
      var i := 0;
      while i < count
        invariant 0 <= i <= count
        invariant length == SumRange(segmentsLengths, segmentShift, segmentShift + i)
      {
        length := length + segmentsLengths[i + segmentShift];
        i := i + 1;
      }
    }

    /** Recomputes every entry, then the total length. */
    method RecalculateAllSegments()
      requires Shaped()
      modifies this`segmentsLengths, this`length
      ensures Valid()
    {
      var i := 0;
      while i < |segmentsLengths|
        invariant 0 <= i <= |segmentsLengths| == |points|
        invariant forall k :: 0 <= k < i ==> segmentsLengths[k] == CalculatedLength(geometry, step, points, k)
      {
        RecalculateSegmentLength(i);
        i := i + 1;
      }
      RecalculatePathLength();
    }

    /** The loop `for i in lo..hi: RecalculateSegmentLength(WrapIndex(i))` of the windowed updates. */
    method RecalculateWrapped(lo: int, hi: int)
      requires Shaped() && |points| > 0
      requires -|points| <= lo <= hi + 1 && hi < 2 * |points|
      modifies this`segmentsLengths
      ensures Refreshed(geometry, step, points, old(segmentsLengths), segmentsLengths, lo, hi)
    {
      var n := |points|;
      var i := lo;
      while i <= hi
        invariant lo <= i <= hi + 1
        invariant Refreshed(geometry, step, points, old(segmentsLengths), segmentsLengths, lo, i - 1)
      {
        WrapNear(i, n);
        CoveredExtend(lo, i - 1, n);
        RecalculateSegmentLength(WrapIndex(i, n));
        i := i + 1;
      }
    }

    /**
     * The windowed update after an insertion at `index` into a path that now
     * has five or more points: recomputes the wrapped entries
     * `index-2..index+1`, then the total length.
     */
    method RefreshAroundInsert(index: int, ghost before: seq<Point>, ghost beforeLengths: seq<real>, ghost x: Point)
      requires Shaped() && CacheCorrect(geometry, step, before, beforeLengths)
      requires |before| >= 4 && 0 <= index <= |before|
      requires points == Insert(before, index, x) && segmentsLengths == Insert(beforeLengths, index, 0.0)
      modifies this`segmentsLengths, this`length
      ensures Valid()
    {
      RecalculateWrapped(index - 2, index + 1);
      InsertRestoresCache(geometry, step, before, beforeLengths, index, x, segmentsLengths);
      RecalculatePathLength();
    }

    /**
     * The windowed update after removing point `index` from a path that now
     * has five or more points: recomputes the wrapped entries `index-2..index`,
     * then the total length.
     */
    method RefreshAroundRemove(index: int, ghost before: seq<Point>, ghost beforeLengths: seq<real>)
      requires Shaped() && CacheCorrect(geometry, step, before, beforeLengths)
      requires |before| >= 6 && 0 <= index < |before|
      requires points == RemoveAt(before, index) && segmentsLengths == RemoveAt(beforeLengths, index)
      modifies this`segmentsLengths, this`length
      ensures Valid()
    {
      RecalculateWrapped(index - 2, index);
      RemoveRestoresCache(geometry, step, before, beforeLengths, index, segmentsLengths);
      RecalculatePathLength();
    }

    /**
     * The windowed update after overwriting point `index` of a path with five
     * or more points: recomputes the wrapped entries `index-2..index+1`, then
     * the total length.
     */
    method RefreshAroundSet(index: int, ghost before: seq<Point>, ghost x: Point)
      requires Shaped() && CacheCorrect(geometry, step, before, segmentsLengths)
      requires |before| >= 5 && 0 <= index < |before| && points == before[index := x]
      modifies this`segmentsLengths, this`length
      ensures Valid()
    {
      ghost var beforeLengths := segmentsLengths;
      RecalculateWrapped(index - 2, index + 1);
      SetRestoresCache(geometry, step, before, beforeLengths, index, x, segmentsLengths);
      RecalculatePathLength();
    }

    /**
     * `AddPoint`: appends the point (converted to local space when it is
     * global) and an entry. Up to four points everything is recomputed; from
     * five on only the wrapped entries `N-3..N`.
     */
    method AddPoint(point: Point, useGlobal: bool)
      requires Valid()
      modifies this`points, this`segmentsLengths, this`segmentCalculatorIndex, this`length
      ensures Valid()
      ensures points == old(points) + [ToLocal(geometry, point, useGlobal)]
      ensures segmentCalculatorIndex == Min(|points|, 3)
    {
      var p := ToLocal(geometry, point, useGlobal);
      ghost var oldPoints, oldLengths := points, segmentsLengths;
      points := points + [p];
      segmentsLengths := segmentsLengths + [0.0];
      SetNewSegmentsCalculator();
      if |segmentsLengths| < 5 {
        RecalculateAllSegments();
      } else {
        AppendIsInsert(oldPoints, p);
        AppendIsInsert(oldLengths, 0.0);
        RefreshAroundInsert(|points| - 1, oldPoints, oldLengths, p);
      }
    }

    /**
     * `InsertPoint`: inserts the point and an entry at `index`. Up to four
     * points everything is recomputed; from five on only the wrapped entries
     * `index-2..index+1`. An index outside `0..N` fails in the list before
     * anything changes.
     */
    method InsertPoint(index: int, point: Point, useGlobal: bool) returns (r: Outcome)
      requires Valid()
      modifies this`points, this`segmentsLengths, this`segmentCalculatorIndex, this`length
      ensures Valid()
      ensures !(0 <= index <= |old(points)|) ==> r == Failed(IndexOutOfRange(index)) && unchanged(this)
      ensures 0 <= index <= |old(points)| ==>
                && r == Done
                && points == Insert(old(points), index, ToLocal(geometry, point, useGlobal))
                && segmentCalculatorIndex == Min(|points|, 3)
    {
      if !(0 <= index <= |points|) {
        return Failed(IndexOutOfRange(index));
      }
      var p := ToLocal(geometry, point, useGlobal);
      ghost var oldPoints, oldLengths := points, segmentsLengths;
      points := Insert(points, index, p);
      segmentsLengths := Insert(segmentsLengths, index, 0.0);
      SetNewSegmentsCalculator();
      if |segmentsLengths| < 5 {
        RecalculateAllSegments();
      } else {
        RefreshAroundInsert(index, oldPoints, oldLengths, p);
      }
      r := Done;
    }

    /**
     * `RemovePointAt`: removes the point and its entry. An emptied path gets
     * length 0; up to four remaining points everything is recomputed; from
     * five on only the wrapped entries `index-2..index`. An index outside
     * `0..N-1` fails in the list before anything changes.
     */
    method RemovePointAt(index: int) returns (r: Outcome)
      requires Valid()
      modifies this`points, this`segmentsLengths, this`segmentCalculatorIndex, this`length
      ensures Valid()
      ensures !(0 <= index < |old(points)|) ==> r == Failed(IndexOutOfRange(index)) && unchanged(this)
      ensures 0 <= index < |old(points)| ==>
                && r == Done
                && points == RemoveAt(old(points), index)
                && segmentCalculatorIndex == Min(|points|, 3)
    {
      if !(0 <= index < |points|) {
        return Failed(IndexOutOfRange(index));
      }
      ghost var oldPoints, oldLengths := points, segmentsLengths;
      points := RemoveAt(points, index);
      segmentsLengths := RemoveAt(segmentsLengths, index);
      SetNewSegmentsCalculator();
      r := Done;
      if |segmentsLengths| == 0 {
        length := 0.0;
        return;
      }
      if |segmentsLengths| < 5 {
        RecalculateAllSegments();
      } else {
        RefreshAroundRemove(index, oldPoints, oldLengths);
      }
    }

    /** `RemovePoint`: removes the first occurrence of the (converted) point, if any. */
    method RemovePoint(point: Point, useGlobal: bool) returns (removed: bool)
      requires Valid()
      modifies this`points, this`segmentsLengths, this`segmentCalculatorIndex, this`length
      ensures Valid()
      ensures removed <==> ToLocal(geometry, point, useGlobal) in old(points)
      ensures !removed ==> unchanged(this)
      ensures removed ==> points == RemoveAt(old(points), IndexOf(old(points), ToLocal(geometry, point, useGlobal)))
      ensures removed ==> segmentCalculatorIndex == Min(|points|, 3)
    {
      var p := ToLocal(geometry, point, useGlobal);
      var index := IndexOf(points, p);
      if index == -1 {
        return false;
      }
      var _ := RemovePointAt(index);
      return true;
    }

    /** `ClearPoints`: empties both lists and zeroes the length; the calculator index is left as it was. */
    method ClearPoints()
      requires Valid()
      modifies this`points, this`segmentsLengths, this`segmentCalculatorIndex, this`length
      ensures Valid()
      ensures points == [] && segmentsLengths == [] && length == 0.0
      ensures segmentCalculatorIndex == old(segmentCalculatorIndex)
    {
      points := [];
      segmentsLengths := [];
      length := 0.0;
    }

    /**
     * `SetPoint`: overwrites point `index`. Up to four points everything is
     * recomputed; from five on only the wrapped entries `index-2..index+1`.
     * An index outside `0..N-1` fails in the list before anything changes.
     */
    method SetPoint(index: int, position: Point, useGlobal: bool) returns (r: Outcome)
      requires Valid()
      modifies this`points, this`segmentsLengths, this`segmentCalculatorIndex, this`length
      ensures Valid()
      ensures !(0 <= index < |old(points)|) ==> r == Failed(IndexOutOfRange(index)) && unchanged(this)
      ensures 0 <= index < |old(points)| ==>
                r == Done && points == old(points)[index := ToLocal(geometry, position, useGlobal)]
      ensures segmentCalculatorIndex == old(segmentCalculatorIndex)
    {
      if !(0 <= index < |points|) {
        return Failed(IndexOutOfRange(index));
      }
      var p := ToLocal(geometry, position, useGlobal);
      ghost var oldPoints := points;
      points := points[index := p];
      if |segmentsLengths| < 5 {
        RecalculateAllSegments();
      } else {
        RefreshAroundSet(index, oldPoints, p);
      }
      r := Done;
    }

    /** The `Resolution` setter: clamps to `1..100`, sets the step and recomputes everything. */
    method SetResolution(value: int)
      requires Valid()
      modifies this`resolution, this`step, this`segmentsLengths, this`length
      ensures Valid()
      ensures resolution == Clamp(value, 1, 100) && step == 1.0 / (resolution as real)
    {
      resolution := Clamp(value, 1, 100);
      step := 1.0 / (resolution as real);
      RecalculateAllSegments();
    }

    /** The `Looped` setter: only the total length depends on the flag. */
    method SetLooped(value: bool)
      requires Valid()
      modifies this`looped, this`length
      ensures Valid()
      ensures looped == value
    {
      looped := value;
      RecalculatePathLength();
    }

    /**
     * `GetPoint(distance, useNormalizedDistance, useGlobal)`: scales and
     * clamps the distance to `0..Length`, walks the drawable segments
     * subtracting their lengths until the remainder fits one, and samples that
     * segment at the remainder. With fewer than two points there is no
     * segment, and the fallback's `GetSegmentLength(-1)` fails.
     */
    method GetPointAtDistance(distance: real, useNormalized: bool, useGlobal: bool) returns (r: Result<Point>)
      requires Valid()
      ensures |points| < 2 ==> r == Err(SegmentNotExist(-1))
      ensures |points| >= 2 ==>
                var target := ClampReal(if useNormalized then distance * length else distance, 0.0, length);
                && r.Ok?
                && exists segment, offset ::
                     && LocatesDistance(|points|, looped, segmentsLengths, target, segment, offset)
                     && r == GetPointOnSegment(geometry, points, segmentsLengths, looped, resolution,
                                               segment, offset, false, useGlobal)
    {
      var n := |points|;
      PathLengthNonNegative(geometry, step, points, segmentsLengths, looped);
      CacheNonNegative(geometry, step, points, segmentsLengths);
      LengthIsSumOfSegments(n, looped, segmentsLengths);
      var count := SegmentsCount(n, looped);
      assert length == SumOfSegmentLengths(n, looped, segmentsLengths, count);
      var target := ClampReal(if useNormalized then distance * length else distance, 0.0, length);
      assert 0.0 <= target <= length;
      var d := target;
      var segment := 0;
      while segment < count
        invariant 0 <= segment <= count
        invariant d == target - SumOfSegmentLengths(n, looped, segmentsLengths, segment)
        invariant forall k :: 0 < k <= segment ==> SumOfSegmentLengths(n, looped, segmentsLengths, k) < target
      {
        var segmentLength := GetSegmentLength(n, looped, segmentsLengths, segment).value;
        if d <= segmentLength {
          break;
        }
        assert SumOfSegmentLengths(n, looped, segmentsLengths, segment + 1)
               == SumOfSegmentLengths(n, looped, segmentsLengths, segment) + segmentLength;
        d := d - segmentLength;
        segment := segment + 1;
      }
      if segment == count {
        segment := segment - 1;
        match GetSegmentLength(n, looped, segmentsLengths, count - 1)
        case Err(e) =>
          return Err(e);
        case Ok(v) =>
          d := v;
      }
      r := GetPointOnSegment(geometry, points, segmentsLengths, looped, resolution, segment, d, false, useGlobal);
      assert LocatesDistance(n, looped, segmentsLengths, target, segment, d);
    }

    /**
     * The corner scan of `Optimize`: the largest of 1 and the estimates at
     * the corners in `ScanRange`, each taken from the corner and its wrapped
     * neighbours.
     */
    method MaxCornerResolution() returns (best: real)
      requires |points| >= 3
      ensures best == MaxCornerEstimate(geometry, points, looped)
      ensures IsMaxEstimate(geometry, points, looped, best)
    {
      var n := |points|;
      var startIndex, endIndex;
      if looped {
        startIndex, endIndex := 0, n;
      } else {
        startIndex, endIndex := 1, if n == 3 then 3 else n - 1;
      }
      best := 1.0;
      var i := startIndex;
      while i < endIndex
        invariant startIndex <= i <= endIndex
        invariant best == RunningMax(geometry, points, startIndex, i)
      {
        WrapNear(i - 1, n);
        WrapNear(i + 1, n);
        var newResolution := geometry.cornerResolution(points[WrapIndex(i - 1, n)], points[i], points[WrapIndex(i + 1, n)]);
        if newResolution > best {
          best := newResolution;
        }
        i := i + 1;
      }
      MaxCornerEstimateIsMax(geometry, points, looped);
    }

    /**
     * `Optimize`: with fewer than three points the resolution becomes 1;
     * otherwise it becomes the truncated largest corner estimate, at least 4
     * (and at most 100 through the setter).
     */
    method Optimize()
      requires Valid()
      modifies this`resolution, this`step, this`segmentsLengths, this`length
      ensures Valid()
      ensures |points| < 3 ==> resolution == 1
      ensures |points| >= 3 ==> resolution == OptimizedResolution(MaxCornerEstimate(geometry, points, looped))
      ensures step == 1.0 / (resolution as real)
    {
      if |points| < 3 {
        SetResolution(1);
        return;
      }
      var best := MaxCornerResolution();
      SetResolution(Max(TruncateToInt(best), 4));
    }

    /**
     * The start of each round of `OptimizeByAngle`: installs resolution `i`
     * and its step, then recomputes the entry of the segment the search
     * resumes at and of the one before it (wrapped on a looped path; none
     * before the first segment of an open one).
     */
    method BeginResolution(i: int, currentSegment: int)
      requires Shaped() && 1 <= i <= 100 && 0 <= currentSegment < |points|
      modifies this`resolution, this`step, this`segmentsLengths
      ensures Shaped() && resolution == i && step == 1.0 / (i as real)
    {
      resolution := i;
      step := 1.0 / (i as real);
      RecalculateSegmentLength(currentSegment);
      if looped {
        var prevSegment := WrapIndex(currentSegment - 1, |points|);
        RecalculateSegmentLength(prevSegment);
      } else if currentSegment != 0 {
        RecalculateSegmentLength(currentSegment - 1);
      }
    }

    /**
     * The inner loop of `OptimizeByAngle` at resolution `i`: from segment
     * `start` on, moves past the segments that are smooth at `i`, recomputing
     * each next cache entry, and stops at the first rough one.
     */
    method ScanSegments(rough: (int, int) -> bool, i: int, start: int) returns (current: int)
      requires Shaped() && 0 <= start <= SegmentsCount(|points|, looped)
      modifies this`segmentsLengths
      ensures Shaped()
      ensures current == FirstRough(rough, i, start, SegmentsCount(|points|, looped))
    {
      var segments := SegmentsCount(|points|, looped);
      current := start;
      var j := start;
      while j < segments
        invariant start <= current == j <= segments
        invariant Shaped()
        invariant FirstRough(rough, i, start, segments) == FirstRough(rough, i, j, segments)
      {
        if rough(i, j) {
          break;
        }
        current := current + 1;
        j := j + 1;
        if current < segments {
          RecalculateSegmentLength(current);
        }
      }
    }

    /** One round of `OptimizeByAngle`: the start of the round, then the scan. */
    method SearchRound(rough: (int, int) -> bool, i: int, start: int) returns (current: int)
      requires Shaped() && 1 <= i <= 100 && 0 <= start < SegmentsCount(|points|, looped)
      modifies this`resolution, this`step, this`segmentsLengths
      ensures Shaped() && resolution == i && step == 1.0 / (i as real)
      ensures current == FirstRough(rough, i, start, SegmentsCount(|points|, looped))
    {
      BeginResolution(i, start);
      current := ScanSegments(rough, i, start);
    }

    /** The resolution loop of `OptimizeByAngle` on a path with three or more points. */
    method SearchResolution(rough: (int, int) -> bool)
      requires Shaped() && |points| >= 3
      modifies this`resolution, this`step, this`segmentsLengths
      ensures Shaped()
      ensures resolution == AngleResolution(rough, SegmentsCount(|points|, looped))
      ensures step == 1.0 / (resolution as real)
    {
      var n := |points|;
      var segments := SegmentsCount(n, looped);
      var currentSegment := 0;
      ghost var outcome := AngleResolution(rough, segments);
      var i := 3;
      while i <= 100
        invariant 3 <= i <= 101
        invariant Shaped()
        invariant 0 <= currentSegment < segments
        invariant i <= 100 ==> outcome == SearchFrom(rough, i, currentSegment, segments)
        invariant i == 101 ==> outcome == 100 == resolution
        invariant i > 3 ==> step == 1.0 / (resolution as real)
        modifies this`resolution, this`step, this`segmentsLengths
      {
        var j := SearchRound(rough, i, currentSegment);
        assert outcome == if j == segments || i == 100 then i else SearchFrom(rough, i + 1, j, segments);
        if j == segments {
          break;
        }
        currentSegment := j;
        i := i + 1;
      }
    }

    /**
     * `OptimizeByAngle`: tries resolutions 3, 4, ..., 100. At each it resumes
     * at the first segment not yet found smooth and moves on while the
     * segments it checks are smooth; the first rough segment sends it to the
     * next resolution, and a smooth last segment ends the search. The angle
     * test is `rough(resolution, segment)`. With fewer than three points the
     * resolution just becomes 1 (the step is left as it was).
     */
    method OptimizeByAngle(rough: (int, int) -> bool)
      requires Valid()
      modifies this`resolution, this`step, this`segmentsLengths, this`length
      ensures Valid()
      ensures |points| < 3 ==> resolution == 1 && step == old(step) && segmentsLengths == old(segmentsLengths) && length == old(length)
      ensures |points| >= 3 ==>
                && resolution == AngleResolution(rough, SegmentsCount(|points|, looped))
                && step == 1.0 / (resolution as real)
    {
      var n := |points|;
      if n < 3 {
        resolution := 1;
        return;
      }
      SearchResolution(rough);
      RecalculateAllSegments();
    }
  }
}
