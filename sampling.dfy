/**
 * `Path.GetPoint(segment, distance, useNormalizedDistance, useGlobal)`: the
 * position at a distance along one drawable segment. The sampled walk inside
 * a spline span is the geometry's `splinePoint`; what is modelled is the
 * control flow around it: the size guards, the range check, the clamp, the
 * index shift and the exact endpoints. The wrapped neighbours of a span are
 * written with `CircularIndex`, which is `WrapIndex` on these indices
 * (`PathMath.WrapNear`).
 */
module Sampling {
  import opened Geometry
  import opened PathMath
  import opened Results
  import opened Segments
  import opened SegmentCache

  function GetPointOnSegment(g: Geometry, points: seq<Point>, lengths: seq<real>, looped: bool,
                             resolution: int, segment: int, distance: real,
                             useNormalized: bool, useGlobal: bool): (r: Result<Point>)
    requires |lengths| == |points| && resolution >= 1
    ensures |points| == 0 ==> r == Err(EmptyPath)
    ensures |points| == 1 ==> r == Ok(ToGlobal(g, points[0], useGlobal))
    ensures |points| >= 2 ==> (r.Err? <==> GetSegmentLength(|points|, looped, lengths, segment).Err?)
    ensures |points| >= 2 && r.Err? ==> r.error == GetSegmentLength(|points|, looped, lengths, segment).error
  {
    var n := |points|;
    if n == 0 then Err(EmptyPath)
    else if n == 1 then Ok(ToGlobal(g, points[0], useGlobal))
    else match GetSegmentLength(n, looped, lengths, segment)
      case Err(e) => Err(e)
      case Ok(length) =>
        var d := ClampReal(if useNormalized then length * distance else distance, 0.0, length);
        if n == 2 then
          var (from, to) := if segment == 0 then (0, 1) else (1, 0);
          Ok(ToGlobal(g, g.lineMove(points[from], points[to], d), useGlobal))
        else
          var raw := segment + SegmentShift(n, looped);
          if d == 0.0 then Ok(ToGlobal(g, points[raw], useGlobal))
          else if d == length then Ok(ToGlobal(g, points[CircularIndex(raw + 1, n)], useGlobal))
          else
            var p := g.splinePoint(1.0 / resolution as real, d, points[CircularIndex(raw - 1, n)], points[raw],
                                   points[CircularIndex(raw + 1, n)], points[CircularIndex(raw + 2, n)]);
            Ok(ToGlobal(g, p, useGlobal))
  }

  /**
   * On a path with three or more points, a drawable segment starts exactly at
   * its cache entry's point and ends exactly at the next (wrapped) point:
   * distances at or below 0 give the start, distances at or beyond the
   * segment's length give the end (the start again when that length is 0).
   */
  lemma SegmentEndpoints(g: Geometry, points: seq<Point>, lengths: seq<real>, looped: bool,
                         resolution: int, segment: int, distance: real, useGlobal: bool)
    requires |lengths| == |points| >= 3 && resolution >= 1
    requires 0 <= segment < SegmentsCount(|points|, looped)
    requires lengths[segment + SegmentShift(|points|, looped)] >= 0.0
    ensures var n, raw := |points|, segment + SegmentShift(|points|, looped);
            var length := lengths[raw];
            var r := GetPointOnSegment(g, points, lengths, looped, resolution, segment, distance, false, useGlobal);
            && (distance <= 0.0 ==> r == Ok(ToGlobal(g, points[raw], useGlobal)))
            && (distance >= length > 0.0 ==> r == Ok(ToGlobal(g, points[CircularIndex(raw + 1, n)], useGlobal)))
  {
  }

  /** The normalised distances 0 and 1 are the two ends of the segment. */
  lemma NormalizedEndpoints(g: Geometry, points: seq<Point>, lengths: seq<real>, looped: bool,
                            resolution: int, segment: int, useGlobal: bool)
    requires |lengths| == |points| >= 3 && resolution >= 1
    requires 0 <= segment < SegmentsCount(|points|, looped)
    requires lengths[segment + SegmentShift(|points|, looped)] > 0.0
    ensures var n, raw := |points|, segment + SegmentShift(|points|, looped);
            && GetPointOnSegment(g, points, lengths, looped, resolution, segment, 0.0, true, useGlobal)
               == Ok(ToGlobal(g, points[raw], useGlobal))
            && GetPointOnSegment(g, points, lengths, looped, resolution, segment, 1.0, true, useGlobal)
               == Ok(ToGlobal(g, points[CircularIndex(raw + 1, n)], useGlobal))
  {
  }

  /**
   * Strictly inside a spline segment the position comes from the same four
   * control points whose sampled length is cached for that segment, walked
   * with step `1 / resolution`.
   */
  lemma InteriorUsesSegmentWindow(g: Geometry, points: seq<Point>, lengths: seq<real>, looped: bool,
                                  resolution: int, segment: int, distance: real, useGlobal: bool)
    requires |lengths| == |points| >= 3 && resolution >= 1
    requires 0 <= segment < SegmentsCount(|points|, looped)
    requires 0.0 < distance < lengths[segment + SegmentShift(|points|, looped)]
    ensures var w := SpanWindow(points, segment + SegmentShift(|points|, looped));
            GetPointOnSegment(g, points, lengths, looped, resolution, segment, distance, false, useGlobal)
            == Ok(ToGlobal(g, g.splinePoint(1.0 / resolution as real, distance, w.p0, w.p1, w.p2, w.p3), useGlobal))
  {
  }

  /**
   * A two-point path is one straight segment: segment 0 runs from the first
   * point towards the second, and on a looped path segment 1 runs back; the
   * distance is clamped to the distance between the points.
   */
  lemma TwoPointSampling(g: Geometry, step: real, points: seq<Point>, lengths: seq<real>, looped: bool,
                         resolution: int, segment: int, distance: real, useGlobal: bool)
    requires CacheCorrect(g, step, points, lengths) && |points| == 2 && resolution >= 1
    requires segment == 0 || (looped && segment == 1)
    ensures var length := g.distance(points[0], points[1]);
            var (from, to) := if segment == 0 then (points[0], points[1]) else (points[1], points[0]);
            GetPointOnSegment(g, points, lengths, looped, resolution, segment, distance, false, useGlobal)
            == Ok(ToGlobal(g, g.lineMove(from, to, ClampReal(distance, 0.0, length)), useGlobal))
  {
    assert lengths[segment] == CalculatedLength(g, step, points, segment);
  }

  /** Segment -1 of a non-looped path with three or more points is not rejected: it samples raw span 0. */
  lemma SegmentMinusOneSamplesFirstSpan(g: Geometry, points: seq<Point>, lengths: seq<real>,
                                        resolution: int, distance: real, useGlobal: bool)
    requires |lengths| == |points| >= 3 && resolution >= 1 && lengths[0] >= 0.0
    ensures var r := GetPointOnSegment(g, points, lengths, false, resolution, -1, distance, false, useGlobal);
            r.Ok? && (distance <= 0.0 ==> r.value == ToGlobal(g, points[0], useGlobal))
  {
  }
}
