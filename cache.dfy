/**
 * The per-point length cache and why the incremental updates keep it exact.
 *
 * Entry `i` of the cache holds what the calculator selected by the point
 * count writes there: 0 for a single point, the distance between the two
 * points for two, and for three or more the sampled length of the spline
 * span whose control points are `wrap(i-1), i, wrap(i+1), wrap(i+2)`.
 * An entry's value therefore depends only on the step and on its window of
 * four control points. The insert, remove and set operations on paths with
 * five or more points recompute only a few wrapped indices; the lemmas below
 * show that every other entry keeps its window (after the index shift the
 * list operation causes), so its old value is still the right one.
 */
module SegmentCache {
  import opened Geometry
  import opened Lists
  import opened PathMath
  import opened Segments

  /** The four control points of a Catmull-Rom span. */
  datatype Window = Window(p0: Point, p1: Point, p2: Point, p3: Point)

  /**
   * The control points `ManySegmentsCalculator` gathers for entry `segment`:
   * `wrap(segment-1), segment, wrap(segment+1), wrap(segment+2)`. With three
   * or more points these indices are at most one lap out of range.
   */
  function SpanWindow(points: seq<Point>, segment: int): Window
    requires |points| >= 3 && 0 <= segment < |points|
  {
    var n := |points|;
    Window(points[CircularIndex(segment - 1, n)], points[segment],
           points[CircularIndex(segment + 1, n)], points[CircularIndex(segment + 2, n)])
  }

  /**
   * The window is the one the source gathers with `WrapIndex`: the
   * division-free indices agree with it.
   */
  lemma SpanWindowWraps(points: seq<Point>, segment: int)
    requires |points| >= 3 && 0 <= segment < |points|
    ensures var n := |points|;
            SpanWindow(points, segment)
            == Window(points[WrapIndex(segment - 1, n)], points[segment],
                      points[WrapIndex(segment + 1, n)], points[WrapIndex(segment + 2, n)])
  {
    var n := |points|;
    WrapNear(segment - 1, n);
    WrapNear(segment + 1, n);
    WrapNear(segment + 2, n);
  }

  /**
   * The value the calculator selected for `|points|` points writes into
   * entry `segment` (`OneSegmentsCalculator`, `TwoSegmentsCalculator`,
   * `ManySegmentsCalculator`; `ZeroSegmentsCalculator` has no entry to write).
   */
  function CalculatedLength(g: Geometry, step: real, points: seq<Point>, segment: int): (r: real)
    requires 0 <= segment < |points|
    ensures r >= 0.0
    ensures |points| == 1 ==> r == 0.0
  {
    if |points| == 1 then 0.0
    else if |points| == 2 then g.distance(points[0], points[1])
    else
      var w := SpanWindow(points, segment);
      g.splineLength(step, w.p0, w.p1, w.p2, w.p3)
  }

  /** Every cache entry holds the calculator's value for the current points and step. */
  ghost predicate CacheCorrect(g: Geometry, step: real, points: seq<Point>, lengths: seq<real>)
  {
    && |lengths| == |points|
    && forall i {:trigger CalculatedLength(g, step, points, i)} ::
         0 <= i < |points| ==> lengths[i] == CalculatedLength(g, step, points, i)
  }

  /** A correct cache holds no negative entry. */
  lemma CacheNonNegative(g: Geometry, step: real, points: seq<Point>, lengths: seq<real>)
    requires CacheCorrect(g, step, points, lengths)
    ensures forall i :: 0 <= i < |lengths| ==> lengths[i] >= 0.0
  {
    forall i | 0 <= i < |lengths| ensures lengths[i] >= 0.0 {
      assert lengths[i] == CalculatedLength(g, step, points, i);
    }
  }

  /**
   * The entries a loop `for i in lo..hi: RecalculateSegmentLength(WrapIndex(i))`
   * rewrites, for a range at most one lap outside `[0, n)`.
   */
  function Covered(lo: int, hi: int, n: int): set<int>
    requires n > 0 && -n <= lo && hi < 2 * n
  {
    set k | lo <= k <= hi :: CircularIndex(k, n)
  }

  lemma InCovered(lo: int, hi: int, n: int, k: int)
    requires n > 0 && -n <= lo <= k <= hi < 2 * n
    ensures CircularIndex(k, n) in Covered(lo, hi, n)
  {
  }

  lemma CoveredExtend(lo: int, hi: int, n: int)
    requires n > 0 && -n <= lo <= hi + 1 && hi + 1 < 2 * n
    ensures Covered(lo, hi + 1, n) == Covered(lo, hi, n) + {CircularIndex(hi + 1, n)}
  {
    InCovered(lo, hi + 1, n, hi + 1);
  }

  /**
   * `lengths` was obtained from `base` by recomputing, for `points`, exactly
   * the entries the wrapped loop over `lo..hi` visits.
   */
  ghost predicate Refreshed(g: Geometry, step: real, points: seq<Point>, base: seq<real>,
                            lengths: seq<real>, lo: int, hi: int)
    requires |points| > 0 && -|points| <= lo && hi < 2 * |points|
  {
    && |base| == |points|
    && |lengths| == |points|
    && forall j :: 0 <= j < |points| ==>
         lengths[j] == if j in Covered(lo, hi, |points|) then CalculatedLength(g, step, points, j) else base[j]
  }

  /** The inserted index and its three wrapped neighbours to the left and one to the right. */
  lemma NotNearInsert(n: int, index: int, j: int)
    requires n >= 4 && 0 <= index <= n && 0 <= j <= n && j !in Covered(index - 2, index + 1, n + 1)
    ensures j != CircularIndex(index - 2, n + 1) && j != CircularIndex(index - 1, n + 1)
    ensures j != index && j != CircularIndex(index + 1, n + 1)
  {
    InCovered(index - 2, index + 1, n + 1, index - 2);
    InCovered(index - 2, index + 1, n + 1, index - 1);
    InCovered(index - 2, index + 1, n + 1, index);
    InCovered(index - 2, index + 1, n + 1, index + 1);
  }

  /**
   * Away from the inserted index, the wrapped neighbour at offset `o` of
   * entry `j` of the longer list is the shifted wrapped neighbour at offset
   * `o` of the entry `j` came from.
   */
  lemma InsertShiftsNeighbour(n: int, index: int, j: int, o: int)
    requires n >= 4 && 0 <= index <= n && 0 <= j <= n && -1 <= o <= 2
    requires j !in Covered(index - 2, index + 1, n + 1)
    ensures j != index
    ensures var a := CircularIndex(j + o, n + 1);
            && a != index
            && (if a < index then a else a - 1) == CircularIndex((if j < index then j else j - 1) + o, n)
  {
    NotNearInsert(n, index, j);
  }

  /**
   * After `Insert(index, x)` on a path that then has five or more points,
   * every entry outside the wrapped range `index-2..index+1` has the same
   * window as the entry it was shifted from.
   */
  lemma InsertKeepsWindows(points: seq<Point>, index: int, x: Point, j: int)
    requires |points| >= 4 && 0 <= index <= |points|
    requires 0 <= j <= |points| && j !in Covered(index - 2, index + 1, |points| + 1)
    ensures j != index
    ensures SpanWindow(Insert(points, index, x), j) == SpanWindow(points, if j < index then j else j - 1)
  {
    var n := |points|;
    InsertShiftsNeighbour(n, index, j, -1);
    InsertShiftsNeighbour(n, index, j, 0);
    InsertShiftsNeighbour(n, index, j, 1);
    InsertShiftsNeighbour(n, index, j, 2);
  }

  lemma NotNearRemove(n: int, index: int, j: int)
    requires n >= 5 && 0 <= index <= n && 0 <= j < n && j !in Covered(index - 2, index, n)
    ensures j != CircularIndex(index - 2, n) && j != CircularIndex(index - 1, n)
    ensures j != CircularIndex(index, n)
  {
    InCovered(index - 2, index, n, index - 2);
    InCovered(index - 2, index, n, index - 1);
    InCovered(index - 2, index, n, index);
  }

  /**
   * Away from the removed index, the wrapped neighbour at offset `o` of entry
   * `j` of the shorter list, mapped back to the longer one, is the wrapped
   * neighbour at offset `o` of the entry `j` came from.
   */
  lemma RemoveShiftsNeighbour(n: int, index: int, j: int, o: int)
    requires n >= 5 && 0 <= index <= n && 0 <= j < n && -1 <= o <= 2
    requires j !in Covered(index - 2, index, n)
    ensures var a := CircularIndex(j + o, n);
            (if a < index then a else a + 1) == CircularIndex((if j < index then j else j + 1) + o, n + 1)
  {
    NotNearRemove(n, index, j);
  }

  /**
   * After `RemoveAt(index)` on a path that then has five or more points,
   * every entry outside the wrapped range `index-2..index` has the same
   * window as the entry it was shifted from.
   */
  lemma RemoveKeepsWindows(points: seq<Point>, index: int, j: int)
    requires |points| >= 6 && 0 <= index < |points|
    requires 0 <= j < |points| - 1 && j !in Covered(index - 2, index, |points| - 1)
    ensures SpanWindow(RemoveAt(points, index), j) == SpanWindow(points, if j < index then j else j + 1)
  {
    var n := |points| - 1;
    RemoveShiftsNeighbour(n, index, j, -1);
    RemoveShiftsNeighbour(n, index, j, 0);
    RemoveShiftsNeighbour(n, index, j, 1);
    RemoveShiftsNeighbour(n, index, j, 2);
  }

  lemma NotNearSet(n: int, index: int, j: int)
    requires n >= 5 && 0 <= index < n && 0 <= j < n && j !in Covered(index - 2, index + 1, n)
    ensures j != CircularIndex(index - 2, n) && j != CircularIndex(index - 1, n)
    ensures j != index && j != CircularIndex(index + 1, n)
  {
    InCovered(index - 2, index + 1, n, index - 2);
    InCovered(index - 2, index + 1, n, index - 1);
    InCovered(index - 2, index + 1, n, index);
    InCovered(index - 2, index + 1, n, index + 1);
  }

  /**
   * After overwriting point `index` of a path with five or more points, every
   * entry outside the wrapped range `index-2..index+1` keeps its window.
   */
  lemma SetKeepsWindows(points: seq<Point>, index: int, x: Point, j: int)
    requires |points| >= 5 && 0 <= index < |points|
    requires 0 <= j < |points| && j !in Covered(index - 2, index + 1, |points|)
    ensures SpanWindow(points[index := x], j) == SpanWindow(points, j)
  {
    NotNearSet(|points|, index, j);
  }

  /** The windowed recomputation in `InsertPoint` (and `AddPoint`) leaves an exact cache. */
  lemma InsertRestoresCache(g: Geometry, step: real, points: seq<Point>, lengths: seq<real>,
                            index: int, x: Point, updated: seq<real>)
    requires CacheCorrect(g, step, points, lengths)
    requires |points| >= 4 && 0 <= index <= |points|
    requires Refreshed(g, step, Insert(points, index, x), Insert(lengths, index, 0.0), updated, index - 2, index + 1)
    ensures CacheCorrect(g, step, Insert(points, index, x), updated)
  {
    var q, n := Insert(points, index, x), |points| + 1;
    forall j | 0 <= j < n ensures updated[j] == CalculatedLength(g, step, q, j) {
      if j !in Covered(index - 2, index + 1, n) {
        InsertKeepsWindows(points, index, x, j);
        var j' := if j < index then j else j - 1;
        assert updated[j] == lengths[j'] == CalculatedLength(g, step, points, j');
      }
    }
  }

  /** The windowed recomputation in `RemovePointAt` leaves an exact cache. */
  lemma RemoveRestoresCache(g: Geometry, step: real, points: seq<Point>, lengths: seq<real>,
                            index: int, updated: seq<real>)
    requires CacheCorrect(g, step, points, lengths)
    requires |points| >= 6 && 0 <= index < |points|
    requires Refreshed(g, step, RemoveAt(points, index), RemoveAt(lengths, index), updated, index - 2, index)
    ensures CacheCorrect(g, step, RemoveAt(points, index), updated)
  {
    var q, n := RemoveAt(points, index), |points| - 1;
    forall j | 0 <= j < n ensures updated[j] == CalculatedLength(g, step, q, j) {
      if j !in Covered(index - 2, index, n) {
        RemoveKeepsWindows(points, index, j);
        var j' := if j < index then j else j + 1;
        assert updated[j] == lengths[j'] == CalculatedLength(g, step, points, j');
      }
    }
  }

  /** The windowed recomputation in `SetPoint` leaves an exact cache. */
  lemma SetRestoresCache(g: Geometry, step: real, points: seq<Point>, lengths: seq<real>,
                         index: int, x: Point, updated: seq<real>)
    requires CacheCorrect(g, step, points, lengths)
    requires |points| >= 5 && 0 <= index < |points|
    requires Refreshed(g, step, points[index := x], lengths, updated, index - 2, index + 1)
    ensures CacheCorrect(g, step, points[index := x], updated)
  {
    var q, n := points[index := x], |points|;
    forall j | 0 <= j < n ensures updated[j] == CalculatedLength(g, step, q, j) {
      if j !in Covered(index - 2, index + 1, n) {
        SetKeepsWindows(points, index, x, j);
        assert updated[j] == lengths[j] == CalculatedLength(g, step, points, j);
      }
    }
  }

  /**
   * A non-looped two-point path is as long as the distance between its
   * points; a looped one counts that distance twice (there and back).
   */
  lemma TwoPointLength(g: Geometry, step: real, points: seq<Point>, lengths: seq<real>, looped: bool)
    requires CacheCorrect(g, step, points, lengths) && |points| == 2
    ensures PathLength(2, looped, lengths)
            == if looped then 2.0 * g.distance(points[0], points[1]) else g.distance(points[0], points[1])
  {
    assert lengths[0] == CalculatedLength(g, step, points, 0);
    assert lengths[1] == CalculatedLength(g, step, points, 1);
  }

  /** The cached length of a path is never negative. */
  lemma PathLengthNonNegative(g: Geometry, step: real, points: seq<Point>, lengths: seq<real>, looped: bool)
    requires CacheCorrect(g, step, points, lengths)
    ensures PathLength(|points|, looped, lengths) >= 0.0
  {
    CacheNonNegative(g, step, points, lengths);
    var shift := SegmentShift(|points|, looped);
    SumRangeNonNegative(lengths, shift, shift + SegmentsCount(|points|, looped));
  }
}
