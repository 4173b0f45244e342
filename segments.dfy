/**
 * Drawable segments of a path and the lookup of their cached lengths.
 *
 * With `count` points, the length cache holds one entry per point, but only
 * `SegmentsCount` of them are drawable. On a non-looped path with three or
 * more points drawable segment `i` lives in cache entry `i + 1`: with four or
 * more points the first and last points only steer the tangents (entries
 * `1..N-3` are drawable), and with exactly three the single drawable span
 * runs from point 1 to point 2 and takes its trailing tangent from point 0,
 * the wrapped successor of point 2.
 */
module Segments {
  import opened Results

  /** `Path.SegmentsCount`. */
  function SegmentsCount(count: int, looped: bool): (r: int)
    ensures r >= 0
    ensures r == 0 <==> count < 2
    ensures looped && count >= 2 ==> r == count
    ensures !looped && 2 <= count < 4 ==> r == 1
    ensures !looped && count >= 4 ==> r == count - 3
    ensures count >= 0 ==> r + SegmentShift(count, looped) <= count
    ensures !looped && count >= 3 ==> r + SegmentShift(count, looped) <= count - 1
    ensures !looped && count >= 4 ==> r + SegmentShift(count, looped) == count - 2
  {
    if count < 2 then 0
    else if looped then count
    else if count < 4 then 1
    else count - 3
  }

  /** The offset from a drawable segment number to its cache entry. */
  function SegmentShift(count: int, looped: bool): (r: int)
    ensures 0 <= r <= 1
    ensures r == 1 <==> count > 2 && !looped
  {
    if count > 2 && !looped then 1 else 0
  }

  /** Every drawable segment addresses an existing cache entry. */
  lemma ActiveEntryInBounds(count: int, looped: bool, segment: int)
    requires 0 <= segment < SegmentsCount(count, looped)
    ensures 0 <= segment + SegmentShift(count, looped) < count
  {
  }

  /**
   * `Path.GetSegmentLength`. The explicit range checks throw exactly for the
   * segment numbers at or past `SegmentsCount` (and for every number when
   * there are fewer than two points); there is no lower-bound check, so a
   * negative number either reaches a raw entry (-1 on a non-looped path with
   * three or more points reads entry 0) or fails in the list indexer.
   */
  function GetSegmentLength(count: int, looped: bool, lengths: seq<real>, segment: int): (r: Result<real>)
    requires count == |lengths|
    ensures segment >= 0 ==> (r.Ok? <==> segment < SegmentsCount(count, looped))
    ensures segment < 0 ==> (r.Ok? <==> segment == -1 && !looped && count >= 3)
    ensures r.Ok? ==> (0 <= segment + SegmentShift(count, looped) < count
                       && r.value == lengths[segment + SegmentShift(count, looped)])
    ensures r.Err? ==> (r.error.SegmentNotExist? <==> count < 2 || segment >= SegmentsCount(count, looped))
    ensures r.Err? && r.error.SegmentNotExist? ==> r.error.segment == segment
  {
    if count < 2 then Err(SegmentNotExist(segment))
    else if !looped then
      if count < 4 && segment > 0 then Err(SegmentNotExist(segment))
      else if count > 3 && segment > count - 4 then Err(SegmentNotExist(segment))
      else
        var raw := if count > 2 then segment + 1 else segment;
        if raw < 0 then Err(IndexOutOfRange(raw)) else Ok(lengths[raw])
    else if segment > count - 1 then Err(SegmentNotExist(segment))
    else if segment < 0 then Err(IndexOutOfRange(segment))
    else Ok(lengths[segment])
  }

  /** The sum of `s[lo..hi]`, accumulated from the left as the source's loops do. */
  function SumRange(s: seq<real>, lo: int, hi: int): real
    requires 0 <= lo <= hi <= |s|
    decreases hi - lo
  {
    if lo == hi then 0.0 else SumRange(s, lo, hi - 1) + s[hi - 1]
  }

  lemma {:induction false} SumRangeNonNegative(s: seq<real>, lo: int, hi: int)
    requires 0 <= lo <= hi <= |s|
    requires forall i :: lo <= i < hi ==> s[i] >= 0.0
    ensures SumRange(s, lo, hi) >= 0.0
    decreases hi - lo
  {
    if lo < hi {
      SumRangeNonNegative(s, lo, hi - 1);
    }
  }

  /** The value `RecalculatePathLength` gives `Length`: the sum of the drawable entries. */
  function PathLength(count: int, looped: bool, lengths: seq<real>): real
    requires count == |lengths|
  {
    var shift := SegmentShift(count, looped);
    SumRange(lengths, shift, shift + SegmentsCount(count, looped))
  }

  /** The sum of `GetSegmentLength(i)` over the drawable segments `i < k`. */
  function SumOfSegmentLengths(count: int, looped: bool, lengths: seq<real>, k: int): real
    requires count == |lengths|
    requires 0 <= k <= SegmentsCount(count, looped)
  {
    if k == 0 then 0.0
    else SumOfSegmentLengths(count, looped, lengths, k - 1) + GetSegmentLength(count, looped, lengths, k - 1).value
  }

  lemma {:induction false} PrefixIsSumOfSegments(count: int, looped: bool, lengths: seq<real>, k: int)
    requires count == |lengths|
    requires 0 <= k <= SegmentsCount(count, looped)
    ensures var shift := SegmentShift(count, looped);
            SumRange(lengths, shift, shift + k) == SumOfSegmentLengths(count, looped, lengths, k)
  {
    if k > 0 {
      PrefixIsSumOfSegments(count, looped, lengths, k - 1);
    }
  }

  /** `Length` is the sum of `GetSegmentLength` over every drawable segment. */
  lemma LengthIsSumOfSegments(count: int, looped: bool, lengths: seq<real>)
    requires count == |lengths|
    ensures PathLength(count, looped, lengths)
            == SumOfSegmentLengths(count, looped, lengths, SegmentsCount(count, looped))
  {
    PrefixIsSumOfSegments(count, looped, lengths, SegmentsCount(count, looped));
  }

  /** With fewer than two points nothing is drawable and the length is 0. */
  lemma ShortPathHasNoLength(count: int, looped: bool, lengths: seq<real>)
    requires count == |lengths| && count < 2
    ensures PathLength(count, looped, lengths) == 0.0
  {
  }

  /**
   * Distance `target` along the whole path falls on drawable segment
   * `segment`, `offset` beyond its start: the segments before it end short of
   * `target`, and `target` is within this one.
   */
  ghost predicate LocatesDistance(count: int, looped: bool, lengths: seq<real>, target: real,
                                  segment: int, offset: real)
    requires count == |lengths|
  {
    && 0 <= segment < SegmentsCount(count, looped)
    && offset == target - SumOfSegmentLengths(count, looped, lengths, segment)
    && 0.0 <= offset <= GetSegmentLength(count, looped, lengths, segment).value
    && forall k :: 0 < k <= segment ==> SumOfSegmentLengths(count, looped, lengths, k) < target
  }

  /** The segment a distance falls on ends at or beyond that distance. */
  lemma LocatedSegmentReaches(count: int, looped: bool, lengths: seq<real>, target: real,
                              segment: int, offset: real)
    requires count == |lengths|
    requires LocatesDistance(count, looped, lengths, target, segment, offset)
    ensures target <= SumOfSegmentLengths(count, looped, lengths, segment + 1)
  {
  }

  /** A distance falls on exactly one segment, at exactly one offset. */
  lemma LocationUnique(count: int, looped: bool, lengths: seq<real>, target: real,
                       s1: int, o1: real, s2: int, o2: real)
    requires count == |lengths|
    requires LocatesDistance(count, looped, lengths, target, s1, o1)
    requires LocatesDistance(count, looped, lengths, target, s2, o2)
    ensures s1 == s2 && o1 == o2
  {
    LocatedSegmentReaches(count, looped, lengths, target, s1, o1);
    LocatedSegmentReaches(count, looped, lengths, target, s2, o2);
  }
}
