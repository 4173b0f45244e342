# Numba Paths: the `Path` component, modelled in Dafny

`Path` is a Unity component holding a Catmull-Rom path. It keeps three things:

- an ordered list of control points in local space;
- a parallel cache with one length entry per point;
- the sampling resolution (`1..100`), the step the length calculator samples with, a looped flag and the cached total `Length`. Only `OptimizeByAngle` on a path with fewer than three points can make the step differ from `1 / resolution`; `SetResolution`, `Optimize` and `OptimizeByAngle` on three or more points set it back.

One of four length calculators fills the cache. It is chosen by the number of points:

- none for an empty path;
- 0 for one point;
- the distance between the points for two;
- for three or more, the sampled length of the span whose control points are `wrap(i-1), i, wrap(i+1), wrap(i+2)`.

On an open path with three or more points, drawable segment `s` lives in cache entry `s + 1`. With four or more points the first and last points only steer the tangents, and entries `1..N-3` are drawable. With exactly three points the single drawable segment runs from point 1 to point 2 and ends at the last point; its trailing tangent point is the wrapped successor of point 2, which is point 0.

The model is a Dafny class `Paths.Path` with the component's fields and one method per operation:

- the point mutations: add, insert, remove by index, remove by value, set, clear;
- the `Resolution` and `Looped` setters;
- the two optimisers;
- the query by distance along the whole path.

The class invariant `Valid()` says the cache is exact and the total length is exact:

- every entry equals the value the current calculator computes for the current points and step;
- `length` is the sum of the drawable entries.

Every mutation is proved to keep `Valid()`. That includes the windowed updates, which on paths of five or more points recompute only three or four wrapped entries. The lemmas in `SegmentCache` show that every other entry keeps its four-point window once the list operation has shifted it.

The pure parts are functions with proved properties:

- C#'s truncating `%` inside `WrapIndex`;
- the segment count and index shift;
- the range-checked `GetSegmentLength`;
- the control flow of `GetPoint(segment, …)`;
- the scan of `Optimize`;
- the search of `OptimizeByAngle`.

## Model structure

| file | module | contents |
|---|---|---|
| results.dfy | `Results` | the errors a path reports (`SegmentNotExist`, `EmptyPath`, `IndexOutOfRange`), `Result<T>`, `Outcome` |
| geometry.dfy | `Geometry` | the opaque point type and the floating-point operations as a `Geometry` value (distance, sampled spline length and position, straight move, corner estimate, transform) |
| pathmath.dfy | `PathMath` | C#'s remainder, `WrapIndex`, clamps, the float-to-int cast |
| lists.dfy | `Lists` | `List.Insert`, `List.RemoveAt`, `List.IndexOf` on sequences |
| segments.dfy | `Segments` | `SegmentsCount`, the index shift, `GetSegmentLength`, the total length and where a distance falls |
| cache.dfy | `SegmentCache` | the calculators, the cache invariant, and why the windowed updates restore it |
| sampling.dfy | `Sampling` | `GetPoint(segment, distance, …)` |
| optimizer.dfy | `Optimization` | scan range and maximum of `Optimize`; the outcome of the `OptimizeByAngle` search |
| path.dfy | `Paths` | the `Path` class |

## Behaviour of the code worth knowing

- **Looped setter.** Setting `Looped` only recomputes `Length` (Path.cs:120-128). No cache entry depends on the flag, so that is enough: `Paths.Path.SetLooped` is proved to keep `Valid()`.
- **`Optimize` on an open three-point path.** It scans corners 1 and 2 (Path.cs:279-280).
- **Drawable entries of an open path.** With `N >= 4` points the drawable entries are `1..N-3`: `N-3` of them, shifted by one, so entry `N-2` is never drawable.
- **`ClearPoints` and the calculator index.** `ClearPoints` does not reselect the calculator, so the index of the previous count survives in an empty path. Nothing reads it there, so the invariant only ties the index to the count when there are points.
- **Looped two-point path.** Its `Length` counts the distance twice, once for each of its two segments (`SegmentCache.TwoPointLength`).
- **Segment -1 on an open path.** `GetSegmentLength` has no lower-bound check. On an open path with three or more points, segment -1 reads raw entry 0, a tangent-only span. Any other negative segment fails in the list indexer.
- **`OptimizeByAngle` with fewer than three points.** It sets the resolution to 1 and leaves the step and the cache as they were. The invariant still holds, because with fewer than three points no entry depends on the step. The stale step does matter later. For example: `SetResolution(50)`, two `AddPoint` calls, `OptimizeByAngle`, then a third `AddPoint`. That leaves three points, resolution 1 and step 1/50. From then on the cache and `Length` are sampled with step 1/50, while `GetPoint(segment, …)` walks its spans with `1 / Resolution` = 1 (Path.cs:513).
- **`OptimizeByAngle` never re-checks a segment it has moved past.** The installed resolution only guarantees that each segment was smooth at some resolution tried, not at the final one. With two segments, segment 1 rough only at 3 and segment 0 rough only at 4, it installs 4, at which segment 0 is rough (`Optimization.PassedSegmentMayBeRoughAtEnd`). When smoothness persists at higher resolutions, every segment is smooth at the installed one (`Optimization.SmoothByIsSmoothAtEnd`).
- **`OptimizeByAngle` during the search.** It recomputes entries by drawable segment number, without the +1 shift (Path.cs:206, 222, 251). Its angle test samples with `GetPoint(j, t)` at normalised distances (Path.cs:185, 214, 219, 223, 230). That call scales `t` by `GetSegmentLength(j)`, which on an open path reads entry `j + 1` (Path.cs:359-360, 490-491). So on an open path each segment is sampled against a length cached at an earlier step or resolution, and the installed resolution can depend on those stale entries. The final full recompute (Path.cs:260) makes only the end cache exact. The model's opaque `rough` does not see the cache (see the angle-test line under "## Left out").
- **Fallback of `GetPoint(distance, …)`.** In exact arithmetic the fallback (Path.cs:567-571) is reached only on paths with fewer than two points. There it fails with segment -1.

## Model

| member | source | states |
|---|---|---|
| PathMath.CsRemainder | Assets/Plugins/Numba/Paths/Path.cs:177 | C#'s `%`: the remainder is smaller in magnitude than the divisor and has the sign of the dividend |
| PathMath.CsRemainderShifted | Assets/Plugins/Numba/Paths/Path.cs:177 | adding `count` to the first truncated remainder gives a value in `(0, 2·count)` that is congruent to the index |
| PathMath.WrapIndex | Assets/Plugins/Numba/Paths/Path.cs:177 | for every integer index, negative ones included, and `count > 0`, the result lies in `[0, count)` and is the Euclidean residue `index % count` |
| PathMath.WrapNear | Assets/Plugins/Numba/Paths/Path.cs:177 | for an index at most one lap outside `[0, count)`, `WrapIndex` adds or subtracts `count` once |
| PathMath.Clamp | Assets/Plugins/Numba/Paths/Path.cs:106 | the result lies in `[lo, hi]`: it is the value when inside, `lo` below and `hi` above |
| PathMath.ClampReal | Assets/Plugins/Numba/Paths/Path.cs:491 | the same for the float clamp of the queries, with the lower bound tested first |
| PathMath.TruncateToInt | Assets/Plugins/Numba/Paths/Path.cs:307 | the cast of a non-negative estimate is its floor: non-negative, at most the value, and more than the value minus one |
| Lists.Insert | Assets/Plugins/Numba/Paths/Path.cs:392-393 | the list grows by one: entries before `index` stay, `x` sits at `index`, and later entries move up one place |
| Lists.RemoveAt | Assets/Plugins/Numba/Paths/Path.cs:434-435 | the list shrinks by one: entries before `index` stay and later entries move down one place |
| Lists.IndexOf | Assets/Plugins/Numba/Paths/Path.cs:424 | the result is -1 exactly when `x` is absent; otherwise it is an index holding `x` with no earlier occurrence |
| Lists.AppendIsInsert | Assets/Plugins/Numba/Paths/Path.cs:372-373 | `List.Add` is an insertion at the end, so the windowed insert argument covers `AddPoint` |
| Segments.SegmentsCount | Assets/Plugins/Numba/Paths/Path.cs:82-91 | 0 exactly when there are fewer than two points; `N` when looped; on an open path 1 for two or three points and `N - 3` from four on. Count plus shift never exceeds `N`; on an open path with three or more points it is at most `N - 1`, and exactly `N - 2` from four points on, so the last two entries are never drawable |
| Segments.SegmentShift | Assets/Plugins/Numba/Paths/Path.cs:339 | the offset from a drawable segment to its cache entry is 0 or 1, and 1 exactly on an open path with more than two points (also Path.cs:359-360 and 503-504) |
| Segments.ActiveEntryInBounds | Assets/Plugins/Numba/Paths/Path.cs:339-343 | for every drawable segment `i`, entry `i + shift` exists, with shift 1 exactly on an open path of three or more points |
| Segments.GetSegmentLength | Assets/Plugins/Numba/Paths/Path.cs:346-366 | for segments `>= 0`: succeeds exactly below `SegmentsCount`. For negative segments: succeeds only for -1 on an open path of three or more points. On success the value is entry `segment + shift`. The error is `SegmentNotExist(segment)` exactly for fewer than two points or a segment at or past the count |
| Segments.PathLength | Assets/Plugins/Numba/Paths/Path.cs:337-344 | the value the length loop computes: the left-to-right sum of entries `shift..shift + SegmentsCount - 1`; `LengthIsSumOfSegments` and `PathLengthNonNegative` state what it equals and that it is never negative |
| Segments.PrefixIsSumOfSegments | Assets/Plugins/Numba/Paths/Path.cs:337-366 | the sum of the first `k` drawable entries equals the sum of `GetSegmentLength(i)` over `i < k` |
| Segments.LengthIsSumOfSegments | Assets/Plugins/Numba/Paths/Path.cs:337-344 | the total length equals the sum of `GetSegmentLength(i)` over every drawable segment |
| Segments.ShortPathHasNoLength | Assets/Plugins/Numba/Paths/Path.cs:86-87 | a path with fewer than two points has length 0 |
| Segments.LocatedSegmentReaches | Assets/Plugins/Numba/Paths/Path.cs:556-565 | the segment a distance falls on ends at or beyond that distance |
| Segments.LocationUnique | Assets/Plugins/Numba/Paths/Path.cs:556-565 | a distance falls on exactly one drawable segment, at exactly one offset |
| SegmentCache.SpanWindowWraps | Assets/Plugins/Numba/Paths/Path.cs:55-58 | the four control points of span `segment` (`SpanWindow`) are the points at `WrapIndex(segment-1)`, `segment`, `WrapIndex(segment+1)` and `WrapIndex(segment+2)` |
| SegmentCache.CalculatedLength | Assets/Plugins/Numba/Paths/Path.cs:23-71 | what the selected calculator writes is never negative, and is 0 for a one-point path |
| SegmentCache.CacheNonNegative | Assets/Plugins/Numba/Paths/Path.cs:34-69 | an exact cache has no negative entry |
| SegmentCache.NotNearInsert | Assets/Plugins/Numba/Paths/Path.cs:401-402 | an entry outside the recomputed range is none of the four wrapped indices `index-2..index+1` |
| SegmentCache.InsertShiftsNeighbour | Assets/Plugins/Numba/Paths/Path.cs:392-402 | away from the inserted index, each wrapped neighbour (offsets -1..2) of an entry, shifted back, is the old entry's wrapped neighbour at the same offset |
| SegmentCache.InsertKeepsWindows | Assets/Plugins/Numba/Paths/Path.cs:392-402 | after an insertion giving five or more points, every entry outside the wrapped range `index-2..index+1` has the same four-point window as the entry it came from |
| SegmentCache.NotNearRemove | Assets/Plugins/Numba/Paths/Path.cs:449-450 | an entry outside the recomputed range is none of the wrapped indices `index-2..index` |
| SegmentCache.RemoveShiftsNeighbour | Assets/Plugins/Numba/Paths/Path.cs:434-450 | away from the removed index, each wrapped neighbour of an entry, mapped back, is the old entry's wrapped neighbour at the same offset |
| SegmentCache.RemoveKeepsWindows | Assets/Plugins/Numba/Paths/Path.cs:434-450 | after a removal leaving five or more points, every entry outside the wrapped range `index-2..index` has the same window as the entry it came from |
| SegmentCache.NotNearSet | Assets/Plugins/Numba/Paths/Path.cs:475-476 | an entry outside the recomputed range is none of the wrapped indices `index-2..index+1` |
| SegmentCache.SetKeepsWindows | Assets/Plugins/Numba/Paths/Path.cs:469-476 | after overwriting a point of a path with five or more points, every entry outside the wrapped range `index-2..index+1` keeps its window |
| SegmentCache.InsertRestoresCache | Assets/Plugins/Numba/Paths/Path.cs:392-404 | an exact cache, with an entry inserted and the wrapped range `index-2..index+1` recomputed, is exact for the new points |
| SegmentCache.RemoveRestoresCache | Assets/Plugins/Numba/Paths/Path.cs:434-452 | an exact cache, with an entry removed and the wrapped range `index-2..index` recomputed, is exact for the new points |
| SegmentCache.SetRestoresCache | Assets/Plugins/Numba/Paths/Path.cs:469-478 | an exact cache, with the wrapped range `index-2..index+1` recomputed after a point is overwritten, is exact for the new points |
| SegmentCache.TwoPointLength | Assets/Plugins/Numba/Paths/Path.cs:337-344 | an open two-point path is as long as the distance between its points; a looped one is twice as long |
| SegmentCache.PathLengthNonNegative | Assets/Plugins/Numba/Paths/Path.cs:337-344 | the total length of a path with an exact cache is never negative |
| Geometry.ToLocal | Assets/Plugins/Numba/Paths/Path.cs:311-315 | a point handed in is converted to local space exactly when it is global |
| Geometry.ToGlobal | Assets/Plugins/Numba/Paths/Path.cs:317-320 | a stored point handed back is converted to world space exactly when asked |
| Sampling.GetPointOnSegment | Assets/Plugins/Numba/Paths/Path.cs:482-547 | an empty path is an error; a one-point path gives point 0; otherwise the query fails exactly when `GetSegmentLength(segment)` fails, and with the same error |
| Sampling.SegmentEndpoints | Assets/Plugins/Numba/Paths/Path.cs:503-511 | with three or more points, a distance at or below 0 gives the segment's start point; one at or beyond a positive segment length gives the next wrapped point |
| Sampling.NormalizedEndpoints | Assets/Plugins/Numba/Paths/Path.cs:491-511 | the normalised distances 0 and 1 give the two ends of a segment of positive length |
| Sampling.InteriorUsesSegmentWindow | Assets/Plugins/Numba/Paths/Path.cs:513-521 | strictly inside a spline segment, the position is sampled from the same four control points whose length is cached, with step `1 / resolution` |
| Sampling.TwoPointSampling | Assets/Plugins/Numba/Paths/Path.cs:495-501 | on a two-point path, segment 0 moves from the first point towards the second and segment 1 moves back, by the distance clamped to the points' distance |
| Sampling.SegmentMinusOneSamplesFirstSpan | Assets/Plugins/Numba/Paths/Path.cs:353-360 | on an open path of three or more points, segment -1 is not rejected and starts at point 0 |
| Optimization.ScanRange | Assets/Plugins/Numba/Paths/Path.cs:271-281 | a looped path scans all `N` corners; an open one starts at corner 1 and scans two corners for `N = 3` and `N - 2` otherwise |
| Optimization.CornerEstimateWraps | Assets/Plugins/Numba/Paths/Path.cs:287-288 | the estimate at corner `i` (`CornerEstimate`) is taken from the points at `WrapIndex(i-1)`, `i` and `WrapIndex(i+1)`; the heuristic itself (Path.cs:290-301) is the opaque `cornerResolution` |
| Optimization.RunningMax | Assets/Plugins/Numba/Paths/Path.cs:283-305 | the running maximum never drops below its start value 1 |
| Optimization.RunningMaxIsMax | Assets/Plugins/Numba/Paths/Path.cs:283-305 | the running maximum is at least 1, bounds every scanned estimate, and is 1 or one of them |
| Optimization.MaxCornerEstimate | Assets/Plugins/Numba/Paths/Path.cs:271-305 | the scan's result is at least 1 |
| Optimization.MaxCornerEstimateIsMax | Assets/Plugins/Numba/Paths/Path.cs:271-305 | the scan's result is the largest of 1 and the estimates at the corners of `ScanRange` |
| Optimization.OptimizedResolution | Assets/Plugins/Numba/Paths/Path.cs:307 | the installed resolution lies in `[4, 100]`: the truncated estimate when it lies in that range, 4 below 5, 100 from 100 on |
| Optimization.SmoothByGrows | Assets/Plugins/Numba/Paths/Path.cs:199-258 | segments found smooth at some tried resolution stay found smooth as the resolution grows |
| Optimization.FirstRough | Assets/Plugins/Numba/Paths/Path.cs:227-252 | the inner scan stops at or after its start segment and never moves back, which is why `currentSegment` never decreases. It moves only past segments that are smooth at this resolution, and stops on a rough one unless it reaches the end |
| Optimization.SearchFrom | Assets/Plugins/Numba/Paths/Path.cs:199-258 | the resolution the search ends with from resolution `i` and segment `current` lies in `i..100`, and it moves past `i` only when a segment from `current` on is rough at `i` |
| Optimization.AngleResolution | Assets/Plugins/Numba/Paths/Path.cs:197-258 | the resolution `OptimizeByAngle` installs, starting at 3 and segment 0, lies in `[3, 100]` |
| Optimization.SearchFromOutcome | Assets/Plugins/Numba/Paths/Path.cs:199-258 | from any intermediate state of the search, the final resolution `r` lies in `i..100` and every resolution in `3..r-1` found a rough segment. Either every segment has been found smooth at some resolution up to `r`, or the search gave up at 100 with a rough segment |
| Optimization.SmoothByIsSmoothAtEnd | Assets/Plugins/Numba/Paths/Path.cs:227-252 | if smoothness, once reached, persists at higher resolutions, every segment found smooth by the search is smooth at the final resolution |
| Optimization.PassedSegmentMayBeRoughAtEnd | Assets/Plugins/Numba/Paths/Path.cs:227-252 | without that persistence a segment the search moved past can be rough at the installed resolution: a concrete two-segment case installs 4 with segment 0 rough at 4 |
| Optimization.AngleResolutionOutcome | Assets/Plugins/Numba/Paths/Path.cs:197-258 | the resolution `OptimizeByAngle` installs lies in `[3, 100]`, with the same meaning |
| Paths.Path.constructor | Assets/Plugins/Numba/Paths/Path.cs:74-139 | a new component has no points, resolution 1, step 1, is open, has length 0, and satisfies the invariant |
| Paths.Path.SetNewSegmentsCalculator | Assets/Plugins/Numba/Paths/Path.cs:323 | selects calculator `min(entries, 3)` |
| Paths.Path.RecalculateSegmentLength | Assets/Plugins/Numba/Paths/Path.cs:335 | the current calculator rewrites exactly entry `segment`, with its value for the current points and step |
| Paths.Path.RecalculatePathLength | Assets/Plugins/Numba/Paths/Path.cs:337-344 | `length` becomes the sum of the drawable entries `i + shift`, `i < SegmentsCount` |
| Paths.Path.RecalculateAllSegments | Assets/Plugins/Numba/Paths/Path.cs:327-333 | every entry and the total length become exact |
| Paths.Path.RecalculateWrapped | Assets/Plugins/Numba/Paths/Path.cs:401-402 | the loop over `lo..hi` recomputes exactly the wrapped entries of that range and keeps every other entry |
| Paths.Path.RefreshAroundInsert | Assets/Plugins/Numba/Paths/Path.cs:399-405 | after an insertion into a path of four or more points, recomputing wrapped `index-2..index+1` and the length restores the invariant |
| Paths.Path.RefreshAroundRemove | Assets/Plugins/Numba/Paths/Path.cs:447-453 | after a removal leaving five or more points, recomputing wrapped `index-2..index` and the length restores the invariant |
| Paths.Path.RefreshAroundSet | Assets/Plugins/Numba/Paths/Path.cs:473-479 | after overwriting a point of a path of five or more points, recomputing wrapped `index-2..index+1` and the length restores the invariant |
| Paths.Path.AddPoint | Assets/Plugins/Numba/Paths/Path.cs:368-386 | appends the converted point, selects calculator `min(N, 3)`, and keeps the cache and length exact in both branches |
| Paths.Path.InsertPoint | Assets/Plugins/Numba/Paths/Path.cs:388-406 | an index outside `0..N` fails with nothing changed; otherwise inserts the converted point at `index`, selects calculator `min(N, 3)`, and keeps the cache and length exact |
| Paths.Path.RemovePointAt | Assets/Plugins/Numba/Paths/Path.cs:432-454 | an index outside `0..N-1` fails with nothing changed; otherwise removes that point, selects calculator `min(N, 3)`, and keeps the cache and length exact (length 0 once empty) |
| Paths.Path.RemovePoint | Assets/Plugins/Numba/Paths/Path.cs:420-430 | returns true exactly when the converted point is present, and then removes its first occurrence and selects calculator `min(N, 3)`; otherwise nothing changes |
| Paths.Path.ClearPoints | Assets/Plugins/Numba/Paths/Path.cs:456-462 | empties both lists, sets length 0, leaves the calculator index as it was, and keeps the invariant |
| Paths.Path.SetPoint | Assets/Plugins/Numba/Paths/Path.cs:466-480 | an index outside `0..N-1` fails with nothing changed; otherwise overwrites that point with the converted one and keeps the cache and length exact, with the calculator unchanged |
| Paths.Path.SetResolution | Assets/Plugins/Numba/Paths/Path.cs:101-111 | the resolution becomes the value clamped to `[1, 100]`, the step becomes its reciprocal, and every entry is recomputed for the new step |
| Paths.Path.SetLooped | Assets/Plugins/Numba/Paths/Path.cs:120-128 | sets the flag; recomputing only the length is enough to keep the invariant |
| Paths.Path.GetPointAtDistance | Assets/Plugins/Numba/Paths/Path.cs:549-574 | with fewer than two points it fails with `SegmentNotExist(-1)`. Otherwise it succeeds, and samples the unique segment that the clamped distance falls on, at the residual offset |
| Paths.Path.MaxCornerResolution | Assets/Plugins/Numba/Paths/Path.cs:271-305 | the scan loop computes the largest of 1 and the corner estimates over `ScanRange` |
| Paths.Path.Optimize | Assets/Plugins/Numba/Paths/Path.cs:263-308 | fewer than three points give resolution 1. Otherwise the resolution becomes the truncated maximal estimate, raised to 4 and capped at 100. The step is its reciprocal and the cache stays exact |
| Paths.Path.BeginResolution | Assets/Plugins/Numba/Paths/Path.cs:199-225 | starts a search round: resolution `i` and step `1 / i` |
| Paths.Path.ScanSegments | Assets/Plugins/Numba/Paths/Path.cs:227-252 | the inner loop stops at `FirstRough` from its start segment |
| Paths.Path.SearchRound | Assets/Plugins/Numba/Paths/Path.cs:199-252 | one round: resolution `i`, step `1 / i`, and the next segment to resume at |
| Paths.Path.SearchResolution | Assets/Plugins/Numba/Paths/Path.cs:197-258 | the resolution loop ends with the resolution `AngleResolution` defines, and the step as its reciprocal |
| Paths.Path.OptimizeByAngle | Assets/Plugins/Numba/Paths/Path.cs:181-261 | fewer than three points: resolution 1, everything else unchanged. Otherwise the resolution is the search's outcome in `[3, 100]` (`AngleResolutionOutcome`), the step is its reciprocal, and the cache is recomputed exactly |

## Left out

- Floating point. Positions, distances, the sampled spline walks (`t += step`), normalisation, interpolation and angles all belong to `Geometry`, and their rounding is not modelled. Lengths are exact reals, so `Length` is an exact sum, and the comparisons `distance == 0` and `distance == length` are exact.
- `CatmullRomSpline` is not part of this model. The sampled span length is the opaque non-negative `splineLength(step, p0, p1, p2, p3)`, and the sampled position is `splinePoint`.
- Transforms. `transform.TransformPoint` and `InverseTransformPoint` are the opaque `toWorld` and `toLocal` of `Geometry`.
- The corner heuristic of `Optimize` (dot products, aspect ratio, damping) is the opaque `cornerResolution`. NaN and infinite estimates are not modelled. `Paths.Path.Optimize` also does not model an estimate too large for `int`, which C# would cast to an unspecified value.
- The angle test of `OptimizeByAngle` is an opaque `rough(resolution, segment)`. The real test also depends on the direction carried from the previous sample and segment, on `maxAngle`, and on the cache entries that `GetPoint` reads during the search, which on an open path can be stale. So the model does not capture how those entries influence the installed resolution. The model checks each segment-and-resolution pair independently.
- Paths.Path.BeginResolution: states only the new resolution and step, not which cache entries it rewrites; the cache during the search is left unspecified because `OptimizeByAngle` recomputes every entry at the end.
- Paths.Path.ScanSegments: states where the scan stops, not the cache entries it rewrites on the way, for the same reason.
- Paths.Path.SearchRound: states the round's resolution, step and stopping segment, not the intermediate cache.
- Paths.Path.SearchResolution: states the final resolution and step, not the intermediate cache.
- Paths.Path.GetPointAtDistance: requires the class invariant. The component keeps that invariant in every public operation, and the result is stated only for states that satisfy it.
- Exceptions are values. A thrown exception becomes a `Result`/`Outcome` error: out-of-range list indices, a missing segment, an empty path. The message text is not modelled.
- `ZeroSegmentsCalculator` is selected only for an empty path. An empty path has no entry, so the calculator is never run, and no method of the model runs it.
- Unity object creation. The `Create` overloads, `CreatePathFromMenu` and the `[MenuItem]` registration build a `GameObject` and add points with `AddPoint`. They are left out as host plumbing.
- Serialisation, including the `Length` field that is not serialised while the caches are. The `SerializeField` attributes and the cached calculator array are not modelled.
- The `#if UNITY_EDITOR` guard around `WrapIndex` only decides whether the helper exists in a build, so it has no modellable behaviour.
- Trivial reads are not modelled separately: `PointsCount`, `ContainsPoint`, `IndexOfPoint`, `GetPoint(index, useGlobal)` and the property getters. Each is one list access or one field read.
- The editor inspector (`Editor/PathInspector.cs`) and the demo script `Scripts/Test.cs` are UI and scheduling, outside this model.
