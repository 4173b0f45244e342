/**
 * The floating-point geometry a path relies on, kept abstract.
 *
 * A control point is a 3-D vector whose coordinates the model never inspects;
 * every computation on coordinates (Euclidean distance, Catmull-Rom
 * evaluation, normalisation, interpolation, the host transform) is a field of
 * a `Geometry` value that the path is built with. Only the facts the path's
 * bookkeeping relies on are stated: distances and sampled spline lengths are
 * never negative.
 */
module Geometry {

  /** A 3-D vector (Unity's `Vector3`); compared with exact equality, as `List.IndexOf` does. */
  type Point(==, !new)

  /** `Vector3.Distance`. */
  type DistanceFn = f: (Point, Point) -> real
    | forall a, b :: f(a, b) >= 0.0
    witness (a: Point, b: Point) => 0.0

  /**
   * The polyline length of one Catmull-Rom span sampled from t = 0 to t = 1
   * in increments of `step` (the body of `ManySegmentsCalculator.CalculateLength`),
   * as a function of the step and the four control points.
   */
  type SplineLengthFn = f: (real, Point, Point, Point, Point) -> real
    | forall step, p0, p1, p2, p3 :: f(step, p0, p1, p2, p3) >= 0.0
    witness (step: real, p0: Point, p1: Point, p2: Point, p3: Point) => 0.0

  datatype Geometry = Geometry(
    /** Euclidean distance between two points. */
    distance: DistanceFn,
    /** Sampled arc length of the span p1..p2 with tangent points p0, p3. */
    splineLength: SplineLengthFn,
    /**
     * The point reached by walking `distance` along the same sampled polyline
     * (increments of `step`), interpolating inside the last sub-span.
     */
    splinePoint: (real, real, Point, Point, Point, Point) -> Point,
    /** `from + (to - from).normalized * distance`. */
    lineMove: (Point, Point, real) -> Point,
    /**
     * The resolution estimate `Optimize` computes at one corner from its
     * previous neighbour, the corner itself and its next neighbour.
     */
    cornerResolution: (Point, Point, Point) -> real,
    /** `transform.TransformPoint`: local space to world space. */
    toWorld: Point -> Point,
    /** `transform.InverseTransformPoint`: world space to local space. */
    toLocal: Point -> Point)

  /** A point handed in by a caller, converted to local space when it is global. */
  function ToLocal(g: Geometry, p: Point, useGlobal: bool): Point
  {
    if useGlobal then g.toLocal(p) else p
  }

  /** A stored point handed back to a caller, converted to world space when asked. */
  function ToGlobal(g: Geometry, p: Point, useGlobal: bool): Point
  {
    if useGlobal then g.toWorld(p) else p
  }
}
