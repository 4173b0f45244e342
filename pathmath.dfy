/**
 * Integer helpers of `Path.cs`: C#'s truncating remainder, the circular
 * index built from it, and the clamps the setters and queries use.
 */
module PathMath {

  function Abs(x: int): nat
  {
    if x < 0 then -x else x
  }

  function Min(a: int, b: int): int
  {
    if a <= b then a else b
  }

  function Max(a: int, b: int): int
  {
    if a >= b then a else b
  }

  /** `Math.Clamp(value, lo, hi)` on integers. */
  function Clamp(value: int, lo: int, hi: int): (r: int)
    requires lo <= hi
    ensures lo <= r <= hi
    ensures lo <= value <= hi ==> r == value
    ensures value < lo ==> r == lo
    ensures value > hi ==> r == hi
  {
    if value < lo then lo else if value > hi then hi else value
  }

  /** `Mathf.Clamp(value, lo, hi)` on (exact) reals; it tests the lower bound first. */
  function ClampReal(value: real, lo: real, hi: real): (r: real)
    ensures lo <= hi ==> lo <= r <= hi
    ensures lo <= value <= hi ==> r == value
    ensures value < lo ==> r == lo
    ensures lo <= hi < value ==> r == hi
  {
    if value < lo then lo else if value > hi then hi else value
  }

  /**
   * C#'s `a % b`: the remainder of division truncated toward zero, so it takes
   * the sign of the dividend (unlike Dafny's `%`, whose result is never negative).
   */
  function CsRemainder(a: int, b: int): (r: int)
    requires b != 0
    ensures Abs(r) < Abs(b)
    ensures a >= 0 ==> r >= 0
    ensures a <= 0 ==> r <= 0
  {
    var m := Abs(a) % Abs(b);
    if a < 0 then -m else m
  }

  /** A positive multiple of a positive number is at least that number. */
  lemma {:induction false} MultipleAtLeast(d: int, n: int)
    requires d >= 1 && n > 0
    ensures d * n >= n
    decreases d
  {
    if d > 1 {
      MultipleAtLeast(d - 1, n);
      assert d * n == (d - 1) * n + n;
    }
  }

  /** Euclidean division has a unique remainder. */
  lemma ModUnique(a: int, n: int, q: int, r: int)
    requires n > 0 && 0 <= r < n && a == q * n + r
    ensures a % n == r
  {
    var q0, r0 := a / n, a % n;
    assert a == q0 * n + r0;
    assert (q - q0) * n == r0 - r;
    if q > q0 {
      MultipleAtLeast(q - q0, n);
    } else if q < q0 {
      MultipleAtLeast(q0 - q, n);
    }
  }

  /** Adding `n` back to C#'s remainder lands in the Euclidean residue class of `a`. */
  lemma CsRemainderShifted(a: int, n: int)
    requires n > 0
    ensures 0 < CsRemainder(a, n) + n < 2 * n
    ensures (CsRemainder(a, n) + n) % n == a % n
  {
    var m := (if a < 0 then -a else a) % n;
    var q := (if a < 0 then -a else a) / n;
    assert (if a < 0 then -a else a) == q * n + m;
    if a >= 0 {
      ModUnique(a, n, q, m);
      ModUnique(m + n, n, 1, m);
    } else if m == 0 {
      ModUnique(a, n, -q, 0);
      ModUnique(-m + n, n, 1, 0);
    } else {
      ModUnique(a, n, -q - 1, n - m);
      ModUnique(-m + n, n, 0, n - m);
    }
  }

  /**
   * `Path.WrapIndex`: `((index % count) + count) % count` with C#'s truncating
   * remainder at both steps. It maps every integer, negative ones included,
   * to the Euclidean residue of `index` modulo `count`.
   */
  function WrapIndex(index: int, count: int): (r: int)
    requires count > 0
    ensures 0 <= r < count
    ensures r == index % count
  {
    CsRemainderShifted(index, count);
    var s := CsRemainder(index, count) + count;
    ModUnique(s, count, s / count, s % count);
    CsRemainder(s, count)
  }

  /**
   * The circular index of a number at most one lap outside `[0, count)`,
   * written without division; every wrapped index the path computes is of
   * this kind.
   */
  function CircularIndex(index: int, count: int): (r: int)
    requires count > 0 && -count <= index < 2 * count
    ensures 0 <= r < count
  {
    if index < 0 then index + count else if index >= count then index - count else index
  }

  /** Near the range `[0, count)`, `WrapIndex` is a single correction by `count`. */
  lemma WrapNear(index: int, count: int)
    requires count > 0 && -count <= index < 2 * count
    ensures WrapIndex(index, count) == CircularIndex(index, count)
  {
    if index < 0 {
      ModUnique(index, count, -1, index + count);
    } else if index >= count {
      ModUnique(index, count, 1, index - count);
    } else {
      ModUnique(index, count, 0, index);
    }
  }

  /** An `int` cast of a non-negative float truncates toward zero, i.e. takes the floor. */
  function TruncateToInt(x: real): (r: int)
    requires x >= 0.0
    ensures r as real <= x < r as real + 1.0
    ensures r >= 0
  {
    x.Floor
  }
}
