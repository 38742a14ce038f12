/** The numerical collaborators the curve kernel calls but does not define:
    `Math.sqrt` and `Math.pow`, and from the `Numerical` utility its epsilon
    constants, `isZero`, `integrate`, `findRoot` and `solveCubic`. Their code is
    not part of this model: each is a field of `Numerics`, and `Valid()` states
    only what the kernel relies on. */
module Numerical {

  /** One step of the bracketed root search behind `findRoot`: whether it has
      converged, the next candidate and the narrowed bracket. */
  datatype RootStep = RootStep(done: bool, x: real, lo: real, hi: real)

  datatype Numerics = Numerics(
    epsilon: real,                 // Numerical.EPSILON
    geometricEpsilon: real,        // Numerical.GEOMETRIC_EPSILON
    curveTimeEpsilon: real,        // Numerical.CURVETIME_EPSILON
    trigonometricEpsilon: real,    // Numerical.TRIGONOMETRIC_EPSILON (used by Point.isCollinear)
    isZero: real -> bool,          // Numerical.isZero
    sqrt: real -> real,            // Math.sqrt
    pow: (real, real) -> real,     // Math.pow
    // Numerical.integrate(f, a, b, n): a fixed-order quadrature of f over [a, b]
    integrate: (real -> real, real, real, int) -> real,
    // the update rule of Numerical.findRoot: (x, f(x), f'(x), lo, hi, tolerance) -> step
    rootStep: (real, real, real, real, real, real) -> RootStep,
    // Numerical.solveCubic(a, b, c, d, roots, min, max), returning the roots it writes
    solveCubic: (real, real, real, real, real, real) -> seq<real>)
  {
    ghost predicate Valid() {
      && epsilon > 0.0
      && geometricEpsilon > 0.0
      && trigonometricEpsilon >= 0.0
      && 0.0 < curveTimeEpsilon < 0.5
      // zero is zero, whatever the tolerance
      && isZero(0.0)
      // Math.sqrt on the non-negative reals
      && (forall x: real :: x >= 0.0 ==> sqrt(x) >= 0.0 && sqrt(x) * sqrt(x) == x)
      // Math.pow(x, 3 / 2) on the non-negative reals: non-negative, and zero only at zero
      && (forall x: real :: x >= 0.0 ==> pow(x, 1.5) >= 0.0 && (pow(x, 1.5) == 0.0 <==> x == 0.0))
      // a step of the root search never widens a proper bracket
      && (forall x, fx, dfx, lo, hi, tol ::
            lo <= hi ==> lo <= rootStep(x, fx, dfx, lo, hi, tol).lo
                          <= rootStep(x, fx, dfx, lo, hi, tol).hi <= hi)
      // solveCubic reports at most three roots, each a root of the cubic inside [min, max]
      && (forall a, b, c, d, min, max ::
            CubicRoots(solveCubic(a, b, c, d, min, max), a, b, c, d, min, max))
    }
  }

  /** A step of the root search keeps the candidate bracket inside the old one. */
  lemma RootStepNarrows(num: Numerics, x: real, fx: real, dfx: real, lo: real, hi: real, tol: real)
    requires num.Valid() && lo <= hi
    ensures var step := num.rootStep(x, fx, dfx, lo, hi, tol); lo <= step.lo <= step.hi <= hi
  {
  }

  /** `roots` is what a cubic solver may report for a t^3 + b t^2 + c t + d on [min, max]. */
  ghost predicate CubicRoots(roots: seq<real>, a: real, b: real, c: real, d: real, min: real, max: real) {
    && |roots| <= 3
    && forall i :: 0 <= i < |roots| ==>
         min <= roots[i] <= max && ((a * roots[i] + b) * roots[i] + c) * roots[i] + d == 0.0
  }

  /** Numerical.clamp: the value, moved into [min, max] when it lies outside. */
  function Clamp(x: real, min: real, max: real): (r: real)
    ensures min <= max ==> min <= r <= max
    ensures min <= x <= max ==> r == x
  {
    if x < min then min else if x > max then max else x
  }

  function Abs(x: real): (r: real)
    ensures r >= 0.0 && (r == x || r == -x)
  {
    if x < 0.0 then -x else x
  }

  /** Math.ceil on the reals. */
  function Ceil(x: real): (r: int)
    ensures r as real - 1.0 < x <= r as real
  {
    if x == x.Floor as real then x.Floor else x.Floor + 1
  }

  // Facts about quotients, each on its own so that the solver meets them one at a time.
  lemma QuotientNonNegative(a: real, b: real)
    requires a >= 0.0 && b > 0.0
    ensures a / b >= 0.0
  {
  }

  lemma QuotientLess(a: real, b: real, c: real)
    requires b > 0.0
    ensures a / b < c <==> a < c * b
  {
  }

  lemma QuotientOfSum(a: real, c: real, b: real)
    requires b != 0.0
    ensures (a + c) / b == a / b + c / b
  {
  }

  lemma QuotientOfMultiple(k: real, b: real)
    requires b != 0.0
    ensures k * b / b == k
  {
  }

  lemma QuotientProduct(a: real, b: real, c: real, d: real)
    requires b != 0.0 && d != 0.0
    ensures (a / b) * (c / d) == (a * c) / (b * d)
  {
  }

  lemma QuotientSign(a: real, b: real)
    requires b > 0.0
    ensures a / b == 0.0 <==> a == 0.0
    ensures a / b > 0.0 <==> a > 0.0
  {
    QuotientLess(a, b, 0.0);
    QuotientLess(-a, b, 0.0);
    assert (-a) / b == -(a / b);
  }

  /** Math.sqrt of a positive number is positive. */
  lemma SqrtPositive(num: Numerics, x: real)
    requires num.Valid() && x > 0.0
    ensures num.sqrt(x) > 0.0
  {
    assert num.sqrt(x) * num.sqrt(x) == x;
  }

  /** Math.sqrt of a perfect square is its non-negative root. */
  lemma SqrtOfSquare(num: Numerics, r: real)
    requires num.Valid() && r >= 0.0
    ensures num.sqrt(r * r) == r
  {
    var s := num.sqrt(r * r);
    assert s >= 0.0 && s * s == r * r;
    assert (s - r) * (s + r) == 0.0;
    if s + r == 0.0 {
      assert s == 0.0 && r == 0.0;
    } else {
      assert s - r == (s - r) * (s + r) / (s + r);
    }
  }
}
