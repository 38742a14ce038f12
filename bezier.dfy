/** Points and the textbook (Bernstein) form of a cubic Bezier curve: the
    reference the kernel's monomial arithmetic is proved against. */
module Bezier {
  import Numerical

  datatype Point = Point(x: real, y: real)

  function Sub(p: Point, q: Point): Point { Point(p.x - q.x, p.y - q.y) }
  function Add(p: Point, q: Point): Point { Point(p.x + q.x, p.y + q.y) }
  function Scale(k: real, p: Point): Point { Point(k * p.x, k * p.y) }
  function Dot(p: Point, q: Point): real { p.x * q.x + p.y * q.y }
  function Cross(p: Point, q: Point): real { p.x * q.y - p.y * q.x }

  // Sign facts about products are stated on function applications: the solver
  // cannot derive the sign of a square written out as x * x by itself.
  function Product(a: real, b: real): real { a * b }

  lemma ProductSign(a: real, b: real)
    ensures a > 0.0 && b > 0.0 ==> Product(a, b) > 0.0
    ensures a < 0.0 && b < 0.0 ==> Product(a, b) > 0.0
    ensures a >= 0.0 && b >= 0.0 ==> Product(a, b) >= 0.0
  {
  }

  function Square(r: real): real { r * r }

  lemma SquareSign(r: real)
    ensures Square(r) >= 0.0
    ensures r != 0.0 ==> Square(r) > 0.0
  {
    ProductSign(r, r);
    assert Square(r) == Product(r, r);
  }

  /** |p|^2 is non-negative, and positive unless p is the origin. */
  lemma DotSelf(p: Point)
    ensures Dot(p, p) >= 0.0
    ensures p != Point(0.0, 0.0) ==> Dot(p, p) > 0.0
  {
    SquareSign(p.x);
    SquareSign(p.y);
  }

  /** The parameter of q's orthogonal projection onto the direction v: v.q / v.v. */
  function Projection(v: Point, q: Point): real
    requires v != Point(0.0, 0.0)
  {
    DotSelf(v);
    Dot(v, q) / Dot(v, v)
  }

  lemma ProjectionOfMultiple(v: Point, k: real, q: Point)
    requires v != Point(0.0, 0.0)
    ensures Projection(v, Add(Scale(k, v), q)) == k + Projection(v, q)
  {
    DotSelf(v);
    var vv := Dot(v, v);
    assert Dot(v, Add(Scale(k, v), q)) == k * vv + Dot(v, q);
    Numerical.QuotientOfSum(k * vv, Dot(v, q), vv);
    Numerical.QuotientOfMultiple(k, vv);
  }

  lemma ProjectionOfScale(v: Point, k: real)
    requires v != Point(0.0, 0.0)
    ensures Projection(v, Scale(k, v)) == k
  {
    DotSelf(v);
    var vv := Dot(v, v);
    assert Dot(v, Scale(k, v)) == k * vv;
    assert k * vv / vv == k;
  }

  /** A multiple of v is parallel to v. */
  lemma CrossOfMultiple(v: Point, k: real)
    ensures Cross(v, Scale(k, v)) == 0.0
  {
    assert v.x * (k * v.y) - v.y * (k * v.x) == 0.0;
  }

  /** A curve as the kernel passes it: [x0, y0, x1, y1, x2, y2, x3, y3], the
      anchor P0, the controls P1 and P2 and the anchor P3, absolute coordinates. */
  type CurveValues = v: seq<real> | |v| == 8
    witness [0.0, 0.0, 0.0, 0.0, 0.0, 0.0, 0.0, 0.0]

  function P0(v: CurveValues): Point { Point(v[0], v[1]) }
  function P1(v: CurveValues): Point { Point(v[2], v[3]) }
  function P2(v: CurveValues): Point { Point(v[4], v[5]) }
  function P3(v: CurveValues): Point { Point(v[6], v[7]) }

  function Values(p0: Point, p1: Point, p2: Point, p3: Point): (v: CurveValues)
    ensures P0(v) == p0 && P1(v) == p1 && P2(v) == p2 && P3(v) == p3
  {
    [p0.x, p0.y, p1.x, p1.y, p2.x, p2.y, p3.x, p3.y]
  }

  // One coordinate of the curve, its first and its second derivative, in Bernstein form.
  function Bernstein(p0: real, p1: real, p2: real, p3: real, t: real): real {
    var u := 1.0 - t;
    u * u * u * p0 + 3.0 * u * u * t * p1 + 3.0 * u * t * t * p2 + t * t * t * p3
  }
  function BernsteinDerivative(p0: real, p1: real, p2: real, p3: real, t: real): real {
    var u := 1.0 - t;
    3.0 * u * u * (p1 - p0) + 6.0 * u * t * (p2 - p1) + 3.0 * t * t * (p3 - p2)
  }
  function BernsteinSecondDerivative(p0: real, p1: real, p2: real, p3: real, t: real): real {
    var u := 1.0 - t;
    6.0 * u * (p2 - 2.0 * p1 + p0) + 6.0 * t * (p3 - 2.0 * p2 + p1)
  }

  /** B(t), B'(t) and B''(t) of the curve v. */
  function PointAt(v: CurveValues, t: real): Point {
    Point(Bernstein(v[0], v[2], v[4], v[6], t), Bernstein(v[1], v[3], v[5], v[7], t))
  }
  function DerivativeAt(v: CurveValues, t: real): Point {
    Point(BernsteinDerivative(v[0], v[2], v[4], v[6], t),
          BernsteinDerivative(v[1], v[3], v[5], v[7], t))
  }
  function SecondDerivativeAt(v: CurveValues, t: real): Point {
    Point(BernsteinSecondDerivative(v[0], v[2], v[4], v[6], t),
          BernsteinSecondDerivative(v[1], v[3], v[5], v[7], t))
  }

  /** The monomial coefficients used by evaluateCurve and getPeaks:
      B(t) = ((a t + b) t + c) t + p0. */
  function CubicA(p0: real, p1: real, p2: real, p3: real): real { p3 - p0 - CubicC(p0, p1) - CubicB(p0, p1, p2) }
  function CubicB(p0: real, p1: real, p2: real): real { 3.0 * (p2 - p1) - CubicC(p0, p1) }
  function CubicC(p0: real, p1: real): real { 3.0 * (p1 - p0) }

  lemma MonomialMatchesBernstein(p0: real, p1: real, p2: real, p3: real, t: real)
    ensures var a, b, c := CubicA(p0, p1, p2, p3), CubicB(p0, p1, p2), CubicC(p0, p1);
      && ((a * t + b) * t + c) * t + p0 == Bernstein(p0, p1, p2, p3, t)
      && (3.0 * a * t + 2.0 * b) * t + c == BernsteinDerivative(p0, p1, p2, p3, t)
      && 6.0 * a * t + 2.0 * b == BernsteinSecondDerivative(p0, p1, p2, p3, t)
  {
    var u := 1.0 - t;
    assert u * u * u == 1.0 - 3.0 * t + 3.0 * t * t - t * t * t;
    assert u * u * t == t - 2.0 * t * t + t * t * t;
    assert u * t * t == t * t - t * t * t;
    assert u * u == 1.0 - 2.0 * t + t * t;
    assert u * t == t - t * t;
  }

  /** At its ends the Bernstein form is exactly the anchor, and its derivative
      the scaled handle. */
  lemma BernsteinEnds(p0: real, p1: real, p2: real, p3: real)
    ensures Bernstein(p0, p1, p2, p3, 0.0) == p0 && Bernstein(p0, p1, p2, p3, 1.0) == p3
    ensures BernsteinDerivative(p0, p1, p2, p3, 0.0) == 3.0 * (p1 - p0)
    ensures BernsteinDerivative(p0, p1, p2, p3, 1.0) == 3.0 * (p3 - p2)
  {
  }
}
