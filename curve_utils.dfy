/** The cubic Bezier kernel of src/path/CurveUtils.js: classification,
    subdivision, straightness, arc length and its inversion, evaluation and
    curvature peaks. Every operation takes the curve as its 8 values. */
module CurveUtils {
  import opened Wrappers
  import opened Numerical
  import opened Bezier

  // ---------------------------------------------------------------------------
  // classify
  // ---------------------------------------------------------------------------

  datatype CurveType = Line | Quadratic | Serpentine | Cusp | Loop | Arch

  /** The `{ type, roots }` record classify returns; `roots` is `null` or an array. */
  datatype Classification = Classification(kind: CurveType, roots: Option<seq<real>>)

  /** The candidate roots handed to the inner `type` function: none (both
      arguments undefined), one (the second undefined) or two. */
  datatype Candidates = NoRoots | OneRoot(t1: real) | TwoRoots(t1: real, t2: real)

  predicate Interior(t: real) { 0.0 < t < 1.0 }

  /** The candidates that lie strictly inside (0, 1). */
  function InteriorCandidates(c: Candidates): set<real> {
    match c
    case NoRoots => {}
    case OneRoot(t1) => if Interior(t1) then {t1} else {}
    case TwoRoots(t1, t2) =>
      (if Interior(t1) then {t1} else {}) + (if Interior(t2) then {t2} else {})
  }

  /** Roots, when present, are one or two parameters strictly inside (0, 1), ascending. */
  predicate RootsWellFormed(c: Classification) {
    match c.roots
    case None => true
    case Some(rs) =>
      && 1 <= |rs| <= 2
      && (forall i :: 0 <= i < |rs| ==> Interior(rs[i]))
      && (|rs| == 2 ==> rs[0] <= rs[1])
  }

  /** The inner `type(type, t1, t2)` of classify: keeps the candidates inside
      (0, 1), and degrades a curve with candidates to an arch when none is
      inside, or when it is a loop and not both are. */
  function ClassifyAs(kind: CurveType, c: Candidates): (r: Classification)
    requires kind != Arch
    ensures RootsWellFormed(r)
    ensures c.NoRoots? ==> r == Classification(kind, None)
    ensures !c.NoRoots? ==>
      ((r.kind == Arch) <==> (InteriorCandidates(c) == {} || (kind == Loop && !(c.TwoRoots? && Interior(c.t1) && Interior(c.t2)))))
    ensures r.kind == Arch ==> r.roots.None?
    ensures r.kind != Arch ==> r.kind == kind
    ensures r.roots.Some? ==> forall i :: 0 <= i < |r.roots.value| ==> r.roots.value[i] in InteriorCandidates(c)
    ensures r.roots.Some? ==> forall t :: t in InteriorCandidates(c) ==> t in r.roots.value
    ensures !c.NoRoots? && r.kind != Arch ==> r.roots.Some?
  {
    var hasRoots := !c.NoRoots?;
    var t1Ok := hasRoots && Interior(c.t1);
    var t2Ok := c.TwoRoots? && Interior(c.t2);
    if hasRoots && (!(t1Ok || t2Ok) || (kind == Loop && !(t1Ok && t2Ok))) then
      Classification(Arch, None)
    else
      Classification(kind,
        if t1Ok || t2Ok then
          if t1Ok && t2Ok then
            Some(if c.t1 < c.t2 then [c.t1, c.t2] else [c.t2, c.t1])
          else
            Some([if t1Ok then c.t1 else c.t2])
        else None)
  }

  /** The coefficients (d1, d2, d3) of the inflection polynomial
      I(t) = 3 d1 t^2 - 3 d2 t + d3 (Loop and Blinn), scaled to unit length,
      or left at zero when they are all zero. */
  function InflectionCoefficients(num: Numerics, v: CurveValues): (real, real, real) {
    var x0, y0, x1, y1, x2, y2, x3, y3 := v[0], v[1], v[2], v[3], v[4], v[5], v[6], v[7];
    var a1 := x0 * (y3 - y2) + y0 * (x2 - x3) + x3 * y2 - y3 * x2;
    var a2 := x1 * (y0 - y3) + y1 * (x3 - x0) + x0 * y3 - y0 * x3;
    var a3 := x2 * (y1 - y0) + y2 * (x0 - x1) + x1 * y0 - y1 * x0;
    var d3 := 3.0 * a3;
    var d2 := d3 - a2;
    var d1 := d2 - a2 + a1;
    var l := num.sqrt(d1 * d1 + d2 * d2 + d3 * d3);
    var s := if l != 0.0 then 1.0 / l else 0.0;
    (d1 * s, d2 * s, d3 * s)
  }

  function Discriminant(d1: real, d2: real, d3: real): real {
    3.0 * d2 * d2 - 4.0 * d1 * d3
  }

  /** classify(v): the Loop-Blinn case split on the normalized coefficients. */
  function Classify(num: Numerics, v: CurveValues): (r: Classification)
    requires num.isZero(0.0)
    ensures RootsWellFormed(r)
    ensures r.roots.None? <==> r.kind in {Line, Quadratic, Arch}
    ensures r.kind == Loop ==> |r.roots.value| == 2
    ensures r.kind == Cusp ==> |r.roots.value| == 1
  {
    var (d1, d2, d3) := InflectionCoefficients(num, v);
    ClassifyCoefficients(num, d1, d2, d3)
  }

  /** The branches of classify after the coefficients have been normalized. */
  function ClassifyCoefficients(num: Numerics, d1: real, d2: real, d3: real): (r: Classification)
    requires num.isZero(0.0)
    ensures RootsWellFormed(r)
    ensures r.roots.None? <==> r.kind in {Line, Quadratic, Arch}
    ensures r.kind == Loop ==> |r.roots.value| == 2
    ensures r.kind == Cusp ==> |r.roots.value| == 1
  {
    if num.isZero(d1) then
      if num.isZero(d2) then
        ClassifyAs(if num.isZero(d3) then Line else Quadratic, NoRoots)
      else
        ClassifyAs(Serpentine, OneRoot(d3 / (3.0 * d2)))
    else
      var d := Discriminant(d1, d2, d3);
      if num.isZero(d) then
        ClassifyAs(Cusp, OneRoot(d2 / (2.0 * d1)))
      else
        var f1 := if d > 0.0 then num.sqrt(d / 3.0) else num.sqrt(-d);
        var f2 := 2.0 * d1;
        ClassifyAs(if d > 0.0 then Serpentine else Loop, TwoRoots((d2 + f1) / f2, (d2 - f1) / f2))
  }

  function Inflection(d1: real, d2: real, d3: real, t: real): real {
    3.0 * d1 * t * t - 3.0 * d2 * t + d3
  }

  /** The parameters of a loop's double point solve this quadratic. */
  function DoublePoint(d1: real, d2: real, d3: real, t: real): real {
    d1 * d1 * t * t - d1 * d2 * t + d2 * d2 - d1 * d3
  }

  /** The case split of classify on the coefficient tests, the degraded
      outcomes included. */
  lemma ClassifyCases(num: Numerics, v: CurveValues)
    requires num.isZero(0.0)
    ensures var (d1, d2, d3) := InflectionCoefficients(num, v);
      var d := Discriminant(d1, d2, d3);
      var r := Classify(num, v);
      && (num.isZero(d1) && num.isZero(d2) ==>
            r == Classification(if num.isZero(d3) then Line else Quadratic, None))
      && (num.isZero(d1) && !num.isZero(d2) ==>
            r.kind in {Serpentine, Arch} && (r.kind == Serpentine <==> Interior(d3 / (3.0 * d2)))
            && (r.kind == Serpentine ==> r.roots == Some([d3 / (3.0 * d2)])))
      && (!num.isZero(d1) && num.isZero(d) ==>
            r.kind in {Cusp, Arch} && (r.kind == Cusp <==> Interior(d2 / (2.0 * d1)))
            && (r.kind == Cusp ==> r.roots == Some([d2 / (2.0 * d1)])))
      && (!num.isZero(d1) && !num.isZero(d) && d > 0.0 ==> r.kind in {Serpentine, Arch})
      && (!num.isZero(d1) && !num.isZero(d) && d < 0.0 ==> r.kind in {Loop, Arch})
  {
  }

  /** Every root classify reports is exact for its type: a serpentine's roots
      are zeros of the inflection polynomial, a loop's roots are the two
      parameters of its double point, and a cusp's root misses the inflection
      polynomial by exactly -d / (4 d1), which the cusp test has found to be
      (nearly) zero. */
  lemma ClassifyRootsAreExact(num: Numerics, v: CurveValues)
    requires num.Valid()
    ensures var (d1, d2, d3) := InflectionCoefficients(num, v);
      RootsExact(num, Classify(num, v), d1, d2, d3)
  {
    var (d1, d2, d3) := InflectionCoefficients(num, v);
    CoefficientRootsAreExact(num, d1, d2, d3);
  }

  /** Every reported root is exact for its type, on the normalized
      coefficients; a d1 that isZero accepts is taken as zero, as classify
      itself does when it solves the inflection polynomial as linear. */
  ghost predicate RootsExact(num: Numerics, r: Classification, d1: real, d2: real, d3: real) {
    r.roots.Some? ==> forall i :: 0 <= i < |r.roots.value| ==>
      var t := r.roots.value[i];
      && (r.kind == Serpentine ==> Inflection(if num.isZero(d1) then 0.0 else d1, d2, d3, t) == 0.0)
      && (r.kind == Loop ==> DoublePoint(d1, d2, d3, t) == 0.0)
      && (r.kind == Cusp ==> 4.0 * d1 * Inflection(d1, d2, d3, t) == -Discriminant(d1, d2, d3))
  }

  lemma CoefficientRootsAreExact(num: Numerics, d1: real, d2: real, d3: real)
    requires num.Valid()
    ensures RootsExact(num, ClassifyCoefficients(num, d1, d2, d3), d1, d2, d3)
  {
    if num.isZero(d1) {
      if !num.isZero(d2) {
        LinearRootIsExact(num, d1, d2, d3);
      }
    } else if num.isZero(Discriminant(d1, d2, d3)) {
      CuspRootIsExact(num, d1, d2, d3);
    } else {
      QuadraticRootsAreExact(num, d1, d2, d3);
    }
  }

  lemma LinearRootIsExact(num: Numerics, d1: real, d2: real, d3: real)
    requires num.Valid() && num.isZero(d1) && !num.isZero(d2)
    ensures RootsExact(num, ClassifyCoefficients(num, d1, d2, d3), d1, d2, d3)
  {
    var t := d3 / (3.0 * d2);
    assert t * (3.0 * d2) == d3;
    assert Inflection(0.0, d2, d3, t) == 0.0;
    ExactFromCandidates(num, Serpentine, OneRoot(t), d1, d2, d3);
  }

  lemma CuspRootIsExact(num: Numerics, d1: real, d2: real, d3: real)
    requires num.Valid() && !num.isZero(d1) && num.isZero(Discriminant(d1, d2, d3))
    ensures RootsExact(num, ClassifyCoefficients(num, d1, d2, d3), d1, d2, d3)
  {
    CuspRootResidual(d1, d2, d3);
    ExactFromCandidates(num, Cusp, OneRoot(d2 / (2.0 * d1)), d1, d2, d3);
  }

  lemma QuadraticRootsAreExact(num: Numerics, d1: real, d2: real, d3: real)
    requires num.Valid() && !num.isZero(d1) && !num.isZero(Discriminant(d1, d2, d3))
    ensures RootsExact(num, ClassifyCoefficients(num, d1, d2, d3), d1, d2, d3)
  {
    var d := Discriminant(d1, d2, d3);
    var f1 := if d > 0.0 then num.sqrt(d / 3.0) else num.sqrt(-d);
    var f2 := 2.0 * d1;
    if d > 0.0 {
      assert f1 * f1 == d / 3.0;
      TwoRootsOfInflection(d1, d2, d3, f1);
      ExactFromCandidates(num, Serpentine, TwoRoots((d2 + f1) / f2, (d2 - f1) / f2), d1, d2, d3);
    } else {
      assert f1 * f1 == -d;
      TwoRootsOfDoublePoint(d1, d2, d3, f1);
      ExactFromCandidates(num, Loop, TwoRoots((d2 + f1) / f2, (d2 - f1) / f2), d1, d2, d3);
    }
  }

  /** Exactness of the reported roots follows from exactness of the candidates. */
  lemma ExactFromCandidates(num: Numerics, kind: CurveType, c: Candidates, d1: real, d2: real, d3: real)
    requires kind != Arch
    requires forall t :: t in InteriorCandidates(c) ==>
      && (kind == Serpentine ==> Inflection(if num.isZero(d1) then 0.0 else d1, d2, d3, t) == 0.0)
      && (kind == Loop ==> DoublePoint(d1, d2, d3, t) == 0.0)
      && (kind == Cusp ==> 4.0 * d1 * Inflection(d1, d2, d3, t) == -Discriminant(d1, d2, d3))
    ensures RootsExact(num, ClassifyAs(kind, c), d1, d2, d3)
  {
    var r := ClassifyAs(kind, c);
    if r.roots.Some? {
      forall i | 0 <= i < |r.roots.value|
        ensures var t := r.roots.value[i];
          && (r.kind == Serpentine ==> Inflection(if num.isZero(d1) then 0.0 else d1, d2, d3, t) == 0.0)
          && (r.kind == Loop ==> DoublePoint(d1, d2, d3, t) == 0.0)
          && (r.kind == Cusp ==> 4.0 * d1 * Inflection(d1, d2, d3, t) == -Discriminant(d1, d2, d3))
      {
        assert r.roots.value[i] in InteriorCandidates(c);
      }
    }
  }

  lemma TwoRootsOfInflection(d1: real, d2: real, d3: real, f1: real)
    requires d1 != 0.0 && f1 * f1 == Discriminant(d1, d2, d3) / 3.0
    ensures Inflection(d1, d2, d3, (d2 + f1) / (2.0 * d1)) == 0.0
    ensures Inflection(d1, d2, d3, (d2 - f1) / (2.0 * d1)) == 0.0
  {
    var f2 := 2.0 * d1;
    assert (d2 + f1) / f2 * f2 == d2 + f1;
    assert (d2 - f1) / f2 * f2 == d2 - f1;
    RootOfInflection(d1, d2, d3, f1, (d2 + f1) / f2, 1.0);
    RootOfInflection(d1, d2, d3, f1, (d2 - f1) / f2, -1.0);
  }

  lemma TwoRootsOfDoublePoint(d1: real, d2: real, d3: real, f1: real)
    requires d1 != 0.0 && f1 * f1 == -Discriminant(d1, d2, d3)
    ensures DoublePoint(d1, d2, d3, (d2 + f1) / (2.0 * d1)) == 0.0
    ensures DoublePoint(d1, d2, d3, (d2 - f1) / (2.0 * d1)) == 0.0
  {
    var f2 := 2.0 * d1;
    assert (d2 + f1) / f2 * f2 == d2 + f1;
    assert (d2 - f1) / f2 * f2 == d2 - f1;
    RootOfDoublePoint(d1, d2, d3, f1, (d2 + f1) / f2, 1.0);
    RootOfDoublePoint(d1, d2, d3, f1, (d2 - f1) / f2, -1.0);
  }

  lemma CuspRootResidual(d1: real, d2: real, d3: real)
    requires d1 != 0.0
    ensures 4.0 * d1 * Inflection(d1, d2, d3, d2 / (2.0 * d1)) == -Discriminant(d1, d2, d3)
  {
    var t := d2 / (2.0 * d1);
    var e := 2.0 * d1 * t;
    assert e == d2;
    calc {
      4.0 * d1 * Inflection(d1, d2, d3, t);
      3.0 * e * e - 6.0 * d2 * e + 4.0 * d1 * d3;
      3.0 * d2 * d2 - 6.0 * d2 * d2 + 4.0 * d1 * d3;
    }
  }

  lemma RootOfInflection(d1: real, d2: real, d3: real, f1: real, t: real, sign: real)
    requires d1 != 0.0 && (sign == 1.0 || sign == -1.0)
    requires f1 * f1 == Discriminant(d1, d2, d3) / 3.0
    requires t * (2.0 * d1) == d2 + sign * f1
    ensures Inflection(d1, d2, d3, t) == 0.0
  {
    var e := 2.0 * d1 * t - d2;
    assert e * e == f1 * f1;
    assert 4.0 * d1 * d1 * t * t - 4.0 * d1 * d2 * t + d2 * d2 == d2 * d2 - 4.0 * d1 * d3 / 3.0;
    assert d1 * (3.0 * d1 * t * t - 3.0 * d2 * t + d3) == 0.0;
  }

  lemma RootOfDoublePoint(d1: real, d2: real, d3: real, f1: real, t: real, sign: real)
    requires d1 != 0.0 && (sign == 1.0 || sign == -1.0)
    requires f1 * f1 == -Discriminant(d1, d2, d3)
    requires t * (2.0 * d1) == d2 + sign * f1
    ensures DoublePoint(d1, d2, d3, t) == 0.0
  {
    var e := 2.0 * d1 * t - d2;
    assert e * e == f1 * f1;
    assert 4.0 * d1 * d1 * t * t - 4.0 * d1 * d2 * t + d2 * d2 == 4.0 * d1 * d3 - 3.0 * d2 * d2;
  }

  /** A loop's two roots, and a serpentine's when it has two, are distinct. */
  lemma ClassifyTwoRootsDistinct(num: Numerics, v: CurveValues)
    requires num.Valid()
    ensures var r := Classify(num, v);
      r.roots.Some? && |r.roots.value| == 2 ==> r.roots.value[0] < r.roots.value[1]
  {
    var (d1, d2, d3) := InflectionCoefficients(num, v);
    if !num.isZero(d1) {
      var d := Discriminant(d1, d2, d3);
      if !num.isZero(d) {
        var f1 := if d > 0.0 then num.sqrt(d / 3.0) else num.sqrt(-d);
        SqrtPositive(num, if d > 0.0 then d / 3.0 else -d);
        var f2 := 2.0 * d1;
        assert (d2 + f1) / f2 != (d2 - f1) / f2 by {
          assert (d2 + f1) / f2 * f2 == d2 + f1 && (d2 - f1) / f2 * f2 == d2 - f1;
        }
      }
    }
  }

  /** A curve whose handles are both zero is a line (its inflection
      coefficients all vanish). */
  lemma ClassifyZeroHandlesIsLine(num: Numerics, v: CurveValues)
    requires num.isZero(0.0)
    requires P1(v) == P0(v) && P2(v) == P3(v)
    ensures Classify(num, v) == Classification(Line, None)
  {
    var x0, y0, x3, y3 := v[0], v[1], v[6], v[7];
    assert x0 * (y3 - y3) + y0 * (x3 - x3) + x3 * y3 - y3 * x3 == 0.0;
    assert x0 * (y0 - y3) + y0 * (x3 - x0) + x0 * y3 - y0 * x3 == 0.0;
    assert x3 * (y0 - y0) + y3 * (x0 - x0) + x0 * y0 - y0 * x0 == 0.0;
  }

  // ---------------------------------------------------------------------------
  // subdivide
  // ---------------------------------------------------------------------------

  /** The points de Casteljau's construction computes for one coordinate at t:
      q4, q5, q6 between the control values, q7, q8 between those, and q9. */
  datatype DeCasteljauPoints = DeCasteljauPoints(q4: real, q5: real, q6: real, q7: real, q8: real, q9: real)

  function DeCasteljau(p0: real, p1: real, p2: real, p3: real, t: real): (q: DeCasteljauPoints)
    // the last point is the coordinate of the curve at t
    ensures q.q9 == Bernstein(p0, p1, p2, p3, t)
  {
    var u := 1.0 - t;
    // each row blends neighbouring points of the row above at ratio t
    var q4, q5, q6 := u * p0 + t * p1, u * p1 + t * p2, u * p2 + t * p3;
    var q7, q8 := u * q4 + t * q5, u * q5 + t * q6;
    DeCasteljauPoints(q4, q5, q6, q7, q8, u * q7 + t * q8)
  }

  /** The left half's control values p0, q4, q7, q9 trace the curve on [0, t]. */
  lemma DeCasteljauLeft(p0: real, p1: real, p2: real, p3: real, t: real, s: real)
    ensures var q := DeCasteljau(p0, p1, p2, p3, t);
      Bernstein(p0, q.q4, q.q7, q.q9, s) == Bernstein(p0, p1, p2, p3, t * s)
  {
    LeftReparametrization(p0, p1, p2, p3, t, s);
  }

  /** The right half's control values q9, q8, q6, p3 trace the curve on [t, 1]. */
  lemma DeCasteljauRight(p0: real, p1: real, p2: real, p3: real, t: real, s: real)
    ensures var q := DeCasteljau(p0, p1, p2, p3, t);
      Bernstein(q.q9, q.q8, q.q6, p3, s) == Bernstein(p0, p1, p2, p3, t + (1.0 - t) * s)
  {
    RightReparametrization(p0, p1, p2, p3, t, s);
  }

  // The two identities behind DeCasteljauLeft and DeCasteljauRight, written out.
  lemma LeftReparametrization(p0: real, p1: real, p2: real, p3: real, t: real, s: real)
    ensures var u := 1.0 - t;
      var q4, q5, q6 := u * p0 + t * p1, u * p1 + t * p2, u * p2 + t * p3;
      var q7, q8 := u * q4 + t * q5, u * q5 + t * q6;
      Bernstein(p0, q4, q7, u * q7 + t * q8, s) == Bernstein(p0, p1, p2, p3, t * s)
  {
  }

  lemma RightReparametrization(p0: real, p1: real, p2: real, p3: real, t: real, s: real)
    ensures var u := 1.0 - t;
      var q4, q5, q6 := u * p0 + t * p1, u * p1 + t * p2, u * p2 + t * p3;
      var q7, q8 := u * q4 + t * q5, u * q5 + t * q6;
      Bernstein(u * q7 + t * q8, q8, q6, p3, s) == Bernstein(p0, p1, p2, p3, t + (1.0 - t) * s)
  {
  }

  /** subdivide(v, t): de Casteljau's construction, t defaulting to 0.5. The
      left curve runs from P0 to the joint, the right from the joint to P3, and
      the joint is the curve's point at t. */
  function Subdivide(v: CurveValues, t: Option<real>): (r: (CurveValues, CurveValues))
    ensures P0(r.0) == P0(v) && P3(r.1) == P3(v)
    ensures P3(r.0) == P0(r.1) == PointAt(v, t.GetOr(0.5))
  {
    var t := t.GetOr(0.5);
    var x := DeCasteljau(v[0], v[2], v[4], v[6], t);
    var y := DeCasteljau(v[1], v[3], v[5], v[7], t);
    ([v[0], v[1], x.q4, y.q4, x.q7, y.q7, x.q9, y.q9],
     [x.q9, y.q9, x.q8, y.q8, x.q6, y.q6, v[6], v[7]])
  }

  /** The two halves retrace the curve: the left one at s is the curve at t s,
      the right one at s is the curve at t + (1 - t) s. */
  lemma SubdivideRetracesCurve(v: CurveValues, t: real, s: real)
    ensures PointAt(Subdivide(v, Some(t)).0, s) == PointAt(v, t * s)
    ensures PointAt(Subdivide(v, Some(t)).1, s) == PointAt(v, t + (1.0 - t) * s)
  {
    DeCasteljauLeft(v[0], v[2], v[4], v[6], t, s);
    DeCasteljauLeft(v[1], v[3], v[5], v[7], t, s);
    DeCasteljauRight(v[0], v[2], v[4], v[6], t, s);
    DeCasteljauRight(v[1], v[3], v[5], v[7], t, s);
  }

  // ---------------------------------------------------------------------------
  // isStraight, isStraightInternal
  // ---------------------------------------------------------------------------

  /** Point#isZero: both coordinates pass Numerical.isZero. */
  predicate PointIsZero(num: Numerics, p: Point) {
    num.isZero(p.x) && num.isZero(p.y)
  }

  /** Point#isCollinear: the cross product is negligible against the lengths. */
  predicate IsCollinear(num: Numerics, p: Point, q: Point) {
    Abs(Cross(p, q)) <= num.sqrt(Dot(p, p) * Dot(q, q)) * num.trigonometricEpsilon
  }

  /** Line#getDistance for the line through p1 and p2: the distance of q from it. */
  function LineDistance(num: Numerics, p1: Point, p2: Point, q: Point): (r: real)
    requires num.Valid() && p1 != p2
    ensures r >= 0.0
  {
    var v := Sub(p2, p1);
    assert v != Point(0.0, 0.0);
    DotSelf(v);
    SqrtPositive(num, Dot(v, v));
    QuotientNonNegative(Abs(Cross(v, Sub(q, p1))), num.sqrt(Dot(v, v)));
    Abs(Cross(v, Sub(q, p1))) / num.sqrt(Dot(v, v))
  }

  /** isStraightInternal(p1, h1, h2, p2, epsilon): p1 and p2 are the anchors,
      h1 and h2 the handles; `epsilon || GEOMETRIC_EPSILON` bounds the handles'
      distance from the chord. */
  function IsStraightInternal(num: Numerics, p1: Point, h1: Point, h2: Point, p2: Point, epsilon: Option<real>): (r: bool)
    requires num.Valid()
    // no handles: straight
    ensures PointIsZero(num, h1) && PointIsZero(num, h2) ==> r
    // a zero-length chord with a handle: curved
    ensures !(PointIsZero(num, h1) && PointIsZero(num, h2)) && PointIsZero(num, Sub(p2, p1)) ==> !r
    // otherwise straight only when both handles lie along the chord, close to
    // its line, and project into the segment
    ensures r && !(PointIsZero(num, h1) && PointIsZero(num, h2)) ==>
      var v := Sub(p2, p1);
      var eps := StraightEpsilon(num, epsilon);
      && v != Point(0.0, 0.0)
      && IsCollinear(num, v, h1) && IsCollinear(num, v, h2)
      && LineDistance(num, p1, p2, Add(p1, h1)) < eps
      && LineDistance(num, p1, p2, Add(p2, h2)) < eps
      && 0.0 <= Projection(v, h1) <= 1.0
      && -1.0 <= Projection(v, h2) <= 0.0
  {
    if PointIsZero(num, h1) && PointIsZero(num, h2) then
      true
    else
      var v := Sub(p2, p1);
      if PointIsZero(num, v) then
        false
      else if IsCollinear(num, v, h1) && IsCollinear(num, v, h2) then
        var eps := StraightEpsilon(num, epsilon);
        if LineDistance(num, p1, p2, Add(p1, h1)) < eps && LineDistance(num, p1, p2, Add(p2, h2)) < eps then
          // the handles' projections, v.h / v.v
          var s1 := Projection(v, h1);
          var s2 := Projection(v, h2);
          s1 >= 0.0 && s1 <= 1.0 && s2 <= 0.0 && s2 >= -1.0
        else
          false
      else
        false
  }

  /** `epsilon || Numerical.GEOMETRIC_EPSILON`: an omitted or zero epsilon falls back. */
  function StraightEpsilon(num: Numerics, epsilon: Option<real>): real {
    if epsilon.Some? && epsilon.value != 0.0 then epsilon.value else num.geometricEpsilon
  }

  /** isStraight(v, epsilon): the anchors and the handles of v. */
  predicate IsStraight(num: Numerics, v: CurveValues, epsilon: Option<real>)
    requires num.Valid()
  {
    IsStraightInternal(num, P0(v), Sub(P1(v), P0(v)), Sub(P2(v), P3(v)), P3(v), epsilon)
  }

  /** On a straight curve with a handle, both control points project into the
      chord segment, and lie within epsilon of the chord's line. */
  lemma StraightControlsProjectIntoChord(num: Numerics, v: CurveValues, epsilon: Option<real>)
    requires num.Valid()
    requires IsStraight(num, v, epsilon)
    requires !(PointIsZero(num, Sub(P1(v), P0(v))) && PointIsZero(num, Sub(P2(v), P3(v))))
    ensures var c := Sub(P3(v), P0(v));
      && c != Point(0.0, 0.0)
      && 0.0 <= Projection(c, Sub(P1(v), P0(v))) <= 1.0
      && 0.0 <= Projection(c, Sub(P2(v), P0(v))) <= 1.0
      && LineDistance(num, P0(v), P3(v), P1(v)) < StraightEpsilon(num, epsilon)
      && LineDistance(num, P0(v), P3(v), P2(v)) < StraightEpsilon(num, epsilon)
  {
    var c := Sub(P3(v), P0(v));
    var h2 := Sub(P2(v), P3(v));
    assert Add(P0(v), Sub(P1(v), P0(v))) == P1(v);
    assert Add(P3(v), h2) == P2(v);
    assert Sub(P2(v), P0(v)) == Add(Scale(1.0, c), h2);
    ProjectionOfMultiple(c, 1.0, h2);
  }

  /** The converse of IsStraightInternal's contract: a chord that is not zero
      and handles that pass every test make the curve straight. */
  lemma StraightWhenTestsPass(num: Numerics, p1: Point, h1: Point, h2: Point, p2: Point, epsilon: Option<real>)
    requires num.Valid()
    requires !PointIsZero(num, Sub(p2, p1))
    requires IsCollinear(num, Sub(p2, p1), h1) && IsCollinear(num, Sub(p2, p1), h2)
    requires p1 != p2
    requires LineDistance(num, p1, p2, Add(p1, h1)) < StraightEpsilon(num, epsilon)
    requires LineDistance(num, p1, p2, Add(p2, h2)) < StraightEpsilon(num, epsilon)
    requires Sub(p2, p1) != Point(0.0, 0.0)
    requires 0.0 <= Projection(Sub(p2, p1), h1) <= 1.0
    requires -1.0 <= Projection(Sub(p2, p1), h2) <= 0.0
    ensures IsStraightInternal(num, p1, h1, h2, p2, epsilon)
  {
  }

  /** Conversely, a curve whose control points lie exactly on its chord, the
      first at parameter a and the second at parameter b of it, with a in
      [0, 1] and b in [0, 1], is straight. */
  lemma ControlsOnChordAreStraight(num: Numerics, p0: Point, p3: Point, a: real, b: real, epsilon: Option<real>)
    requires num.Valid()
    requires !PointIsZero(num, Sub(p3, p0))
    requires 0.0 <= a <= 1.0 && 0.0 <= b <= 1.0
    requires epsilon.None? || epsilon.value >= 0.0
    ensures var c := Sub(p3, p0);
      IsStraight(num, Values(p0, Add(p0, Scale(a, c)), Add(p0, Scale(b, c)), p3), epsilon)
  {
    var c := Sub(p3, p0);
    var q1, q2 := Add(p0, Scale(a, c)), Add(p0, Scale(b, c));
    assert c != Point(0.0, 0.0);
    PointOnChord(p0, p3, a);
    PointOnChord(p0, p3, b);
    HandleOnChord(num, c, a);
    HandleOnChord(num, c, b - 1.0);
    ProjectionOfScale(c, a);
    ProjectionOfScale(c, b - 1.0);
    NoDistanceAlongChord(num, p0, p3, a);
    NoDistanceAlongChord(num, p0, p3, b);
    StraightWhenTestsPass(num, p0, Sub(q1, p0), Sub(q2, p3), p3, epsilon);
  }

  /** The point at parameter k of the chord from p0 to p3, seen from either end. */
  lemma PointOnChord(p0: Point, p3: Point, k: real)
    ensures var c := Sub(p3, p0);
      var q := Add(p0, Scale(k, c));
      && Sub(q, p0) == Scale(k, c) && Add(p0, Sub(q, p0)) == q
      && Sub(q, p3) == Scale(k - 1.0, c) && Add(p3, Sub(q, p3)) == q
  {
    var c := Sub(p3, p0);
    assert p0.x + k * c.x - p3.x == (k - 1.0) * c.x;
    assert p0.y + k * c.y - p3.y == (k - 1.0) * c.y;
  }

  lemma HandleOnChord(num: Numerics, c: Point, k: real)
    requires num.Valid()
    ensures IsCollinear(num, c, Scale(k, c))
  {
    CrossOfMultiple(c, k);
    CollinearWhenParallel(num, c, Scale(k, c));
  }

  /** Exactly parallel directions pass isCollinear, whatever its tolerance. */
  lemma CollinearWhenParallel(num: Numerics, p: Point, q: Point)
    requires num.Valid() && Cross(p, q) == 0.0
    ensures IsCollinear(num, p, q)
  {
    CollinearBoundNonNegative(num, p, q);
    assert Abs(Cross(p, q)) == 0.0;
  }

  /** isCollinear's tolerance is never negative. */
  lemma CollinearBoundNonNegative(num: Numerics, p: Point, q: Point)
    requires num.Valid()
    ensures num.sqrt(Dot(p, p) * Dot(q, q)) * num.trigonometricEpsilon >= 0.0
  {
    var pp, qq := Dot(p, p), Dot(q, q);
    DotSelf(p);
    DotSelf(q);
    ProductSign(pp, qq);
    assert Product(pp, qq) == pp * qq;
    ScaledRootNonNegative(num, pp * qq);
  }

  lemma ScaledRootNonNegative(num: Numerics, x: real)
    requires num.Valid() && x >= 0.0
    ensures num.sqrt(x) * num.trigonometricEpsilon >= 0.0
  {
    var root := num.sqrt(x);
    assert root >= 0.0;
    ProductSign(root, num.trigonometricEpsilon);
    assert Product(root, num.trigonometricEpsilon) == root * num.trigonometricEpsilon;
  }

  lemma NoDistanceAlongChord(num: Numerics, p0: Point, p3: Point, k: real)
    requires num.Valid() && p0 != p3
    ensures LineDistance(num, p0, p3, Add(p0, Scale(k, Sub(p3, p0)))) == 0.0
  {
    var c := Sub(p3, p0);
    var q := Add(p0, Scale(k, c));
    assert Sub(q, p0) == Scale(k, c);
    CrossOfMultiple(c, k);
    assert Abs(Cross(c, Sub(q, p0))) == 0.0;
    assert c != Point(0.0, 0.0);
    DotSelf(c);
    SqrtPositive(num, Dot(c, c));
  }

  // ---------------------------------------------------------------------------
  // getLength, getIterations, getLengthIntegrand
  // ---------------------------------------------------------------------------

  /** getIterations(a, b): the quadrature order, ceil(32 |b - a|) clamped to [2, 16]. */
  function GetIterations(a: real, b: real): (r: int)
    ensures 2 <= r <= 16
    ensures Abs(b - a) <= 0.0625 ==> r == 2
    ensures Abs(b - a) >= 0.5 ==> r == 16
  {
    var n := Ceil(Abs(b - a) * 32.0);
    var m := if n < 16 then n else 16;
    if m > 2 then m else 2
  }

  /** A longer range never gets fewer iterations. */
  lemma GetIterationsMonotonic(a: real, b: real, c: real, d: real)
    requires Abs(b - a) <= Abs(d - c)
    ensures GetIterations(a, b) <= GetIterations(c, d)
  {
    var x, y := Abs(b - a) * 32.0, Abs(d - c) * 32.0;
    assert x <= y;
    assert Ceil(x) <= Ceil(y);
  }

  /** The coefficients (a, b, c) of one coordinate of the derivative,
      B'(t) = (a t + b) t + c, as getLengthIntegrand computes them. */
  function DerivativeCoefficients(p0: real, p1: real, p2: real, p3: real): (r: (real, real, real))
    ensures var (a, b, c) := r; c == BernsteinDerivative(p0, p1, p2, p3, 0.0) && a + b + c == BernsteinDerivative(p0, p1, p2, p3, 1.0)
  {
    (9.0 * (p1 - p2) + 3.0 * (p3 - p0), 6.0 * (p0 + p2) - 12.0 * p1, 3.0 * (p1 - p0))
  }

  lemma DerivativeCoefficientsMatchBernstein(p0: real, p1: real, p2: real, p3: real, t: real)
    ensures var (a, b, c) := DerivativeCoefficients(p0, p1, p2, p3);
      (a * t + b) * t + c == BernsteinDerivative(p0, p1, p2, p3, t)
  {
    var u := 1.0 - t;
    assert u * u == 1.0 - 2.0 * t + t * t;
    assert u * t == t - t * t;
  }

  /** getLengthIntegrand(v): the speed of the curve, in monomial form; the
      closure captures the coefficients of both coordinates. */
  function LengthIntegrand(num: Numerics, v: CurveValues): (ds: real -> real) {
    var x := DerivativeCoefficients(v[0], v[2], v[4], v[6]);
    var y := DerivativeCoefficients(v[1], v[3], v[5], v[7]);
    t => MonomialSpeed(num, x, y, t)
  }

  /** The body of the closure: sqrt(dx^2 + dy^2) with dx and dy evaluated from
      their coefficients. */
  function MonomialSpeed(num: Numerics, x: (real, real, real), y: (real, real, real), t: real): real {
    num.sqrt(MonomialSpeedSquared(x, y, t))
  }

  function MonomialSpeedSquared(x: (real, real, real), y: (real, real, real), t: real): real {
    var dx := (x.0 * t + x.1) * t + x.2;
    var dy := (y.0 * t + y.1) * t + y.2;
    dx * dx + dy * dy
  }

  /** The integrand is the curve's speed |B'(t)|, the length of its derivative. */
  lemma LengthIntegrandIsSpeed(num: Numerics, v: CurveValues, t: real)
    requires num.Valid()
    ensures LengthIntegrand(num, v)(t) == num.sqrt(Dot(DerivativeAt(v, t), DerivativeAt(v, t)))
    ensures LengthIntegrand(num, v)(t) >= 0.0
  {
    var x := DerivativeCoefficients(v[0], v[2], v[4], v[6]);
    var y := DerivativeCoefficients(v[1], v[3], v[5], v[7]);
    assert LengthIntegrand(num, v)(t) == MonomialSpeed(num, x, y, t);
    MonomialSpeedIsSpeed(num, x, y, v, t);
    var d := DerivativeAt(v, t);
    DotSelf(d);
  }

  lemma MonomialSpeedIsSpeed(num: Numerics, x: (real, real, real), y: (real, real, real), v: CurveValues, t: real)
    requires x == DerivativeCoefficients(v[0], v[2], v[4], v[6])
    requires y == DerivativeCoefficients(v[1], v[3], v[5], v[7])
    ensures MonomialSpeed(num, x, y, t) == num.sqrt(Dot(DerivativeAt(v, t), DerivativeAt(v, t)))
  {
    IntegrandSquaresSpeed(x, y, v, t);
  }

  lemma IntegrandSquaresSpeed(x: (real, real, real), y: (real, real, real), v: CurveValues, t: real)
    requires x == DerivativeCoefficients(v[0], v[2], v[4], v[6])
    requires y == DerivativeCoefficients(v[1], v[3], v[5], v[7])
    ensures MonomialSpeedSquared(x, y, t) == Dot(DerivativeAt(v, t), DerivativeAt(v, t))
  {
    DerivativeCoefficientsMatchBernstein(v[0], v[2], v[4], v[6], t);
    DerivativeCoefficientsMatchBernstein(v[1], v[3], v[5], v[7], t);
  }

  /** getLength(v, a, b, ds): a and b default to 0 and 1. A straight curve is
      measured by the chord of its piece between a and b; any other curve is
      integrated with ds, or with the curve's own integrand when ds is omitted. */
  function GetLength(num: Numerics, v: CurveValues, a: Option<real>, b: Option<real>, ds: Option<real -> real>): (r: real)
    requires num.Valid()
    // for b = 0 and a > 0 the source goes on with a/b = Infinity
    requires b.GetOr(1.0) == 0.0 ==> a.GetOr(0.0) <= 0.0
    ensures IsStraight(num, v, None) ==> r >= 0.0
    ensures !IsStraight(num, v, None) ==>
      var a, b := a.GetOr(0.0), b.GetOr(1.0);
      r == num.integrate(ds.GetOr(LengthIntegrand(num, v)), a, b, GetIterations(a, b))
  {
    var a, b := a.GetOr(0.0), b.GetOr(1.0);
    if IsStraight(num, v, None) then
      var c := StraightPiece(v, a, b);
      DistanceNonNegative(num, P0(c), P3(c));
      Distance(num, P0(c), P3(c))
    else
      num.integrate(ds.GetOr(LengthIntegrand(num, v)), a, b, GetIterations(a, b))
  }

  /** The piece of v between a and b, as getLength cuts it: at b first, then
      at a rescaled to the left piece. */
  function StraightPiece(v: CurveValues, a: real, b: real): CurveValues
    requires b == 0.0 ==> a <= 0.0
  {
    var (c, a) :=
      if b < 1.0 then
        // with b = 0 the source divides a <= 0 by zero, which gives no positive a
        (Subdivide(v, Some(b)).0, if b != 0.0 then a / b else 0.0)
      else (v, a);
    if a > 0.0 then Subdivide(c, Some(a)).1 else c
  }

  /** The distance between two points, as getLength computes it from dx and dy. */
  function Distance(num: Numerics, p: Point, q: Point): real {
    var dx, dy := q.x - p.x, q.y - p.y;
    num.sqrt(dx * dx + dy * dy)
  }

  lemma DistanceNonNegative(num: Numerics, p: Point, q: Point)
    requires num.Valid()
    ensures Distance(num, p, q) >= 0.0
  {
    var dx, dy := q.x - p.x, q.y - p.y;
    SquareSign(dx);
    SquareSign(dy);
    assert Square(dx) + Square(dy) == dx * dx + dy * dy;
  }

  /** For 0 <= a <= b <= 1 the piece runs from the curve's point at a to its point at b. */
  lemma StraightPieceEnds(v: CurveValues, a: real, b: real)
    requires 0.0 <= a <= b <= 1.0
    ensures P0(StraightPiece(v, a, b)) == PointAt(v, a)
    ensures P3(StraightPiece(v, a, b)) == PointAt(v, b)
  {
    var (c, a') := if b < 1.0 then (Subdivide(v, Some(b)).0, if b != 0.0 then a / b else 0.0) else (v, a);
    LeftPieceEnds(v, a, b);
    assert P0(c) == PointAt(c, 0.0) && P3(c) == PointAt(c, 1.0) by { CurveEnds(c); }
    if a' > 0.0 {
      SubdivideRetracesCurve(c, a', 1.0);
    }
  }

  /** The left piece of the first cut: c retraces v on [0, b], so c(a') = v(a) and c(1) = v(b). */
  lemma LeftPieceEnds(v: CurveValues, a: real, b: real)
    requires 0.0 <= a <= b <= 1.0
    ensures var (c, a') := if b < 1.0 then (Subdivide(v, Some(b)).0, if b != 0.0 then a / b else 0.0) else (v, a);
      && PointAt(c, 0.0) == PointAt(v, 0.0) && PointAt(c, a') == PointAt(v, a) && PointAt(c, 1.0) == PointAt(v, b)
      && (a' > 0.0 ==> a > 0.0)
  {
    if b < 1.0 {
      var a' := if b != 0.0 then a / b else 0.0;
      SubdivideRetracesCurve(v, b, a');
      SubdivideRetracesCurve(v, b, 1.0);
      SubdivideRetracesCurve(v, b, 0.0);
      if b != 0.0 {
        assert b * a' == a;
      } else {
        assert a == 0.0;
      }
    }
  }

  /** A curve's point at 0 is P0 and at 1 is P3. */
  lemma CurveEnds(c: CurveValues)
    ensures PointAt(c, 0.0) == P0(c) && PointAt(c, 1.0) == P3(c)
  {
    BernsteinEnds(c[0], c[2], c[4], c[6]);
    BernsteinEnds(c[1], c[3], c[5], c[7]);
  }

  /** On a straight curve the length over [a, b] is the distance between the
      curve's points at a and at b. */
  lemma StraightLengthIsChord(num: Numerics, v: CurveValues, a: real, b: real, ds: Option<real -> real>)
    requires num.Valid() && IsStraight(num, v, None)
    requires 0.0 <= a <= b <= 1.0
    ensures GetLength(num, v, Some(a), Some(b), ds) == Distance(num, PointAt(v, a), PointAt(v, b))
  {
    StraightPieceEnds(v, a, b);
  }

  /** With the default range, a straight curve's length is the distance
      between its anchors. */
  lemma StraightLengthIsAnchorDistance(num: Numerics, v: CurveValues)
    requires num.Valid() && IsStraight(num, v, None)
    ensures GetLength(num, v, None, None, None) == Distance(num, P0(v), P3(v))
  {
  }

  /** The straight curve from (0, 0) to (3, 4) has length 5. */
  lemma StraightLengthExample(num: Numerics)
    requires num.Valid()
    ensures var v := [0.0, 0.0, 0.0, 0.0, 3.0, 4.0, 3.0, 4.0];
      IsStraight(num, v, None) && GetLength(num, v, None, None, None) == 5.0
  {
    var v: CurveValues := [0.0, 0.0, 0.0, 0.0, 3.0, 4.0, 3.0, 4.0];
    assert Sub(P1(v), P0(v)) == Point(0.0, 0.0) && Sub(P2(v), P3(v)) == Point(0.0, 0.0);
    SqrtOfSquare(num, 5.0);
  }

  // ---------------------------------------------------------------------------
  // getTimeAt
  // ---------------------------------------------------------------------------

  /** The state the callback f of getTimeAt closes over: the parameter it last
      reached (`start`) and the length accumulated on the way (`length`). The
      ghost `probes` lists every parameter `start` has taken, in order. */
  class LengthAccumulator {
    const num: Numerics
    const ds: real -> real
    const offset: real
    var start: real
    var length: real
    ghost var probes: seq<real>

    /** `start` is the last probe, and `length` is the sum of the integrals
        between consecutive probes. */
    ghost predicate Valid()
      reads this
    {
      |probes| >= 1 && probes[|probes| - 1] == start && length == Accumulated(num, ds, probes)
    }

    constructor (num: Numerics, ds: real -> real, start: real, offset: real)
      ensures Valid()
      ensures this.num == num && this.ds == ds && this.offset == offset
      ensures this.start == start && length == 0.0 && probes == [start]
    {
      this.num, this.ds, this.offset := num, ds, offset;
      this.start, this.length := start, 0.0;
      probes := [start];
    }

    /** f(t): adds the integral from `start` to t, moves `start` to t and
        returns how far the accumulated length is from the offset. */
    method Evaluate(t: real) returns (r: real)
      requires Valid()
      modifies this
      ensures Valid()
      ensures probes == old(probes) + [t]
      ensures start == t
      ensures length == old(length) + num.integrate(ds, old(start), t, GetIterations(old(start), t))
      ensures r == length - offset
    {
      length := length + num.integrate(ds, start, t, GetIterations(start, t));
      start := t;
      probes := probes + [t];
      r := length - offset;
    }
  }

  /** The length accumulated along a path of probes: the integrals between
      consecutive parameters, each at the order GetIterations picks for it. */
  function Accumulated(num: Numerics, ds: real -> real, ps: seq<real>): real
    decreases |ps|
  {
    if |ps| < 2 then 0.0
    else
      var n := |ps|;
      Accumulated(num, ds, ps[..n - 1]) + num.integrate(ds, ps[n - 2], ps[n - 1], GetIterations(ps[n - 2], ps[n - 1]))
  }

  /** Numerical.findRoot(f, df, x, a, b, n, tolerance), driving f through the
      accumulator: at most n steps of the search, each evaluating f at the
      current candidate, then the candidate clamped into the bracket. */
  method FindRoot(acc: LengthAccumulator, x: real, a: real, b: real, n: nat, tolerance: real) returns (r: real)
    requires acc.Valid() && acc.num.Valid()
    modifies acc
    ensures acc.Valid()
    ensures a <= b ==> a <= r <= b
    ensures |old(acc.probes)| < |acc.probes| <= |old(acc.probes)| + n || (n == 0 && acc.probes == old(acc.probes))
    ensures acc.probes[..|old(acc.probes)|] == old(acc.probes)
  {
    var x, lo, hi := x, a, b;
    var i := 0;
    while i < n
      invariant 0 <= i <= n
      invariant acc.Valid() && acc.num.Valid()
      invariant a <= b ==> a <= lo <= hi <= b
      invariant |acc.probes| == |old(acc.probes)| + i
      invariant acc.probes[..|old(acc.probes)|] == old(acc.probes)
    {
      var fx := acc.Evaluate(x);
      var step := acc.num.rootStep(x, fx, acc.ds(x), lo, hi, tolerance);
      if lo <= hi {
        RootStepNarrows(acc.num, x, fx, acc.ds(x), lo, hi, tolerance);
      }
      if step.done {
        x := step.x;
        break;
      }
      x, lo, hi := step.x, step.lo, step.hi;
      i := i + 1;
    }
    r := Clamp(x, lo, hi);
  }

  /** The default start of getTimeAt: the end of the curve when walking
      backward, its beginning otherwise. */
  function DefaultStart(offset: real, start: Option<real>): (r: real)
    ensures start.Some? ==> r == start.value
    ensures start.None? ==> r == (if offset < 0.0 then 1.0 else 0.0)
    // without a start the search covers the whole curve
    ensures start.None? && offset != 0.0 ==> TimeRange(offset, r) == (0.0, 1.0)
  {
    start.GetOr(if offset < 0.0 then 1.0 else 0.0)
  }

  /** The range [a, b] getTimeAt searches: from start forward to 1, or from 0
      up to start when walking backward. */
  function TimeRange(offset: real, start: real): (r: (real, real))
    ensures r.0 == 0.0 || r.1 == 1.0
    ensures offset > 0.0 ==> r == (start, 1.0)
    ensures offset <= 0.0 ==> r == (0.0, start)
  {
    if offset > 0.0 then (start, 1.0) else (0.0, start)
  }

  /** The length of the searched range, measured with the curve's own integrand. */
  function RangeLength(num: Numerics, v: CurveValues, offset: real, start: real): real
    requires num.Valid()
  {
    var (a, b) := TimeRange(offset, start);
    GetLength(num, v, Some(a), Some(b), Some(LengthIntegrand(num, v)))
  }

  /** getTimeAt(v, offset, start): the parameter at arc length offset from
      start, or None when the offset reaches past the end of the curve. */
  method GetTimeAt(num: Numerics, v: CurveValues, offset: real, start: Option<real>) returns (r: Option<real>)
    requires num.Valid()
    // a zero offset stays at the start
    ensures offset == 0.0 ==> r == Some(DefaultStart(offset, start))
    ensures offset != 0.0 ==>
      var s := DefaultStart(offset, start);
      var (a, b) := TimeRange(offset, s);
      var diff := Abs(offset) - RangeLength(num, v, offset, s);
      // the offset matches the range's length: the far end of the range
      && (Abs(diff) < num.epsilon ==> r == Some(if offset > 0.0 then b else a))
      // the offset overshoots the range: no parameter
      && (r.None? <==> Abs(diff) >= num.epsilon && diff > num.epsilon)
      // otherwise a parameter of the range
      && (r.Some? && a <= b ==> a <= r.value <= b)
  {
    var s := DefaultStart(offset, start);
    if offset == 0.0 {
      return Some(s);
    }
    var forward := offset > 0.0;
    var (a, b) := TimeRange(offset, s);
    var ds := LengthIntegrand(num, v);
    var rangeLength := GetLength(num, v, Some(a), Some(b), Some(ds));
    var diff := Abs(offset) - rangeLength;
    if Abs(diff) < num.epsilon {
      return Some(if forward then b else a);
    } else if diff > num.epsilon {
      return None;
    }
    // the initial guess offset / rangeLength; see the notes on a zero range length
    var guess := if rangeLength != 0.0 then offset / rangeLength else 0.0;
    var acc := new LengthAccumulator(num, ds, s, offset);
    var t := FindRoot(acc, s + guess, a, b, 32, num.epsilon);
    r := Some(t);
  }

  // ---------------------------------------------------------------------------
  // evaluateCurve
  // ---------------------------------------------------------------------------

  /** The curve evaluateCurve works on: a handle that isZero accepts is reset
      to its anchor. */
  function Snapped(num: Numerics, v: CurveValues): (c: CurveValues)
    // the anchors stay
    ensures P0(c) == P0(v) && P3(c) == P3(v)
    // a handle isZero accepts moves onto its own anchor
    ensures PointIsZero(num, Sub(P1(v), P0(v))) ==> P1(c) == P0(v)
    ensures PointIsZero(num, Sub(P2(v), P3(v))) ==> P2(c) == P3(v)
    // a handle isZero does not accept is untouched
    ensures !PointIsZero(num, Sub(P1(v), P0(v))) ==> P1(c) == P1(v)
    ensures !PointIsZero(num, Sub(P2(v), P3(v))) ==> P2(c) == P2(v)
  {
    var p1 := if PointIsZero(num, Sub(P1(v), P0(v))) then P0(v) else P1(v);
    var p2 := if PointIsZero(num, Sub(P2(v), P3(v))) then P3(v) else P2(v);
    Values(P0(v), p1, p2, P3(v))
  }

  /** Snapping keeps the anchors, and snapping twice is snapping once. */
  lemma SnappedIdempotent(num: Numerics, v: CurveValues)
    requires num.isZero(0.0)
    ensures P0(Snapped(num, v)) == P0(v) && P3(Snapped(num, v)) == P3(v)
    ensures Snapped(num, Snapped(num, v)) == Snapped(num, v)
  {
    var c := Snapped(num, v);
    assert P0(c) == P0(v) && P3(c) == P3(v);
    if PointIsZero(num, Sub(P1(v), P0(v))) {
      assert Sub(P1(c), P0(c)) == Point(0.0, 0.0);
    }
    if PointIsZero(num, Sub(P2(v), P3(v))) {
      assert Sub(P2(c), P3(c)) == Point(0.0, 0.0);
    }
  }

  /** The tangent evaluateCurve starts from: the derivative at t, except that
      within CURVETIME_EPSILON of an end it is the derivative at that end,
      3 (P1 - P0) or 3 (P3 - P2). */
  function Tangent(num: Numerics, c: CurveValues, t: real): Point {
    if t < num.curveTimeEpsilon then DerivativeAt(c, 0.0)
    else if t > 1.0 - num.curveTimeEpsilon then DerivativeAt(c, 1.0)
    else DerivativeAt(c, t)
  }

  /** A zero tangent at either end is replaced by the vector between the
      handles, when the result is normalized. */
  function TangentOrHandles(num: Numerics, c: CurveValues, t: real): Point {
    var p := Tangent(num, c, t);
    if p == Point(0.0, 0.0) && (t < num.curveTimeEpsilon || t > 1.0 - num.curveTimeEpsilon) then
      Sub(P2(c), P1(c))
    else p
  }

  /** (x, y) divided by its length, or (x, y) itself when its length is zero. */
  function Normalized(num: Numerics, x: real, y: real): Point {
    var len := num.sqrt(x * x + y * y);
    if len != 0.0 then Point(x / len, y / len) else Point(x, y)
  }

  /** The signed curvature for the tangent (x, y) and the second derivative
      (ddx, ddy): their cross product over the tangent's length cubed, and 0
      where that power is 0. */
  function Curvature(num: Numerics, x: real, y: real, ddx: real, ddy: real): real {
    var d := num.pow(x * x + y * y, 1.5);
    if d != 0.0 then (x * ddy - y * ddx) / d else 0.0
  }

  /** What evaluateCurve(v, t, type, normalized) computes, in Bernstein form:
      type 0 the point, 2 the normal, 3 the curvature as (k, 0), any other
      the tangent. */
  function Evaluation(num: Numerics, v: CurveValues, t: Option<real>, kind: int, normalized: bool): (r: Option<Point>)
    // no result for a missing parameter or one outside [0, 1]
    ensures r.None? <==> t.None? || t.value < 0.0 || t.value > 1.0
    // the anchors are returned exactly at the ends
    ensures kind == 0 && t == Some(0.0) ==> r == Some(P0(v))
    ensures kind == 0 && t == Some(1.0) ==> r == Some(P3(v))
  {
    if t.None? || t.value < 0.0 || t.value > 1.0 then None
    else
      var t := t.value;
      var c := Snapped(num, v);
      if kind == 0 then
        Some(if t == 0.0 then P0(v) else if t == 1.0 then P3(v) else PointAt(c, t))
      else
        var tg := if normalized then
          var h := TangentOrHandles(num, c, t); Normalized(num, h.x, h.y)
        else Tangent(num, c, t);
        var dd := SecondDerivativeAt(c, t);
        var p := if kind == 3 then Point(Curvature(num, tg.x, tg.y, dd.x, dd.y), 0.0) else tg;
        Some(if kind == 2 then Point(p.y, -p.x) else p)
  }

  /** The point evaluateCurve returns lies on the snapped curve, at the ends as well. */
  lemma {:induction false} EvaluationIsPoint(num: Numerics, v: CurveValues, t: real)
    requires 0.0 <= t <= 1.0
    ensures Evaluation(num, v, Some(t), 0, false) == Some(PointAt(Snapped(num, v), t))
    ensures Evaluation(num, v, Some(t), 0, true) == Some(PointAt(Snapped(num, v), t))
  {
    var c := Snapped(num, v);
    BernsteinEnds(c[0], c[2], c[4], c[6]);
    BernsteinEnds(c[1], c[3], c[5], c[7]);
  }

  /** The tangent is the derivative of the snapped curve; within the curve-time
      epsilon of an end it is the derivative at that end, three times the handle. */
  lemma {:induction false} EvaluationIsTangent(num: Numerics, v: CurveValues, t: real, kind: int)
    requires num.Valid() && 0.0 <= t <= 1.0 && kind != 0 && kind != 2 && kind != 3
    ensures var c := Snapped(num, v); var r := Evaluation(num, v, Some(t), kind, false);
      && (num.curveTimeEpsilon <= t <= 1.0 - num.curveTimeEpsilon ==> r == Some(DerivativeAt(c, t)))
      && (t < num.curveTimeEpsilon ==> r == Some(Scale(3.0, Sub(P1(c), P0(c)))))
      && (t > 1.0 - num.curveTimeEpsilon ==> r == Some(Scale(3.0, Sub(P3(c), P2(c)))))
  {
    var c := Snapped(num, v);
    BernsteinEnds(c[0], c[2], c[4], c[6]);
    BernsteinEnds(c[1], c[3], c[5], c[7]);
  }

  /** The normal is the tangent turned a quarter to the right, so perpendicular to it
      and of the same length. */
  lemma EvaluationNormalIsPerpendicular(num: Numerics, v: CurveValues, t: real, normalized: bool)
    requires 0.0 <= t <= 1.0
    ensures var n := Evaluation(num, v, Some(t), 2, normalized);
      var tg := Evaluation(num, v, Some(t), 1, normalized);
      && n.Some? && tg.Some?
      && n.value == Point(tg.value.y, -tg.value.x)
      && Dot(n.value, tg.value) == 0.0
      && Dot(n.value, n.value) == Dot(tg.value, tg.value)
  {
    var tg := Evaluation(num, v, Some(t), 1, normalized).value;
    assert Evaluation(num, v, Some(t), 2, normalized) == Some(Point(tg.y, -tg.x));
    QuarterTurn(tg);
  }

  lemma QuarterTurn(p: Point)
    ensures Dot(Point(p.y, -p.x), p) == 0.0 && Dot(Point(p.y, -p.x), Point(p.y, -p.x)) == Dot(p, p)
  {
  }

  /** A vector other than 0 normalizes to length 1; the zero vector stays as it is. */
  lemma NormalizedIsUnit(num: Numerics, x: real, y: real)
    requires num.Valid()
    ensures Point(x, y) != Point(0.0, 0.0) ==> Dot(Normalized(num, x, y), Normalized(num, x, y)) == 1.0
    ensures Point(x, y) == Point(0.0, 0.0) ==> Normalized(num, x, y) == Point(0.0, 0.0)
  {
    var len := num.sqrt(x * x + y * y);
    if Point(x, y) != Point(0.0, 0.0) {
      RootOfPositiveLength(num, x, y);
      UnitQuotient(x, y, len);
    } else {
      assert x * x + y * y == 0.0 * 0.0;
      SqrtOfSquare(num, 0.0);
    }
  }

  lemma RootOfPositiveLength(num: Numerics, x: real, y: real)
    requires num.Valid() && Point(x, y) != Point(0.0, 0.0)
    ensures var len := num.sqrt(x * x + y * y); len > 0.0 && len * len == x * x + y * y
  {
    DotSelf(Point(x, y));
    SqrtPositive(num, x * x + y * y);
  }

  lemma UnitQuotient(x: real, y: real, len: real)
    requires len > 0.0 && len * len == x * x + y * y
    ensures Dot(Point(x / len, y / len), Point(x / len, y / len)) == 1.0
  {
    ProductSign(len, len);
    var ll := Product(len, len);
    QuotientProduct(x, len, x, len);
    QuotientProduct(y, len, y, len);
    QuotientOfSum(x * x, y * y, ll);
    assert ll == len * len && ll > 0.0;
    assert (x * x + y * y) / ll == ll / ll == 1.0;
    assert Dot(Point(x / len, y / len), Point(x / len, y / len)) == (x * x) / ll + (y * y) / ll;
  }

  /** With normalized set, the tangent (and so the normal) has length 1 unless
      TangentOrHandles is 0: the tangent is 0 and, when t is within tMin of an
      end, the handle vector P2 - P1 is 0 as well. An interior cusp, where the
      tangent is 0 and no fallback applies, gives the zero vector. */
  lemma EvaluationUnitTangent(num: Numerics, v: CurveValues, t: real, kind: int)
    requires num.Valid() && 0.0 <= t <= 1.0 && kind != 0 && kind != 3
    ensures var h := TangentOrHandles(num, Snapped(num, v), t);
      var r := Evaluation(num, v, Some(t), kind, true);
      && (h != Point(0.0, 0.0) ==> Dot(r.value, r.value) == 1.0)
      && (h == Point(0.0, 0.0) ==> r == Some(Point(0.0, 0.0)))
  {
    var h := TangentOrHandles(num, Snapped(num, v), t);
    NormalizedIsUnit(num, h.x, h.y);
  }

  /** The curvature vanishes exactly where the tangent is 0 or parallel to the second
      derivative, and otherwise has the sign of their cross product. */
  lemma CurvatureSign(num: Numerics, x: real, y: real, ddx: real, ddy: real)
    requires num.Valid()
    ensures var k := Curvature(num, x, y, ddx, ddy); var cross := Cross(Point(x, y), Point(ddx, ddy));
      && (k == 0.0 <==> Point(x, y) == Point(0.0, 0.0) || cross == 0.0)
      && (k > 0.0 <==> Point(x, y) != Point(0.0, 0.0) && cross > 0.0)
  {
    var d := num.pow(x * x + y * y, 1.5);
    PowOfLength(num, x, y);
    if d != 0.0 {
      QuotientSign(x * ddy - y * ddx, d);
    }
  }

  /** (x^2 + y^2)^(3/2) is positive unless (x, y) is 0, where it is 0. */
  lemma PowOfLength(num: Numerics, x: real, y: real)
    requires num.Valid()
    ensures var d := num.pow(x * x + y * y, 1.5); d >= 0.0 && (d == 0.0 <==> Point(x, y) == Point(0.0, 0.0))
  {
    DotSelf(Point(x, y));
  }

  /** Type 3 reports the curvature of the snapped curve at t as (k, 0), from the
      tangent that the other types report. */
  lemma EvaluationIsCurvature(num: Numerics, v: CurveValues, t: real, normalized: bool)
    requires num.Valid() && 0.0 <= t <= 1.0
    ensures var c := Snapped(num, v);
      var tg := Evaluation(num, v, Some(t), 1, normalized).value;
      var dd := SecondDerivativeAt(c, t);
      var k := Curvature(num, tg.x, tg.y, dd.x, dd.y);
      && Evaluation(num, v, Some(t), 3, normalized) == Some(Point(k, 0.0))
      && (k == 0.0 <==> tg == Point(0.0, 0.0) || Cross(tg, dd) == 0.0)
      && (k > 0.0 <==> tg != Point(0.0, 0.0) && Cross(tg, dd) > 0.0)
  {
    var c := Snapped(num, v);
    var tg := Evaluation(num, v, Some(t), 1, normalized).value;
    var dd := SecondDerivativeAt(c, t);
    CurvatureSign(num, tg.x, tg.y, dd.x, dd.y);
  }

  /** The normalisation step of evaluateCurve: the tangent divided by its length, unless that is 0.
      It keeps the source's in-place reassignment of x and y; Normalized is the
      value it is proved against, and what the Evaluation lemmas reason about. */
  method NormalizeTangent(num: Numerics, x: real, y: real) returns (nx: real, ny: real)
    ensures Point(nx, ny) == Normalized(num, x, y)
  {
    nx, ny := x, y;
    var len := num.sqrt(x * x + y * y);
    if len != 0.0 {
      nx, ny := x / len, y / len;
    }
  }

  /** The curvature step of evaluateCurve: (x ddy - y ddx) / (x^2 + y^2)^(3/2), or 0 when that is 0.
      It is the statement EvaluateCurve executes; Curvature is the value it is
      proved against, and what CurvatureSign reasons about. */
  method CurvatureOf(num: Numerics, x: real, y: real, ddx: real, ddy: real) returns (k: real)
    ensures k == Curvature(num, x, y, ddx, ddy)
  {
    var d := num.pow(x * x + y * y, 1.5);
    k := if d != 0.0 then (x * ddy - y * ddx) / d else 0.0;
  }

  /** The tangent step of evaluateCurve: the derivative in monomial form,
      or at an end the scaled handle, to keep tangents of length 0 away. */
  method MonomialTangent(num: Numerics, x0: real, y0: real, x1: real, y1: real, x2: real, y2: real, x3: real, y3: real,
                         xa: real, xb: real, xc: real, ya: real, yb: real, yc: real, t: real) returns (x: real, y: real)
    requires xa == CubicA(x0, x1, x2, x3) && xb == CubicB(x0, x1, x2) && xc == CubicC(x0, x1)
    requires ya == CubicA(y0, y1, y2, y3) && yb == CubicB(y0, y1, y2) && yc == CubicC(y0, y1)
    ensures Point(x, y) == Tangent(num, [x0, y0, x1, y1, x2, y2, x3, y3], t)
  {
    var tMin := num.curveTimeEpsilon;
    var tMax := 1.0 - tMin;
    MonomialEvaluation(x0, y0, x1, y1, x2, y2, x3, y3, xa, xb, xc, ya, yb, yc, t);
    if t < tMin {
      x, y := xc, yc;
    } else if t > tMax {
      x, y := 3.0 * (x3 - x2), 3.0 * (y3 - y2);
    } else {
      x, y := (3.0 * xa * t + 2.0 * xb) * t + xc, (3.0 * ya * t + 2.0 * yb) * t + yc;
    }
  }

  /** The Bernstein point and derivatives of a curve, in the monomial form
      evaluateCurve uses. */
  lemma MonomialEvaluation(x0: real, y0: real, x1: real, y1: real, x2: real, y2: real, x3: real, y3: real,
                           xa: real, xb: real, xc: real, ya: real, yb: real, yc: real, t: real)
    requires xa == CubicA(x0, x1, x2, x3) && xb == CubicB(x0, x1, x2) && xc == CubicC(x0, x1)
    requires ya == CubicA(y0, y1, y2, y3) && yb == CubicB(y0, y1, y2) && yc == CubicC(y0, y1)
    ensures var c: CurveValues := [x0, y0, x1, y1, x2, y2, x3, y3];
      && PointAt(c, t) == Point(((xa * t + xb) * t + xc) * t + x0, ((ya * t + yb) * t + yc) * t + y0)
      && DerivativeAt(c, t) == Point((3.0 * xa * t + 2.0 * xb) * t + xc, (3.0 * ya * t + 2.0 * yb) * t + yc)
      && SecondDerivativeAt(c, t) == Point(6.0 * xa * t + 2.0 * xb, 6.0 * ya * t + 2.0 * yb)
      && DerivativeAt(c, 0.0) == Point(xc, yc)
      && DerivativeAt(c, 1.0) == Point(3.0 * (x3 - x2), 3.0 * (y3 - y2))
  {
    MonomialCoordinate(x0, x1, x2, x3, xa, xb, xc, t);
    MonomialCoordinate(y0, y1, y2, y3, ya, yb, yc, t);
  }

  /** One coordinate of MonomialEvaluation. */
  lemma MonomialCoordinate(p0: real, p1: real, p2: real, p3: real, a: real, b: real, c: real, t: real)
    requires a == CubicA(p0, p1, p2, p3) && b == CubicB(p0, p1, p2) && c == CubicC(p0, p1)
    ensures Bernstein(p0, p1, p2, p3, t) == ((a * t + b) * t + c) * t + p0
    ensures BernsteinDerivative(p0, p1, p2, p3, t) == (3.0 * a * t + 2.0 * b) * t + c
    ensures BernsteinSecondDerivative(p0, p1, p2, p3, t) == 6.0 * a * t + 2.0 * b
    ensures BernsteinDerivative(p0, p1, p2, p3, 0.0) == c
    ensures BernsteinDerivative(p0, p1, p2, p3, 1.0) == 3.0 * (p3 - p2)
  {
    MonomialMatchesBernstein(p0, p1, p2, p3, t);
    BernsteinEnds(p0, p1, p2, p3);
  }

  /** evaluateCurve(v, t, type, normalized), in the monomial form of the
      source, the handles reset and x, y reassigned step by step. */
  method EvaluateCurve(num: Numerics, v: CurveValues, t: Option<real>, kind: int, normalized: bool) returns (r: Option<Point>)
    ensures r == Evaluation(num, v, t, kind, normalized)
  {
    if t.None? || t.value < 0.0 || t.value > 1.0 {
      return None;
    }
    var t := t.value;
    var x0, y0, x1, y1, x2, y2, x3, y3 := v[0], v[1], v[2], v[3], v[4], v[5], v[6], v[7];
    // handles that are almost zero are reset to the anchors
    if num.isZero(x1 - x0) && num.isZero(y1 - y0) {
      x1, y1 := x0, y0;
    }
    if num.isZero(x2 - x3) && num.isZero(y2 - y3) {
      x2, y2 := x3, y3;
    }
    ghost var c := Snapped(num, v);
    assert c == [x0, y0, x1, y1, x2, y2, x3, y3];
    var xc, yc := CubicC(x0, x1), CubicC(y0, y1);
    var xb, yb := CubicB(x0, x1, x2), CubicB(y0, y1, y2);
    var xa, ya := CubicA(x0, x1, x2, x3), CubicA(y0, y1, y2, y3);
    var x, y;
    if kind == 0 {
      // the ends exactly, to avoid imprecision
      x := if t == 0.0 then x0 else if t == 1.0 then x3 else ((xa * t + xb) * t + xc) * t + x0;
      y := if t == 0.0 then y0 else if t == 1.0 then y3 else ((ya * t + yb) * t + yc) * t + y0;
      assert t != 0.0 && t != 1.0 ==> Point(x, y) == PointAt(c, t) by { MonomialEvaluation(x0, y0, x1, y1, x2, y2, x3, y3, xa, xb, xc, ya, yb, yc, t); }
    } else {
      var tMin := num.curveTimeEpsilon;
      var tMax := 1.0 - tMin;
      x, y := MonomialTangent(num, x0, y0, x1, y1, x2, y2, x3, y3, xa, xb, xc, ya, yb, yc, t);
      assert Point(x, y) == Tangent(num, c, t);
      if normalized {
        if x == 0.0 && y == 0.0 && (t < tMin || t > tMax) {
          x, y := x2 - x1, y2 - y1;
        }
        assert Point(x, y) == TangentOrHandles(num, c, t);
        x, y := NormalizeTangent(num, x, y);
      }
      if kind == 3 {
        // the second derivative
        var ddx, ddy := 6.0 * xa * t + 2.0 * xb, 6.0 * ya * t + 2.0 * yb;
        assert Point(ddx, ddy) == SecondDerivativeAt(c, t) by { MonomialEvaluation(x0, y0, x1, y1, x2, y2, x3, y3, xa, xb, xc, ya, yb, yc, t); }
        x := CurvatureOf(num, x, y, ddx, ddy);
        y := 0.0;
      }
    }
    // the normal is the tangent rotated
    r := Some(if kind == 2 then Point(y, -x) else Point(x, y));
  }

  // ---------------------------------------------------------------------------
  // getPeaks
  // ---------------------------------------------------------------------------

  /** The coefficients getPeaks hands to solveCubic, from the monomial
      coefficients (a, b, c) of each coordinate: the cubic
      9|a|^2 t^3 + 9 a.b t^2 + (2|b|^2 + 3 c.a) t + c.b. */
  function PeakCoefficients(v: CurveValues): (real, real, real, real) {
    var x0, y0, x1, y1, x2, y2, x3, y3 := v[0], v[1], v[2], v[3], v[4], v[5], v[6], v[7];
    PeakCoefficientsOf(-x0 + 3.0 * x1 - 3.0 * x2 + x3, 3.0 * x0 - 6.0 * x1 + 3.0 * x2, -3.0 * x0 + 3.0 * x1,
                       -y0 + 3.0 * y1 - 3.0 * y2 + y3, 3.0 * y0 - 6.0 * y1 + 3.0 * y2, -3.0 * y0 + 3.0 * y1)
  }

  /** getPeaks writes out the same monomial coefficients evaluateCurve derives. */
  lemma PeakCoefficientsAreMonomial(v: CurveValues)
    ensures PeakCoefficients(v)
         == PeakCoefficientsOf(CubicA(v[0], v[2], v[4], v[6]), CubicB(v[0], v[2], v[4]), CubicC(v[0], v[2]),
                               CubicA(v[1], v[3], v[5], v[7]), CubicB(v[1], v[3], v[5]), CubicC(v[1], v[3]))
  {
  }

  function PeakCoefficientsOf(xa: real, xb: real, xc: real, ya: real, yb: real, yc: real): (real, real, real, real) {
    (9.0 * (xa * xa + ya * ya),
     9.0 * (xa * xb + yb * ya),
     2.0 * (xb * xb + yb * yb) + 3.0 * (xc * xa + yc * ya),
     xc * xb + yb * yc)
  }

  function CubicAt(k: (real, real, real, real), t: real): real {
    ((k.0 * t + k.1) * t + k.2) * t + k.3
  }

  function PeakCubic(v: CurveValues, t: real): real {
    CubicAt(PeakCoefficients(v), t)
  }

  /** The peak cubic is half of B'(t).B''(t), the derivative of half the squared
      speed: its roots are where the speed along the curve is stationary. */
  lemma PeakCubicIsHalfDot(v: CurveValues, t: real)
    ensures 2.0 * PeakCubic(v, t) == Dot(DerivativeAt(v, t), SecondDerivativeAt(v, t))
  {
    var x0, y0, x1, y1, x2, y2, x3, y3 := v[0], v[1], v[2], v[3], v[4], v[5], v[6], v[7];
    var xa, xb, xc := CubicA(x0, x1, x2, x3), CubicB(x0, x1, x2), CubicC(x0, x1);
    var ya, yb, yc := CubicA(y0, y1, y2, y3), CubicB(y0, y1, y2), CubicC(y0, y1);
    PeakCoefficientsAreMonomial(v);
    assert v == [x0, y0, x1, y1, x2, y2, x3, y3];
    MonomialEvaluation(x0, y0, x1, y1, x2, y2, x3, y3, xa, xb, xc, ya, yb, yc, t);
    MonomialPeak(xa, xb, xc, ya, yb, yc, t);
  }

  lemma MonomialPeak(xa: real, xb: real, xc: real, ya: real, yb: real, yc: real, t: real)
    ensures 2.0 * CubicAt(PeakCoefficientsOf(xa, xb, xc, ya, yb, yc), t)
         == Dot(Point((3.0 * xa * t + 2.0 * xb) * t + xc, (3.0 * ya * t + 2.0 * yb) * t + yc),
                Point(6.0 * xa * t + 2.0 * xb, 6.0 * ya * t + 2.0 * yb))
  {
    PeakProduct(xa, xb, xc, t);
    PeakProduct(ya, yb, yc, t);
  }

  /** One coordinate of B'(t) B''(t) in monomial form. */
  lemma PeakProduct(a: real, b: real, c: real, t: real)
    ensures ((3.0 * a * t + 2.0 * b) * t + c) * (6.0 * a * t + 2.0 * b)
         == 2.0 * ((((9.0 * a * a) * t + 9.0 * a * b) * t + (2.0 * b * b + 3.0 * c * a)) * t + c * b)
  {
  }

  /** The order of `Array.prototype.sort` without a comparator, which compares
      the numbers' string forms: `before(a, b)` says a may stand before b. Only
      its being a total preorder is relied on. */
  ghost predicate TotalPreorder(before: (real, real) -> bool) {
    && (forall a, b :: before(a, b) || before(b, a))
    && (forall a, b, c :: before(a, b) && before(b, c) ==> before(a, c))
  }

  ghost predicate SortedBy(s: seq<real>, before: (real, real) -> bool) {
    forall i, j :: 0 <= i < j < |s| ==> before(s[i], s[j])
  }

  /** Puts a[i] and a[j] in order. */
  method CompareExchange(a: array<real>, i: int, j: int, before: (real, real) -> bool)
    requires 0 <= i < j < a.Length && TotalPreorder(before)
    modifies a
    ensures before(a[i], a[j])
    ensures (a[i] == old(a[i]) && a[j] == old(a[j])) || (a[i] == old(a[j]) && a[j] == old(a[i]))
    ensures forall k :: 0 <= k < a.Length && k != i && k != j ==> a[k] == old(a[k])
    ensures multiset(a[..]) == multiset(old(a[..]))
  {
    if !before(a[i], a[j]) {
      a[i], a[j] := a[j], a[i];
    }
  }

  /** `roots.sort()` for the at most three roots solveCubic reports: sorted and a permutation. */
  method SortRoots(a: array<real>, before: (real, real) -> bool)
    requires a.Length <= 3 && TotalPreorder(before)
    modifies a
    ensures SortedBy(a[..], before)
    ensures multiset(a[..]) == multiset(old(a[..]))
  {
    if a.Length >= 2 {
      CompareExchange(a, 0, 1, before);
    }
    if a.Length == 3 {
      ghost var first, second := a[0], a[1];
      CompareExchange(a, 1, 2, before);
      // the last place now holds an element no earlier than both others
      assert a[0] == first && before(first, second);
      assert a[2] == second || before(second, a[2]);
      assert before(first, a[2]) && before(a[1], a[2]);
      ghost var last := a[2];
      CompareExchange(a, 0, 1, before);
      assert a[2] == last;
    }
  }

  /** getPeaks(v): the parameters in [tMin, 1 - tMin] where B'.B'' vanishes,
      as solveCubic reports them, sorted. */
  method GetPeaks(num: Numerics, v: CurveValues, before: (real, real) -> bool) returns (peaks: seq<real>)
    requires num.Valid() && TotalPreorder(before)
    ensures var k := PeakCoefficients(v);
      multiset(peaks) == multiset(num.solveCubic(k.0, k.1, k.2, k.3, num.curveTimeEpsilon, 1.0 - num.curveTimeEpsilon))
    ensures |peaks| <= 3 && SortedBy(peaks, before)
    ensures forall i :: 0 <= i < |peaks| ==>
      && num.curveTimeEpsilon <= peaks[i] <= 1.0 - num.curveTimeEpsilon
      && Dot(DerivativeAt(v, peaks[i]), SecondDerivativeAt(v, peaks[i])) == 0.0
  {
    var tMin := num.curveTimeEpsilon;
    var tMax := 1.0 - tMin;
    var k := PeakCoefficients(v);
    var found := num.solveCubic(k.0, k.1, k.2, k.3, tMin, tMax);
    var roots := new real[|found|](i requires 0 <= i < |found| => found[i]);
    assert roots[..] == found;
    SortRoots(roots, before);
    peaks := roots[..];
    PeaksOfFoundRoots(num, v, found);
    ElementsOfPermutation(peaks, found);
  }

  /** A permutation has the same length and the same elements. */
  lemma ElementsOfPermutation(s: seq<real>, t: seq<real>)
    requires multiset(s) == multiset(t)
    ensures |s| == |t|
    ensures forall i :: 0 <= i < |s| ==> s[i] in t
  {
    assert |multiset(s)| == |s| && |multiset(t)| == |t|;
    forall i | 0 <= i < |s|
      ensures s[i] in t
    {
      assert s[i] in multiset(s);
    }
  }

  /** Each root solveCubic reports for the peak cubic is a peak inside [tMin, 1 - tMin]. */
  lemma PeaksOfFoundRoots(num: Numerics, v: CurveValues, found: seq<real>)
    requires num.Valid()
    requires var k := PeakCoefficients(v);
      found == num.solveCubic(k.0, k.1, k.2, k.3, num.curveTimeEpsilon, 1.0 - num.curveTimeEpsilon)
    ensures |found| <= 3
    ensures forall t :: t in found ==>
      && num.curveTimeEpsilon <= t <= 1.0 - num.curveTimeEpsilon
      && Dot(DerivativeAt(v, t), SecondDerivativeAt(v, t)) == 0.0
  {
    var k := PeakCoefficients(v);
    ReportedRoots(num, k, found);
    forall t | t in found
      ensures Dot(DerivativeAt(v, t), SecondDerivativeAt(v, t)) == 0.0
    {
      PeakCubicIsHalfDot(v, t);
    }
  }

  /** What solveCubic reports: at most three roots of the cubic, each in [tMin, 1 - tMin]. */
  lemma ReportedRoots(num: Numerics, k: (real, real, real, real), found: seq<real>)
    requires num.Valid()
    requires found == num.solveCubic(k.0, k.1, k.2, k.3, num.curveTimeEpsilon, 1.0 - num.curveTimeEpsilon)
    ensures |found| <= 3
    ensures forall t :: t in found ==> num.curveTimeEpsilon <= t <= 1.0 - num.curveTimeEpsilon && CubicAt(k, t) == 0.0
  {
    assert CubicRoots(found, k.0, k.1, k.2, k.3, num.curveTimeEpsilon, 1.0 - num.curveTimeEpsilon);
  }
}
