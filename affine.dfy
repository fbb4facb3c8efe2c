/**
 * The 2D affine matrices the transform and camera code build (ebiten's GeoM), with exact
 * real coefficients. A matrix maps (x, y) to (a*x + b*y + tx, c*x + d*y + ty); the zero
 * value of a GeoM is the identity. Builders follow the library's convention: every
 * operation is applied AFTER the transform already held in the matrix.
 */
module Affine {
  import opened Geometry

  datatype GeoM = GeoM(a: real, b: real, c: real, d: real, tx: real, ty: real)

  /**
   * cos and sin belong to a foreign math library; the model takes them as a pair of
   * functions, and assumes nothing of them except, where stated, cos^2 + sin^2 == 1.
   */
  datatype Trig = Trig(cos: real -> real, sin: real -> real)

  ghost predicate UnitCircle(trig: Trig) {
    forall theta: real :: trig.cos(theta) * trig.cos(theta) + trig.sin(theta) * trig.sin(theta) == 1.0
  }

  /** The image of point p under m. */
  function Apply(m: GeoM, p: Point): Point {
    Point(m.a * p.x + m.b * p.y + m.tx, m.c * p.x + m.d * p.y + m.ty)
  }

  /** Determinant of the linear part; the matrix is invertible exactly when it is non-zero. */
  function Det(m: GeoM): real {
    m.a * m.d - m.b * m.c
  }

  /** GeoM.Reset and the zero GeoM. */
  function Identity(): (r: GeoM)
    ensures forall p :: Apply(r, p) == p
  {
    GeoM(1.0, 0.0, 0.0, 1.0, 0.0, 0.0)
  }

  /** GeoM.Translate: move every image point by (x, y). */
  function Translate(m: GeoM, x: real, y: real): (r: GeoM)
    ensures forall p :: Apply(r, p) == Point(Apply(m, p).x + x, Apply(m, p).y + y)
    ensures Det(r) == Det(m)
  {
    m.(tx := m.tx + x, ty := m.ty + y)
  }

  /** GeoM.Scale: stretch every image point by x horizontally and y vertically. */
  function Scale(m: GeoM, x: real, y: real): (r: GeoM)
    ensures forall p :: Apply(r, p) == Point(x * Apply(m, p).x, y * Apply(m, p).y)
  {
    GeoM(m.a * x, m.b * x, m.c * y, m.d * y, m.tx * x, m.ty * y)
  }

  /** GeoM.Concat: the result applies m first and then other (the product other * m). */
  function Concat(m: GeoM, other: GeoM): GeoM {
    GeoM(other.a * m.a + other.b * m.c,
         other.a * m.b + other.b * m.d,
         other.c * m.a + other.d * m.c,
         other.c * m.b + other.d * m.d,
         other.a * m.tx + other.b * m.ty + other.tx,
         other.c * m.tx + other.d * m.ty + other.ty)
  }

  /** The rotation matrix of GeoM.Rotate for an angle whose cosine and sine are given. */
  function Rotation(cos: real, sin: real): GeoM {
    GeoM(cos, -sin, sin, cos, 0.0, 0.0)
  }

  /** GeoM.Rotate: rotate every image point by theta radians about (0, 0). */
  function Rotate(m: GeoM, theta: real, trig: Trig): GeoM {
    Concat(m, Rotation(trig.cos(theta), trig.sin(theta)))
  }

  /**
   * GeoM.Invert. The library panics on a singular matrix, so a non-zero determinant is
   * demanded of the caller.
   */
  function Invert(m: GeoM): GeoM
    requires Det(m) != 0.0
  {
    var det := Det(m);
    GeoM(m.d / det, -m.b / det, -m.c / det, m.a / det,
         (m.b * m.ty - m.d * m.tx) / det, (m.c * m.tx - m.a * m.ty) / det)
  }

  /** Concat composes the two maps, m first. */
  lemma ApplyConcat(m: GeoM, other: GeoM, p: Point)
    ensures Apply(Concat(m, other), p) == Apply(other, Apply(m, p))
  {
    var q := Apply(m, p);
    calc {
      Apply(Concat(m, other), p).x;
      (other.a * m.a + other.b * m.c) * p.x + (other.a * m.b + other.b * m.d) * p.y
        + other.a * m.tx + other.b * m.ty + other.tx;
      other.a * (m.a * p.x + m.b * p.y + m.tx) + other.b * (m.c * p.x + m.d * p.y + m.ty) + other.tx;
      Apply(other, q).x;
    }
    calc {
      Apply(Concat(m, other), p).y;
      (other.c * m.a + other.d * m.c) * p.x + (other.c * m.b + other.d * m.d) * p.y
        + other.c * m.tx + other.d * m.ty + other.ty;
      other.c * (m.a * p.x + m.b * p.y + m.tx) + other.d * (m.c * p.x + m.d * p.y + m.ty) + other.ty;
      Apply(other, q).y;
    }
  }

  /** Concatenating onto a reset matrix yields the concatenated matrix itself. */
  lemma ConcatIdentityLeft(m: GeoM)
    ensures Concat(Identity(), m) == m
  {
  }

  /** Determinants multiply under Concat. */
  lemma DetConcat(m: GeoM, other: GeoM)
    ensures Det(Concat(m, other)) == Det(other) * Det(m)
  {
  }

  /** Scaling multiplies the determinant by both factors. */
  lemma DetScale(m: GeoM, x: real, y: real)
    ensures Det(Scale(m, x, y)) == x * y * Det(m)
  {
  }

  /** A rotation has determinant cos^2 + sin^2, i.e. 1 on the unit circle. */
  lemma DetRotate(m: GeoM, theta: real, trig: Trig)
    requires UnitCircle(trig)
    ensures Det(Rotate(m, theta, trig)) == Det(m)
  {
    var c, s := trig.cos(theta), trig.sin(theta);
    DetConcat(m, Rotation(c, s));
    assert Det(Rotation(c, s)) == c * c + s * s == 1.0;
  }

  /** The entries of the inverse are the adjugate's entries times k = 1 / Det(m). */
  lemma InvertByReciprocal(m: GeoM, k: real)
    requires Det(m) != 0.0 && k == 1.0 / Det(m)
    ensures k * Det(m) == 1.0
    ensures Invert(m) == GeoM(m.d * k, -m.b * k, -m.c * k, m.a * k,
                              (m.b * m.ty - m.d * m.tx) * k, (m.c * m.tx - m.a * m.ty) * k)
  {
  }

  /** Invert is a two-sided inverse under Concat. */
  lemma InvertIsInverse(m: GeoM)
    requires Det(m) != 0.0
    ensures Concat(m, Invert(m)) == Identity()
    ensures Concat(Invert(m), m) == Identity()
  {
    var det := Det(m);
    var k := 1.0 / det;
    InvertByReciprocal(m, k);
    var i := Invert(m);
    var l := Concat(m, i);
    assert l.a == k * det;
    assert l.b == k * (m.d * m.b - m.b * m.d);
    assert l.c == k * (m.a * m.c - m.c * m.a);
    assert l.d == k * det;
    assert l.tx == k * (m.d * m.tx - m.b * m.ty + m.b * m.ty - m.d * m.tx);
    assert l.ty == k * (m.a * m.ty - m.c * m.tx + m.c * m.tx - m.a * m.ty);
    var r := Concat(i, m);
    assert r.a == k * det;
    assert r.b == k * (m.b * m.a - m.a * m.b);
    assert r.c == k * (m.c * m.d - m.d * m.c);
    assert r.d == k * det;
    assert r.tx == k * (m.a * (m.b * m.ty - m.d * m.tx) + m.b * (m.c * m.tx - m.a * m.ty) + m.tx * det);
    assert r.ty == k * (m.c * (m.b * m.ty - m.d * m.tx) + m.d * (m.c * m.tx - m.a * m.ty) + m.ty * det);
  }

  /** The inverse undoes the matrix on every point, and the matrix undoes its inverse. */
  lemma ApplyInvert(m: GeoM, p: Point)
    requires Det(m) != 0.0
    ensures Apply(Invert(m), Apply(m, p)) == p
    ensures Apply(m, Apply(Invert(m), p)) == p
  {
    InvertIsInverse(m);
    ApplyConcat(m, Invert(m), p);
    ApplyConcat(Invert(m), m, p);
  }

  /** The inverse has the reciprocal determinant, so it is itself invertible. */
  lemma DetInvert(m: GeoM)
    requires Det(m) != 0.0
    ensures Det(Invert(m)) * Det(m) == 1.0
  {
    InvertIsInverse(m);
    DetConcat(m, Invert(m));
  }

  /** Inverting twice gives back the original matrix. */
  lemma InvertInvolutive(m: GeoM)
    requires Det(m) != 0.0
    ensures Det(Invert(m)) != 0.0 && Invert(Invert(m)) == m
  {
    var i := Invert(m);
    DetInvert(m);
    InvertIsInverse(m);
    InvertIsInverse(i);
    // Invert(i) == (Invert(i) * i) * m == Invert(i) * (i * m) == m, in Concat order.
    ConcatAssociative(m, i, Invert(i));
    ConcatIdentityLeft(Invert(i));
    ConcatIdentityRight(m);
  }

  /**
   * One entry of a triple product, regrouped: row (p, r) of the outer matrix, the middle
   * matrix's block and offsets (q, v, t1 / s, w, t2), and column (u, z) of the inner one.
   */
  lemma Regroup(p: real, r: real, q: real, s: real, v: real, w: real, u: real, z: real,
                t1: real, t2: real, t3: real, x1: real, x2: real, y1: real, y2: real, y3: real,
                lhs: real, rhs: real)
    requires x1 == q * u + v * z + t1 && x2 == s * u + w * z + t2
    requires y1 == p * q + r * s && y2 == p * v + r * w && y3 == p * t1 + r * t2 + t3
    requires lhs == p * x1 + r * x2 + t3 && rhs == y1 * u + y2 * z + y3
    ensures lhs == rhs
  {
  }

  /** The first row of a triple product does not depend on how it is grouped. */
  lemma ConcatAssociativeRow1(m1: GeoM, m2: GeoM, m3: GeoM)
    ensures var l, r := Concat(Concat(m1, m2), m3), Concat(m1, Concat(m2, m3));
            l.a == r.a && l.b == r.b && l.tx == r.tx
  {
    var x, y := Concat(m1, m2), Concat(m2, m3);
    var l, r := Concat(x, m3), Concat(m1, y);
    Regroup(m3.a, m3.b, m2.a, m2.c, m2.b, m2.d, m1.a, m1.c, 0.0, 0.0, 0.0,
            x.a, x.c, y.a, y.b, 0.0, l.a, r.a);
    Regroup(m3.a, m3.b, m2.a, m2.c, m2.b, m2.d, m1.b, m1.d, 0.0, 0.0, 0.0,
            x.b, x.d, y.a, y.b, 0.0, l.b, r.b);
    Regroup(m3.a, m3.b, m2.a, m2.c, m2.b, m2.d, m1.tx, m1.ty, m2.tx, m2.ty, m3.tx,
            x.tx, x.ty, y.a, y.b, y.tx, l.tx, r.tx);
  }

  /** The second row of a triple product does not depend on how it is grouped. */
  lemma ConcatAssociativeRow2(m1: GeoM, m2: GeoM, m3: GeoM)
    ensures var l, r := Concat(Concat(m1, m2), m3), Concat(m1, Concat(m2, m3));
            l.c == r.c && l.d == r.d && l.ty == r.ty
  {
    var x, y := Concat(m1, m2), Concat(m2, m3);
    var l, r := Concat(x, m3), Concat(m1, y);
    Regroup(m3.c, m3.d, m2.a, m2.c, m2.b, m2.d, m1.a, m1.c, 0.0, 0.0, 0.0,
            x.a, x.c, y.c, y.d, 0.0, l.c, r.c);
    Regroup(m3.c, m3.d, m2.a, m2.c, m2.b, m2.d, m1.b, m1.d, 0.0, 0.0, 0.0,
            x.b, x.d, y.c, y.d, 0.0, l.d, r.d);
    Regroup(m3.c, m3.d, m2.a, m2.c, m2.b, m2.d, m1.tx, m1.ty, m2.tx, m2.ty, m3.ty,
            x.tx, x.ty, y.c, y.d, y.ty, l.ty, r.ty);
  }

  /** Concat is associative. */
  lemma ConcatAssociative(m1: GeoM, m2: GeoM, m3: GeoM)
    ensures Concat(Concat(m1, m2), m3) == Concat(m1, Concat(m2, m3))
  {
    ConcatAssociativeRow1(m1, m2, m3);
    ConcatAssociativeRow2(m1, m2, m3);
  }

  /** Concatenating the identity onto a matrix leaves it unchanged. */
  lemma ConcatIdentityRight(m: GeoM)
    ensures Concat(m, Identity()) == m
  {
  }
}
