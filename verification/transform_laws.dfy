/**
 * What the transform builders do to points, and how they combine under the
 * library's product.
 *
 * The library applies no matrix to a point itself, so `Transform` is this
 * model's own reading of the layout. Storage row i is read as column i,
 * which is where `Translate` puts its translation (storage row 3): component
 * j of the image is the sum over i of p_i * m[i][j], the dot product of p
 * with textbook column j.
 */
module TransformLaws {
  import opened Vector
  import opened Matrix
  import opened MatrixLaws
  import opened Transforms

  /** The image of the homogeneous point `p` under `m`. */
  function Transform(m: Matrix4x4, p: Vec4): Vec4
  {
    Vec4(Dot4(p, Column(m, 0)), Dot4(p, Column(m, 1)), Dot4(p, Column(m, 2)), Dot4(p, Column(m, 3)))
  }

  /** `m` has a zero storage row 3 and a zero column 3. */
  predicate DropsW(m: Matrix4x4)
  {
    m.r3 == Zero4() && m.r0.w == 0.0 && m.r1.w == 0.0 && m.r2.w == 0.0
  }

  /**
   * A product whose right operand has a zero storage row 3 and a zero
   * column 3, and whose left operand has the unit storage row 3, drops w.
   */
  lemma ProductIntoZeroCorner(a: Matrix4x4, b: Matrix4x4)
    requires a.r3 == Vec4(0.0, 0.0, 0.0, 1.0)
    requires DropsW(b)
    ensures DropsW(Product(a, b))
  {
    ProductCells(a, b);
    UnitDots(b.r0);
    UnitDots(b.r1);
    UnitDots(b.r2);
    ZeroDots(a.r0);
    ZeroDots(a.r1);
    ZeroDots(a.r2);
  }

  /** A product whose left operand drops w and whose right operand has the unit storage row 3 drops w. */
  lemma ProductFromZeroCorner(a: Matrix4x4, b: Matrix4x4)
    requires DropsW(a)
    requires b.r3 == Vec4(0.0, 0.0, 0.0, 1.0)
    ensures DropsW(Product(a, b))
  {
    ProductCells(a, b);
    UnitDots(a.r0);
    UnitDots(a.r1);
    UnitDots(a.r2);
    ZeroDots(b.r0);
    ZeroDots(b.r1);
    ZeroDots(b.r2);
    ZeroDots(b.r3);
  }

  /**
   * `RotateXYZ` is never an affine transform: `RotateY` leaves [3][3] at 0,
   * and under the library's product that zero spreads to all of storage
   * row 3 and all of column 3, whatever the angles.
   */
  lemma RotateXYZDropsW(cosines: Vec3, sines: Vec3)
    ensures DropsW(RotateXYZ(cosines, sines))
  {
    var x, y, z := RotateX(cosines.x, sines.x), RotateY(cosines.y, sines.y), RotateZ(cosines.z, sines.z);
    ProductIntoZeroCorner(x, y);
    ProductFromZeroCorner(Product(x, y), z);
  }

  /** The image of `p` under a matrix given cell by cell. */
  lemma TransformCells(a00: real, a01: real, a02: real, a03: real,
                       a10: real, a11: real, a12: real, a13: real,
                       a20: real, a21: real, a22: real, a23: real,
                       a30: real, a31: real, a32: real, a33: real, p: Vec4)
    ensures Transform(Matrix4x4(Vec4(a00, a01, a02, a03), Vec4(a10, a11, a12, a13),
                                Vec4(a20, a21, a22, a23), Vec4(a30, a31, a32, a33)), p)
            == Vec4(p.x * a00 + p.y * a10 + p.z * a20 + p.w * a30,
                    p.x * a01 + p.y * a11 + p.z * a21 + p.w * a31,
                    p.x * a02 + p.y * a12 + p.z * a22 + p.w * a32,
                    p.x * a03 + p.y * a13 + p.z * a23 + p.w * a33)
  {
  }

  /**
   * `Translate(v)` moves a point (w = 1) by `v` and leaves a direction
   * (w = 0) alone; in general it adds w times `v`.
   */
  lemma TranslateMovesPoints(v: Vec3, p: Vec4, q: Vec3)
    ensures Transform(Translate(v), p) == Vec4(p.x + p.w * v.x, p.y + p.w * v.y, p.z + p.w * v.z, p.w)
    ensures Transform(Translate(v), Vec4FromVec3(q, 1.0)) == Vec4FromVec3(Add3(v, q), 1.0)
    ensures Transform(Translate(v), Vec4FromVec3(q, 0.0)) == Vec4FromVec3(q, 0.0)
  {
    TransformCells(1.0, 0.0, 0.0, 0.0, 0.0, 1.0, 0.0, 0.0, 0.0, 0.0, 1.0, 0.0, v.x, v.y, v.z, 1.0, p);
    TransformCells(1.0, 0.0, 0.0, 0.0, 0.0, 1.0, 0.0, 0.0, 0.0, 0.0, 1.0, 0.0, v.x, v.y, v.z, 1.0, Vec4FromVec3(q, 1.0));
    TransformCells(1.0, 0.0, 0.0, 0.0, 0.0, 1.0, 0.0, 0.0, 0.0, 0.0, 1.0, 0.0, v.x, v.y, v.z, 1.0, Vec4FromVec3(q, 0.0));
  }

  /** `Scale(v)` multiplies x, y and z by the components of `v` and keeps w. */
  lemma ScaleStretchesPoints(v: Vec3, p: Vec4)
    ensures Transform(Scale(v), p) == Vec4(p.x * v.x, p.y * v.y, p.z * v.z, p.w)
  {
    TransformCells(v.x, 0.0, 0.0, 0.0, 0.0, v.y, 0.0, 0.0, 0.0, 0.0, v.z, 0.0, 0.0, 0.0, 0.0, 1.0, p);
  }

  /**
   * The library's product of two matrices that agree with the identity
   * except in storage row 3.
   */
  lemma ProductOfUnitFrames(ta: Vec4, tb: Vec4)
    ensures var e0, e1, e2 := Vec4(1.0, 0.0, 0.0, 0.0), Vec4(0.0, 1.0, 0.0, 0.0), Vec4(0.0, 0.0, 1.0, 0.0);
            Product(Matrix4x4(e0, e1, e2, ta), Matrix4x4(e0, e1, e2, tb))
              == Matrix4x4(Vec4(1.0, 0.0, 0.0, tb.x), Vec4(0.0, 1.0, 0.0, tb.y),
                           Vec4(0.0, 0.0, 1.0, tb.z), Vec4(ta.x, ta.y, ta.z, Dot4(ta, tb)))
  {
    var e0, e1, e2 := Vec4(1.0, 0.0, 0.0, 0.0), Vec4(0.0, 1.0, 0.0, 0.0), Vec4(0.0, 0.0, 1.0, 0.0);
    ProductCells(Matrix4x4(e0, e1, e2, ta), Matrix4x4(e0, e1, e2, tb));
    UnitDots(ta);
    UnitDots(tb);
    UnitDots(e0);
    UnitDots(e1);
    UnitDots(e2);
  }

  /** Two points lifted with w = 1 have dot product a.b + 1. */
  lemma LiftedDot(a: Vec3, b: Vec3)
    ensures Dot4(Vec4FromVec3(a, 1.0), Vec4FromVec3(b, 1.0)) == Dot3(a, b) + 1.0
  {
  }

  /**
   * Under the library's product two translations do not compose: the
   * product carries `b` down column 3 and a.b + 1 in [3][3].
   */
  lemma ProductOfTranslations(a: Vec3, b: Vec3)
    ensures Product(Translate(a), Translate(b))
              == Matrix4x4(Vec4(1.0, 0.0, 0.0, b.x), Vec4(0.0, 1.0, 0.0, b.y),
                           Vec4(0.0, 0.0, 1.0, b.z), Vec4(a.x, a.y, a.z, Dot3(a, b) + 1.0))
  {
    ProductOfUnitFrames(Vec4FromVec3(a, 1.0), Vec4FromVec3(b, 1.0));
    LiftedDot(a, b);
  }

  /** The matrix `ProductOfTranslations` describes is a translation exactly when `b` is zero. */
  lemma FrameIsTranslation(a: Vec3, b: Vec3)
    ensures (Matrix4x4(Vec4(1.0, 0.0, 0.0, b.x), Vec4(0.0, 1.0, 0.0, b.y),
                       Vec4(0.0, 0.0, 1.0, b.z), Vec4(a.x, a.y, a.z, Dot3(a, b) + 1.0))
               == Translate(Add3(a, b))) <==> b == Zero3()
  {
    if b == Zero3() {
      assert Dot3(a, b) == 0.0;
      assert Add3(a, b) == a;
    }
  }

  /** The product of two translations is the translation by a + b when `b` is zero ... */
  lemma TranslationsComposeWhenZero(a: Vec3, b: Vec3)
    ensures b == Zero3() ==> Product(Translate(a), Translate(b)) == Translate(Add3(a, b))
  {
    ProductOfTranslations(a, b);
    FrameIsTranslation(a, b);
  }

  /** ... and only then. */
  lemma TranslationsComposeOnlyWhenZero(a: Vec3, b: Vec3)
    ensures Product(Translate(a), Translate(b)) == Translate(Add3(a, b)) ==> b == Zero3()
  {
    ProductOfTranslations(a, b);
    FrameIsTranslation(a, b);
  }

  /**
   * `RotateX` turns a point about the x axis: y and z go to
   * (c y - s z, s y + c z), right-handed, while x and w stay.
   */
  lemma RotateXMapsPoints(c: real, s: real, p: Vec4)
    ensures Transform(RotateX(c, s), p) == Vec4(p.x, c * p.y - s * p.z, s * p.y + c * p.z, p.w)
  {
    TransformCells(1.0, 0.0, 0.0, 0.0, 0.0, c, s, 0.0, 0.0, -s, c, 0.0, 0.0, 0.0, 0.0, 1.0, p);
  }

  /**
   * `RotateY` turns a point about the y axis: z and x go to
   * (c z - s x, s z + c x), right-handed. Because [3][3] is never written,
   * every image has w = 0, so every point comes out as a direction.
   */
  lemma RotateYMapsPoints(c: real, s: real, p: Vec4)
    ensures Transform(RotateY(c, s), p) == Vec4(c * p.x + s * p.z, p.y, -s * p.x + c * p.z, 0.0)
  {
    TransformCells(c, 0.0, -s, 0.0, 0.0, 1.0, 0.0, 0.0, s, 0.0, c, 0.0, 0.0, 0.0, 0.0, 0.0, p);
  }

  /**
   * `RotateZ` turns a point about the z axis: x and y go to
   * (c x - s y, s x + c y), right-handed, while z and w stay.
   */
  lemma RotateZMapsPoints(c: real, s: real, p: Vec4)
    ensures Transform(RotateZ(c, s), p) == Vec4(c * p.x - s * p.y, s * p.x + c * p.y, p.z, p.w)
  {
    TransformCells(c, s, 0.0, 0.0, -s, c, 0.0, 0.0, 0.0, 0.0, 1.0, 0.0, 0.0, 0.0, 0.0, 1.0, p);
  }

  /** At angle 0 (cosine 1, sine 0) RotateX and RotateZ are the identity; RotateY is not. */
  lemma RotationsAtZero()
    ensures RotateX(1.0, 0.0) == Identity()
    ensures RotateZ(1.0, 0.0) == Identity()
    ensures RotateY(1.0, 0.0) == Diagonal(1.0, 1.0, 1.0, 0.0) != Identity()
  {
  }

  /**
   * The library's product of two matrices that rotate only in the x-y
   * plane: each 2x2 corner cell is a dot product of storage rows.
   */
  lemma PlaneBlockProduct(u0: Vec4, u1: Vec4, v0: Vec4, v1: Vec4)
    requires u0.z == 0.0 && u0.w == 0.0 && u1.z == 0.0 && u1.w == 0.0
    requires v0.z == 0.0 && v0.w == 0.0 && v1.z == 0.0 && v1.w == 0.0
    ensures var e2, e3 := Vec4(0.0, 0.0, 1.0, 0.0), Vec4(0.0, 0.0, 0.0, 1.0);
            Product(Matrix4x4(u0, u1, e2, e3), Matrix4x4(v0, v1, e2, e3))
              == Matrix4x4(Vec4(Dot4(u0, v0), Dot4(u0, v1), 0.0, 0.0),
                           Vec4(Dot4(u1, v0), Dot4(u1, v1), 0.0, 0.0), e2, e3)
  {
    var e2, e3 := Vec4(0.0, 0.0, 1.0, 0.0), Vec4(0.0, 0.0, 0.0, 1.0);
    ProductCells(Matrix4x4(u0, u1, e2, e3), Matrix4x4(v0, v1, e2, e3));
    UnitDots(u0);
    UnitDots(u1);
    UnitDots(v0);
    UnitDots(v1);
    UnitDots(e2);
    UnitDots(e3);
  }

  /** The corner of `RotateZ(c, s) * RotateZ(c, -s)` as dot products of the builders' rows. */
  lemma RotateZPairCells(c: real, s: real)
    ensures var u0, u1 := Vec4(c, s, 0.0, 0.0), Vec4(-s, c, 0.0, 0.0);
            var v0, v1 := Vec4(c, -s, 0.0, 0.0), Vec4(s, c, 0.0, 0.0);
            Product(RotateZ(c, s), RotateZ(c, -s))
              == Matrix4x4(Vec4(Dot4(u0, v0), Dot4(u0, v1), 0.0, 0.0),
                           Vec4(Dot4(u1, v0), Dot4(u1, v1), 0.0, 0.0),
                           Vec4(0.0, 0.0, 1.0, 0.0), Vec4(0.0, 0.0, 0.0, 1.0))
  {
    PlaneBlockProduct(Vec4(c, s, 0.0, 0.0), Vec4(-s, c, 0.0, 0.0), Vec4(c, -s, 0.0, 0.0), Vec4(s, c, 0.0, 0.0));
  }

  /** The four dot products of `RotateZPairCells`, in closed form. */
  lemma RotateZPairDots(c: real, s: real)
    ensures Dot4(Vec4(c, s, 0.0, 0.0), Vec4(c, -s, 0.0, 0.0)) == c * c - s * s
    ensures Dot4(Vec4(c, s, 0.0, 0.0), Vec4(s, c, 0.0, 0.0)) == 2.0 * c * s
    ensures Dot4(Vec4(-s, c, 0.0, 0.0), Vec4(c, -s, 0.0, 0.0)) == -(2.0 * c * s)
    ensures Dot4(Vec4(-s, c, 0.0, 0.0), Vec4(s, c, 0.0, 0.0)) == c * c - s * s
  {
  }

  /** The dot-product corner of `RotateZPairCells` is the rotation by the doubled angle. */
  lemma RotateZPairCorner(c: real, s: real)
    ensures var u0, u1 := Vec4(c, s, 0.0, 0.0), Vec4(-s, c, 0.0, 0.0);
            var v0, v1 := Vec4(c, -s, 0.0, 0.0), Vec4(s, c, 0.0, 0.0);
            Matrix4x4(Vec4(Dot4(u0, v0), Dot4(u0, v1), 0.0, 0.0),
                      Vec4(Dot4(u1, v0), Dot4(u1, v1), 0.0, 0.0),
                      Vec4(0.0, 0.0, 1.0, 0.0), Vec4(0.0, 0.0, 0.0, 1.0))
              == RotateZ(c * c - s * s, 2.0 * c * s)
  {
    RotateZPairDots(c, s);
  }

  /**
   * `RotateZ(angle) * RotateZ(-angle)` is not the identity under the
   * library's product: since the product multiplies by the transpose of its
   * right operand, the two rotations add up, and the result is the
   * rotation by twice the angle (cos 2a = c^2 - s^2, sin 2a = 2cs).
   */
  lemma RotateZTimesInverse(c: real, s: real)
    ensures Product(RotateZ(c, s), RotateZ(c, -s)) == RotateZ(c * c - s * s, 2.0 * c * s)
  {
    RotateZPairCells(c, s);
    RotateZPairCorner(c, s);
  }

  // ---------------------------------------------------------------------
  // Projections
  // ---------------------------------------------------------------------

  /** The affine map that sends `lo` to -1 and `hi` to 1. */
  function Ndc(v: real, lo: real, hi: real): real
    requires hi != lo
  {
    (2.0 * v - (hi + lo)) / (hi - lo)
  }

  /** A quotient is the number that multiplies the divisor back to the dividend. */
  lemma Quotient(a: real, d: real, q: real)
    requires d != 0.0 && q * d == a
    ensures a / d == q
  {
  }

  /** `Ndc` sends the ends of its range to -1 and 1. */
  lemma NdcEnds(lo: real, hi: real)
    requires hi != lo
    ensures Ndc(lo, lo, hi) == -1.0 && Ndc(hi, lo, hi) == 1.0
  {
    Quotient(2.0 * lo - (hi + lo), hi - lo, -1.0);
    Quotient(2.0 * hi - (hi + lo), hi - lo, 1.0);
  }

  /** The two Orthographic cells of one axis, applied to a coordinate `v`. */
  lemma OrthographicAxis(v: real, lo: real, hi: real)
    requires hi != lo
    ensures v * (2.0 / (hi - lo)) + -(hi + lo) / (hi - lo) == Ndc(v, lo, hi)
    ensures v * (-2.0 / (hi - lo)) + -(hi + lo) / (hi - lo) == Ndc(-v, lo, hi)
  {
    var d := hi - lo;
    assert v * (2.0 / d) == (2.0 * v) / d;
    assert v * (-2.0 / d) == (2.0 * -v) / d;
  }

  /**
   * `Orthographic` sends the point (x, y, z, 1) to its box coordinates, x
   * mapped from [left, right], y from [bottom, top] and -z from
   * [zNear, zFar] onto [-1, 1], except that the ten cells the builder never
   * writes hold 1: they add the other two coordinates to each of x, y, z,
   * and make w equal x + y + z + 1 instead of 1.
   */
  lemma OrthographicMapsPoints(left: real, right: real, bottom: real, top: real, zNear: real, zFar: real,
                               x: real, y: real, z: real)
    requires right != left && top != bottom && zFar != zNear
    ensures Transform(Orthographic(left, right, bottom, top, zNear, zFar), Vec4(x, y, z, 1.0))
            == Vec4(Ndc(x, left, right) + y + z, Ndc(y, bottom, top) + x + z,
                    Ndc(-z, zNear, zFar) + x + y, x + y + z + 1.0)
  {
    TransformCells(2.0 / (right - left), 1.0, 1.0, 1.0,
                   1.0, 2.0 / (top - bottom), 1.0, 1.0,
                   1.0, 1.0, -2.0 / (zFar - zNear), 1.0,
                   -(right + left) / (right - left), -(top + bottom) / (top - bottom),
                   -(zFar + zNear) / (zFar - zNear), 1.0,
                   Vec4(x, y, z, 1.0));
    OrthographicAxis(x, left, right);
    OrthographicAxis(y, bottom, top);
    OrthographicAxis(z, zNear, zFar);
  }

  /**
   * Hence the corners of the viewing box: the near-bottom-left corner
   * (left, bottom, -zNear) lands on (-1, -1, -1) only when its other
   * coordinates cancel, and w is 1 only on the plane x + y + z = 0.
   */
  lemma OrthographicCorners(left: real, right: real, bottom: real, top: real, zNear: real, zFar: real)
    requires right != left && top != bottom && zFar != zNear
    ensures var m := Orthographic(left, right, bottom, top, zNear, zFar);
            Transform(m, Vec4(left, bottom, -zNear, 1.0))
              == Vec4(-1.0 + bottom - zNear, -1.0 + left - zNear, -1.0 + left + bottom,
                      left + bottom - zNear + 1.0)
    ensures var m := Orthographic(left, right, bottom, top, zNear, zFar);
            Transform(m, Vec4(right, top, -zFar, 1.0))
              == Vec4(1.0 + top - zFar, 1.0 + right - zFar, 1.0 + right + top,
                      right + top - zFar + 1.0)
  {
    OrthographicMapsPoints(left, right, bottom, top, zNear, zFar, left, bottom, -zNear);
    OrthographicMapsPoints(left, right, bottom, top, zNear, zFar, right, top, -zFar);
    NdcEnds(left, right);
    NdcEnds(bottom, top);
    NdcEnds(zNear, zFar);
  }

  /** The depth that `Perspective` writes before the divide by w = -z. */
  function PerspectiveDepth(z: real, near: real, far: real): real
    requires far != near
  {
    -(far + near) / (far - near) * z + -(2.0 * far * near) / (far - near)
  }

  /** `PerspectiveDepth` is -near at z = -near and far at z = -far. */
  lemma PerspectiveDepthEnds(near: real, far: real)
    requires far != near
    ensures PerspectiveDepth(-near, near, far) == -near
    ensures PerspectiveDepth(-far, near, far) == far
  {
    var d := far - near;
    assert PerspectiveDepth(-near, near, far) == ((far + near) * near - 2.0 * far * near) / d;
    assert (far + near) * near - 2.0 * far * near == -near * d;
    assert PerspectiveDepth(-far, near, far) == ((far + near) * far - 2.0 * far * near) / d;
    assert (far + near) * far - 2.0 * far * near == far * d;
  }

  /**
   * `Perspective` sends (x, y, z, 1) to (x / (aspect * t), -y / t, depth, -z):
   * w becomes -z, and after the divide by w the near plane z = -near lands
   * at depth -1 and the far plane z = -far at depth 1. The y axis comes out
   * negated.
   */
  lemma PerspectiveMapsPoints(tanHalfFov: real, aspectRatio: real, near: real, far: real,
                              x: real, y: real, z: real)
    requires aspectRatio * tanHalfFov != 0.0 && far != near
    ensures Transform(Perspective(tanHalfFov, aspectRatio, near, far), Vec4(x, y, z, 1.0))
            == Vec4(x / (aspectRatio * tanHalfFov), -y / tanHalfFov, PerspectiveDepth(z, near, far), -z)
  {
    TransformCells(1.0 / (aspectRatio * tanHalfFov), 0.0, 0.0, 0.0,
                   0.0, -1.0 / tanHalfFov, 0.0, 0.0,
                   0.0, 0.0, -(far + near) / (far - near), -1.0,
                   0.0, 0.0, -(2.0 * far * near) / (far - near), 0.0,
                   Vec4(x, y, z, 1.0));
    assert tanHalfFov != 0.0;
    assert x * (1.0 / (aspectRatio * tanHalfFov)) == x / (aspectRatio * tanHalfFov);
    assert y * (-1.0 / tanHalfFov) == -y / tanHalfFov;
  }

  /** After the divide by w, the near plane goes to depth -1 and the far plane to depth 1. */
  lemma PerspectiveDepthRange(tanHalfFov: real, aspectRatio: real, near: real, far: real)
    requires aspectRatio * tanHalfFov != 0.0 && far != near && near != 0.0 && far != 0.0
    ensures var m := Perspective(tanHalfFov, aspectRatio, near, far);
            var q := Transform(m, Vec4(0.0, 0.0, -near, 1.0));
            q.w == near && q.z / q.w == -1.0
    ensures var m := Perspective(tanHalfFov, aspectRatio, near, far);
            var q := Transform(m, Vec4(0.0, 0.0, -far, 1.0));
            q.w == far && q.z / q.w == 1.0
  {
    PerspectiveMapsPoints(tanHalfFov, aspectRatio, near, far, 0.0, 0.0, -near);
    PerspectiveMapsPoints(tanHalfFov, aspectRatio, near, far, 0.0, 0.0, -far);
    PerspectiveDepthEnds(near, far);
    Quotient(-near, near, -1.0);
    Quotient(far, far, 1.0);
  }
}
