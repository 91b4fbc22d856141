/**
 * The transform builders. Each starts from a filled matrix and writes its
 * cells one by one through `m[i][j]`, in the order the library writes them.
 *
 * Trigonometry is not modelled: the rotations take the cosine and sine of
 * their angle, and the perspective projection takes `tan(fov / 2)`, as
 * parameters.
 *
 * `Translate` puts the translation in storage row 3. `TransformLaws`
 * therefore reads storage row i as column i: a point p is sent to the
 * vector whose component j is the sum over i of p_i * m[i][j].
 */
module Transforms {
  import opened Vector
  import opened Matrix

  /** `Translate(v)`: the identity with `v` written into storage row 3. */
  function Translate(v: Vec3): (m: Matrix4x4)
    ensures m == Matrix4x4(Vec4(1.0, 0.0, 0.0, 0.0),
                           Vec4(0.0, 1.0, 0.0, 0.0),
                           Vec4(0.0, 0.0, 1.0, 0.0),
                           Vec4(v.x, v.y, v.z, 1.0))
  {
    var m := Fill(0.0);
    var m := WithCell(m, 0, 0, 1.0);
    var m := WithCell(m, 1, 1, 1.0);
    var m := WithCell(m, 2, 2, 1.0);
    var m := WithCell(m, 3, 3, 1.0);
    var m := WithCell(m, 3, 0, v.x);
    var m := WithCell(m, 3, 1, v.y);
    WithCell(m, 3, 2, v.z)
  }

  /** `Scale(v)`: the diagonal matrix (v.x, v.y, v.z, 1). */
  function Scale(v: Vec3): (m: Matrix4x4)
    ensures m == Matrix4x4(Vec4(v.x, 0.0, 0.0, 0.0),
                           Vec4(0.0, v.y, 0.0, 0.0),
                           Vec4(0.0, 0.0, v.z, 0.0),
                           Vec4(0.0, 0.0, 0.0, 1.0))
  {
    var m := Fill(0.0);
    var m := WithCell(m, 0, 0, v.x);
    var m := WithCell(m, 1, 1, v.y);
    var m := WithCell(m, 2, 2, v.z);
    WithCell(m, 3, 3, 1.0)
  }

  /** `RotateX(angle)`, given c = cos(angle) and s = sin(angle). */
  function RotateX(c: real, s: real): (m: Matrix4x4)
    ensures m == Matrix4x4(Vec4(1.0, 0.0, 0.0, 0.0),
                           Vec4(0.0, c, s, 0.0),
                           Vec4(0.0, -s, c, 0.0),
                           Vec4(0.0, 0.0, 0.0, 1.0))
  {
    var m := Fill(0.0);
    var m := WithCell(m, 0, 0, 1.0);
    var m := WithCell(m, 3, 3, 1.0);
    var m := WithCell(m, 1, 1, c);
    var m := WithCell(m, 2, 1, -s);
    var m := WithCell(m, 1, 2, s);
    WithCell(m, 2, 2, c)
  }

  /**
   * `RotateY(angle)`, given c = cos(angle) and s = sin(angle). Cell [3][3]
   * is never written, so it keeps the 0 of the fill.
   */
  function RotateY(c: real, s: real): (m: Matrix4x4)
    ensures m == Matrix4x4(Vec4(c, 0.0, -s, 0.0),
                           Vec4(0.0, 1.0, 0.0, 0.0),
                           Vec4(s, 0.0, c, 0.0),
                           Vec4(0.0, 0.0, 0.0, 0.0))
  {
    var m := Fill(0.0);
    var m := WithCell(m, 0, 0, c);
    var m := WithCell(m, 2, 0, s);
    var m := WithCell(m, 1, 1, 1.0);
    var m := WithCell(m, 0, 2, -s);
    WithCell(m, 2, 2, c)
  }

  /** `RotateZ(angle)`, given c = cos(angle) and s = sin(angle). */
  function RotateZ(c: real, s: real): (m: Matrix4x4)
    ensures m == Matrix4x4(Vec4(c, s, 0.0, 0.0),
                           Vec4(-s, c, 0.0, 0.0),
                           Vec4(0.0, 0.0, 1.0, 0.0),
                           Vec4(0.0, 0.0, 0.0, 1.0))
  {
    var m := Fill(0.0);
    var m := WithCell(m, 0, 0, c);
    var m := WithCell(m, 1, 0, -s);
    var m := WithCell(m, 0, 1, s);
    var m := WithCell(m, 1, 1, c);
    var m := WithCell(m, 2, 2, 1.0);
    WithCell(m, 3, 3, 1.0)
  }

  /**
   * `RotateXYZ(angles)`: `RotateX * RotateY * RotateZ` under the library's
   * product, given the cosines and the sines of the three angles.
   */
  function RotateXYZ(cosines: Vec3, sines: Vec3): Matrix4x4
  {
    var m := RotateX(cosines.x, sines.x);
    var m := Product(m, RotateY(cosines.y, sines.y));
    Product(m, RotateZ(cosines.z, sines.z))
  }

  /**
   * `Orthographic(left, right, bottom, top, zNear, zFar)`. The result starts
   * as the all-ones matrix, and only six cells are overwritten, so the ten
   * others hold 1.
   */
  function Orthographic(left: real, right: real, bottom: real, top: real, zNear: real, zFar: real): (m: Matrix4x4)
    requires right != left && top != bottom && zFar != zNear
    ensures m == Matrix4x4(Vec4(2.0 / (right - left), 1.0, 1.0, 1.0),
                           Vec4(1.0, 2.0 / (top - bottom), 1.0, 1.0),
                           Vec4(1.0, 1.0, -2.0 / (zFar - zNear), 1.0),
                           Vec4(-(right + left) / (right - left), -(top + bottom) / (top - bottom),
                                -(zFar + zNear) / (zFar - zNear), 1.0))
  {
    var m := Fill(1.0);
    var m := WithCell(m, 0, 0, 2.0 / (right - left));
    var m := WithCell(m, 1, 1, 2.0 / (top - bottom));
    var m := WithCell(m, 2, 2, -2.0 / (zFar - zNear));
    var m := WithCell(m, 3, 0, -(right + left) / (right - left));
    var m := WithCell(m, 3, 1, -(top + bottom) / (top - bottom));
    WithCell(m, 3, 2, -(zFar + zNear) / (zFar - zNear))
  }

  /**
   * `Perspective(fov, aspectRatio, near, far)`, given t = tan(fov / 2).
   * Storage row 2 carries the -1 that copies -z into w.
   */
  function Perspective(tanHalfFov: real, aspectRatio: real, near: real, far: real): (m: Matrix4x4)
    requires aspectRatio * tanHalfFov != 0.0 && far != near
    ensures m == Matrix4x4(Vec4(1.0 / (aspectRatio * tanHalfFov), 0.0, 0.0, 0.0),
                           Vec4(0.0, -1.0 / tanHalfFov, 0.0, 0.0),
                           Vec4(0.0, 0.0, -(far + near) / (far - near), -1.0),
                           Vec4(0.0, 0.0, -(2.0 * far * near) / (far - near), 0.0))
  {
    var m := Fill(0.0);
    var m := WithCell(m, 0, 0, 1.0 / (aspectRatio * tanHalfFov));
    var m := WithCell(m, 1, 1, -1.0 / tanHalfFov);
    var m := WithCell(m, 2, 2, -(far + near) / (far - near));
    var m := WithCell(m, 2, 3, -1.0);
    WithCell(m, 3, 2, -(2.0 * far * near) / (far - near))
  }
}
