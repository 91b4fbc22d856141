/**
 * Fixed-size vectors Vec2, Vec3 and Vec4 over an exact scalar, with the
 * arithmetic the library overloads on them. The definitions follow the
 * library's bodies; what they amount to is stated in `VectorLaws`.
 *
 * Two behaviours of the library are kept as they are:
 *  - the vector-vector operators `a op b` evaluate `b.i op= a.i` for every
 *    component, so they overwrite and return the RIGHT operand; `a - b` is
 *    therefore `b - a` component-wise and `a / b` is `b / a`;
 *  - `u` and `v` are a second pair of names for the storage of `x` and `y`.
 */
module Vector {

  datatype Vec2 = Vec2(x: real, y: real)
  {
    /** Texture-coordinate names sharing the storage of `x` and `y`. */
    const u: real := x
    const v: real := y

    /** The components in order. */
    function Comps(): seq<real> { [x, y] }
  }

  datatype Vec3 = Vec3(x: real, y: real, z: real)
  {
    const u: real := x
    const v: real := y

    function Comps(): seq<real> { [x, y, z] }
  }

  datatype Vec4 = Vec4(x: real, y: real, z: real, w: real)
  {
    const u: real := x
    const v: real := y

    function Comps(): seq<real> { [x, y, z, w] }

    /** Component `i`, counting x, y, z, w from 0. */
    function At(i: nat): real
      requires i < 4
    {
      if i == 0 then x else if i == 1 then y else if i == 2 then z else w
    }

    /** This vector with component `i` replaced by `c`. */
    function With(i: nat, c: real): Vec4
      requires i < 4
    {
      if i == 0 then this.(x := c)
      else if i == 1 then this.(y := c)
      else if i == 2 then this.(z := c)
      else this.(w := c)
    }
  }

  // ---------------------------------------------------------------------
  // Construction
  // ---------------------------------------------------------------------

  /** `Vec2()`: every component is 0. */
  function Zero2(): (r: Vec2)
    ensures forall i | 0 <= i < 2 :: r.Comps()[i] == 0.0
  {
    Vec2(0.0, 0.0)
  }

  /** `Vec3()`: every component is 0. */
  function Zero3(): (r: Vec3)
    ensures forall i | 0 <= i < 3 :: r.Comps()[i] == 0.0
  {
    Vec3(0.0, 0.0, 0.0)
  }

  /** `Vec4()`: every component is 0. */
  function Zero4(): (r: Vec4)
    ensures forall i | 0 <= i < 4 :: r.Comps()[i] == 0.0
  {
    Vec4(0.0, 0.0, 0.0, 0.0)
  }

  /** `Vec2(s)`: `s` broadcast to every component. */
  function Splat2(s: real): (r: Vec2)
    ensures forall i | 0 <= i < 2 :: r.Comps()[i] == s
  {
    Vec2(s, s)
  }

  /** `Vec3(s)`: `s` broadcast to every component. */
  function Splat3(s: real): (r: Vec3)
    ensures forall i | 0 <= i < 3 :: r.Comps()[i] == s
  {
    Vec3(s, s, s)
  }

  /** `Vec4(s)`: `s` broadcast to every component. */
  function Splat4(s: real): (r: Vec4)
    ensures forall i | 0 <= i < 4 :: r.Comps()[i] == s
  {
    Vec4(s, s, s, s)
  }

  /** `Vec3(Vec2 a, z)`: the components of `a`, then `z`. */
  function Vec3FromVec2(a: Vec2, z: real): (r: Vec3)
    ensures r.Comps() == a.Comps() + [z]
  {
    Vec3(a.x, a.y, z)
  }

  /** `Vec4(T* array)`: the first four entries of the array. */
  function Vec4FromArray(s: seq<real>): (r: Vec4)
    requires |s| >= 4
    ensures r.Comps() == s[..4]
  {
    Vec4(s[0], s[1], s[2], s[3])
  }

  /** `Vec4(Vec2 a, z, w)`: the components of `a`, then `z`, then `w`. */
  function Vec4FromVec2(a: Vec2, z: real, w: real): (r: Vec4)
    ensures r.Comps() == a.Comps() + [z, w]
  {
    Vec4(a.x, a.y, z, w)
  }

  /** `Vec4(x, y, Vec2 a)`: `x`, `y`, then the components of `a`. */
  function Vec4FromScalarsVec2(x: real, y: real, a: Vec2): (r: Vec4)
    ensures r.Comps() == [x, y] + a.Comps()
  {
    Vec4(x, y, a.x, a.y)
  }

  /** `Vec4(x, Vec2 a, w)`: `x`, the components of `a`, then `w`. */
  function Vec4FromScalarVec2Scalar(x: real, a: Vec2, w: real): (r: Vec4)
    ensures r.Comps() == [x] + a.Comps() + [w]
  {
    Vec4(x, a.x, a.y, w)
  }

  /** `Vec4(Vec3 a, w)`: the components of `a`, then `w`. */
  function Vec4FromVec3(a: Vec3, w: real): (r: Vec4)
    ensures r.Comps() == a.Comps() + [w]
  {
    Vec4(a.x, a.y, a.z, w)
  }

  /** `Vec4(x, Vec3 a)`: `x`, then the components of `a`. */
  function Vec4FromScalarVec3(x: real, a: Vec3): (r: Vec4)
    ensures r.Comps() == [x] + a.Comps()
  {
    Vec4(x, a.x, a.y, a.z)
  }

  // ---------------------------------------------------------------------
  // Sum
  // ---------------------------------------------------------------------

  /** `Vec2::Sum`. */
  function Sum2(a: Vec2): real
  {
    a.x + a.y
  }

  /** `Vec3::Sum`. */
  function Sum3(a: Vec3): real
  {
    a.x + a.y + a.z
  }

  /** `Vec4::Sum`. */
  function Sum4(a: Vec4): real
  {
    a.x + a.y + a.z + a.w
  }

  // ---------------------------------------------------------------------
  // Vector-vector operators. `a op b` runs `b.i op= a.i` on every component
  // of the right operand and returns it, so each function below gives the
  // right operand's new value (also the operator's result); the left
  // operand is unchanged, unless both operands are the same vector (then
  // `a - a` also sets `a` to zero, which this value model does not show).
  // ---------------------------------------------------------------------

  /** `a + b` on Vec2. */
  function Add2(a: Vec2, b: Vec2): Vec2
  {
    Vec2(b.x + a.x, b.y + a.y)
  }

  /** `a - b` on Vec2. */
  function Sub2(a: Vec2, b: Vec2): Vec2
  {
    Vec2(b.x - a.x, b.y - a.y)
  }

  /** `a * b` on Vec2. */
  function Mul2(a: Vec2, b: Vec2): Vec2
  {
    Vec2(b.x * a.x, b.y * a.y)
  }

  /** `a / b` on Vec2. */
  function Div2(a: Vec2, b: Vec2): Vec2
    requires a.x != 0.0 && a.y != 0.0
  {
    Vec2(b.x / a.x, b.y / a.y)
  }

  /** `a + b` on Vec3. */
  function Add3(a: Vec3, b: Vec3): Vec3
  {
    Vec3(b.x + a.x, b.y + a.y, b.z + a.z)
  }

  /** `a - b` on Vec3. */
  function Sub3(a: Vec3, b: Vec3): Vec3
  {
    Vec3(b.x - a.x, b.y - a.y, b.z - a.z)
  }

  /** `a * b` on Vec3. */
  function Mul3(a: Vec3, b: Vec3): Vec3
  {
    Vec3(b.x * a.x, b.y * a.y, b.z * a.z)
  }

  /** `a / b` on Vec3. */
  function Div3(a: Vec3, b: Vec3): Vec3
    requires a.x != 0.0 && a.y != 0.0 && a.z != 0.0
  {
    Vec3(b.x / a.x, b.y / a.y, b.z / a.z)
  }

  /** `a + b` on Vec4. */
  function Add4(a: Vec4, b: Vec4): Vec4
  {
    Vec4(b.x + a.x, b.y + a.y, b.z + a.z, b.w + a.w)
  }

  /** `a - b` on Vec4. */
  function Sub4(a: Vec4, b: Vec4): Vec4
  {
    Vec4(b.x - a.x, b.y - a.y, b.z - a.z, b.w - a.w)
  }

  /** `a * b` on Vec4. */
  function Mul4(a: Vec4, b: Vec4): Vec4
  {
    Vec4(b.x * a.x, b.y * a.y, b.z * a.z, b.w * a.w)
  }

  /** `a / b` on Vec4. */
  function Div4(a: Vec4, b: Vec4): Vec4
    requires a.x != 0.0 && a.y != 0.0 && a.z != 0.0 && a.w != 0.0
  {
    Vec4(b.x / a.x, b.y / a.y, b.z / a.z, b.w / a.w)
  }

  // ---------------------------------------------------------------------
  // Scalar-broadcast operators: `a op s` builds a new vector of `a.i op s`.
  // ---------------------------------------------------------------------

  /** `a + s` on Vec2. */
  function AddScalar2(a: Vec2, s: real): Vec2
  {
    Vec2(a.x + s, a.y + s)
  }

  /** `a - s` on Vec2. */
  function SubScalar2(a: Vec2, s: real): Vec2
  {
    Vec2(a.x - s, a.y - s)
  }

  /** `a * s` on Vec2. */
  function MulScalar2(a: Vec2, s: real): Vec2
  {
    Vec2(a.x * s, a.y * s)
  }

  /** `a / s` on Vec2. */
  function DivScalar2(a: Vec2, s: real): Vec2
    requires s != 0.0
  {
    Vec2(a.x / s, a.y / s)
  }

  /** `a + s` on Vec3. */
  function AddScalar3(a: Vec3, s: real): Vec3
  {
    Vec3(a.x + s, a.y + s, a.z + s)
  }

  /** `a - s` on Vec3. */
  function SubScalar3(a: Vec3, s: real): Vec3
  {
    Vec3(a.x - s, a.y - s, a.z - s)
  }

  /** `a * s` on Vec3. */
  function MulScalar3(a: Vec3, s: real): Vec3
  {
    Vec3(a.x * s, a.y * s, a.z * s)
  }

  /** `a / s` on Vec3. */
  function DivScalar3(a: Vec3, s: real): Vec3
    requires s != 0.0
  {
    Vec3(a.x / s, a.y / s, a.z / s)
  }

  /** `a + s` on Vec4. */
  function AddScalar4(a: Vec4, s: real): Vec4
  {
    Vec4(a.x + s, a.y + s, a.z + s, a.w + s)
  }

  /** `a - s` on Vec4. */
  function SubScalar4(a: Vec4, s: real): Vec4
  {
    Vec4(a.x - s, a.y - s, a.z - s, a.w - s)
  }

  /** `a * s` on Vec4. */
  function MulScalar4(a: Vec4, s: real): Vec4
  {
    Vec4(a.x * s, a.y * s, a.z * s, a.w * s)
  }

  /** `a / s` on Vec4. */
  function DivScalar4(a: Vec4, s: real): Vec4
    requires s != 0.0
  {
    Vec4(a.x / s, a.y / s, a.z / s, a.w / s)
  }

  // ---------------------------------------------------------------------
  // Dot and Cross
  // ---------------------------------------------------------------------

  /** `Dot(a, b)` on Vec2, computed as `(a * b).Sum()`. */
  function Dot2(a: Vec2, b: Vec2): (r: real)
    ensures r == a.x * b.x + a.y * b.y
  {
    Sum2(Mul2(a, b))
  }

  /** `Dot(a, b)` on Vec3, computed as `(a * b).Sum()`. */
  function Dot3(a: Vec3, b: Vec3): (r: real)
    ensures r == a.x * b.x + a.y * b.y + a.z * b.z
  {
    Sum3(Mul3(a, b))
  }

  /** `Dot(a, b)` on Vec4, computed as `(a * b).Sum()`. */
  function Dot4(a: Vec4, b: Vec4): (r: real)
    ensures r == a.x * b.x + a.y * b.y + a.z * b.z + a.w * b.w
  {
    Sum4(Mul4(a, b))
  }

  /** `Cross(a, b)` on Vec3. */
  function Cross(a: Vec3, b: Vec3): Vec3
  {
    Vec3(a.y * b.z - b.y * a.z,
         a.z * b.x - b.z * a.x,
         a.x * b.y - b.x * a.y)
  }
}
