/**
 * The 4x4 matrix: sixteen scalars stored as four storage rows of four,
 * `Cell(m, i, j)` being the cell the library reads as `data[i][j]`.
 *
 * Three behaviours of the library are kept as they are:
 *  - the default constructor fills every cell with 1; it is not the identity;
 *  - `GetColumn(i)` reads the same storage row as `GetRow(i)`;
 *  - hence the product's cell (x, y) is `Dot(row x of A, row y of B)`, the
 *    sum over k of A[x][k] * B[y][k].
 */
module Matrix {
  import opened Vector

  /** Storage rows `data[0]` .. `data[3]`. */
  datatype Matrix4x4 = Matrix4x4(r0: Vec4, r1: Vec4, r2: Vec4, r3: Vec4)

  /** Storage row `i`: what `m[i]` points at. */
  function Row(m: Matrix4x4, i: nat): Vec4
    requires i < 4
  {
    if i == 0 then m.r0 else if i == 1 then m.r1 else if i == 2 then m.r2 else m.r3
  }

  /** The cell `m[i][j]`. */
  function Cell(m: Matrix4x4, i: nat, j: nat): real
    requires i < 4 && j < 4
  {
    Row(m, i).At(j)
  }

  /** `Matrix4x4(d)`: every cell holds `d`. */
  function Fill(d: real): (m: Matrix4x4)
    ensures forall i: nat, j: nat | i < 4 && j < 4 :: Cell(m, i, j) == d
  {
    Matrix4x4(Splat4(d), Splat4(d), Splat4(d), Splat4(d))
  }

  /** `Matrix4x4()`: every cell holds 1. */
  function Default(): (m: Matrix4x4)
    ensures forall i: nat, j: nat | i < 4 && j < 4 :: Cell(m, i, j) == 1.0
  {
    Fill(1.0)
  }

  /**
   * `GetRow(i)`: the vector built from storage row `i` through `Vec4(T*)`.
   * The library returns a reference to that temporary; the model returns
   * its value.
   */
  function GetRow(m: Matrix4x4, i: nat): (r: Vec4)
    requires i < 4
    ensures r == Row(m, i)
  {
    Vec4FromArray(Row(m, i).Comps())
  }

  /**
   * `GetColumn(i)`: starts from `Vec4(0)` and copies `data[i][0..3]` into
   * x, y, z, w, so it yields storage row `i` as well. The library returns a
   * reference to that local vector, which dangles; the model returns the
   * vector's value.
   */
  function GetColumn(m: Matrix4x4, i: nat): (r: Vec4)
    requires i < 4
    ensures r == Row(m, i)
  {
    var r := Splat4(0.0);
    var r := r.(x := Cell(m, i, 0));
    var r := r.(y := Cell(m, i, 1));
    var r := r.(z := Cell(m, i, 2));
    r.(w := Cell(m, i, 3))
  }

  /** This matrix with storage row `i` replaced by `row`. */
  function WithRow(m: Matrix4x4, i: nat, row: Vec4): Matrix4x4
    requires i < 4
  {
    if i == 0 then m.(r0 := row)
    else if i == 1 then m.(r1 := row)
    else if i == 2 then m.(r2 := row)
    else m.(r3 := row)
  }

  /**
   * Writing `v` through `m[i][j]` (`operator[]` hands out storage row `i`):
   * cell (i, j) becomes `v` and every other cell keeps its value.
   */
  function WithCell(m: Matrix4x4, i: nat, j: nat, v: real): (r: Matrix4x4)
    requires i < 4 && j < 4
    ensures Cell(r, i, j) == v
    ensures forall p: nat, q: nat | p < 4 && q < 4 && (p != i || q != j) ::
              Cell(r, p, q) == Cell(m, p, q)
  {
    WithRow(m, i, Row(m, i).With(j, v))
  }

  /** Each component of `v * s` is that component times `s`. */
  lemma ScaledComponents(v: Vec4, s: real)
    ensures MulScalar4(v, s).x == v.x * s && MulScalar4(v, s).y == v.y * s
    ensures MulScalar4(v, s).z == v.z * s && MulScalar4(v, s).w == v.w * s
  {
  }

  /**
   * `m * s` for a scalar `s`: `result[x][y] = data[x][y] * s`, so each
   * storage row is that row under the vector operator `row * s`.
   */
  function ScaleBy(m: Matrix4x4, s: real): (r: Matrix4x4)
    ensures r == Matrix4x4(MulScalar4(m.r0, s), MulScalar4(m.r1, s),
                           MulScalar4(m.r2, s), MulScalar4(m.r3, s))
  {
    ScaledComponents(m.r0, s);
    ScaledComponents(m.r1, s);
    ScaledComponents(m.r2, s);
    ScaledComponents(m.r3, s);
    Matrix4x4(Vec4(m.r0.x * s, m.r0.y * s, m.r0.z * s, m.r0.w * s),
              Vec4(m.r1.x * s, m.r1.y * s, m.r1.z * s, m.r1.w * s),
              Vec4(m.r2.x * s, m.r2.y * s, m.r2.z * s, m.r2.w * s),
              Vec4(m.r3.x * s, m.r3.y * s, m.r3.z * s, m.r3.w * s))
  }

  /** Row `x` of `a * b`: `Dot(a.GetRow(x), b.GetColumn(y))` for y = 0 .. 3. */
  function ProductRow(a: Matrix4x4, b: Matrix4x4, x: nat): Vec4
    requires x < 4
  {
    var row := GetRow(a, x);
    Vec4(Dot4(row, GetColumn(b, 0)), Dot4(row, GetColumn(b, 1)),
         Dot4(row, GetColumn(b, 2)), Dot4(row, GetColumn(b, 3)))
  }

  /**
   * `a * b` for two matrices. Because `GetColumn` reads a storage row, cell
   * (x, y) is the dot product of storage row x of `a` with storage row y of
   * `b`.
   */
  function Product(a: Matrix4x4, b: Matrix4x4): (r: Matrix4x4)
    ensures forall x: nat, y: nat | x < 4 && y < 4 :: Cell(r, x, y) == Dot4(Row(a, x), Row(b, y))
  {
    Matrix4x4(ProductRow(a, b, 0), ProductRow(a, b, 1), ProductRow(a, b, 2), ProductRow(a, b, 3))
  }
}
