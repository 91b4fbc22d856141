/**
 * What the matrix operations of `Matrix` amount to, measured against the
 * textbook notions defined here: the identity, the transpose, the column
 * and the row-by-column product.
 */
module MatrixLaws {
  import opened Vector
  import opened Matrix

  /** The diagonal matrix with diagonal (d0, d1, d2, d3). */
  function Diagonal(d0: real, d1: real, d2: real, d3: real): Matrix4x4
  {
    Matrix4x4(Vec4(d0, 0.0, 0.0, 0.0),
              Vec4(0.0, d1, 0.0, 0.0),
              Vec4(0.0, 0.0, d2, 0.0),
              Vec4(0.0, 0.0, 0.0, d3))
  }

  /** The identity matrix. */
  function Identity(): Matrix4x4
  {
    Diagonal(1.0, 1.0, 1.0, 1.0)
  }

  /** Textbook column `j`: cells [0][j] .. [3][j]. */
  function Column(m: Matrix4x4, j: nat): Vec4
    requires j < 4
  {
    Vec4(m.r0.At(j), m.r1.At(j), m.r2.At(j), m.r3.At(j))
  }

  /** The transpose: storage row `i` holds textbook column `i`. */
  function Transpose(m: Matrix4x4): Matrix4x4
  {
    Matrix4x4(Column(m, 0), Column(m, 1), Column(m, 2), Column(m, 3))
  }

  /** Row `x` of the textbook product. */
  function StandardRow(a: Matrix4x4, b: Matrix4x4, x: nat): Vec4
    requires x < 4
  {
    var row := Row(a, x);
    Vec4(Dot4(row, Column(b, 0)), Dot4(row, Column(b, 1)),
         Dot4(row, Column(b, 2)), Dot4(row, Column(b, 3)))
  }

  /** The textbook product: cell (x, y) is row x of `a` times column y of `b`. */
  function StandardProduct(a: Matrix4x4, b: Matrix4x4): Matrix4x4
  {
    Matrix4x4(StandardRow(a, b, 0), StandardRow(a, b, 1), StandardRow(a, b, 2), StandardRow(a, b, 3))
  }

  /** Transposing swaps the two indices of every cell, and twice is nothing. */
  lemma TransposeLaws(m: Matrix4x4)
    ensures forall i: nat, j: nat | i < 4 && j < 4 :: Cell(Transpose(m), i, j) == Cell(m, j, i)
    ensures Transpose(Transpose(m)) == m
  {
  }

  /** The default matrix is the all-ones matrix, not the identity. */
  lemma DefaultIsNotIdentity()
    ensures Default() == Fill(1.0)
    ensures Default() != Identity()
  {
    assert Cell(Default(), 0, 1) == 1.0 != Cell(Identity(), 0, 1);
  }

  /**
   * `GetColumn(i)` returns the same vector as `GetRow(i)`, which is the
   * textbook column only where `m` is symmetric there.
   */
  lemma ColumnIsRow(m: Matrix4x4, i: nat)
    requires i < 4
    ensures GetColumn(m, i) == GetRow(m, i)
    ensures (forall k: nat | k < 4 :: GetColumn(m, k) == Column(m, k)) <==> Transpose(m) == m
  {
    assert GetColumn(m, 0) == m.r0 && GetColumn(m, 1) == m.r1;
    assert GetColumn(m, 2) == m.r2 && GetColumn(m, 3) == m.r3;
  }

  /**
   * On a translation matrix the difference shows: `GetColumn(3)` is the
   * translation row (5, 6, 7, 1), not column 3.
   */
  lemma ColumnIsNotTextbookColumn()
    ensures var m := Matrix4x4(Vec4(1.0, 0.0, 0.0, 0.0), Vec4(0.0, 1.0, 0.0, 0.0),
                               Vec4(0.0, 0.0, 1.0, 0.0), Vec4(5.0, 6.0, 7.0, 1.0));
            GetColumn(m, 3) == Vec4(5.0, 6.0, 7.0, 1.0) && Column(m, 3) == Vec4(0.0, 0.0, 0.0, 1.0)
  {
  }

  /**
   * Cell writes: writing a cell's own value changes nothing, and writes to
   * two different cells commute.
   */
  lemma WithCellLaws(m: Matrix4x4, i: nat, j: nat, v: real, p: nat, q: nat, w: real)
    requires i < 4 && j < 4 && p < 4 && q < 4
    requires i != p || j != q
    ensures WithCell(m, i, j, Cell(m, i, j)) == m
    ensures WithCell(WithCell(m, i, j, v), p, q, w) == WithCell(WithCell(m, p, q, w), i, j, v)
  {
  }

  /** Every cell of `a * b` written out: cell (x, y) is `Dot(a[x], b[y])`. */
  lemma ProductCells(a: Matrix4x4, b: Matrix4x4)
    ensures Product(a, b)
      == Matrix4x4(Vec4(Dot4(a.r0, b.r0), Dot4(a.r0, b.r1), Dot4(a.r0, b.r2), Dot4(a.r0, b.r3)),
                   Vec4(Dot4(a.r1, b.r0), Dot4(a.r1, b.r1), Dot4(a.r1, b.r2), Dot4(a.r1, b.r3)),
                   Vec4(Dot4(a.r2, b.r0), Dot4(a.r2, b.r1), Dot4(a.r2, b.r2), Dot4(a.r2, b.r3)),
                   Vec4(Dot4(a.r3, b.r0), Dot4(a.r3, b.r1), Dot4(a.r3, b.r2), Dot4(a.r3, b.r3)))
  {
    assert GetRow(a, 0) == a.r0 && GetRow(a, 1) == a.r1 && GetRow(a, 2) == a.r2 && GetRow(a, 3) == a.r3;
    assert GetColumn(b, 0) == b.r0 && GetColumn(b, 1) == b.r1 && GetColumn(b, 2) == b.r2 && GetColumn(b, 3) == b.r3;
  }

  /** `row` with its components multiplied by d0 .. d3 in turn. */
  function ScaleComponents(row: Vec4, d0: real, d1: real, d2: real, d3: real): Vec4
  {
    Vec4(row.x * d0, row.y * d1, row.z * d2, row.w * d3)
  }

  /** A row times the rows of a diagonal matrix: each component scaled by its d. */
  lemma RowTimesDiagonal(v: Vec4, d0: real, d1: real, d2: real, d3: real)
    ensures Vec4(Dot4(v, Vec4(d0, 0.0, 0.0, 0.0)), Dot4(v, Vec4(0.0, d1, 0.0, 0.0)),
                 Dot4(v, Vec4(0.0, 0.0, d2, 0.0)), Dot4(v, Vec4(0.0, 0.0, 0.0, d3)))
            == ScaleComponents(v, d0, d1, d2, d3)
  {
  }

  /** Multiplying by a diagonal matrix on the right scales column y by d_y. */
  lemma ProductWithDiagonal(m: Matrix4x4, d0: real, d1: real, d2: real, d3: real)
    ensures Product(m, Diagonal(d0, d1, d2, d3))
              == Matrix4x4(ScaleComponents(m.r0, d0, d1, d2, d3), ScaleComponents(m.r1, d0, d1, d2, d3),
                           ScaleComponents(m.r2, d0, d1, d2, d3), ScaleComponents(m.r3, d0, d1, d2, d3))
  {
    ProductCells(m, Diagonal(d0, d1, d2, d3));
    RowTimesDiagonal(m.r0, d0, d1, d2, d3);
    RowTimesDiagonal(m.r1, d0, d1, d2, d3);
    RowTimesDiagonal(m.r2, d0, d1, d2, d3);
    RowTimesDiagonal(m.r3, d0, d1, d2, d3);
  }

  /** Scaling a vector twice multiplies the factors. */
  lemma ScaleTwice(v: Vec4, s: real, t: real)
    ensures MulScalar4(MulScalar4(v, s), t) == MulScalar4(v, s * t)
  {
    assert (v.x * s) * t == v.x * (s * t);
    assert (v.y * s) * t == v.y * (s * t);
    assert (v.z * s) * t == v.z * (s * t);
    assert (v.w * s) * t == v.w * (s * t);
  }

  /** Every one of the sixteen cells of `m * s` is the same cell of `m` times `s`. */
  lemma ScaleByCells(m: Matrix4x4, s: real)
    ensures ScaleBy(m, s).r0.x == m.r0.x * s && ScaleBy(m, s).r0.y == m.r0.y * s &&
            ScaleBy(m, s).r0.z == m.r0.z * s && ScaleBy(m, s).r0.w == m.r0.w * s
    ensures ScaleBy(m, s).r1.x == m.r1.x * s && ScaleBy(m, s).r1.y == m.r1.y * s &&
            ScaleBy(m, s).r1.z == m.r1.z * s && ScaleBy(m, s).r1.w == m.r1.w * s
    ensures ScaleBy(m, s).r2.x == m.r2.x * s && ScaleBy(m, s).r2.y == m.r2.y * s &&
            ScaleBy(m, s).r2.z == m.r2.z * s && ScaleBy(m, s).r2.w == m.r2.w * s
    ensures ScaleBy(m, s).r3.x == m.r3.x * s && ScaleBy(m, s).r3.y == m.r3.y * s &&
            ScaleBy(m, s).r3.z == m.r3.z * s && ScaleBy(m, s).r3.w == m.r3.w * s
  {
    ScaledComponents(m.r0, s);
    ScaledComponents(m.r1, s);
    ScaledComponents(m.r2, s);
    ScaledComponents(m.r3, s);
  }

  /** Scaling by 1 changes nothing, and scalings compose by multiplying the factors. */
  lemma ScaleByComposes(m: Matrix4x4, s: real, t: real)
    ensures ScaleBy(m, 1.0) == m
    ensures ScaleBy(ScaleBy(m, s), t) == ScaleBy(m, s * t)
  {
    ScaleTwice(m.r0, s, t);
    ScaleTwice(m.r1, s, t);
    ScaleTwice(m.r2, s, t);
    ScaleTwice(m.r3, s, t);
  }

  /** Scaling the identity by `s` gives `s` on the diagonal. */
  lemma ScaledIdentity(s: real)
    ensures ScaleBy(Identity(), s) == Diagonal(s, s, s, s)
  {
    assert MulScalar4(Vec4(1.0, 0.0, 0.0, 0.0), s) == Vec4(s, 0.0, 0.0, 0.0);
    assert MulScalar4(Vec4(0.0, 1.0, 0.0, 0.0), s) == Vec4(0.0, s, 0.0, 0.0);
    assert MulScalar4(Vec4(0.0, 0.0, 1.0, 0.0), s) == Vec4(0.0, 0.0, s, 0.0);
    assert MulScalar4(Vec4(0.0, 0.0, 0.0, 1.0), s) == Vec4(0.0, 0.0, 0.0, s);
  }

  /** Scaling by `s` is the matrix product with `s` times the identity. */
  lemma ScaleByIsProduct(m: Matrix4x4, s: real)
    ensures ScaleBy(m, s) == Product(m, ScaleBy(Identity(), s))
  {
    ScaledIdentity(s);
    ProductWithDiagonal(m, s, s, s, s);
  }

  /** The library's product is the textbook product with the right operand transposed. */
  lemma ProductIsStandardTimesTranspose(a: Matrix4x4, b: Matrix4x4)
    ensures Product(a, b) == StandardProduct(a, Transpose(b))
  {
    ProductCells(a, b);
    var bt := Transpose(b);
    assert Column(bt, 0) == b.r0 && Column(bt, 1) == b.r1;
    assert Column(bt, 2) == b.r2 && Column(bt, 3) == b.r3;
  }

  /** The dot product with a unit vector, on either side, picks one component. */
  lemma UnitDots(v: Vec4)
    ensures Dot4(Vec4(1.0, 0.0, 0.0, 0.0), v) == v.x == Dot4(v, Vec4(1.0, 0.0, 0.0, 0.0))
    ensures Dot4(Vec4(0.0, 1.0, 0.0, 0.0), v) == v.y == Dot4(v, Vec4(0.0, 1.0, 0.0, 0.0))
    ensures Dot4(Vec4(0.0, 0.0, 1.0, 0.0), v) == v.z == Dot4(v, Vec4(0.0, 0.0, 1.0, 0.0))
    ensures Dot4(Vec4(0.0, 0.0, 0.0, 1.0), v) == v.w == Dot4(v, Vec4(0.0, 0.0, 0.0, 1.0))
  {
  }

  /** A zero vector makes every dot product with it zero. */
  lemma ZeroDots(v: Vec4)
    ensures Dot4(Zero4(), v) == 0.0 && Dot4(v, Zero4()) == 0.0
  {
  }

  /**
   * A zero storage row 3 under the library's product: a zero row 3 of `a`
   * gives a zero storage row 3 of `a * b`, and a zero row 3 of `b` gives a
   * zero column 3.
   */
  lemma ProductZeroRows(a: Matrix4x4, b: Matrix4x4)
    ensures a.r3 == Zero4() ==> Product(a, b).r3 == Zero4()
    ensures b.r3 == Zero4() ==> Product(a, b).r0.w == 0.0 && Product(a, b).r1.w == 0.0 &&
                                Product(a, b).r2.w == 0.0 && Product(a, b).r3.w == 0.0
  {
    ProductCells(a, b);
    ZeroDots(b.r0);
    ZeroDots(b.r1);
    ZeroDots(b.r2);
    ZeroDots(b.r3);
    ZeroDots(a.r0);
    ZeroDots(a.r1);
    ZeroDots(a.r2);
    ZeroDots(a.r3);
  }

  /**
   * The identity is a right unit of the library's product, but on the left
   * it transposes: `I * m` is the transpose of `m`.
   */
  lemma ProductWithIdentity(m: Matrix4x4)
    ensures Product(m, Identity()) == m
    ensures Product(Identity(), m) == Transpose(m)
  {
    ProductWithDiagonal(m, 1.0, 1.0, 1.0, 1.0);
    ProductCells(Identity(), m);
    UnitDots(m.r0);
    UnitDots(m.r1);
    UnitDots(m.r2);
    UnitDots(m.r3);
  }
}
