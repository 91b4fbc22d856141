# MWATH vectors and matrices, modelled in Dafny

This project models the value-type linear-algebra layer of MWATH, a small
header-only C++ library. It covers:

- the fixed-size vectors `Vec2`, `Vec3` and `Vec4`: their constructors, the
  `x`/`u` and `y`/`v` aliases, `Sum`, the vector-vector and
  scalar-broadcast operators, `Dot` and `Cross`;
- the 4x4 matrix `Matrix4x4`: the default and fill constructors, `GetRow`,
  `GetColumn`, `operator[]`, and the scalar and matrix products;
- the transform builders `Translate`, `Scale`, `RotateX`, `RotateY`,
  `RotateZ`, `RotateXYZ`, `Orthographic` and `Perspective`.

Scalars are Dafny `real`, so the arithmetic is exact. The trigonometry the
builders call is not modelled. The rotations take the cosine and the sine
of their angle as parameters, `RotateXYZ` takes the three cosines and the
three sines, and `Perspective` takes `tan(fov / 2)`.

The model follows the code as written, and the proofs pin down where the
code differs from textbook linear algebra:

- A vector-vector operator `a op b` evaluates `b.i op= a.i` on every
  component, then returns the right operand. So `a - b` is `b - a`
  component-wise, and `a / b` is `b / a`.
- The default matrix constructor fills every cell with 1. It is not the
  identity.
- `GetColumn(i)` reads storage row `i`, exactly like `GetRow(i)`. As a
  result, cell (x, y) of the matrix product is the sum over k of
  `A[x][k] * B[y][k]`: the product is `A` times the transpose of `B`.
  Then `I * M` is the transpose of `M`, and
  `RotateZ(a) * RotateZ(-a)` is the rotation by `2a` rather than the
  identity.
- `RotateY` never writes cell [3][3], so it keeps the 0 of its fill.
  Every `RotateXYZ` therefore has a zero storage row 3 and a zero column 3.
- `Orthographic` starts from the all-ones matrix. The ten cells it never
  writes stay 1, and they leak the other coordinates into every component
  of the image.

In each of these cases the model follows the code, not the textbook. The
textbook would make the default matrix the identity, and would take
product cell (x, y) with column `y` of the right operand.

Layout, one module per file:

- `Vector` (`vector.dfy`): the vector types and operations, as the header
  defines them.
- `VectorLaws` (`vector_laws.dfy`): what the vector operations amount to.
  This includes a generic right-operand accumulation and a recursive
  component sum to compare them against.
- `Matrix` (`matrix.dfy`): the matrix as four storage rows `r0`..`r3`, with
  `Cell(m, i, j)` for `data[i][j]`.
- `MatrixLaws` (`matrix_laws.dfy`): the product against the identity,
  diagonals, the textbook product and the transpose.
- `Transforms` (`transforms.dfy`): the builders, each written as the
  source's sequence of cell writes.
- `TransformLaws` (`transform_laws.dfy`): what the builders do to
  homogeneous points, and how they combine under the library's product.
  The library itself never applies a matrix to a point, so `Transform` is
  this model's own reading of the layout. Storage row i is read as column
  i, which is where `Translate` puts its translation (storage row 3). A
  point `p` is sent to the vector whose component j is the sum over i of
  `p_i * m[i][j]`.

## Model

| member | source | states |
|---|---|---|
| Vector.Zero2 | src/Vector.h:18-21 | `Vec2()` sets both components to 0 |
| Vector.Zero3 | src/Vector.h:69-73 | `Vec3()` sets every component to 0 |
| Vector.Zero4 | src/Vector.h:131-136 | `Vec4()` sets every component to 0 |
| Vector.Splat2 | src/Vector.h:23-26 | `Vec2(s)` broadcasts `s` to both components |
| Vector.Splat3 | src/Vector.h:75-79 | `Vec3(s)` broadcasts `s` to every component |
| Vector.Splat4 | src/Vector.h:138-143 | `Vec4(s)` broadcasts `s` to every component |
| Vector.Vec3FromVec2 | src/Vector.h:87-91 | `Vec3(Vec2 a, z)` lists the components of `a`, then `z` |
| Vector.Vec4FromArray | src/Vector.h:152-157 | `Vec4(T*)` takes the first four array entries in order |
| Vector.Vec4FromVec2 | src/Vector.h:159-164 | `Vec4(Vec2 a, z, w)` lists `a`, then `z`, then `w` |
| Vector.Vec4FromScalarsVec2 | src/Vector.h:166-171 | `Vec4(x, y, Vec2 a)` lists `x`, `y`, then `a` |
| Vector.Vec4FromScalarVec2Scalar | src/Vector.h:173-178 | `Vec4(x, Vec2 a, w)` lists `x`, then `a`, then `w` |
| Vector.Vec4FromVec3 | src/Vector.h:180-185 | `Vec4(Vec3 a, w)` lists `a`, then `w` |
| Vector.Vec4FromScalarVec3 | src/Vector.h:187-192 | `Vec4(x, Vec3 a)` lists `x`, then `a` |
| Vector.Dot2 | src/Vector.h:230-233 | `Dot` on Vec2, computed as `(a * b).Sum()`, is a.x*b.x + a.y*b.y |
| Vector.Dot3 | src/Vector.h:235-238 | `Dot` on Vec3 is the sum of the three component products |
| Vector.Dot4 | src/Vector.h:240-243 | `Dot` on Vec4 is the sum of the four component products |
| VectorLaws.AliasesShareStorage | src/Vector.h:33-41 | `u` always reads `x` and `v` always reads `y`, on every vector size (the unions at lines 93-101 and 194-202 are the same) |
| VectorLaws.SumIsTotal | src/Vector.h:43-45 | `Sum` of a Vec2, Vec3 or Vec4 equals the recursive sum of its whole component list (also lines 105-107 and 207-209) |
| VectorLaws.OperatorsAccumulateIntoRight2 | src/Vector.h:6 | each Vec2 operator `a op b` gives, for every component, the right operand's component updated with `op=` by the left's |
| VectorLaws.OperatorsAccumulateIntoRight3 | src/Vector.h:7 | the same for Vec3 |
| VectorLaws.OperatorsAccumulateIntoRight4 | src/Vector.h:8 | the same for Vec4 |
| VectorLaws.ScalarOpsAreBroadcast2 | src/Vector.h:10 | `a op s` on a Vec2 gives `a.i op s` for every component, like `Vec2(s) op` applied to `a` (division needs s != 0) |
| VectorLaws.ScalarOpsAreBroadcast3 | src/Vector.h:11 | the same for Vec3 |
| VectorLaws.ScalarOpsAreBroadcast4 | src/Vector.h:12 | the same for Vec4 |
| VectorLaws.OperatorSymmetries2 | src/Vector.h:6 | `+` and `*` commute; `a - b` is the negation of `b - a` |
| VectorLaws.OperatorSymmetries3 | src/Vector.h:7 | the same for Vec3 |
| VectorLaws.OperatorSymmetries4 | src/Vector.h:8 | the same for Vec4 |
| VectorLaws.OperatorInverses2 | src/Vector.h:6 | `a - (a + b)` gives back `b`; `a / (a * b)` gives back `b` when every component of `a` is nonzero |
| VectorLaws.OperatorInverses3 | src/Vector.h:7 | the same for Vec3 |
| VectorLaws.OperatorInverses4 | src/Vector.h:8 | the same for Vec4 |
| VectorLaws.DotCommutes | src/Vector.h:230-243 | `Dot(a, b) == Dot(b, a)` on every vector size |
| VectorLaws.CrossOrthogonal | src/Vector.h:245-252 | `Cross(a, b)` has dot product 0 with `a` and with `b` |
| VectorLaws.CrossLaws | src/Vector.h:245-252 | `Cross(a, b)` is the negation of `Cross(b, a)`, and `Cross(a, a)` is zero |
| Matrix.Fill | src/Matrix.h:18-24 | `Matrix4x4(d)` sets all sixteen cells to `d` |
| Matrix.Default | src/Matrix.h:10-16 | `Matrix4x4()` sets all sixteen cells to 1 |
| Matrix.GetRow | src/Matrix.h:26-28 | `GetRow(i)` is storage row `i`, read through `Vec4(T*)` |
| Matrix.GetColumn | src/Matrix.h:30-39 | `GetColumn(i)` is also storage row `i`: it copies `data[i][0..3]` |
| Matrix.WithCell | src/Matrix.h:41-43 | writing `m[i][j] = v` sets cell (i, j) to `v` and leaves the other fifteen cells unchanged |
| Matrix.ScaleBy | src/Matrix.h:45-55 | `m * s` makes each storage row that row under the vector operator `row * s` |
| Matrix.Product | src/Matrix.h:57-70 | cell (x, y) of `a * b` is the dot product of storage row x of `a` with storage row y of `b` |
| MatrixLaws.TransposeLaws | src/Matrix.h:30-39 | the transpose swaps cell (i, j) with (j, i) and undoes itself |
| MatrixLaws.DefaultIsNotIdentity | src/Matrix.h:10-16 | the default matrix is the all-ones fill and differs from the identity |
| MatrixLaws.ColumnIsRow | src/Matrix.h:30-39 | `GetColumn(i) == GetRow(i)`; every `GetColumn` equals the textbook column exactly when the matrix is symmetric (equals its transpose) |
| MatrixLaws.ColumnIsNotTextbookColumn | src/Matrix.h:30-39 | on a concrete matrix, `GetColumn(3)` differs from column 3 |
| MatrixLaws.WithCellLaws | src/Matrix.h:41-43 | writing a cell's own value changes nothing, and writes to distinct cells commute |
| MatrixLaws.ProductCells | src/Matrix.h:57-70 | the product written out as its sixteen row-by-row dot products |
| MatrixLaws.ProductWithDiagonal | src/Matrix.h:57-70 | multiplying by a diagonal on the right scales each column of the left operand |
| MatrixLaws.ScaleByCells | src/Matrix.h:45-55 | each of the sixteen cells of `m * s` is `data[x][y] * s` |
| MatrixLaws.ScaleByComposes | src/Matrix.h:45-55 | `m * 1` is `m`, and `(m * s) * t` is `m * (s * t)` |
| MatrixLaws.ScaledIdentity | src/Matrix.h:45-55 | the identity times `s` is the diagonal (s, s, s, s) |
| MatrixLaws.ScaleByIsProduct | src/Matrix.h:45-70 | the scalar product agrees with the matrix product by the scaled identity |
| MatrixLaws.ProductIsStandardTimesTranspose | src/Matrix.h:57-70 | the library's `a * b` is the textbook product of `a` and the transpose of `b` |
| MatrixLaws.ProductZeroRows | src/Matrix.h:57-70 | a zero storage row 3 in `a` gives a zero row 3 of `a * b`; a zero row 3 in `b` gives a zero column 3 |
| MatrixLaws.ProductWithIdentity | src/Matrix.h:57-70 | `M * I` is `M`, but `I * M` is the transpose of `M` |
| Transforms.Translate | src/Matrix.h:75-88 | `Translate(v)` is the identity with (v.x, v.y, v.z) in cells [3][0..2], and 0 elsewhere |
| Transforms.Scale | src/Matrix.h:90-100 | `Scale(v)` is the diagonal (v.x, v.y, v.z, 1), and 0 elsewhere |
| Transforms.RotateX | src/Matrix.h:102-117 | `RotateX` sets [0][0] and [3][3] to 1, writes c, s, -s, c in the y-z block, and leaves 0 elsewhere |
| Transforms.RotateY | src/Matrix.h:119-133 | `RotateY` writes c, -s, s, c in the x-z corners and [1][1] = 1; [3][3] stays 0 |
| Transforms.RotateZ | src/Matrix.h:135-150 | `RotateZ` writes c, s, -s, c in the x-y block and 1 at [2][2] and [3][3] |
| Transforms.Orthographic | src/Matrix.h:161-173 | for right != left, top != bottom and zFar != zNear, the six written cells hold the stated quotients and the other ten hold 1 |
| Transforms.Perspective | src/Matrix.h:175-187 | [0][0] = 1/(aspect*t), [1][1] = -1/t, [2][2] = -(far+near)/(far-near), [2][3] = -1, [3][2] = -2*far*near/(far-near); every other cell, [3][3] included, is 0 |
| TransformLaws.RotateXYZDropsW | src/Matrix.h:152-159 | whatever the angles, `(RotateX * RotateY) * RotateZ` has a zero storage row 3 and a zero column 3, inherited from RotateY's [3][3] |
| TransformLaws.TranslateMovesPoints | src/Matrix.h:75-88 | `Translate(v)` moves a point (w = 1) by `v`, leaves a direction (w = 0) unchanged, and in general adds w times `v` |
| TransformLaws.ScaleStretchesPoints | src/Matrix.h:90-100 | `Scale(v)` multiplies x, y, z by v.x, v.y, v.z and keeps w |
| TransformLaws.ProductOfTranslations | src/Matrix.h:57-88 | `Translate(a) * Translate(b)` has `b` down column 3 and `a.b + 1` at [3][3] |
| TransformLaws.TranslationsComposeWhenZero | src/Matrix.h:57-88 | `Translate(a) * Translate(b)` is `Translate(a + b)` when `b` is zero |
| TransformLaws.TranslationsComposeOnlyWhenZero | src/Matrix.h:57-88 | and only when `b` is zero |
| TransformLaws.RotateXMapsPoints | src/Matrix.h:102-117 | `RotateX` turns (y, z) into (c y - s z, s y + c z), a right-handed turn about x, and keeps x and w |
| TransformLaws.RotateYMapsPoints | src/Matrix.h:119-133 | `RotateY` turns (x, z) into (c x + s z, -s x + c z), a right-handed turn about y, keeps y, and sends w to 0 for every point |
| TransformLaws.RotateZMapsPoints | src/Matrix.h:135-150 | `RotateZ` turns (x, y) into (c x - s y, s x + c y), a right-handed turn about z, and keeps z and w |
| TransformLaws.RotationsAtZero | src/Matrix.h:102-150 | at cosine 1 and sine 0, RotateX and RotateZ are the identity, while RotateY is diag(1, 1, 1, 0) |
| TransformLaws.RotateZTimesInverse | src/Matrix.h:135-150 | under the library's product, `RotateZ(a) * RotateZ(-a)` is `RotateZ(2a)` (cosine c^2 - s^2, sine 2cs), not the identity |
| TransformLaws.OrthographicMapsPoints | src/Matrix.h:161-173 | the image of (x, y, z, 1) is the box's normalised coordinates, with the other two coordinates added to each by the unwritten 1s, and w = x + y + z + 1 |
| TransformLaws.OrthographicCorners | src/Matrix.h:161-173 | the image of the near-bottom-left and far-top-right corners of the box |
| TransformLaws.PerspectiveMapsPoints | src/Matrix.h:175-187 | the image of (x, y, z, 1) is (x/(aspect*t), -y/t, depth(z), -z) |
| TransformLaws.PerspectiveDepthRange | src/Matrix.h:175-187 | after the divide by w, the near plane lands at depth -1 and the far plane at depth 1 |

## Left out

- `Length` and `Normalize` (src/Vector.h:47-53, 109-115, 211-217) use floating `Sqrt` and `Pow`, which an exact model cannot express. As written, `Vec2::Normalize` and `Vec4::Normalize` divide the `this` pointer and would not compile if instantiated. `Vec4::Length` also leaves out `w`.
- `LookAt` is not modelled. It depends on `Normalize`, and through the by-reference operators it also overwrites the caller's `eye`.
- src/Utils.h (the `<cmath>` wrappers, with runtime type dispatch) is not part of this model. Sine, cosine and tangent are parameters instead. Among its bugs, `Atan` calls `asin`.
- src/ToString.h (debug formatting over `std::to_string`) is not part of this model.
- IEEE infinities and NaNs are not modelled. Every division carries a nonzero-divisor precondition instead: vector `/`, scalar `/`, `Orthographic` and `Perspective`.
- The integer instantiations `Int2`, `Int3` and `Int4` (src/Vector.h:258-260) are not modelled, and neither is C++ truncating integer division. Only the exact scalar instantiation is modelled.
- Several functions return references that dangle, which is undefined behaviour in C++. `GetRow` and the scalar-broadcast operators return references to temporaries (src/Matrix.h:26-28, src/Vector.h:10-12). `GetColumn` returns a reference to its local `result` (src/Matrix.h:30-39), and the matrix product reads every column through it (src/Matrix.h:63). All of them are modelled as the value the function computes before returning.
- `Dot` overwrites its second argument with `a * b`, because it calls the accumulating operator on it. The model keeps only the returned sum. In the matrix product this write lands on a local copy of the column, so the product's result is unaffected.
- The vector-vector operators overwrite their right operand in place. The model returns the right operand's new value; the caller's variable is not modelled.
- `operator[]` hands out a raw pointer into storage row `i`. The model only covers writes through it that land in range: `m[i][j]` with `0 <= i, j < 4`.
- Transforms.RotateXYZ carries no contract of its own. Its property is stated by TransformLaws.RotateXYZDropsW, and its body is the library's two products in the source's order.
