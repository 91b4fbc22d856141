/**
 * What the vector operations of `Vector` amount to: a generic reference for
 * the component-wise compound assignment the operator macros expand to, the
 * algebra of the right-operand accumulation, how the broadcast operators
 * relate to it, and the geometric facts about `Dot` and `Cross`.
 */
module VectorLaws {
  import opened Vector

  /** The four arithmetic operators the vector types overload. */
  datatype BinOp = Add | Sub | Mul | Div

  /** The value that `dst op= src` leaves in `dst`. */
  function Apply(op: BinOp, dst: real, src: real): real
    requires op == Div ==> src != 0.0
  {
    match op
    case Add => dst + src
    case Sub => dst - src
    case Mul => dst * src
    case Div => dst / src
  }

  /** Every divisor is nonzero when `op` divides. */
  predicate DivisorsNonzero(op: BinOp, src: seq<real>)
  {
    op == Div ==> forall i | 0 <= i < |src| :: src[i] != 0.0
  }

  /**
   * Component-wise compound assignment `dst[i] op= src[i]` over two equally
   * long component lists, independent of the vector size.
   */
  function Accumulate(op: BinOp, src: seq<real>, dst: seq<real>): seq<real>
    requires |src| == |dst|
    requires DivisorsNonzero(op, src)
  {
    seq(|dst|, i requires 0 <= i < |dst| => Apply(op, dst[i], src[i]))
  }

  /** Sum of a list of scalars. */
  function SeqSum(s: seq<real>): real
  {
    if |s| == 0 then 0.0 else s[0] + SeqSum(s[1..])
  }

  /** Two component lists that agree at every index are equal. */
  lemma SameComponents(r: seq<real>, t: seq<real>)
    requires |r| == |t|
    requires forall i | 0 <= i < |r| :: r[i] == t[i]
    ensures r == t
  {
  }

  /** `u` and `v` read the storage of `x` and `y` in every vector size. */
  lemma AliasesShareStorage(a: Vec2, b: Vec3, c: Vec4)
    ensures a.u == a.x && a.v == a.y
    ensures b.u == b.x && b.v == b.y
    ensures c.u == c.x && c.v == c.y
  {
  }

  /** `Sum` adds up every component, in every vector size. */
  lemma {:induction false} SumIsTotal(a: Vec2, b: Vec3, c: Vec4)
    ensures Sum2(a) == SeqSum(a.Comps())
    ensures Sum3(b) == SeqSum(b.Comps())
    ensures Sum4(c) == SeqSum(c.Comps())
  {
    assert a.Comps()[1..] == [a.y];
    assert [a.y][1..] == [];
    assert b.Comps()[1..] == [b.y, b.z];
    assert [b.y, b.z][1..] == [b.z];
    assert [b.z][1..] == [];
    assert c.Comps()[1..] == [c.y, c.z, c.w];
    assert [c.y, c.z, c.w][1..] == [c.z, c.w];
    assert [c.z, c.w][1..] == [c.w];
    assert [c.w][1..] == [];
    assert SeqSum([a.y]) == a.y;
    assert SeqSum([b.z]) == b.z;
    assert SeqSum([b.y, b.z]) == b.y + b.z;
    assert SeqSum([c.w]) == c.w;
    assert SeqSum([c.z, c.w]) == c.z + c.w;
    assert SeqSum([c.y, c.z, c.w]) == c.y + c.z + c.w;
  }

  /** The Vec2 operator that `op` names. */
  function Operator2(op: BinOp, a: Vec2, b: Vec2): Vec2
    requires op == Div ==> a.x != 0.0 && a.y != 0.0
  {
    match op
    case Add => Add2(a, b)
    case Sub => Sub2(a, b)
    case Mul => Mul2(a, b)
    case Div => Div2(a, b)
  }

  /**
   * Every Vec2 operator is the compound assignment `b.i op= a.i` applied
   * to each component of the right operand `b`.
   */
  lemma OperatorsAccumulateIntoRight2(op: BinOp, a: Vec2, b: Vec2)
    requires op == Div ==> a.x != 0.0 && a.y != 0.0
    ensures Operator2(op, a, b).Comps() == Accumulate(op, a.Comps(), b.Comps())
  {
    var t := Accumulate(op, a.Comps(), b.Comps());
    SameComponents(t, [Apply(op, b.x, a.x), Apply(op, b.y, a.y)]);
    assert Operator2(op, a, b) == Vec2(Apply(op, b.x, a.x), Apply(op, b.y, a.y));
  }

  /** The Vec3 operator that `op` names. */
  function Operator3(op: BinOp, a: Vec3, b: Vec3): Vec3
    requires op == Div ==> a.x != 0.0 && a.y != 0.0 && a.z != 0.0
  {
    match op
    case Add => Add3(a, b)
    case Sub => Sub3(a, b)
    case Mul => Mul3(a, b)
    case Div => Div3(a, b)
  }

  /**
   * Every Vec3 operator is the compound assignment `b.i op= a.i` applied
   * to each component of the right operand `b`.
   */
  lemma OperatorsAccumulateIntoRight3(op: BinOp, a: Vec3, b: Vec3)
    requires op == Div ==> a.x != 0.0 && a.y != 0.0 && a.z != 0.0
    ensures Operator3(op, a, b).Comps() == Accumulate(op, a.Comps(), b.Comps())
  {
    var t := Accumulate(op, a.Comps(), b.Comps());
    SameComponents(t, [Apply(op, b.x, a.x), Apply(op, b.y, a.y), Apply(op, b.z, a.z)]);
    assert Operator3(op, a, b) == Vec3(Apply(op, b.x, a.x), Apply(op, b.y, a.y), Apply(op, b.z, a.z));
  }

  /** The Vec4 operator that `op` names. */
  function Operator4(op: BinOp, a: Vec4, b: Vec4): Vec4
    requires op == Div ==> a.x != 0.0 && a.y != 0.0 && a.z != 0.0 && a.w != 0.0
  {
    match op
    case Add => Add4(a, b)
    case Sub => Sub4(a, b)
    case Mul => Mul4(a, b)
    case Div => Div4(a, b)
  }

  /**
   * Every Vec4 operator is the compound assignment `b.i op= a.i` applied
   * to each component of the right operand `b`.
   */
  lemma OperatorsAccumulateIntoRight4(op: BinOp, a: Vec4, b: Vec4)
    requires op == Div ==> a.x != 0.0 && a.y != 0.0 && a.z != 0.0 && a.w != 0.0
    ensures Operator4(op, a, b).Comps() == Accumulate(op, a.Comps(), b.Comps())
  {
    var t := Accumulate(op, a.Comps(), b.Comps());
    SameComponents(t, [Apply(op, b.x, a.x), Apply(op, b.y, a.y), Apply(op, b.z, a.z), Apply(op, b.w, a.w)]);
    assert Operator4(op, a, b) == Vec4(Apply(op, b.x, a.x), Apply(op, b.y, a.y), Apply(op, b.z, a.z), Apply(op, b.w, a.w));
  }

  /**
   * A Vec2 scalar operator is the vector operator with the scalar
   * broadcast into the LEFT operand: `a op s` equals `Vec2(s) op a`.
   */
  lemma ScalarOpsAreBroadcast2(a: Vec2, s: real)
    ensures AddScalar2(a, s) == Add2(Splat2(s), a)
    ensures SubScalar2(a, s) == Sub2(Splat2(s), a)
    ensures MulScalar2(a, s) == Mul2(Splat2(s), a)
    ensures s != 0.0 ==> DivScalar2(a, s) == Div2(Splat2(s), a)
  {
  }

  /**
   * A Vec3 scalar operator is the vector operator with the scalar
   * broadcast into the LEFT operand: `a op s` equals `Vec3(s) op a`.
   */
  lemma ScalarOpsAreBroadcast3(a: Vec3, s: real)
    ensures AddScalar3(a, s) == Add3(Splat3(s), a)
    ensures SubScalar3(a, s) == Sub3(Splat3(s), a)
    ensures MulScalar3(a, s) == Mul3(Splat3(s), a)
    ensures s != 0.0 ==> DivScalar3(a, s) == Div3(Splat3(s), a)
  {
  }

  /**
   * A Vec4 scalar operator is the vector operator with the scalar
   * broadcast into the LEFT operand: `a op s` equals `Vec4(s) op a`.
   */
  lemma ScalarOpsAreBroadcast4(a: Vec4, s: real)
    ensures AddScalar4(a, s) == Add4(Splat4(s), a)
    ensures SubScalar4(a, s) == Sub4(Splat4(s), a)
    ensures MulScalar4(a, s) == Mul4(Splat4(s), a)
    ensures s != 0.0 ==> DivScalar4(a, s) == Div4(Splat4(s), a)
  {
  }

  /** `+` and `*` commute on Vec2; `-` anti-commutes: `a - b` is minus `b - a`. */
  lemma OperatorSymmetries2(a: Vec2, b: Vec2)
    ensures Add2(a, b) == Add2(b, a)
    ensures Mul2(a, b) == Mul2(b, a)
    ensures Sub2(a, b) == MulScalar2(Sub2(b, a), -1.0)
  {
  }

  /** `+` and `*` commute on Vec3; `-` anti-commutes: `a - b` is minus `b - a`. */
  lemma OperatorSymmetries3(a: Vec3, b: Vec3)
    ensures Add3(a, b) == Add3(b, a)
    ensures Mul3(a, b) == Mul3(b, a)
    ensures Sub3(a, b) == MulScalar3(Sub3(b, a), -1.0)
  {
  }

  /** `+` and `*` commute on Vec4; `-` anti-commutes: `a - b` is minus `b - a`. */
  lemma OperatorSymmetries4(a: Vec4, b: Vec4)
    ensures Add4(a, b) == Add4(b, a)
    ensures Mul4(a, b) == Mul4(b, a)
    ensures Sub4(a, b) == MulScalar4(Sub4(b, a), -1.0)
  {
  }

  /** Dividing `q * p` by a nonzero `p` gives `q` back. */
  lemma MulDivCancels(p: real, q: real)
    requires p != 0.0
    ensures (q * p) / p == q
  {
  }

  /**
   * On Vec2, `-` undoes `+` and `/` undoes `*` when the same vector is the
   * left operand of both: `a - (a + b)` and `a / (a * b)` give `b` back.
   */
  lemma OperatorInverses2(a: Vec2, b: Vec2)
    ensures Sub2(a, Add2(a, b)) == b
    ensures a.x != 0.0 && a.y != 0.0 ==> Div2(a, Mul2(a, b)) == b
  {
    if a.x != 0.0 && a.y != 0.0 {
      var m := Mul2(a, b);
      MulDivCancels(a.x, b.x);
      MulDivCancels(a.y, b.y);
      assert Div2(a, m) == Vec2(m.x / a.x, m.y / a.y);
    }
  }

  /**
   * On Vec3, `-` undoes `+` and `/` undoes `*` when the same vector is the
   * left operand of both: `a - (a + b)` and `a / (a * b)` give `b` back.
   */
  lemma OperatorInverses3(a: Vec3, b: Vec3)
    ensures Sub3(a, Add3(a, b)) == b
    ensures a.x != 0.0 && a.y != 0.0 && a.z != 0.0 ==> Div3(a, Mul3(a, b)) == b
  {
    if a.x != 0.0 && a.y != 0.0 && a.z != 0.0 {
      var m := Mul3(a, b);
      MulDivCancels(a.x, b.x);
      MulDivCancels(a.y, b.y);
      MulDivCancels(a.z, b.z);
      assert Div3(a, m) == Vec3(m.x / a.x, m.y / a.y, m.z / a.z);
    }
  }

  /**
   * On Vec4, `-` undoes `+` and `/` undoes `*` when the same vector is the
   * left operand of both: `a - (a + b)` and `a / (a * b)` give `b` back.
   */
  lemma OperatorInverses4(a: Vec4, b: Vec4)
    ensures Sub4(a, Add4(a, b)) == b
    ensures a.x != 0.0 && a.y != 0.0 && a.z != 0.0 && a.w != 0.0 ==> Div4(a, Mul4(a, b)) == b
  {
    if a.x != 0.0 && a.y != 0.0 && a.z != 0.0 && a.w != 0.0 {
      var m := Mul4(a, b);
      MulDivCancels(a.x, b.x);
      MulDivCancels(a.y, b.y);
      MulDivCancels(a.z, b.z);
      MulDivCancels(a.w, b.w);
      assert Div4(a, m) == Vec4(m.x / a.x, m.y / a.y, m.z / a.z, m.w / a.w);
    }
  }

  /** The dot product is symmetric in every vector size. */
  lemma DotCommutes(a2: Vec2, b2: Vec2, a3: Vec3, b3: Vec3, a4: Vec4, b4: Vec4)
    ensures Dot2(a2, b2) == Dot2(b2, a2)
    ensures Dot3(a3, b3) == Dot3(b3, a3)
    ensures Dot4(a4, b4) == Dot4(b4, a4)
  {
  }

  /** The triple products `(a x b) . a` and `(a x b) . b`, written out, vanish. */
  lemma TripleProductsVanish(a: Vec3, b: Vec3)
    ensures (a.y * b.z - b.y * a.z) * a.x + (a.z * b.x - b.z * a.x) * a.y
            + (a.x * b.y - b.x * a.y) * a.z == 0.0
    ensures (a.y * b.z - b.y * a.z) * b.x + (a.z * b.x - b.z * a.x) * b.y
            + (a.x * b.y - b.x * a.y) * b.z == 0.0
  {
  }

  /** `Cross(a, b)` is orthogonal to both of its operands. */
  lemma CrossOrthogonal(a: Vec3, b: Vec3)
    ensures Dot3(Cross(a, b), a) == 0.0
    ensures Dot3(Cross(a, b), b) == 0.0
  {
    TripleProductsVanish(a, b);
  }

  /** The cross product anti-commutes and vanishes on equal operands. */
  lemma CrossLaws(a: Vec3, b: Vec3)
    ensures Cross(a, b) == MulScalar3(Cross(b, a), -1.0)
    ensures Cross(a, a) == Zero3()
  {
  }
}
