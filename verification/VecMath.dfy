/** The 4x4 matrices of utils/vecmath.h and utils/vecmath.cpp, over the reals, stored column by column. */
module VecMath {

  datatype Mat = Mat(
    f0: real, f1: real, f2: real, f3: real,
    f4: real, f5: real, f6: real, f7: real,
    f8: real, f9: real, f10: real, f11: real,
    f12: real, f13: real, f14: real, f15: real)

  const ZERO := Mat(0.0, 0.0, 0.0, 0.0, 0.0, 0.0, 0.0, 0.0, 0.0, 0.0, 0.0, 0.0, 0.0, 0.0, 0.0, 0.0)
  const IDENTITY := Mat(1.0, 0.0, 0.0, 0.0, 0.0, 1.0, 0.0, 0.0, 0.0, 0.0, 1.0, 0.0, 0.0, 0.0, 0.0, 1.0)

  datatype Vec = Vec(x: real, y: real, z: real, w: real)

  function Dot(a: Vec, b: Vec): real {
    a.x * b.x + a.y * b.y + a.z * b.z + a.w * b.w
  }

  function Row(m: Mat, i: nat): Vec {
    if i == 0 then Vec(m.f0, m.f4, m.f8, m.f12)
    else if i == 1 then Vec(m.f1, m.f5, m.f9, m.f13)
    else if i == 2 then Vec(m.f2, m.f6, m.f10, m.f14)
    else Vec(m.f3, m.f7, m.f11, m.f15)
  }

  function Col(m: Mat, j: nat): Vec {
    if j == 0 then Vec(m.f0, m.f1, m.f2, m.f3)
    else if j == 1 then Vec(m.f4, m.f5, m.f6, m.f7)
    else if j == 2 then Vec(m.f8, m.f9, m.f10, m.f11)
    else Vec(m.f12, m.f13, m.f14, m.f15)
  }

  /** The matrix with the given columns. */
  function Columns(a: Vec, b: Vec, c: Vec, d: Vec): Mat {
    Mat(a.x, a.y, a.z, a.w, b.x, b.y, b.z, b.w, c.x, c.y, c.z, c.w, d.x, d.y, d.z, d.w)
  }

  function Apply(m: Mat, v: Vec): Vec {
    Vec(Dot(Row(m, 0), v), Dot(Row(m, 1), v), Dot(Row(m, 2), v), Dot(Row(m, 3), v))
  }

  function Mul(a: Mat, b: Mat): Mat {
    Columns(Apply(a, Col(b, 0)), Apply(a, Col(b, 1)), Apply(a, Col(b, 2)), Apply(a, Col(b, 3)))
  }

  function Transposed(m: Mat): Mat {
    Columns(Row(m, 0), Row(m, 1), Row(m, 2), Row(m, 3))
  }

  function Translation(x: real, y: real, z: real): Mat {
    IDENTITY.(f12 := x, f13 := y, f14 := z)
  }

  function PostTranslated(m: Mat, x: real, y: real, z: real): Mat {
    m.(f12 := m.f12 + (x * m.f0 + y * m.f4 + z * m.f8),
       f13 := m.f13 + (x * m.f1 + y * m.f5 + z * m.f9),
       f14 := m.f14 + (x * m.f2 + y * m.f6 + z * m.f10),
       f15 := m.f15 + (x * m.f3 + y * m.f7 + z * m.f11))
  }

  /** The determinant of the upper left 3x3 part, expanded along the first row. */
  function Det3(m: Mat): real {
    m.f0 * (m.f5 * m.f10 - m.f9 * m.f6)
    - m.f4 * (m.f1 * m.f10 - m.f9 * m.f2)
    + m.f8 * (m.f1 * m.f6 - m.f5 * m.f2)
  }

  predicate Affine(m: Mat) {
    m.f3 == 0.0 && m.f7 == 0.0 && m.f11 == 0.0 && m.f15 == 1.0
  }

  /** The cofactors of the 3x3 part, transposed. */
  function Cofactors(m: Mat): Mat {
    Mat(m.f5 * m.f10 - m.f9 * m.f6, -(m.f1 * m.f10 - m.f9 * m.f2), m.f1 * m.f6 - m.f5 * m.f2, 0.0,
        -(m.f4 * m.f10 - m.f8 * m.f6), m.f0 * m.f10 - m.f8 * m.f2, -(m.f0 * m.f6 - m.f4 * m.f2), 0.0,
        m.f4 * m.f9 - m.f8 * m.f5, -(m.f0 * m.f9 - m.f8 * m.f1), m.f0 * m.f5 - m.f4 * m.f1, 0.0,
        0.0, 0.0, 0.0, 0.0)
  }

  /** The 3x3 part times `k`, without translation. */
  function Scaled(c: Mat, k: real): Mat {
    Mat(c.f0 * k, c.f1 * k, c.f2 * k, 0.0,
        c.f4 * k, c.f5 * k, c.f6 * k, 0.0,
        c.f8 * k, c.f9 * k, c.f10 * k, 0.0,
        0.0, 0.0, 0.0, 1.0)
  }

  /** The translation part that undoes that of `m` once the 3x3 part `r` is applied. */
  function Untranslated(r: Mat, m: Mat): Mat {
    r.(f12 := -(m.f12 * r.f0 + m.f13 * r.f4 + m.f14 * r.f8),
       f13 := -(m.f12 * r.f1 + m.f13 * r.f5 + m.f14 * r.f9),
       f14 := -(m.f12 * r.f2 + m.f13 * r.f6 + m.f14 * r.f10))
  }

  /** What `inverse` computes from the reciprocal `k` of the determinant. */
  function Adjugate(m: Mat, k: real): Mat {
    Untranslated(Scaled(Cofactors(m), k), m)
  }

  /** A singular matrix becomes zero. */
  function InverseOf(m: Mat): Mat {
    if Det3(m) == 0.0 then ZERO else Adjugate(m, 1.0 / Det3(m))
  }

  // A row times a matrix, added up by rows and by columns.

  function Plus(a: Vec, b: Vec): Vec {
    Vec(a.x + b.x, a.y + b.y, a.z + b.z, a.w + b.w)
  }

  function Times(k: real, a: Vec): Vec {
    Vec(k * a.x, k * a.y, k * a.z, k * a.w)
  }

  /** The rows of `b` weighted with `r` and added up. */
  function RowSum(r: Vec, b: Mat): Vec {
    Plus(Plus(Times(r.x, Row(b, 0)), Times(r.y, Row(b, 1))), Plus(Times(r.z, Row(b, 2)), Times(r.w, Row(b, 3))))
  }

  /** The columns of `b` each multiplied with `r`. */
  function ColumnDots(r: Vec, b: Mat): Vec {
    Vec(Dot(r, Col(b, 0)), Dot(r, Col(b, 1)), Dot(r, Col(b, 2)), Dot(r, Col(b, 3)))
  }

  lemma DotPlus(a: Vec, b: Vec, v: Vec)
    ensures Dot(Plus(a, b), v) == Dot(a, v) + Dot(b, v)
  {}

  lemma DotTimes(k: real, a: Vec, v: Vec)
    ensures Dot(Times(k, a), v) == k * Dot(a, v)
  {}

  lemma RowSumIsColumnDots(r: Vec, b: Mat)
    ensures RowSum(r, b) == ColumnDots(r, b)
  {}

  lemma FourDots(a: Vec, b: Vec, c: Vec, d: Vec, v: Vec)
    ensures Dot(Plus(Plus(a, b), Plus(c, d)), v) == Dot(a, v) + Dot(b, v) + Dot(c, v) + Dot(d, v)
  {
    DotPlus(Plus(a, b), Plus(c, d), v);
    DotPlus(a, b, v);
    DotPlus(c, d, v);
  }

  lemma DotOfRowSum(r: Vec, b: Mat, v: Vec)
    ensures Dot(RowSum(r, b), v)
         == r.x * Dot(Row(b, 0), v) + r.y * Dot(Row(b, 1), v) + r.z * Dot(Row(b, 2), v) + r.w * Dot(Row(b, 3), v)
  {
    FourDots(Times(r.x, Row(b, 0)), Times(r.y, Row(b, 1)), Times(r.z, Row(b, 2)), Times(r.w, Row(b, 3)), v);
    DotTimes(r.x, Row(b, 0), v);
    DotTimes(r.y, Row(b, 1), v);
    DotTimes(r.z, Row(b, 2), v);
    DotTimes(r.w, Row(b, 3), v);
  }

  lemma DotOfProduct(r: Vec, b: Mat, v: Vec)
    ensures Dot(r, Apply(b, v)) == Dot(ColumnDots(r, b), v)
  {
    calc {
      Dot(r, Apply(b, v));
    ==
      r.x * Dot(Row(b, 0), v) + r.y * Dot(Row(b, 1), v) + r.z * Dot(Row(b, 2), v) + r.w * Dot(Row(b, 3), v);
    ==  { DotOfRowSum(r, b, v); }
      Dot(RowSum(r, b), v);
    ==  { RowSumIsColumnDots(r, b); }
      Dot(ColumnDots(r, b), v);
    }
  }

  /** The product of matrices is the composition of their actions on vectors. */
  lemma ProductComposes(a: Mat, b: Mat, v: Vec)
    ensures Apply(Mul(a, b), v) == Apply(a, Apply(b, v))
  {
    DotOfProduct(Row(a, 0), b, v);
    DotOfProduct(Row(a, 1), b, v);
    DotOfProduct(Row(a, 2), b, v);
    DotOfProduct(Row(a, 3), b, v);
  }

  lemma MulAssociates(a: Mat, b: Mat, c: Mat)
    ensures Mul(Mul(a, b), c) == Mul(a, Mul(b, c))
  {
    ProductComposes(a, b, Col(c, 0));
    ProductComposes(a, b, Col(c, 1));
    ProductComposes(a, b, Col(c, 2));
    ProductComposes(a, b, Col(c, 3));
  }

  /** A matrix is determined by its columns. */
  lemma ByColumns(m: Mat, n: Mat)
    requires forall j :: 0 <= j < 4 ==> Col(m, j) == Col(n, j)
    ensures m == n
  {
    assert Col(m, 0) == Col(n, 0) && Col(m, 1) == Col(n, 1) && Col(m, 2) == Col(n, 2) && Col(m, 3) == Col(n, 3);
  }

  lemma IdentityIsNeutral(m: Mat)
    ensures Mul(m, IDENTITY) == m && Mul(IDENTITY, m) == m
  {}

  lemma InverseIsUnique(m: Mat, a: Mat, b: Mat)
    requires Mul(a, m) == IDENTITY && Mul(m, b) == IDENTITY
    ensures a == b
  {
    MulAssociates(a, m, b);
    IdentityIsNeutral(a);
    IdentityIsNeutral(b);
  }

  /** `m` brings every vector back that `n` moved. */
  ghost predicate Undoes(m: Mat, n: Mat) {
    forall v: Vec :: Apply(m, Apply(n, v)) == v
  }

  /** The columns of the identity. */
  function Axis(j: nat): Vec {
    Col(IDENTITY, j)
  }

  lemma AxisSelects(m: Mat, j: nat)
    requires j < 4
    ensures Apply(m, Axis(j)) == Col(m, j)
  {}

  lemma IdentityKeeps(v: Vec)
    ensures Apply(IDENTITY, v) == v
  {}

  /** A matrix undoes another exactly if their product is the identity. */
  lemma UndoesIff(m: Mat, n: Mat)
    ensures Undoes(m, n) <==> Mul(m, n) == IDENTITY
  {
    if Undoes(m, n) {
      forall j | 0 <= j < 4 ensures Col(Mul(m, n), j) == Col(IDENTITY, j) {
        AxisSelects(Mul(m, n), j);
        ProductComposes(m, n, Axis(j));
      }
      ByColumns(Mul(m, n), IDENTITY);
    } else {
      var v :| Apply(m, Apply(n, v)) != v;
      ProductComposes(m, n, v);
      IdentityKeeps(v);
    }
  }

  lemma TransposeReverses(a: Mat, b: Mat)
    ensures Transposed(Mul(a, b)) == Mul(Transposed(b), Transposed(a))
    ensures Transposed(Transposed(a)) == a
  {}

  lemma PostTranslateIsProduct(m: Mat, x: real, y: real, z: real)
    ensures PostTranslated(m, x, y, z) == Mul(m, Translation(x, y, z))
  {}
}
