/** Quaternions and their matrices. A vector is read as the quaternion x i + y j + z k + w. */
module Quaternions {
  import opened VecMath
  import opened MatrixInverse

  function Hamilton(p: Vec, q: Vec): Vec {
    Vec(p.x * q.w + p.y * q.z - p.z * q.y + p.w * q.x,
        -p.x * q.z + p.y * q.w + p.z * q.x + p.w * q.y,
        p.x * q.y - p.y * q.x + p.z * q.w + p.w * q.z,
        -p.x * q.x - p.y * q.y - p.z * q.z + p.w * q.w)
  }

  function Conjugated(q: Vec): Vec {
    Vec(-q.x, -q.y, -q.z, q.w)
  }

  predicate Unit(q: Vec) {
    Dot(q, q) == 1.0
  }

  function ToMatrix(q: Vec): Mat {
    var x2, y2, z2 := q.x * q.x * 2.0, q.y * q.y * 2.0, q.z * q.z * 2.0;
    var xy, yz, zx := q.x * q.y * 2.0, q.y * q.z * 2.0, q.z * q.x * 2.0;
    var xw, yw, zw := q.x * q.w * 2.0, q.y * q.w * 2.0, q.z * q.w * 2.0;
    Mat(1.0 - y2 - z2, xy + zw, zx - yw, 0.0,
        xy - zw, 1.0 - z2 - x2, yz + xw, 0.0,
        zx + yw, yz - xw, 1.0 - x2 - y2, 0.0,
        0.0, 0.0, 0.0, 1.0)
  }

  /** Conjugation of `v` by `q`. */
  function Conjugation(q: Vec, v: Vec): Vec {
    Hamilton(Hamilton(q, v), Conjugated(q))
  }

  /** Multiplication by `p` on the left, and by `r` on the right, as matrices. */
  function Left(p: Vec): Mat {
    Columns(Vec(p.w, p.z, -p.y, -p.x), Vec(-p.z, p.w, p.x, -p.y), Vec(p.y, -p.x, p.w, -p.z), p)
  }

  function Right(r: Vec): Mat {
    Columns(Vec(r.w, -r.z, r.y, -r.x), Vec(r.z, r.w, -r.x, -r.y), Vec(-r.y, r.x, r.w, -r.z), r)
  }

  lemma HamiltonIsApply(p: Vec, q: Vec)
    ensures Hamilton(p, q) == Apply(Left(p), q) == Apply(Right(q), p)
  {}

  lemma LeftIsHomomorphism(p: Vec, q: Vec)
    ensures Left(Hamilton(p, q)) == Mul(Left(p), Left(q))
  {}

  lemma HamiltonAssociates(p: Vec, q: Vec, r: Vec)
    ensures Hamilton(Hamilton(p, q), r) == Hamilton(p, Hamilton(q, r))
  {
    HamiltonIsApply(Hamilton(p, q), r);
    HamiltonIsApply(p, Hamilton(q, r));
    HamiltonIsApply(q, r);
    LeftIsHomomorphism(p, q);
    ProductComposes(Left(p), Left(q), r);
  }

  lemma Negated(a: real, b: real, c: real, d: real)
    requires c == -a && d == -b
    ensures c * d == a * b && c * b == -(a * b) && a * d == -(a * b)
  {
    assert c * d == (-a) * (-b);
    assert c * b == (-a) * b;
    assert a * d == a * (-b);
  }

  /** One component of the reversed product: four products, each of two components with or without sign. */
  lemma ReversedTerms(a: real, b: real, c: real, d: real, e: real, f: real, g: real, h: real,
                      a': real, b': real, c': real, e': real, f': real, g': real)
    requires a' == -a && b' == -b && c' == -c && e' == -e && f' == -f && g' == -g
    ensures -(a * h + b * g - c * f + d * e) == e' * d + f' * c' - g' * b' + h * a'
    ensures -(-a * e - b * f - c * g + d * h) == e' * a' + f' * b' + g' * c' - d * h
  {
    Negated(e, a, e', a');
    Negated(f, c, f', c');
    Negated(g, b, g', b');
    Negated(f, b, f', b');
    Negated(g, c, g', c');
  }

  lemma ReversedX(p: Vec, q: Vec, c: Vec, d: Vec)
    requires c.x == -q.x && c.y == -q.y && c.z == -q.z && c.w == q.w
    requires d.x == -p.x && d.y == -p.y && d.z == -p.z && d.w == p.w
    ensures -Hamilton(p, q).x == Hamilton(c, d).x && Hamilton(p, q).w == Hamilton(c, d).w
  {
    ReversedTerms(p.x, p.y, p.z, p.w, q.x, q.y, q.z, q.w, d.x, d.y, d.z, c.x, c.y, c.z);
  }

  lemma ReversedY(p: Vec, q: Vec, c: Vec, d: Vec)
    requires c.x == -q.x && c.y == -q.y && c.z == -q.z && c.w == q.w
    requires d.x == -p.x && d.y == -p.y && d.z == -p.z && d.w == p.w
    ensures -Hamilton(p, q).y == Hamilton(c, d).y
  {
    ReversedTerms(p.y, p.z, p.x, p.w, q.y, q.z, q.x, q.w, d.y, d.z, d.x, c.y, c.z, c.x);
  }

  lemma ReversedZ(p: Vec, q: Vec, c: Vec, d: Vec)
    requires c.x == -q.x && c.y == -q.y && c.z == -q.z && c.w == q.w
    requires d.x == -p.x && d.y == -p.y && d.z == -p.z && d.w == p.w
    ensures -Hamilton(p, q).z == Hamilton(c, d).z
  {
    ReversedTerms(p.z, p.x, p.y, p.w, q.z, q.x, q.y, q.w, d.z, d.x, d.y, c.z, c.x, c.y);
  }

  lemma ConjugationReverses(p: Vec, q: Vec)
    ensures Conjugated(Hamilton(p, q)) == Hamilton(Conjugated(q), Conjugated(p))
  {
    ReversedX(p, q, Conjugated(q), Conjugated(p));
    ReversedY(p, q, Conjugated(q), Conjugated(p));
    ReversedZ(p, q, Conjugated(q), Conjugated(p));
  }

  /** Conjugation by a product is conjugation by its factors, the right one first. */
  lemma ConjugationComposes(p: Vec, q: Vec, v: Vec)
    ensures Conjugation(Hamilton(p, q), v) == Conjugation(p, Conjugation(q, v))
  {
    var p', q' := Conjugated(p), Conjugated(q);
    calc {
      Conjugation(Hamilton(p, q), v);
      { ConjugationReverses(p, q); HamiltonAssociates(p, q, v); }
      Hamilton(Hamilton(p, Hamilton(q, v)), Hamilton(q', p'));
      { HamiltonAssociates(Hamilton(p, Hamilton(q, v)), q', p'); }
      Hamilton(Hamilton(Hamilton(p, Hamilton(q, v)), q'), p');
      { HamiltonAssociates(p, Hamilton(q, v), q'); }
      Conjugation(p, Conjugation(q, v));
    }
  }

  /** The columns of a rotation, as polynomials of degree two. */
  function RotationColumn(q: Vec, j: nat): Vec {
    if j == 0 then
      Vec(1.0 - 2.0 * (q.y * q.y) - 2.0 * (q.z * q.z), 2.0 * (q.x * q.y) + 2.0 * (q.z * q.w),
          2.0 * (q.z * q.x) - 2.0 * (q.y * q.w), 0.0)
    else if j == 1 then
      Vec(2.0 * (q.x * q.y) - 2.0 * (q.z * q.w), 1.0 - 2.0 * (q.z * q.z) - 2.0 * (q.x * q.x),
          2.0 * (q.y * q.z) + 2.0 * (q.x * q.w), 0.0)
    else if j == 2 then
      Vec(2.0 * (q.z * q.x) + 2.0 * (q.y * q.w), 2.0 * (q.y * q.z) - 2.0 * (q.x * q.w),
          1.0 - 2.0 * (q.x * q.x) - 2.0 * (q.y * q.y), 0.0)
    else
      Vec(0.0, 0.0, 0.0, 1.0)
  }

  lemma ColumnsOfToMatrix(q: Vec, j: nat)
    ensures Col(ToMatrix(q), j) == RotationColumn(q, j)
  {}

  lemma RotatesFirst(q: Vec)
    requires Unit(q)
    ensures Hamilton(Vec(q.w, q.z, -q.y, -q.x), Conjugated(q)) == RotationColumn(q, 0)
  {}

  lemma RotatesSecond(q: Vec)
    requires Unit(q)
    ensures Hamilton(Vec(-q.z, q.w, q.x, -q.y), Conjugated(q)) == RotationColumn(q, 1)
  {}

  lemma RotatesThird(q: Vec)
    requires Unit(q)
    ensures Hamilton(Vec(q.y, -q.x, q.w, -q.z), Conjugated(q)) == RotationColumn(q, 2)
  {}

  lemma RotatesFourth(q: Vec)
    requires Unit(q)
    ensures Hamilton(q, Conjugated(q)) == RotationColumn(q, 3)
  {}

  /** For a unit quaternion, `toMatrix` is the product of the two multiplications that conjugate. */
  lemma MatrixOfUnit(q: Vec)
    requires Unit(q)
    ensures forall j :: 0 <= j < 4 ==> Col(ToMatrix(q), j) == Apply(Right(Conjugated(q)), Col(Left(q), j))
  {
    forall j | 0 <= j < 4 ensures Col(ToMatrix(q), j) == Apply(Right(Conjugated(q)), Col(Left(q), j)) {
      ColumnsOfToMatrix(q, j);
      HamiltonIsApply(Col(Left(q), j), Conjugated(q));
      if j == 0 { RotatesFirst(q); }
      else if j == 1 { RotatesSecond(q); }
      else if j == 2 { RotatesThird(q); }
      else { RotatesFourth(q); }
    }
  }

  /** `m` acts on every vector as conjugation by `q`. */
  ghost predicate ActsAs(m: Mat, q: Vec) {
    forall v :: Apply(m, v) == Conjugation(q, v)
  }

  lemma ColumnOfProduct(a: Mat, b: Mat, j: nat)
    requires j < 4
    ensures Col(Mul(a, b), j) == Apply(a, Col(b, j))
  {}

  /** The matrix of a unit quaternion acts on every vector as conjugation by the quaternion. */
  lemma MatrixActsAsConjugation(q: Vec)
    requires Unit(q)
    ensures ActsAs(ToMatrix(q), q)
  {
    var r, l := Right(Conjugated(q)), Left(q);
    MatrixOfUnit(q);
    forall j | 0 <= j < 4 ensures Col(ToMatrix(q), j) == Col(Mul(r, l), j) {
      ColumnOfProduct(r, l, j);
    }
    ByColumns(ToMatrix(q), Mul(r, l));
    forall v ensures Apply(Mul(r, l), v) == Conjugation(q, v) {
      ConjugationIsApply(q, v);
    }
  }

  lemma ConjugationIsApply(q: Vec, v: Vec)
    ensures Apply(Mul(Right(Conjugated(q)), Left(q)), v) == Conjugation(q, v)
  {
    ProductComposes(Right(Conjugated(q)), Left(q), v);
    HamiltonIsApply(q, v);
    HamiltonIsApply(Hamilton(q, v), Conjugated(q));
  }

  lemma ActionsCompose(a: Mat, b: Mat, p: Vec, q: Vec)
    requires ActsAs(a, p) && ActsAs(b, q)
    ensures ActsAs(Mul(a, b), Hamilton(p, q))
  {
    forall v ensures Apply(Mul(a, b), v) == Conjugation(Hamilton(p, q), v) {
      ProductComposes(a, b, v);
      ConjugationComposes(p, q, v);
      assert Apply(b, v) == Conjugation(q, v);
      assert Apply(a, Conjugation(q, v)) == Conjugation(p, Conjugation(q, v));
    }
  }

  /** Matrices that act alike on every vector are equal. */
  lemma EqualByAction(a: Mat, b: Mat, q: Vec)
    requires ActsAs(a, q) && ActsAs(b, q)
    ensures a == b
  {
    forall j | 0 <= j < 4 ensures Col(a, j) == Col(b, j) {
      var e := Col(IDENTITY, j);
      assert Apply(a, e) == Conjugation(q, e) == Apply(b, e);
      ColumnOfProduct(a, IDENTITY, j);
      ColumnOfProduct(b, IDENTITY, j);
      IdentityIsNeutral(a);
      IdentityIsNeutral(b);
    }
    ByColumns(a, b);
  }

  lemma NormIsProduct(q: Vec)
    ensures Hamilton(q, Conjugated(q)) == Vec(0.0, 0.0, 0.0, Dot(q, q))
    ensures Hamilton(Conjugated(q), q) == Vec(0.0, 0.0, 0.0, Dot(q, q))
  {}

  /** A real factor can be taken out of a product. */
  lemma ScalarFactor(k: real, p: Vec, q: Vec)
    ensures Hamilton(p, Hamilton(Vec(0.0, 0.0, 0.0, k), q)).w == k * Hamilton(p, q).w
  {
    var t := Hamilton(Vec(0.0, 0.0, 0.0, k), q);
    assert t == Vec(k * q.x, k * q.y, k * q.z, k * q.w);
    TakeOut(k, p.x, q.x);
    TakeOut(k, p.y, q.y);
    TakeOut(k, p.z, q.z);
    TakeOut(k, p.w, q.w);
  }

  lemma TakeOut(k: real, a: real, b: real)
    ensures a * (k * b) == k * (a * b)
  {}

  /** The norm is multiplicative. */
  lemma NormOfProduct(p: Vec, q: Vec)
    ensures Dot(Hamilton(p, q), Hamilton(p, q)) == Dot(p, p) * Dot(q, q)
  {
    NormIsProduct(Hamilton(p, q));
    NormIsProduct(p);
    NormIsProduct(q);
    ConjugationReverses(p, q);
    var q' := Conjugated(q);
    var p' := Conjugated(p);
    HamiltonAssociates(p, q, Hamilton(q', p'));
    HamiltonAssociates(q, q', p');
    ScalarFactor(Dot(q, q), p, p');
  }

  /** `toMatrix` turns the product of unit quaternions, which is again a unit, into the product of their matrices. */
  lemma ToMatrixIsHomomorphism(p: Vec, q: Vec)
    requires Unit(p) && Unit(q)
    ensures Unit(Hamilton(p, q))
    ensures ToMatrix(Hamilton(p, q)) == Mul(ToMatrix(p), ToMatrix(q))
  {
    ProductOfUnits(p, q);
    MatrixActsAsConjugation(p);
    MatrixActsAsConjugation(q);
    MatrixActsAsConjugation(Hamilton(p, q));
    ActionsCompose(ToMatrix(p), ToMatrix(q), p, q);
    EqualByAction(ToMatrix(Hamilton(p, q)), Mul(ToMatrix(p), ToMatrix(q)), Hamilton(p, q));
  }

  lemma ProductOfUnits(p: Vec, q: Vec)
    requires Unit(p) && Unit(q)
    ensures Unit(Hamilton(p, q))
  {
    NormOfProduct(p, q);
  }

  lemma ConjugateProducts(q: Vec, c: Vec)
    requires c.x == -q.x && c.y == -q.y && c.z == -q.z && c.w == q.w
    ensures c.x * c.x == q.x * q.x && c.y * c.y == q.y * q.y && c.z * c.z == q.z * q.z
    ensures c.x * c.y == q.x * q.y && c.y * c.z == q.y * q.z && c.z * c.x == q.z * q.x
    ensures c.x * c.w == -(q.x * q.w) && c.y * c.w == -(q.y * q.w) && c.z * c.w == -(q.z * q.w)
  {
    Negated(q.x, q.y, c.x, c.y);
    Negated(q.y, q.z, c.y, c.z);
    Negated(q.z, q.x, c.z, c.x);
    assert c.x * c.x == (-q.x) * (-q.x) && c.y * c.y == (-q.y) * (-q.y) && c.z * c.z == (-q.z) * (-q.z);
    assert c.x * c.w == (-q.x) * q.w && c.y * c.w == (-q.y) * q.w && c.z * c.w == (-q.z) * q.w;
  }

  lemma SameProducts(q: Vec, c: Vec)
    requires c.x * c.x == q.x * q.x && c.y * c.y == q.y * q.y && c.z * c.z == q.z * q.z
    requires c.x * c.y == q.x * q.y && c.y * c.z == q.y * q.z && c.z * c.x == q.z * q.x
    requires c.x * c.w == -(q.x * q.w) && c.y * c.w == -(q.y * q.w) && c.z * c.w == -(q.z * q.w)
    ensures ToMatrix(c) == Transposed(ToMatrix(q))
  {}

  /** The matrix of the conjugate is the transpose, for every quaternion. */
  lemma ConjugateTransposes(q: Vec)
    ensures ToMatrix(Conjugated(q)) == Transposed(ToMatrix(q))
  {
    ConjugateProducts(q, Conjugated(q));
    SameProducts(q, Conjugated(q));
  }

  lemma ConjugateOfUnit(q: Vec)
    requires Unit(q)
    ensures Unit(Conjugated(q)) && Hamilton(q, Conjugated(q)) == Vec(0.0, 0.0, 0.0, 1.0)
  {
    NormIsProduct(q);
  }

  lemma MatrixOfOne()
    ensures ToMatrix(Vec(0.0, 0.0, 0.0, 1.0)) == IDENTITY
  {}

  lemma UnitConjugate(q: Vec)
    requires Unit(q)
    ensures Undoes(ToMatrix(q), ToMatrix(Conjugated(q)))
  {
    ConjugateOfUnit(q);
    ToMatrixIsHomomorphism(q, Conjugated(q));
    MatrixOfOne();
    UndoesIff(ToMatrix(q), ToMatrix(Conjugated(q)));
  }

  /** The squared length of a row of the matrix, for any quaternion. */
  lemma RowLength(x: real, y: real, z: real, w: real, a: real, b: real, c: real, n: real)
    requires n == x * x + y * y + z * z + w * w
    requires a == 1.0 - 2.0 * (y * y) - 2.0 * (z * z)
    requires b == 2.0 * (x * y) - 2.0 * (z * w)
    requires c == 2.0 * (z * x) + 2.0 * (y * w)
    ensures a * a + b * b + c * c == 1.0 - 4.0 * (1.0 - n) * (y * y + z * z)
  {
    assert a * a == (1.0 - 2.0 * (y * y) - 2.0 * (z * z)) * (1.0 - 2.0 * (y * y) - 2.0 * (z * z));
    assert b * b == (2.0 * (x * y) - 2.0 * (z * w)) * (2.0 * (x * y) - 2.0 * (z * w));
    assert c * c == (2.0 * (z * x) + 2.0 * (y * w)) * (2.0 * (z * x) + 2.0 * (y * w));
    assert (1.0 - n) * (y * y + z * z) == (1.0 - (x * x + y * y + z * z + w * w)) * (y * y + z * z);
  }

  /** Rows of length one leave only the units and the quaternions without vector part. */
  lemma RowsOfLengthOne(x: real, y: real, z: real, n: real)
    requires 1.0 - 4.0 * (1.0 - n) * (y * y + z * z) == 1.0 && 1.0 - 4.0 * (1.0 - n) * (z * z + x * x) == 1.0
    ensures n == 1.0 || (x == 0.0 && y == 0.0 && z == 0.0)
  {
    NonzeroFactor(1.0 - n, y, z);
    NonzeroFactor(1.0 - n, z, x);
  }

  lemma NonzeroFactor(k: real, a: real, b: real)
    requires 4.0 * k * (a * a + b * b) == 0.0
    ensures k == 0.0 || (a == 0.0 && b == 0.0)
  {
    var s, t := a * a, b * b;
    assert 4.0 * k * (s + t) == 0.0;
    if k != 0.0 {
      assert s + t == 0.0;
      SumOfSquares(a, b, s, t);
    }
  }

  lemma SameSign(a: real, b: real, s: real)
    requires s == a * b
    ensures (a > 0.0 && b > 0.0) || (a < 0.0 && b < 0.0) ==> s > 0.0
  {}

  lemma SumOfSquares(a: real, b: real, s: real, t: real)
    requires s == a * a && t == b * b && s + t == 0.0
    ensures a == 0.0 && b == 0.0
  {
    SameSign(a, a, s);
    SameSign(b, b, t);
  }

  lemma OrthogonalRows(m: Mat)
    requires Mul(m, Transposed(m)) == IDENTITY
    ensures Dot(Row(m, 0), Row(m, 0)) == 1.0 && Dot(Row(m, 1), Row(m, 1)) == 1.0
  {
    var p := Mul(m, Transposed(m));
    assert p.f0 == 1.0 && p.f5 == 1.0;
  }

  ghost predicate RotatesBy(m: Mat, q: Vec) {
    forall j :: 0 <= j < 4 ==> Col(m, j) == RotationColumn(q, j)
  }

  lemma ToMatrixRotates(q: Vec)
    ensures RotatesBy(ToMatrix(q), q)
  {
    forall j | 0 <= j < 4 ensures Col(ToMatrix(q), j) == RotationColumn(q, j) {
      ColumnsOfToMatrix(q, j);
    }
  }

  lemma FirstTwoRows(q: Vec, m: Mat)
    requires RotatesBy(m, q)
    ensures m.f0 == 1.0 - 2.0 * (q.y * q.y) - 2.0 * (q.z * q.z) && m.f4 == 2.0 * (q.x * q.y) - 2.0 * (q.z * q.w)
    ensures m.f8 == 2.0 * (q.z * q.x) + 2.0 * (q.y * q.w) && m.f12 == 0.0
    ensures m.f5 == 1.0 - 2.0 * (q.z * q.z) - 2.0 * (q.x * q.x) && m.f9 == 2.0 * (q.y * q.z) - 2.0 * (q.x * q.w)
    ensures m.f1 == 2.0 * (q.x * q.y) + 2.0 * (q.z * q.w) && m.f13 == 0.0
  {
    assert Col(m, 0) == RotationColumn(q, 0) && Col(m, 1) == RotationColumn(q, 1);
    assert Col(m, 2) == RotationColumn(q, 2) && Col(m, 3) == RotationColumn(q, 3);
  }

  lemma RowSquares(m: Mat)
    requires m.f12 == 0.0 && m.f13 == 0.0 && Dot(Row(m, 0), Row(m, 0)) == 1.0 && Dot(Row(m, 1), Row(m, 1)) == 1.0
    ensures m.f0 * m.f0 + m.f4 * m.f4 + m.f8 * m.f8 == 1.0 && m.f5 * m.f5 + m.f9 * m.f9 + m.f1 * m.f1 == 1.0
  {}

  lemma FirstRowLength(q: Vec, m: Mat, n: real)
    requires n == q.x * q.x + q.y * q.y + q.z * q.z + q.w * q.w
    requires m.f0 == 1.0 - 2.0 * (q.y * q.y) - 2.0 * (q.z * q.z)
    requires m.f4 == 2.0 * (q.x * q.y) - 2.0 * (q.z * q.w) && m.f8 == 2.0 * (q.z * q.x) + 2.0 * (q.y * q.w)
    requires m.f0 * m.f0 + m.f4 * m.f4 + m.f8 * m.f8 == 1.0
    ensures 1.0 - 4.0 * (1.0 - n) * (q.y * q.y + q.z * q.z) == 1.0
  {
    RowLength(q.x, q.y, q.z, q.w, m.f0, m.f4, m.f8, n);
  }

  lemma SecondRowLength(q: Vec, m: Mat, n: real)
    requires n == q.x * q.x + q.y * q.y + q.z * q.z + q.w * q.w
    requires m.f5 == 1.0 - 2.0 * (q.z * q.z) - 2.0 * (q.x * q.x)
    requires m.f9 == 2.0 * (q.y * q.z) - 2.0 * (q.x * q.w) && m.f1 == 2.0 * (q.x * q.y) + 2.0 * (q.z * q.w)
    requires m.f5 * m.f5 + m.f9 * m.f9 + m.f1 * m.f1 == 1.0
    ensures 1.0 - 4.0 * (1.0 - n) * (q.z * q.z + q.x * q.x) == 1.0
  {
    RowLength(q.y, q.z, q.x, q.w, m.f5, m.f9, m.f1, n);
  }

  lemma UnitRowsMeanUnit(q: Vec, m: Mat)
    requires RotatesBy(m, q) && Dot(Row(m, 0), Row(m, 0)) == 1.0 && Dot(Row(m, 1), Row(m, 1)) == 1.0
    ensures Unit(q) || (q.x == 0.0 && q.y == 0.0 && q.z == 0.0)
  {
    FirstTwoRows(q, m);
    RowSquares(m);
    FirstRowLength(q, m, Dot(q, q));
    SecondRowLength(q, m, Dot(q, q));
    RowsOfLengthOne(q.x, q.y, q.z, Dot(q, q));
  }

  lemma OrthogonalMeansUnit(q: Vec, m: Mat)
    requires RotatesBy(m, q) && Mul(m, Transposed(m)) == IDENTITY
    ensures Unit(q) || (q.x == 0.0 && q.y == 0.0 && q.z == 0.0)
  {
    OrthogonalRows(m);
    UnitRowsMeanUnit(q, m);
  }

  lemma MatrixOfScalar(q: Vec)
    requires q.x == 0.0 && q.y == 0.0 && q.z == 0.0
    ensures ToMatrix(q) == IDENTITY
  {}

  /** The conjugate's matrix undoes the rotation exactly for the units and for the quaternions whose vector part
      is zero. */
  lemma ConjugateInvertsIff(q: Vec)
    ensures Undoes(ToMatrix(q), ToMatrix(Conjugated(q)))
            <==> Unit(q) || (q.x == 0.0 && q.y == 0.0 && q.z == 0.0)
  {
    UndoesIff(ToMatrix(q), ToMatrix(Conjugated(q)));
    if Unit(q) {
      UnitConjugate(q);
    } else if q.x == 0.0 && q.y == 0.0 && q.z == 0.0 {
      MatrixOfScalar(q);
      MatrixOfScalar(Conjugated(q));
      IdentityIsNeutral(IDENTITY);
    } else if Mul(ToMatrix(q), ToMatrix(Conjugated(q))) == IDENTITY {
      ConjugateTransposes(q);
      ToMatrixRotates(q);
      OrthogonalMeansUnit(q, ToMatrix(q));
    }
  }

  /** For a unit quaternion `inverse` of its matrix is the matrix of the conjugate. */
  lemma InverseOfRotation(q: Vec)
    requires Unit(q)
    ensures InverseOf(ToMatrix(q)) == ToMatrix(Conjugated(q))
  {
    UnitConjugate(q);
    UndoesIff(ToMatrix(q), ToMatrix(Conjugated(q)));
    ToMatrixIsAffine(q);
    InverseIsComplete(ToMatrix(q), ToMatrix(Conjugated(q)));
  }

  lemma ToMatrixIsAffine(q: Vec)
    ensures Affine(ToMatrix(q))
  {}
}
