/** What the matrices and quaternions do to vectors, said of single components. */
module VecMathMeaning {
  import opened VecMath
  import opened MatrixInverse
  import opened Quaternions

  // ---------------------------------------------------------------------------------------------
  // Matrices
  // ---------------------------------------------------------------------------------------------

  /** The sixteen floats are, four by four, the images of the axes. */
  lemma ColumnsAreImages(m: Mat)
    ensures Apply(m, Vec(1.0, 0.0, 0.0, 0.0)) == Vec(m.f0, m.f1, m.f2, m.f3)
    ensures Apply(m, Vec(0.0, 1.0, 0.0, 0.0)) == Vec(m.f4, m.f5, m.f6, m.f7)
    ensures Apply(m, Vec(0.0, 0.0, 1.0, 0.0)) == Vec(m.f8, m.f9, m.f10, m.f11)
    ensures Apply(m, Vec(0.0, 0.0, 0.0, 1.0)) == Vec(m.f12, m.f13, m.f14, m.f15)
  {}

  lemma DotIsLinear(a: Vec, k: real, u: Vec, v: Vec)
    ensures Dot(a, Plus(Times(k, u), v)) == k * Dot(a, u) + Dot(a, v)
  {
    assert a.x * (k * u.x + v.x) == k * (a.x * u.x) + a.x * v.x;
    assert a.y * (k * u.y + v.y) == k * (a.y * u.y) + a.y * v.y;
    assert a.z * (k * u.z + v.z) == k * (a.z * u.z) + a.z * v.z;
    assert a.w * (k * u.w + v.w) == k * (a.w * u.w) + a.w * v.w;
  }

  lemma LinearRow(a: Vec, k: real, u: Vec, v: Vec, p: real, q: real, r: real)
    requires p == Dot(a, u) && q == Dot(a, v) && r == Dot(a, Plus(Times(k, u), v))
    ensures r == k * p + q
  {
    DotIsLinear(a, k, u, v);
  }

  lemma ApplyIsLinear(m: Mat, k: real, u: Vec, v: Vec)
    ensures Apply(m, Plus(Times(k, u), v)) == Plus(Times(k, Apply(m, u)), Apply(m, v))
  {
    var a, b, c := Apply(m, u), Apply(m, v), Apply(m, Plus(Times(k, u), v));
    LinearRow(Row(m, 0), k, u, v, a.x, b.x, c.x);
    LinearRow(Row(m, 1), k, u, v, a.y, b.y, c.y);
    LinearRow(Row(m, 2), k, u, v, a.z, b.z, c.z);
    LinearRow(Row(m, 3), k, u, v, a.w, b.w, c.w);
    SameSums(k, a, b, c);
  }

  lemma SameSums(k: real, a: Vec, b: Vec, c: Vec)
    requires c.x == k * a.x + b.x && c.y == k * a.y + b.y && c.z == k * a.z + b.z && c.w == k * a.w + b.w
    ensures c == Plus(Times(k, a), b)
  {}

  /** The transpose is the adjoint: it may change sides in a product of vectors. */
  lemma TransposeIsAdjoint(m: Mat, u: Vec, v: Vec)
    ensures Dot(u, Apply(m, v)) == Dot(Apply(Transposed(m), u), v)
  {
    DotOfProduct(u, m, v);
    TransposedDots(m, u);
  }

  lemma TransposedDots(m: Mat, u: Vec)
    ensures Apply(Transposed(m), u) == ColumnDots(u, m)
  {}

  /** A translation moves points by (x, y, z) and leaves directions alone; postTranslate does so before the matrix. */
  lemma TranslationMoves(m: Mat, x: real, y: real, z: real, p: Vec)
    requires p.w == 1.0
    ensures Apply(Translation(x, y, z), p) == Vec(p.x + x, p.y + y, p.z + z, 1.0)
    ensures Apply(Translation(x, y, z), p.(w := 0.0)) == p.(w := 0.0)
    ensures Apply(PostTranslated(m, x, y, z), p) == Apply(m, Vec(p.x + x, p.y + y, p.z + z, 1.0))
  {
    PostTranslateIsProduct(m, x, y, z);
    ProductComposes(m, Translation(x, y, z), p);
  }

  /** What `inverse` gives for any matrix: it looks at the upper three rows only. If their left part is singular, all
      sixteen entries become zero; otherwise the result undoes the matrix with these rows and (0, 0, 0, 1). */
  lemma InverseOfAnyMatrix(m: Mat)
    ensures var upper := m.(f3 := 0.0, f7 := 0.0, f11 := 0.0, f15 := 1.0);
            && InverseOf(m) == InverseOf(upper)
            && (Det3(m) == 0.0 ==> InverseOf(m) == Mat(0.0, 0.0, 0.0, 0.0, 0.0, 0.0, 0.0, 0.0,
                                                       0.0, 0.0, 0.0, 0.0, 0.0, 0.0, 0.0, 0.0))
            && (Det3(m) != 0.0 ==> Undoes(InverseOf(m), upper) && Undoes(upper, InverseOf(m)))
  {
    var upper := m.(f3 := 0.0, f7 := 0.0, f11 := 0.0, f15 := 1.0);
    BottomIsIgnored(m, upper);
    if Det3(m) != 0.0 {
      InverseUndoes(upper, InverseOf(m));
    }
  }

  lemma BottomIsIgnored(m: Mat, n: Mat)
    requires n == m.(f3 := n.f3, f7 := n.f7, f11 := n.f11, f15 := n.f15)
    ensures Det3(n) == Det3(m) && InverseOf(n) == InverseOf(m)
  {
    CofactorsOfUpper(m, n);
    TranslationIgnoresBottom(m, n, Scaled(Cofactors(m), 1.0 / (if Det3(m) == 0.0 then 1.0 else Det3(m))));
  }

  /** The same 3x3 part. */
  predicate SameUpper(m: Mat, n: Mat) {
    && n.f0 == m.f0 && n.f1 == m.f1 && n.f2 == m.f2 && n.f4 == m.f4 && n.f5 == m.f5 && n.f6 == m.f6
    && n.f8 == m.f8 && n.f9 == m.f9 && n.f10 == m.f10
  }

  lemma DetOfUpper(m: Mat, n: Mat)
    requires SameUpper(m, n)
    ensures Det3(n) == Det3(m)
  {}

  lemma FirstCofactors(m: Mat, n: Mat)
    requires SameUpper(m, n)
    ensures Col(Cofactors(n), 0) == Col(Cofactors(m), 0)
  {}

  lemma SecondCofactors(m: Mat, n: Mat)
    requires SameUpper(m, n)
    ensures Col(Cofactors(n), 1) == Col(Cofactors(m), 1)
  {}

  lemma ThirdCofactors(m: Mat, n: Mat)
    requires SameUpper(m, n)
    ensures Col(Cofactors(n), 2) == Col(Cofactors(m), 2)
  {}

  lemma CofactorsOfUpper(m: Mat, n: Mat)
    requires SameUpper(m, n)
    ensures Det3(n) == Det3(m) && Cofactors(n) == Cofactors(m)
  {
    DetOfUpper(m, n);
    FirstCofactors(m, n);
    SecondCofactors(m, n);
    ThirdCofactors(m, n);
    ByColumns(Cofactors(m), Cofactors(n));
  }

  lemma TranslationIgnoresBottom(m: Mat, n: Mat, r: Mat)
    requires n == m.(f3 := n.f3, f7 := n.f7, f11 := n.f11, f15 := n.f15)
    ensures Untranslated(r, n) == Untranslated(r, m)
  {}

  lemma InverseUndoes(m: Mat, n: Mat)
    requires Affine(m) && Det3(m) != 0.0 && n == InverseOf(m)
    ensures Undoes(n, m) && Undoes(m, n)
  {
    InverseIff(m);
    UndoesIff(n, m);
    UndoesIff(m, n);
  }

  // ---------------------------------------------------------------------------------------------
  // Quaternions
  // ---------------------------------------------------------------------------------------------

  /** Hamilton's rules i j = k, j k = i, k i = j and i i = j j = k k = -1, for a factor on the right with any four
      components; with the next lemma they give every product. */
  lemma HamiltonsRules(p: Vec, q: Vec)
    ensures p == Vec(1.0, 0.0, 0.0, 0.0) ==> Hamilton(p, q) == Vec(q.w, -q.z, q.y, -q.x)
    ensures p == Vec(0.0, 1.0, 0.0, 0.0) ==> Hamilton(p, q) == Vec(q.z, q.w, -q.x, -q.y)
    ensures p == Vec(0.0, 0.0, 1.0, 0.0) ==> Hamilton(p, q) == Vec(-q.y, q.x, q.w, -q.z)
    ensures p == Vec(0.0, 0.0, 0.0, 1.0) ==> Hamilton(p, q) == q
  {}

  lemma HamiltonDistributes(p: Vec, k: real, q: Vec, r: Vec)
    ensures Hamilton(p, Plus(Times(k, q), r)) == Plus(Times(k, Hamilton(p, q)), Hamilton(p, r))
    ensures Hamilton(Plus(Times(k, q), r), p) == Plus(Times(k, Hamilton(q, p)), Hamilton(r, p))
  {
    HamiltonIsApply(p, q);
    HamiltonIsApply(p, r);
    HamiltonIsApply(p, Plus(Times(k, q), r));
    ApplyIsLinear(Left(p), k, q, r);
    HamiltonIsApply(q, p);
    HamiltonIsApply(r, p);
    HamiltonIsApply(Plus(Times(k, q), r), p);
    ApplyIsLinear(Right(p), k, q, r);
  }

  /** The cross product of the vector parts. */
  function Cross(a: Vec, b: Vec): Vec {
    Vec(a.y * b.z - a.z * b.y, a.z * b.x - a.x * b.z, a.x * b.y - a.y * b.x, 0.0)
  }

  /** For every quaternion, unit or not, its matrix adds twice w times the cross product of its vector part with the
      vector, and twice the cross product with that cross product. */
  lemma ToMatrixByCrossProducts(q: Vec, v: Vec)
    ensures Apply(ToMatrix(q), v) == Plus(v, Plus(Times(2.0 * q.w, Cross(q, v)), Times(2.0, Cross(q, Cross(q, v)))))
  {
    var c, r := Cross(q, v), Apply(ToMatrix(q), v);
    CrossParts(q, v, c);
    RowsOfToMatrix(q, v, r);
    TurnedByCross(q, v, c, r);
  }

  lemma CrossParts(q: Vec, v: Vec, c: Vec)
    requires c == Cross(q, v)
    ensures c.x == q.y * v.z - q.z * v.y && c.y == q.z * v.x - q.x * v.z && c.z == q.x * v.y - q.y * v.x && c.w == 0.0
  {}

  lemma RowsOfToMatrix(q: Vec, v: Vec, r: Vec)
    requires r == Apply(ToMatrix(q), v)
    ensures r.x == (1.0 - q.y * q.y * 2.0 - q.z * q.z * 2.0) * v.x + (q.x * q.y * 2.0 - q.z * q.w * 2.0) * v.y
                    + (q.z * q.x * 2.0 + q.y * q.w * 2.0) * v.z
    ensures r.y == (1.0 - q.z * q.z * 2.0 - q.x * q.x * 2.0) * v.y + (q.y * q.z * 2.0 - q.x * q.w * 2.0) * v.z
                    + (q.x * q.y * 2.0 + q.z * q.w * 2.0) * v.x
    ensures r.z == (1.0 - q.x * q.x * 2.0 - q.y * q.y * 2.0) * v.z + (q.z * q.x * 2.0 - q.y * q.w * 2.0) * v.x
                    + (q.y * q.z * 2.0 + q.x * q.w * 2.0) * v.y
    ensures r.w == v.w
  {}

  lemma TurnedByCross(q: Vec, v: Vec, c: Vec, r: Vec)
    requires c.x == q.y * v.z - q.z * v.y && c.y == q.z * v.x - q.x * v.z && c.z == q.x * v.y - q.y * v.x && c.w == 0.0
    requires r.x == (1.0 - q.y * q.y * 2.0 - q.z * q.z * 2.0) * v.x + (q.x * q.y * 2.0 - q.z * q.w * 2.0) * v.y
                    + (q.z * q.x * 2.0 + q.y * q.w * 2.0) * v.z
    requires r.y == (1.0 - q.z * q.z * 2.0 - q.x * q.x * 2.0) * v.y + (q.y * q.z * 2.0 - q.x * q.w * 2.0) * v.z
                    + (q.x * q.y * 2.0 + q.z * q.w * 2.0) * v.x
    requires r.z == (1.0 - q.x * q.x * 2.0 - q.y * q.y * 2.0) * v.z + (q.z * q.x * 2.0 - q.y * q.w * 2.0) * v.x
                    + (q.y * q.z * 2.0 + q.x * q.w * 2.0) * v.y
    requires r.w == v.w
    ensures r == Plus(v, Plus(Times(2.0 * q.w, c), Times(2.0, Cross(q, c))))
  {
    TurnedX(q, v, c, r);
    TurnedY(q, v, c, r);
    TurnedZ(q, v, c, r);
    FromParts(q, v, c, r);
  }

  lemma TurnedX(q: Vec, v: Vec, c: Vec, r: Vec)
    requires c.x == q.y * v.z - q.z * v.y && c.y == q.z * v.x - q.x * v.z && c.z == q.x * v.y - q.y * v.x
    requires r.x == (1.0 - q.y * q.y * 2.0 - q.z * q.z * 2.0) * v.x + (q.x * q.y * 2.0 - q.z * q.w * 2.0) * v.y
                    + (q.z * q.x * 2.0 + q.y * q.w * 2.0) * v.z
    ensures r.x == v.x + (2.0 * q.w * c.x + 2.0 * (q.y * c.z - q.z * c.y))
  {
    assert q.w * c.x == q.w * (q.y * v.z - q.z * v.y);
    assert q.y * c.z == q.y * (q.x * v.y - q.y * v.x);
    assert q.z * c.y == q.z * (q.z * v.x - q.x * v.z);
  }

  lemma TurnedY(q: Vec, v: Vec, c: Vec, r: Vec)
    requires c.x == q.y * v.z - q.z * v.y && c.y == q.z * v.x - q.x * v.z && c.z == q.x * v.y - q.y * v.x
    requires r.y == (1.0 - q.z * q.z * 2.0 - q.x * q.x * 2.0) * v.y + (q.y * q.z * 2.0 - q.x * q.w * 2.0) * v.z
                    + (q.x * q.y * 2.0 + q.z * q.w * 2.0) * v.x
    ensures r.y == v.y + (2.0 * q.w * c.y + 2.0 * (q.z * c.x - q.x * c.z))
  {
    assert q.w * c.y == q.w * (q.z * v.x - q.x * v.z);
    assert q.z * c.x == q.z * (q.y * v.z - q.z * v.y);
    assert q.x * c.z == q.x * (q.x * v.y - q.y * v.x);
  }

  lemma TurnedZ(q: Vec, v: Vec, c: Vec, r: Vec)
    requires c.x == q.y * v.z - q.z * v.y && c.y == q.z * v.x - q.x * v.z && c.z == q.x * v.y - q.y * v.x
    requires r.z == (1.0 - q.x * q.x * 2.0 - q.y * q.y * 2.0) * v.z + (q.z * q.x * 2.0 - q.y * q.w * 2.0) * v.x
                    + (q.y * q.z * 2.0 + q.x * q.w * 2.0) * v.y
    ensures r.z == v.z + (2.0 * q.w * c.z + 2.0 * (q.x * c.y - q.y * c.x))
  {
    assert q.w * c.z == q.w * (q.x * v.y - q.y * v.x);
    assert q.x * c.y == q.x * (q.z * v.x - q.x * v.z);
    assert q.y * c.x == q.y * (q.y * v.z - q.z * v.y);
  }

  lemma FromParts(q: Vec, v: Vec, c: Vec, r: Vec)
    requires r.x == v.x + (2.0 * q.w * c.x + 2.0 * (q.y * c.z - q.z * c.y))
    requires r.y == v.y + (2.0 * q.w * c.y + 2.0 * (q.z * c.x - q.x * c.z))
    requires r.z == v.z + (2.0 * q.w * c.z + 2.0 * (q.x * c.y - q.y * c.x))
    requires r.w == v.w && c.w == 0.0
    ensures r == Plus(v, Plus(Times(2.0 * q.w, c), Times(2.0, Cross(q, c))))
  {}

  /** The entries of a matrix of a unit whose vector part has the one component `z`. */
  lemma OneComponent(x: real, y: real, z: real, w: real)
    requires x == 0.0 && y == 0.0 && x * x + y * y + z * z + w * w == 1.0
    ensures 1.0 - y * y * 2.0 - z * z * 2.0 == w * w - z * z
    ensures x * y * 2.0 + z * w * 2.0 == 2.0 * (z * w) && z * x * 2.0 - y * w * 2.0 == 0.0
  {}

  /** A unit quaternion whose vector part has one component turns by twice its angle: from x to y about z, from y to z
      about x, and from z to x about y. By ColumnsAreImages the columns say so. */
  lemma TurnAboutZ(q: Vec, m: Mat)
    requires Unit(q) && q.x == 0.0 && q.y == 0.0 && m == ToMatrix(q)
    ensures m.f0 == q.w * q.w - q.z * q.z && m.f1 == 2.0 * (q.z * q.w) && m.f2 == m.f3 == 0.0
  {
    OneComponent(q.x, q.y, q.z, q.w);
  }

  lemma TurnAboutX(q: Vec, m: Mat)
    requires Unit(q) && q.y == 0.0 && q.z == 0.0 && m == ToMatrix(q)
    ensures m.f5 == q.w * q.w - q.x * q.x && m.f6 == 2.0 * (q.x * q.w) && m.f4 == m.f7 == 0.0
  {
    OneComponent(q.y, q.z, q.x, q.w);
  }

  lemma TurnAboutY(q: Vec, m: Mat)
    requires Unit(q) && q.z == 0.0 && q.x == 0.0 && m == ToMatrix(q)
    ensures m.f10 == q.w * q.w - q.y * q.y && m.f8 == 2.0 * (q.y * q.w) && m.f9 == m.f11 == 0.0
  {
    OneComponent(q.z, q.x, q.y, q.w);
  }
}
