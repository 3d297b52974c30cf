/** What Matrix4::inverse computes: for an affine matrix, its inverse whenever it has one. */
module MatrixInverse {
  import opened VecMath

  // A row or column of three entries times the cofactors, written out.

  lemma TimesFirstColumn(m: Mat, x: real, y: real, z: real)
    ensures x * Cofactors(m).f0 + y * Cofactors(m).f1 + z * Cofactors(m).f2
            == x * (m.f5 * m.f10 - m.f9 * m.f6) - y * (m.f1 * m.f10 - m.f9 * m.f2) + z * (m.f1 * m.f6 - m.f5 * m.f2)
  {}

  lemma TimesSecondColumn(m: Mat, x: real, y: real, z: real)
    ensures x * Cofactors(m).f4 + y * Cofactors(m).f5 + z * Cofactors(m).f6
            == -x * (m.f4 * m.f10 - m.f8 * m.f6) + y * (m.f0 * m.f10 - m.f8 * m.f2) - z * (m.f0 * m.f6 - m.f4 * m.f2)
  {}

  lemma TimesThirdColumn(m: Mat, x: real, y: real, z: real)
    ensures x * Cofactors(m).f8 + y * Cofactors(m).f9 + z * Cofactors(m).f10
            == x * (m.f4 * m.f9 - m.f8 * m.f5) - y * (m.f0 * m.f9 - m.f8 * m.f1) + z * (m.f0 * m.f5 - m.f4 * m.f1)
  {}

  /** The product of a row with the three columns of cofactors. */
  predicate RowGives(c: Mat, x: real, y: real, z: real, p: real, q: real, r: real) {
    && x * c.f0 + y * c.f1 + z * c.f2 == p
    && x * c.f4 + y * c.f5 + z * c.f6 == q
    && x * c.f8 + y * c.f9 + z * c.f10 == r
  }

  lemma FirstRowExpansion(m: Mat)
    ensures RowGives(Cofactors(m), m.f0, m.f4, m.f8, Det3(m), 0.0, 0.0)
  {
    TimesFirstColumn(m, m.f0, m.f4, m.f8);
    TimesSecondColumn(m, m.f0, m.f4, m.f8);
    TimesThirdColumn(m, m.f0, m.f4, m.f8);
  }

  lemma SecondRowExpansion(m: Mat)
    ensures RowGives(Cofactors(m), m.f1, m.f5, m.f9, 0.0, Det3(m), 0.0)
  {
    TimesFirstColumn(m, m.f1, m.f5, m.f9);
    TimesSecondColumn(m, m.f1, m.f5, m.f9);
    TimesThirdColumn(m, m.f1, m.f5, m.f9);
  }

  lemma ThirdRowExpansion(m: Mat)
    ensures RowGives(Cofactors(m), m.f2, m.f6, m.f10, 0.0, 0.0, Det3(m))
  {
    TimesFirstColumn(m, m.f2, m.f6, m.f10);
    TimesSecondColumn(m, m.f2, m.f6, m.f10);
    TimesThirdColumn(m, m.f2, m.f6, m.f10);
  }

  lemma ScaledSum(x: real, y: real, z: real, a: real, b: real, c: real, k: real,
                  a': real, b': real, c': real, p: real, p': real)
    requires a' == a * k && b' == b * k && c' == c * k && p' == p * k
    requires x * a + y * b + z * c == p
    ensures x * a' + y * b' + z * c' == p'
  {
    assert p * k == (x * a + y * b + z * c) * k;
    assert x * a' == x * (a * k) && y * b' == y * (b * k) && z * c' == z * (c * k);
  }

  lemma ScaledFirst(c: Mat, k: real, x: real, y: real, z: real, p: real, p': real)
    requires x * c.f0 + y * c.f1 + z * c.f2 == p && p' == p * k
    ensures x * Scaled(c, k).f0 + y * Scaled(c, k).f1 + z * Scaled(c, k).f2 == p'
  {
    var s := Scaled(c, k);
    ScaledSum(x, y, z, c.f0, c.f1, c.f2, k, s.f0, s.f1, s.f2, p, p');
  }

  lemma ScaledSecond(c: Mat, k: real, x: real, y: real, z: real, p: real, p': real)
    requires x * c.f4 + y * c.f5 + z * c.f6 == p && p' == p * k
    ensures x * Scaled(c, k).f4 + y * Scaled(c, k).f5 + z * Scaled(c, k).f6 == p'
  {
    var s := Scaled(c, k);
    ScaledSum(x, y, z, c.f4, c.f5, c.f6, k, s.f4, s.f5, s.f6, p, p');
  }

  lemma ScaledThird(c: Mat, k: real, x: real, y: real, z: real, p: real, p': real)
    requires x * c.f8 + y * c.f9 + z * c.f10 == p && p' == p * k
    ensures x * Scaled(c, k).f8 + y * Scaled(c, k).f9 + z * Scaled(c, k).f10 == p'
  {
    var s := Scaled(c, k);
    ScaledSum(x, y, z, c.f8, c.f9, c.f10, k, s.f8, s.f9, s.f10, p, p');
  }

  /** A row times the scaled columns: `k` times the product with the columns. */
  lemma ScaledRow(c: Mat, k: real, x: real, y: real, z: real, p: real, q: real, r: real, p': real, q': real, r': real)
    requires RowGives(c, x, y, z, p, q, r) && p' == p * k && q' == q * k && r' == r * k
    ensures RowGives(Scaled(c, k), x, y, z, p', q', r')
  {
    ScaledFirst(c, k, x, y, z, p, p');
    ScaledSecond(c, k, x, y, z, q, q');
    ScaledThird(c, k, x, y, z, r, r');
  }

  /** A row times the translation column that inverse builds from the 3x3 part `s`. */
  lemma RowTimesTranslation(s: Mat, m: Mat, x: real, y: real, z: real, p: real, q: real, r: real)
    requires RowGives(s, x, y, z, p, q, r)
    ensures var a := Untranslated(s, m);
            x * a.f12 + y * a.f13 + z * a.f14 == -(m.f12 * p + m.f13 * q + m.f14 * r)
  {
    var a := Untranslated(s, m);
    Regroup(x, y, z, m.f12, m.f13, m.f14, s.f0, s.f1, s.f2, s.f4, s.f5, s.f6, s.f8, s.f9, s.f10,
            -a.f12, -a.f13, -a.f14, p, q, r);
  }

  lemma Regroup(x: real, y: real, z: real, u: real, v: real, w: real,
                a: real, b: real, c: real, d: real, e: real, f: real, g: real, h: real, i: real,
                l: real, m: real, n: real, p: real, q: real, r: real)
    requires x * a + y * b + z * c == p && x * d + y * e + z * f == q && x * g + y * h + z * i == r
    requires u * a + v * d + w * g == l && u * b + v * e + w * h == m && u * c + v * f + w * i == n
    ensures x * l + y * m + z * n == u * p + v * q + w * r
  {
    assert x * l == x * (u * a + v * d + w * g);
    assert y * m == y * (u * b + v * e + w * h);
    assert z * n == z * (u * c + v * f + w * i);
    assert u * p == u * (x * a + y * b + z * c);
    assert v * q == v * (x * d + y * e + z * f);
    assert w * r == w * (x * g + y * h + z * i);
  }

  lemma FirstRightColumn(m: Mat, s: Mat)
    requires Affine(m) && Affine(s)
    requires RowGives(s, m.f0, m.f4, m.f8, 1.0, 0.0, 0.0)
    requires RowGives(s, m.f1, m.f5, m.f9, 0.0, 1.0, 0.0)
    requires RowGives(s, m.f2, m.f6, m.f10, 0.0, 0.0, 1.0)
    ensures Apply(m, Col(Untranslated(s, m), 0)) == Col(IDENTITY, 0)
  {}

  lemma SecondRightColumn(m: Mat, s: Mat)
    requires Affine(m) && Affine(s)
    requires RowGives(s, m.f0, m.f4, m.f8, 1.0, 0.0, 0.0)
    requires RowGives(s, m.f1, m.f5, m.f9, 0.0, 1.0, 0.0)
    requires RowGives(s, m.f2, m.f6, m.f10, 0.0, 0.0, 1.0)
    ensures Apply(m, Col(Untranslated(s, m), 1)) == Col(IDENTITY, 1)
  {}

  lemma ThirdRightColumn(m: Mat, s: Mat)
    requires Affine(m) && Affine(s)
    requires RowGives(s, m.f0, m.f4, m.f8, 1.0, 0.0, 0.0)
    requires RowGives(s, m.f1, m.f5, m.f9, 0.0, 1.0, 0.0)
    requires RowGives(s, m.f2, m.f6, m.f10, 0.0, 0.0, 1.0)
    ensures Apply(m, Col(Untranslated(s, m), 2)) == Col(IDENTITY, 2)
  {}

  lemma RightColumns(m: Mat, s: Mat)
    requires Affine(m) && Affine(s)
    requires RowGives(s, m.f0, m.f4, m.f8, 1.0, 0.0, 0.0)
    requires RowGives(s, m.f1, m.f5, m.f9, 0.0, 1.0, 0.0)
    requires RowGives(s, m.f2, m.f6, m.f10, 0.0, 0.0, 1.0)
    ensures forall j :: 0 <= j < 3 ==> Apply(m, Col(Untranslated(s, m), j)) == Col(IDENTITY, j)
  {
    FirstRightColumn(m, s);
    SecondRightColumn(m, s);
    ThirdRightColumn(m, s);
  }

  lemma RightTranslation(m: Mat, s: Mat)
    requires Affine(m) && Affine(s)
    requires RowGives(s, m.f0, m.f4, m.f8, 1.0, 0.0, 0.0)
    requires RowGives(s, m.f1, m.f5, m.f9, 0.0, 1.0, 0.0)
    requires RowGives(s, m.f2, m.f6, m.f10, 0.0, 0.0, 1.0)
    ensures Apply(m, Col(Untranslated(s, m), 3)) == Col(IDENTITY, 3)
  {
    RowTimesTranslation(s, m, m.f0, m.f4, m.f8, 1.0, 0.0, 0.0);
    RowTimesTranslation(s, m, m.f1, m.f5, m.f9, 0.0, 1.0, 0.0);
    RowTimesTranslation(s, m, m.f2, m.f6, m.f10, 0.0, 0.0, 1.0);
  }

  /** An affine matrix times a matrix whose 3x3 part its rows send to the identity, with that translation part. */
  lemma RightProduct(m: Mat, s: Mat)
    requires Affine(m) && Affine(s) && s.f12 == 0.0 && s.f13 == 0.0 && s.f14 == 0.0
    requires RowGives(s, m.f0, m.f4, m.f8, 1.0, 0.0, 0.0)
    requires RowGives(s, m.f1, m.f5, m.f9, 0.0, 1.0, 0.0)
    requires RowGives(s, m.f2, m.f6, m.f10, 0.0, 0.0, 1.0)
    ensures Mul(m, Untranslated(s, m)) == IDENTITY
  {
    RightColumns(m, s);
    RightTranslation(m, s);
    FromColumns(m, Untranslated(s, m), IDENTITY);
  }

  lemma FromColumns(m: Mat, a: Mat, p: Mat)
    requires Apply(m, Col(a, 3)) == Col(p, 3) && forall j :: 0 <= j < 3 ==> Apply(m, Col(a, j)) == Col(p, j)
    ensures Mul(m, a) == p
  {
    assert Apply(m, Col(a, 0)) == Col(p, 0) && Apply(m, Col(a, 1)) == Col(p, 1) && Apply(m, Col(a, 2)) == Col(p, 2);
  }

  lemma LeftProduct(m: Mat, s: Mat)
    requires Affine(m) && Affine(s) && s.f12 == 0.0 && s.f13 == 0.0 && s.f14 == 0.0
    requires RowGives(Transposed(s), m.f0, m.f1, m.f2, 1.0, 0.0, 0.0)
    requires RowGives(Transposed(s), m.f4, m.f5, m.f6, 0.0, 1.0, 0.0)
    requires RowGives(Transposed(s), m.f8, m.f9, m.f10, 0.0, 0.0, 1.0)
    ensures Mul(Untranslated(s, m), m) == IDENTITY
  {}

  lemma ScaledAffine(m: Mat, k: real)
    ensures var s := Scaled(Cofactors(m), k); Affine(s) && s.f12 == 0.0 && s.f13 == 0.0 && s.f14 == 0.0
  {}

  /** The rows of a matrix times its scaled cofactors are the rows of the identity. */
  lemma RowsOfInverse(m: Mat, d: real, k: real)
    requires d == Det3(m) && d * k == 1.0
    ensures RowGives(Scaled(Cofactors(m), k), m.f0, m.f4, m.f8, 1.0, 0.0, 0.0)
    ensures RowGives(Scaled(Cofactors(m), k), m.f1, m.f5, m.f9, 0.0, 1.0, 0.0)
    ensures RowGives(Scaled(Cofactors(m), k), m.f2, m.f6, m.f10, 0.0, 0.0, 1.0)
  {
    var c := Cofactors(m);
    FirstRowExpansion(m);
    ScaledRow(c, k, m.f0, m.f4, m.f8, d, 0.0, 0.0, 1.0, 0.0, 0.0);
    SecondRowExpansion(m);
    ScaledRow(c, k, m.f1, m.f5, m.f9, 0.0, d, 0.0, 0.0, 1.0, 0.0);
    ThirdRowExpansion(m);
    ScaledRow(c, k, m.f2, m.f6, m.f10, 0.0, 0.0, d, 0.0, 0.0, 1.0);
  }

  lemma AdjugateIsRightInverse(m: Mat, k: real)
    requires Affine(m) && Det3(m) * k == 1.0
    ensures Mul(m, Adjugate(m, k)) == IDENTITY
  {
    RowsOfInverse(m, Det3(m), k);
    ScaledAffine(m, k);
    RightProduct(m, Scaled(Cofactors(m), k));
  }

  lemma TransposedDet(m: Mat, t: Mat)
    requires t.f0 == m.f0 && t.f1 == m.f4 && t.f2 == m.f8 && t.f4 == m.f1 && t.f5 == m.f5 && t.f6 == m.f9
    requires t.f8 == m.f2 && t.f9 == m.f6 && t.f10 == m.f10
    ensures Det3(t) == Det3(m)
  {}

  lemma TransposedCofactors(m: Mat)
    ensures Det3(Transposed(m)) == Det3(m)
    ensures Cofactors(Transposed(m)) == Transposed(Cofactors(m))
  {
    TransposedDet(m, Transposed(m));
  }

  lemma TransposedScaled(c: Mat, k: real)
    ensures Scaled(Transposed(c), k) == Transposed(Scaled(c, k))
  {}

  lemma AdjugateIsLeftInverse(m: Mat, k: real)
    requires Affine(m) && Det3(m) * k == 1.0
    ensures Mul(Adjugate(m, k), m) == IDENTITY
  {
    TransposedCofactors(m);
    TransposedScaled(Cofactors(m), k);
    RowsOfInverse(Transposed(m), Det3(m), k);
    ScaledAffine(m, k);
    LeftProduct(m, Scaled(Cofactors(m), k));
  }

  /** A row that every column of an invertible 3x3 part annihilates is zero. */
  lemma OnlyZeroRow(m: Mat, s: Mat, x: real, y: real, z: real)
    requires RowGives(s, x, y, z, 0.0, 0.0, 0.0)
    requires RowGives(Transposed(s), m.f0, m.f1, m.f2, 1.0, 0.0, 0.0)
    requires RowGives(Transposed(s), m.f4, m.f5, m.f6, 0.0, 1.0, 0.0)
    requires RowGives(Transposed(s), m.f8, m.f9, m.f10, 0.0, 0.0, 1.0)
    ensures x == 0.0 && y == 0.0 && z == 0.0
  {
    Annihilated(s, x, y, z, m.f0, m.f1, m.f2, 1.0, 0.0, 0.0);
    Annihilated(s, x, y, z, m.f4, m.f5, m.f6, 0.0, 1.0, 0.0);
    Annihilated(s, x, y, z, m.f8, m.f9, m.f10, 0.0, 0.0, 1.0);
  }

  lemma Annihilated(s: Mat, x: real, y: real, z: real, u: real, v: real, w: real, l: real, m: real, n: real)
    requires RowGives(s, x, y, z, 0.0, 0.0, 0.0) && RowGives(Transposed(s), u, v, w, l, m, n)
    ensures x * l + y * m + z * n == 0.0
  {
    Regroup(x, y, z, u, v, w, s.f0, s.f1, s.f2, s.f4, s.f5, s.f6, s.f8, s.f9, s.f10, l, m, n, 0.0, 0.0, 0.0);
  }

  /** A matrix that the adjugate inverts has the bottom row 0 0 0 1. */
  lemma InvertedIsAffine(m: Mat, k: real)
    requires Det3(m) * k == 1.0 && Mul(m, Adjugate(m, k)) == IDENTITY
    ensures Affine(m)
  {
    var s := Scaled(Cofactors(m), k);
    ColumnsOfInverse(m, k);
    ScaledAffine(m, k);
    BottomRow(m, s);
    OnlyZeroRow(m, s, m.f3, m.f7, m.f11);
  }

  lemma ColumnsOfInverse(m: Mat, k: real)
    requires Det3(m) * k == 1.0
    ensures var t := Transposed(Scaled(Cofactors(m), k));
            && RowGives(t, m.f0, m.f1, m.f2, 1.0, 0.0, 0.0)
            && RowGives(t, m.f4, m.f5, m.f6, 0.0, 1.0, 0.0)
            && RowGives(t, m.f8, m.f9, m.f10, 0.0, 0.0, 1.0)
  {
    TransposedCofactors(m);
    TransposedScaled(Cofactors(m), k);
    RowsOfInverse(Transposed(m), Det3(m), k);
  }

  lemma BottomRow(m: Mat, s: Mat)
    requires Affine(s) && Mul(m, Untranslated(s, m)) == IDENTITY
    ensures RowGives(s, m.f3, m.f7, m.f11, 0.0, 0.0, 0.0)
    ensures m.f3 == 0.0 && m.f7 == 0.0 && m.f11 == 0.0 ==> m.f15 == 1.0
  {
    var p := Mul(m, Untranslated(s, m));
    assert p.f3 == 0.0 && p.f7 == 0.0 && p.f11 == 0.0 && p.f15 == 1.0;
  }

  /** Both products with the inverse are the identity exactly for the affine matrices of nonzero determinant. */
  lemma InverseIff(m: Mat)
    ensures Mul(m, InverseOf(m)) == IDENTITY <==> Affine(m) && Det3(m) != 0.0
    ensures Mul(InverseOf(m), m) == IDENTITY <==> Affine(m) && Det3(m) != 0.0
  {
    if Det3(m) == 0.0 {
      assert Mul(m, ZERO).f0 == 0.0 && Mul(ZERO, m).f0 == 0.0;
    } else {
      var k := 1.0 / Det3(m);
      assert Det3(m) * k == 1.0;
      if Affine(m) {
        AdjugateIsRightInverse(m, k);
        AdjugateIsLeftInverse(m, k);
      } else {
        if Mul(m, Adjugate(m, k)) == IDENTITY {
          InvertedIsAffine(m, k);
        }
        LastRowSurvives(m, k);
      }
    }
  }

  lemma LastRowSurvives(m: Mat, k: real)
    ensures Mul(Adjugate(m, k), m) == IDENTITY ==> Affine(m)
  {
    ScaledAffine(m, k);
    var a := Adjugate(m, k);
    assert Affine(a);
    BottomRowOfProduct(a, m);
  }

  lemma BottomRowOfProduct(a: Mat, m: Mat)
    requires Affine(a)
    ensures Row(Mul(a, m), 3) == Row(m, 3)
  {}

  // ---------------------------------------------------------------------------------------------
  // The determinant of a product, and what it says about the inverse
  // ---------------------------------------------------------------------------------------------

  /** One entry of a triple cross product: `u (q.v) - v (q.u)`. */
  lemma TripleEntry(u: real, v: real, s: real, t: real, q0: real, q1: real, q2: real,
                    u1: real, v1: real, u2: real, v2: real, m1: real, m2: real)
    requires s == q0 * u + q1 * u1 + q2 * u2 && t == q0 * v + q1 * v1 + q2 * v2
    requires m1 == u * v1 - u1 * v && m2 == u * v2 - u2 * v
    ensures u * t - v * s == q1 * m1 + q2 * m2
  {
    assert u * t == u * (q0 * v + q1 * v1 + q2 * v2);
    assert v * s == v * (q0 * u + q1 * u1 + q2 * u2);
    assert q1 * m1 == q1 * (u * v1 - u1 * v);
    assert q2 * m2 == q2 * (u * v2 - u2 * v);
  }

  /** A 2x2 minor of a product: the rows' cross product times the columns' cross product. */
  lemma MinorOfProduct(p0: real, p1: real, p2: real, q0: real, q1: real, q2: real,
                       u0: real, u1: real, u2: real, v0: real, v1: real, v2: real,
                       pu: real, pv: real, qu: real, qv: real,
                       x: real, y: real, z: real, a: real, b: real, c: real)
    requires pu == p0 * u0 + p1 * u1 + p2 * u2 && pv == p0 * v0 + p1 * v1 + p2 * v2
    requires qu == q0 * u0 + q1 * u1 + q2 * u2 && qv == q0 * v0 + q1 * v1 + q2 * v2
    requires x == p1 * q2 - p2 * q1 && y == -(p0 * q2 - p2 * q0) && z == p0 * q1 - p1 * q0
    requires a == u1 * v2 - u2 * v1 && b == -(u0 * v2 - u2 * v0) && c == u0 * v1 - u1 * v0
    ensures pu * qv - pv * qu == x * a + y * b + z * c
  {
    var k0, k1, k2 := u0 * qv - v0 * qu, u1 * qv - v1 * qu, u2 * qv - v2 * qu;
    RowTimesTriple(p0, p1, p2, u0, u1, u2, v0, v1, v2, pu, pv, qu, qv, k0, k1, k2);
    TripleEntry(u0, v0, qu, qv, q0, q1, q2, u1, v1, u2, v2, c, -b);
    TripleEntry(u1, v1, qu, qv, q1, q0, q2, u0, v0, u2, v2, -c, a);
    TripleEntry(u2, v2, qu, qv, q2, q0, q1, u0, v0, u1, v1, b, -a);
    SixTerms(p0, p1, p2, k0, k1, k2, q0, q1, q2, x, y, z, a, b, c);
  }

  lemma RowTimesTriple(p0: real, p1: real, p2: real, u0: real, u1: real, u2: real, v0: real, v1: real, v2: real,
                       pu: real, pv: real, s: real, t: real, k0: real, k1: real, k2: real)
    requires pu == p0 * u0 + p1 * u1 + p2 * u2 && pv == p0 * v0 + p1 * v1 + p2 * v2
    requires k0 == u0 * t - v0 * s && k1 == u1 * t - v1 * s && k2 == u2 * t - v2 * s
    ensures pu * t - pv * s == p0 * k0 + p1 * k1 + p2 * k2
  {
    assert pu * t == (p0 * u0 + p1 * u1 + p2 * u2) * t;
    assert pv * s == (p0 * v0 + p1 * v1 + p2 * v2) * s;
    assert p0 * k0 == p0 * (u0 * t - v0 * s);
    assert p1 * k1 == p1 * (u1 * t - v1 * s);
    assert p2 * k2 == p2 * (u2 * t - v2 * s);
  }

  lemma SixTerms(p0: real, p1: real, p2: real, k0: real, k1: real, k2: real, q0: real, q1: real, q2: real,
                 x: real, y: real, z: real, a: real, b: real, c: real)
    requires k0 == q1 * c - q2 * b && k1 == q2 * a - q0 * c && k2 == q0 * b - q1 * a
    requires x == p1 * q2 - p2 * q1 && y == -(p0 * q2 - p2 * q0) && z == p0 * q1 - p1 * q0
    ensures p0 * k0 + p1 * k1 + p2 * k2 == x * a + y * b + z * c
  {
    assert p0 * k0 == p0 * (q1 * c - q2 * b);
    assert p1 * k1 == p1 * (q2 * a - q0 * c);
    assert p2 * k2 == p2 * (q0 * b - q1 * a);
    assert x * a == (p1 * q2 - p2 * q1) * a;
    assert y * b == -(p0 * q2 - p2 * q0) * b;
    assert z * c == (p0 * q1 - p1 * q0) * c;
  }

  /** The 3x3 part of `p` is the product of those of `a` and `b`. */
  predicate Product3(p: Mat, a: Mat, b: Mat) {
    && p.f0 == a.f0 * b.f0 + a.f4 * b.f1 + a.f8 * b.f2
    && p.f1 == a.f1 * b.f0 + a.f5 * b.f1 + a.f9 * b.f2
    && p.f2 == a.f2 * b.f0 + a.f6 * b.f1 + a.f10 * b.f2
    && p.f4 == a.f0 * b.f4 + a.f4 * b.f5 + a.f8 * b.f6
    && p.f5 == a.f1 * b.f4 + a.f5 * b.f5 + a.f9 * b.f6
    && p.f6 == a.f2 * b.f4 + a.f6 * b.f5 + a.f10 * b.f6
    && p.f8 == a.f0 * b.f8 + a.f4 * b.f9 + a.f8 * b.f10
    && p.f9 == a.f1 * b.f8 + a.f5 * b.f9 + a.f9 * b.f10
    && p.f10 == a.f2 * b.f8 + a.f6 * b.f9 + a.f10 * b.f10
  }

  lemma AffineProduct(a: Mat, b: Mat)
    requires Affine(b)
    ensures Product3(Mul(a, b), a, b)
    ensures Affine(a) ==> Affine(Mul(a, b))
  {}

  // The first column of cofactors of a product: the cofactors of the right factor act on those of the left.

  lemma FirstCofactor(p: Mat, a: Mat, b: Mat)
    requires Product3(p, a, b)
    ensures Cofactors(p).f0 == Cofactors(a).f0 * Cofactors(b).f0 + Cofactors(a).f1 * Cofactors(b).f4
                               + Cofactors(a).f2 * Cofactors(b).f8
  {
    var c, d := Cofactors(a), Cofactors(b);
    MinorOfProduct(a.f1, a.f5, a.f9, a.f2, a.f6, a.f10, b.f4, b.f5, b.f6, b.f8, b.f9, b.f10,
                   p.f5, p.f9, p.f6, p.f10, c.f0, c.f1, c.f2, d.f0, d.f4, d.f8);
  }

  lemma SecondCofactor(p: Mat, a: Mat, b: Mat)
    requires Product3(p, a, b)
    ensures Cofactors(p).f1 == Cofactors(a).f0 * Cofactors(b).f1 + Cofactors(a).f1 * Cofactors(b).f5
                               + Cofactors(a).f2 * Cofactors(b).f9
  {
    var c, d := Cofactors(a), Cofactors(b);
    MinorOfProduct(a.f1, a.f5, a.f9, a.f2, a.f6, a.f10, b.f8, b.f9, b.f10, b.f0, b.f1, b.f2,
                   p.f9, p.f1, p.f10, p.f2, c.f0, c.f1, c.f2, d.f1, d.f5, d.f9);
  }

  lemma ThirdCofactor(p: Mat, a: Mat, b: Mat)
    requires Product3(p, a, b)
    ensures Cofactors(p).f2 == Cofactors(a).f0 * Cofactors(b).f2 + Cofactors(a).f1 * Cofactors(b).f6
                               + Cofactors(a).f2 * Cofactors(b).f10
  {
    var c, d := Cofactors(a), Cofactors(b);
    MinorOfProduct(a.f1, a.f5, a.f9, a.f2, a.f6, a.f10, b.f0, b.f1, b.f2, b.f4, b.f5, b.f6,
                   p.f1, p.f5, p.f2, p.f6, c.f0, c.f1, c.f2, d.f2, d.f6, d.f10);
  }

  /** A matrix undoes its cofactors, up to the determinant. */
  lemma CofactorsUndone(b: Mat, d: Mat, k: real, u: real, v: real, w: real, s: real, t: real, r: real)
    requires RowGives(d, b.f0, b.f4, b.f8, k, 0.0, 0.0)
    requires RowGives(d, b.f1, b.f5, b.f9, 0.0, k, 0.0)
    requires RowGives(d, b.f2, b.f6, b.f10, 0.0, 0.0, k)
    requires s == u * d.f0 + v * d.f4 + w * d.f8
    requires t == u * d.f1 + v * d.f5 + w * d.f9
    requires r == u * d.f2 + v * d.f6 + w * d.f10
    ensures b.f0 * s + b.f4 * t + b.f8 * r == u * k
    ensures b.f1 * s + b.f5 * t + b.f9 * r == v * k
    ensures b.f2 * s + b.f6 * t + b.f10 * r == w * k
  {
    UndoneRow(d, b.f0, b.f4, b.f8, u, v, w, s, t, r, k, 0.0, 0.0);
    UndoneRow(d, b.f1, b.f5, b.f9, u, v, w, s, t, r, 0.0, k, 0.0);
    UndoneRow(d, b.f2, b.f6, b.f10, u, v, w, s, t, r, 0.0, 0.0, k);
  }

  lemma UndoneRow(d: Mat, x: real, y: real, z: real, u: real, v: real, w: real, s: real, t: real, r: real,
                  p: real, q: real, o: real)
    requires RowGives(d, x, y, z, p, q, o)
    requires s == u * d.f0 + v * d.f4 + w * d.f8
    requires t == u * d.f1 + v * d.f5 + w * d.f9
    requires r == u * d.f2 + v * d.f6 + w * d.f10
    ensures x * s + y * t + z * r == u * p + v * q + w * o
  {
    Regroup(x, y, z, u, v, w, d.f0, d.f1, d.f2, d.f4, d.f5, d.f6, d.f8, d.f9, d.f10,
            s, t, r, p, q, o);
  }

  lemma DetByCofactors(m: Mat)
    ensures Det3(m) == m.f0 * Cofactors(m).f0 + m.f4 * Cofactors(m).f1 + m.f8 * Cofactors(m).f2
  {}

  lemma CofactorColumn(p: Mat, a: Mat, b: Mat, c: Mat, d: Mat, s: real, t: real, r: real)
    requires Product3(p, a, b) && c == Cofactors(a) && d == Cofactors(b)
    requires s == Cofactors(p).f0 && t == Cofactors(p).f1 && r == Cofactors(p).f2
    ensures s == c.f0 * d.f0 + c.f1 * d.f4 + c.f2 * d.f8
    ensures t == c.f0 * d.f1 + c.f1 * d.f5 + c.f2 * d.f9
    ensures r == c.f0 * d.f2 + c.f1 * d.f6 + c.f2 * d.f10
  {
    FirstCofactor(p, a, b);
    SecondCofactor(p, a, b);
    ThirdCofactor(p, a, b);
  }

  lemma Commuted(s: real, t: real, r: real, x: real, y: real, z: real)
    ensures s * x + t * y + r * z == x * s + y * t + z * r
  {}

  lemma RowTimesCofactors(p: Mat, a: Mat, b: Mat, c: Mat, d: Mat, k: real, s: real, t: real, r: real,
                          u: real, v: real, w: real)
    requires Product3(p, a, b)
    requires RowGives(d, b.f0, b.f4, b.f8, k, 0.0, 0.0)
    requires RowGives(d, b.f1, b.f5, b.f9, 0.0, k, 0.0)
    requires RowGives(d, b.f2, b.f6, b.f10, 0.0, 0.0, k)
    requires s == c.f0 * d.f0 + c.f1 * d.f4 + c.f2 * d.f8
    requires t == c.f0 * d.f1 + c.f1 * d.f5 + c.f2 * d.f9
    requires r == c.f0 * d.f2 + c.f1 * d.f6 + c.f2 * d.f10
    requires u == c.f0 * k && v == c.f1 * k && w == c.f2 * k
    ensures s * p.f0 + t * p.f4 + r * p.f8 == a.f0 * u + a.f4 * v + a.f8 * w
  {
    CofactorsUndone(b, d, k, c.f0, c.f1, c.f2, s, t, r);
    Regroup(s, t, r, a.f0, a.f4, a.f8, b.f0, b.f4, b.f8, b.f1, b.f5, b.f9, b.f2, b.f6, b.f10,
            p.f0, p.f4, p.f8, u, v, w);
  }

  lemma ExpansionScales(p: Mat, a: Mat, c: Mat, k: real, s: real, t: real, r: real, e: real, f: real,
                        u: real, v: real, w: real)
    requires s * p.f0 + t * p.f4 + r * p.f8 == a.f0 * u + a.f4 * v + a.f8 * w
    requires u == c.f0 * k && v == c.f1 * k && w == c.f2 * k
    requires e == a.f0 * c.f0 + a.f4 * c.f1 + a.f8 * c.f2
    requires f == p.f0 * s + p.f4 * t + p.f8 * r
    ensures f == e * k
  {
    ScaledSum(a.f0, a.f4, a.f8, c.f0, c.f1, c.f2, k, u, v, w, e, e * k);
    Commuted(s, t, r, p.f0, p.f4, p.f8);
  }

  lemma DetByExpansion(p: Mat, a: Mat, b: Mat, c: Mat, d: Mat, k: real, s: real, t: real, r: real, e: real, f: real)
    requires Product3(p, a, b)
    requires RowGives(d, b.f0, b.f4, b.f8, k, 0.0, 0.0)
    requires RowGives(d, b.f1, b.f5, b.f9, 0.0, k, 0.0)
    requires RowGives(d, b.f2, b.f6, b.f10, 0.0, 0.0, k)
    requires s == c.f0 * d.f0 + c.f1 * d.f4 + c.f2 * d.f8
    requires t == c.f0 * d.f1 + c.f1 * d.f5 + c.f2 * d.f9
    requires r == c.f0 * d.f2 + c.f1 * d.f6 + c.f2 * d.f10
    requires e == a.f0 * c.f0 + a.f4 * c.f1 + a.f8 * c.f2
    requires f == p.f0 * s + p.f4 * t + p.f8 * r
    ensures f == e * k
  {
    var u, v, w := c.f0 * k, c.f1 * k, c.f2 * k;
    RowTimesCofactors(p, a, b, c, d, k, s, t, r, u, v, w);
    ExpansionScales(p, a, c, k, s, t, r, e, f, u, v, w);
  }

  /** What the expansion is made of. */
  lemma PartsOfExpansion(p: Mat, a: Mat, b: Mat, c: Mat, d: Mat, k: real, s: real, t: real, r: real, e: real, f: real)
    requires Product3(p, a, b) && c == Cofactors(a) && d == Cofactors(b)
    requires s == Cofactors(p).f0 && t == Cofactors(p).f1 && r == Cofactors(p).f2
    requires e == Det3(a) && k == Det3(b) && f == Det3(p)
    ensures RowGives(d, b.f0, b.f4, b.f8, k, 0.0, 0.0)
    ensures RowGives(d, b.f1, b.f5, b.f9, 0.0, k, 0.0)
    ensures RowGives(d, b.f2, b.f6, b.f10, 0.0, 0.0, k)
    ensures s == c.f0 * d.f0 + c.f1 * d.f4 + c.f2 * d.f8
    ensures t == c.f0 * d.f1 + c.f1 * d.f5 + c.f2 * d.f9
    ensures r == c.f0 * d.f2 + c.f1 * d.f6 + c.f2 * d.f10
    ensures e == a.f0 * c.f0 + a.f4 * c.f1 + a.f8 * c.f2
    ensures f == p.f0 * s + p.f4 * t + p.f8 * r
  {
    CofactorColumn(p, a, b, c, d, s, t, r);
    FirstRowExpansion(b);
    SecondRowExpansion(b);
    ThirdRowExpansion(b);
    DetByCofactors(p);
    DetByCofactors(a);
  }

  lemma DetOfProduct3(p: Mat, a: Mat, b: Mat, e: real, k: real, f: real)
    requires Product3(p, a, b) && e == Det3(a) && k == Det3(b) && f == Det3(p)
    ensures f == e * k
  {
    var c, d, n := Cofactors(a), Cofactors(b), Cofactors(p);
    PartsOfExpansion(p, a, b, c, d, k, n.f0, n.f1, n.f2, e, f);
    DetByExpansion(p, a, b, c, d, k, n.f0, n.f1, n.f2, e, f);
  }

  /** The determinant of the 3x3 part is multiplicative. */
  lemma DetOfProduct(a: Mat, b: Mat)
    requires Affine(b)
    ensures Det3(Mul(a, b)) == Det3(a) * Det3(b)
  {
    AffineProduct(a, b);
    DetOfProduct3(Mul(a, b), a, b, Det3(a), Det3(b), Det3(Mul(a, b)));
  }

  lemma DetOfIdentity()
    ensures Det3(IDENTITY) == 1.0
  {}

  lemma DetOfInverse(m: Mat, b: Mat)
    requires Affine(b) && Mul(m, b) == IDENTITY
    ensures Det3(IDENTITY) == Det3(m) * Det3(b)
  {
    DetOfProduct(m, b);
  }

  lemma InverseHasDeterminant(m: Mat, b: Mat)
    requires Affine(b) && Mul(m, b) == IDENTITY
    ensures Det3(m) != 0.0
  {
    DetOfInverse(m, b);
    NonzeroProduct(Det3(m), Det3(b));
  }

  lemma AffineInverse(m: Mat, b: Mat)
    requires Affine(m) && Mul(m, b) == IDENTITY
    ensures Affine(b)
  {
    BottomRowOfProduct(m, b);
    assert Row(IDENTITY, 3) == Row(b, 3);
  }

  /** An affine matrix that has any inverse at all has a nonzero determinant, and `inverse` finds that inverse. */
  lemma InverseIsComplete(m: Mat, b: Mat)
    requires Affine(m) && Mul(m, b) == IDENTITY
    ensures Det3(m) != 0.0 && Affine(b) && InverseOf(m) == b
  {
    AffineInverse(m, b);
    InverseHasDeterminant(m, b);
    InverseIff(m);
    InverseIsUnique(m, InverseOf(m), b);
  }

  lemma NonzeroProduct(x: real, y: real)
    requires x * y == Det3(IDENTITY)
    ensures x != 0.0
  {
    DetOfIdentity();
  }

  /** Inverting a product inverts the factors in the opposite order; inverting twice changes nothing. */
  lemma InverseReverses(a: Mat, b: Mat)
    requires Affine(a) && Affine(b) && Det3(a) != 0.0 && Det3(b) != 0.0
    ensures InverseOf(Mul(a, b)) == Mul(InverseOf(b), InverseOf(a))
    ensures InverseOf(InverseOf(a)) == a
  {
    var i, j := InverseOf(a), InverseOf(b);
    InverseIff(a);
    InverseIff(b);
    MulAssociates(a, b, Mul(j, i));
    MulAssociates(b, j, i);
    IdentityIsNeutral(i);
    AffineProduct(a, b);
    InverseIsComplete(Mul(a, b), Mul(j, i));
    InverseIsComplete(a, i);
    InverseIsComplete(i, a);
  }
}
