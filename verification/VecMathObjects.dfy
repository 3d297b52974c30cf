/** The classes of utils/vecmath.h, whose operators overwrite sixteen or four floats in place. */
module VecMathObjects {
  import opened VecMath
  import Q = Quaternions

  class Matrix4 {
    const f: array<real>

    ghost predicate Valid() {
      f.Length == 16
    }

    function View(): Mat
      requires f.Length == 16
      reads f
    {
      Mat(f[0], f[1], f[2], f[3], f[4], f[5], f[6], f[7],
          f[8], f[9], f[10], f[11], f[12], f[13], f[14], f[15])
    }

    constructor ()
      ensures Valid() && fresh(f) && View() == ZERO
    {
      f := new real[16](_ => 0.0);
    }

    /** `*this = ret` for a local matrix `ret`. */
    method Assign(ret: Mat)
      requires Valid()
      modifies f
      ensures View() == ret
    {
      f[0], f[1], f[2], f[3] := ret.f0, ret.f1, ret.f2, ret.f3;
      f[4], f[5], f[6], f[7] := ret.f4, ret.f5, ret.f6, ret.f7;
      f[8], f[9], f[10], f[11] := ret.f8, ret.f9, ret.f10, ret.f11;
      f[12], f[13], f[14], f[15] := ret.f12, ret.f13, ret.f14, ret.f15;
    }

    /** One column of the product. */
    static method ProductColumn(m: Mat, n: Vec) returns (ret: Vec)
      ensures ret == Apply(m, n)
    {
      ret := Vec(
        m.f0 * n.x + m.f4 * n.y + m.f8 * n.z + m.f12 * n.w,
        m.f1 * n.x + m.f5 * n.y + m.f9 * n.z + m.f13 * n.w,
        m.f2 * n.x + m.f6 * n.y + m.f10 * n.z + m.f14 * n.w,
        m.f3 * n.x + m.f7 * n.y + m.f11 * n.z + m.f15 * n.w);
    }

    /** The product builds a fresh matrix from the entries of its operands. */
    static method Product(m: Mat, n: Mat) returns (ret: Mat)
      ensures ret == Mul(m, n)
    {
      var c0 := ProductColumn(m, Vec(n.f0, n.f1, n.f2, n.f3));
      var c1 := ProductColumn(m, Vec(n.f4, n.f5, n.f6, n.f7));
      var c2 := ProductColumn(m, Vec(n.f8, n.f9, n.f10, n.f11));
      var c3 := ProductColumn(m, Vec(n.f12, n.f13, n.f14, n.f15));
      ret := Mat(c0.x, c0.y, c0.z, c0.w, c1.x, c1.y, c1.z, c1.w, c2.x, c2.y, c2.z, c2.w, c3.x, c3.y, c3.z, c3.w);
    }

    /** `*=`, also with the matrix itself on the right. */
    method MulAssign(rhs: Matrix4)
      requires Valid() && rhs.Valid()
      modifies f
      ensures View() == Mul(old(View()), old(rhs.View()))
    {
      var ret := Product(View(), rhs.View());
      Assign(ret);
    }

    method Transpose()
      requires Valid()
      modifies f
      ensures View() == Transposed(old(View()))
    {
      var ret := Mat(f[0], f[4], f[8], f[12],
                     f[1], f[5], f[9], f[13],
                     f[2], f[6], f[10], f[14],
                     f[3], f[7], f[11], f[15]);
      Assign(ret);
    }

    method PostTranslate(tx: real, ty: real, tz: real)
      requires Valid()
      modifies f
      ensures View() == Mul(old(View()), Translation(tx, ty, tz))
    {
      f[12] := f[12] + (tx * f[0] + ty * f[4] + tz * f[8]);
      f[13] := f[13] + (tx * f[1] + ty * f[5] + tz * f[9]);
      f[14] := f[14] + (tx * f[2] + ty * f[6] + tz * f[10]);
      f[15] := f[15] + (tx * f[3] + ty * f[7] + tz * f[11]);
      PostTranslateIsProduct(old(View()), tx, ty, tz);
      assert View() == PostTranslated(old(View()), tx, ty, tz);
    }

    /** A term is added to the sum of its sign. */
    static method Accumulate(temp: real, pos: real, neg: real) returns (pos': real, neg': real)
      requires neg <= 0.0 <= pos
      ensures pos' + neg' == pos + neg + temp && neg' <= 0.0 <= pos'
    {
      if temp >= 0.0 {
        pos', neg' := pos + temp, neg;
      } else {
        pos', neg' := pos, neg + temp;
      }
    }

    /** The positive and the negative terms, summed apart, add up to the determinant of the 3x3 part. */
    method Determinant() returns (det: real)
      requires Valid()
      ensures det == Det3(View())
    {
      var pos, neg := 0.0, 0.0;
      pos, neg := Accumulate(f[0] * f[5] * f[10], pos, neg);
      pos, neg := Accumulate(f[4] * f[9] * f[2], pos, neg);
      pos, neg := Accumulate(f[8] * f[1] * f[6], pos, neg);
      pos, neg := Accumulate(-f[8] * f[5] * f[2], pos, neg);
      pos, neg := Accumulate(-f[4] * f[1] * f[10], pos, neg);
      pos, neg := Accumulate(-f[0] * f[9] * f[6], pos, neg);
      det := pos + neg;
    }

    /** In place. A matrix with determinant zero is overwritten with zeros; an affine one with its inverse. */
    method Inverse()
      requires Valid()
      modifies f
      ensures View() == InverseOf(old(View()))
    {
      var ret := ZERO;
      var det := Determinant();
      if det == 0.0 {
      } else {
        ret := CofactorsTimes(1.0 / det);
        ret := WithTranslation(ret);
      }
      Assign(ret);
    }

    /** The transposed cofactors times `k`, column by column, over the last row and column of the identity. */
    method CofactorsTimes(k: real) returns (ret: Mat)
      requires Valid()
      ensures ret == Scaled(Cofactors(View()), k)
    {
      var a := FirstColumn(k);
      var b := SecondColumn(k);
      var c := ThirdColumn(k);
      ret := Columns(a, b, c, Vec(0.0, 0.0, 0.0, 1.0));
      ghost var s := Scaled(Cofactors(View()), k);
      LastColumn(Cofactors(View()), k);
      assert Col(ret, 0) == a && Col(ret, 1) == b && Col(ret, 2) == c && Col(ret, 3) == Vec(0.0, 0.0, 0.0, 1.0);
      assert forall j :: 0 <= j < 4 ==> Col(ret, j) == Col(s, j);
      ByColumns(ret, s);
    }

    method FirstColumn(k: real) returns (c: Vec)
      requires Valid()
      ensures c == Col(Scaled(Cofactors(View()), k), 0)
    {
      c := Vec((f[5] * f[10] - f[9] * f[6]) * k,
               -(f[1] * f[10] - f[9] * f[2]) * k,
               (f[1] * f[6] - f[5] * f[2]) * k, 0.0);
    }

    method SecondColumn(k: real) returns (c: Vec)
      requires Valid()
      ensures c == Col(Scaled(Cofactors(View()), k), 1)
    {
      c := Vec(-(f[4] * f[10] - f[8] * f[6]) * k,
               (f[0] * f[10] - f[8] * f[2]) * k,
               -(f[0] * f[6] - f[4] * f[2]) * k, 0.0);
    }

    method ThirdColumn(k: real) returns (c: Vec)
      requires Valid()
      ensures c == Col(Scaled(Cofactors(View()), k), 2)
    {
      c := Vec((f[4] * f[9] - f[8] * f[5]) * k,
               -(f[0] * f[9] - f[8] * f[1]) * k,
               (f[0] * f[5] - f[4] * f[1]) * k, 0.0);
    }

    /** The translation part. */
    method WithTranslation(r: Mat) returns (ret: Mat)
      requires Valid()
      ensures ret == Untranslated(r, View())
    {
      ret := r.(f12 := -(f[12] * r.f0 + f[13] * r.f4 + f[14] * r.f8),
                f13 := -(f[12] * r.f1 + f[13] * r.f5 + f[14] * r.f9),
                f14 := -(f[12] * r.f2 + f[13] * r.f6 + f[14] * r.f10));
    }
  }

  lemma LastColumn(c: Mat, k: real)
    ensures Col(Scaled(c, k), 3) == Vec(0.0, 0.0, 0.0, 1.0)
  {}

  lemma HamiltonOf(x: real, y: real, z: real, w: real, a: real, b: real, c: real, d: real)
    ensures Q.Hamilton(Vec(x, y, z, w), Vec(a, b, c, d))
            == Vec(x * d + y * c - z * b + w * a, -x * c + y * d + z * a + w * b,
                   x * b - y * a + z * d + w * c, -x * a - y * b - z * c + w * d)
  {}

  class Quaternion {
    const f: array<real>

    ghost predicate Valid() {
      f.Length == 4
    }

    function View(): Vec
      requires f.Length == 4
      reads f
    {
      Vec(f[0], f[1], f[2], f[3])
    }

    constructor (x: real, y: real, z: real, w: real)
      ensures Valid() && fresh(f) && View() == Vec(x, y, z, w)
    {
      f := new real[4];
      new;
      f[0], f[1], f[2], f[3] := x, y, z, w;
    }

    method MulAssign(rhs: Quaternion)
      requires Valid() && rhs.Valid()
      modifies f
      ensures View() == Q.Hamilton(old(View()), old(rhs.View()))
    {
      var x, y, z, w := f[0], f[1], f[2], f[3];
      var a, b, c, d := rhs.f[0], rhs.f[1], rhs.f[2], rhs.f[3];
      var ret := Vec(
        x * d + y * c - z * b + w * a,
        -x * c + y * d + z * a + w * b,
        x * b - y * a + z * d + w * c,
        -x * a - y * b - z * c + w * d);
      HamiltonOf(x, y, z, w, a, b, c, d);
      Assign(ret);
    }

    method Assign(ret: Vec)
      requires Valid()
      modifies f
      ensures View() == ret
    {
      f[0], f[1], f[2], f[3] := ret.x, ret.y, ret.z, ret.w;
    }

    method Conjugate()
      requires Valid()
      modifies f
      ensures View() == Q.Conjugated(old(View()))
    {
      f[0] := -f[0];
      f[1] := -f[1];
      f[2] := -f[2];
    }

    /** Overwrites all sixteen entries. */
    method ToMatrix(mat: Matrix4)
      requires Valid() && mat.Valid() && f != mat.f
      modifies mat.f
      ensures mat.View() == Q.ToMatrix(View())
    {
      var x, y, z, w := f[0], f[1], f[2], f[3];
      var x2, y2, z2 := x * x * 2.0, y * y * 2.0, z * z * 2.0;
      var xy, yz, zx := x * y * 2.0, y * z * 2.0, z * x * 2.0;
      var xw, yw, zw := x * w * 2.0, y * w * 2.0, z * w * 2.0;
      assert View() == Vec(x, y, z, w);
      mat.Assign(Mat(1.0 - y2 - z2, xy + zw, zx - yw, 0.0,
                     xy - zw, 1.0 - z2 - x2, yz + xw, 0.0,
                     zx + yw, yz - xw, 1.0 - x2 - y2, 0.0,
                     0.0, 0.0, 0.0, 1.0));
    }
  }
}
