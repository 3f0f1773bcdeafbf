/** Three-dimensional vectors and 3x3 matrices, the `numpy` arrays the sample and the stage
    use for orientations and for the line-plane intersection. */
module LinearAlgebra {

  datatype Vec3 = Vec3(x: real, y: real, z: real)

  /** A 3x3 matrix, row by row: `mRC` is row R, column C. */
  datatype Matrix3 = Matrix3(
    m00: real, m01: real, m02: real,
    m10: real, m11: real, m12: real,
    m20: real, m21: real, m22: real)

  function Identity(): (r: Matrix3) {
    Matrix3(1.0, 0.0, 0.0,
            0.0, 1.0, 0.0,
            0.0, 0.0, 1.0)
  }

  function Transpose(a: Matrix3): (r: Matrix3) {
    Matrix3(a.m00, a.m10, a.m20,
            a.m01, a.m11, a.m21,
            a.m02, a.m12, a.m22)
  }

  /** The matrix product `a @ b`. */
  function Mul(a: Matrix3, b: Matrix3): (r: Matrix3) {
    Matrix3(
      a.m00 * b.m00 + a.m01 * b.m10 + a.m02 * b.m20,
      a.m00 * b.m01 + a.m01 * b.m11 + a.m02 * b.m21,
      a.m00 * b.m02 + a.m01 * b.m12 + a.m02 * b.m22,
      a.m10 * b.m00 + a.m11 * b.m10 + a.m12 * b.m20,
      a.m10 * b.m01 + a.m11 * b.m11 + a.m12 * b.m21,
      a.m10 * b.m02 + a.m11 * b.m12 + a.m12 * b.m22,
      a.m20 * b.m00 + a.m21 * b.m10 + a.m22 * b.m20,
      a.m20 * b.m01 + a.m21 * b.m11 + a.m22 * b.m21,
      a.m20 * b.m02 + a.m21 * b.m12 + a.m22 * b.m22)
  }

  /** The matrix-vector product `a @ v`. */
  function Apply(a: Matrix3, v: Vec3): (r: Vec3) {
    Vec3(a.m00 * v.x + a.m01 * v.y + a.m02 * v.z,
         a.m10 * v.x + a.m11 * v.y + a.m12 * v.z,
         a.m20 * v.x + a.m21 * v.y + a.m22 * v.z)
  }

  function Dot(u: Vec3, v: Vec3): (r: real) {
    u.x * v.x + u.y * v.y + u.z * v.z
  }

  function Sub(u: Vec3, v: Vec3): (r: Vec3) {
    Vec3(u.x - v.x, u.y - v.y, u.z - v.z)
  }

  /** A rotation in the x-y plane, `[[c, s, 0], [-s, c, 0], [0, 0, 1]]`. */
  function RotationXY(c: real, s: real): (r: Matrix3) {
    Matrix3(c, s, 0.0,
            -s, c, 0.0,
            0.0, 0.0, 1.0)
  }

  /** A rotation in the y-z plane, `[[1, 0, 0], [0, c, s], [0, -s, c]]`. */
  function RotationYZ(c: real, s: real): (r: Matrix3) {
    Matrix3(1.0, 0.0, 0.0,
            0.0, c, s,
            0.0, -s, c)
  }

  /** Orthonormal columns: the transpose is a left inverse. */
  ghost predicate Orthogonal(a: Matrix3) {
    Mul(Transpose(a), a) == Identity()
  }

  /** One entry of a triple product, summed either way round: row `a` of the left factor,
      the middle factor `b`, column `c` of the right factor; `ab` and `bc` are the partial products. */
  lemma RowTimesColumn(
    a0: real, a1: real, a2: real,
    b00: real, b01: real, b02: real, b10: real, b11: real, b12: real, b20: real, b21: real, b22: real,
    c0: real, c1: real, c2: real,
    ab0: real, ab1: real, ab2: real, bc0: real, bc1: real, bc2: real)
    requires ab0 == a0 * b00 + a1 * b10 + a2 * b20
    requires ab1 == a0 * b01 + a1 * b11 + a2 * b21
    requires ab2 == a0 * b02 + a1 * b12 + a2 * b22
    requires bc0 == b00 * c0 + b01 * c1 + b02 * c2
    requires bc1 == b10 * c0 + b11 * c1 + b12 * c2
    requires bc2 == b20 * c0 + b21 * c1 + b22 * c2
    ensures ab0 * c0 + ab1 * c1 + ab2 * c2 == a0 * bc0 + a1 * bc1 + a2 * bc2
  {
  }

  lemma MulAssociative00(a: Matrix3, b: Matrix3, c: Matrix3)
    ensures Mul(Mul(a, b), c).m00 == Mul(a, Mul(b, c)).m00
  {
    RowTimesColumn(a.m00, a.m01, a.m02, b.m00, b.m01, b.m02, b.m10, b.m11, b.m12, b.m20, b.m21, b.m22, c.m00, c.m10, c.m20, Mul(a, b).m00, Mul(a, b).m01, Mul(a, b).m02, Mul(b, c).m00, Mul(b, c).m10, Mul(b, c).m20);
  }

  lemma MulAssociative01(a: Matrix3, b: Matrix3, c: Matrix3)
    ensures Mul(Mul(a, b), c).m01 == Mul(a, Mul(b, c)).m01
  {
    RowTimesColumn(a.m00, a.m01, a.m02, b.m00, b.m01, b.m02, b.m10, b.m11, b.m12, b.m20, b.m21, b.m22, c.m01, c.m11, c.m21, Mul(a, b).m00, Mul(a, b).m01, Mul(a, b).m02, Mul(b, c).m01, Mul(b, c).m11, Mul(b, c).m21);
  }

  lemma MulAssociative02(a: Matrix3, b: Matrix3, c: Matrix3)
    ensures Mul(Mul(a, b), c).m02 == Mul(a, Mul(b, c)).m02
  {
    RowTimesColumn(a.m00, a.m01, a.m02, b.m00, b.m01, b.m02, b.m10, b.m11, b.m12, b.m20, b.m21, b.m22, c.m02, c.m12, c.m22, Mul(a, b).m00, Mul(a, b).m01, Mul(a, b).m02, Mul(b, c).m02, Mul(b, c).m12, Mul(b, c).m22);
  }

  lemma MulAssociative10(a: Matrix3, b: Matrix3, c: Matrix3)
    ensures Mul(Mul(a, b), c).m10 == Mul(a, Mul(b, c)).m10
  {
    RowTimesColumn(a.m10, a.m11, a.m12, b.m00, b.m01, b.m02, b.m10, b.m11, b.m12, b.m20, b.m21, b.m22, c.m00, c.m10, c.m20, Mul(a, b).m10, Mul(a, b).m11, Mul(a, b).m12, Mul(b, c).m00, Mul(b, c).m10, Mul(b, c).m20);
  }

  lemma MulAssociative11(a: Matrix3, b: Matrix3, c: Matrix3)
    ensures Mul(Mul(a, b), c).m11 == Mul(a, Mul(b, c)).m11
  {
    RowTimesColumn(a.m10, a.m11, a.m12, b.m00, b.m01, b.m02, b.m10, b.m11, b.m12, b.m20, b.m21, b.m22, c.m01, c.m11, c.m21, Mul(a, b).m10, Mul(a, b).m11, Mul(a, b).m12, Mul(b, c).m01, Mul(b, c).m11, Mul(b, c).m21);
  }

  lemma MulAssociative12(a: Matrix3, b: Matrix3, c: Matrix3)
    ensures Mul(Mul(a, b), c).m12 == Mul(a, Mul(b, c)).m12
  {
    RowTimesColumn(a.m10, a.m11, a.m12, b.m00, b.m01, b.m02, b.m10, b.m11, b.m12, b.m20, b.m21, b.m22, c.m02, c.m12, c.m22, Mul(a, b).m10, Mul(a, b).m11, Mul(a, b).m12, Mul(b, c).m02, Mul(b, c).m12, Mul(b, c).m22);
  }

  lemma MulAssociative20(a: Matrix3, b: Matrix3, c: Matrix3)
    ensures Mul(Mul(a, b), c).m20 == Mul(a, Mul(b, c)).m20
  {
    RowTimesColumn(a.m20, a.m21, a.m22, b.m00, b.m01, b.m02, b.m10, b.m11, b.m12, b.m20, b.m21, b.m22, c.m00, c.m10, c.m20, Mul(a, b).m20, Mul(a, b).m21, Mul(a, b).m22, Mul(b, c).m00, Mul(b, c).m10, Mul(b, c).m20);
  }

  lemma MulAssociative21(a: Matrix3, b: Matrix3, c: Matrix3)
    ensures Mul(Mul(a, b), c).m21 == Mul(a, Mul(b, c)).m21
  {
    RowTimesColumn(a.m20, a.m21, a.m22, b.m00, b.m01, b.m02, b.m10, b.m11, b.m12, b.m20, b.m21, b.m22, c.m01, c.m11, c.m21, Mul(a, b).m20, Mul(a, b).m21, Mul(a, b).m22, Mul(b, c).m01, Mul(b, c).m11, Mul(b, c).m21);
  }

  lemma MulAssociative22(a: Matrix3, b: Matrix3, c: Matrix3)
    ensures Mul(Mul(a, b), c).m22 == Mul(a, Mul(b, c)).m22
  {
    RowTimesColumn(a.m20, a.m21, a.m22, b.m00, b.m01, b.m02, b.m10, b.m11, b.m12, b.m20, b.m21, b.m22, c.m02, c.m12, c.m22, Mul(a, b).m20, Mul(a, b).m21, Mul(a, b).m22, Mul(b, c).m02, Mul(b, c).m12, Mul(b, c).m22);
  }

  lemma MulAssociative(a: Matrix3, b: Matrix3, c: Matrix3)
    ensures Mul(Mul(a, b), c) == Mul(a, Mul(b, c))
  {
    MulAssociative00(a, b, c);
    MulAssociative01(a, b, c);
    MulAssociative02(a, b, c);
    MulAssociative10(a, b, c);
    MulAssociative11(a, b, c);
    MulAssociative12(a, b, c);
    MulAssociative20(a, b, c);
    MulAssociative21(a, b, c);
    MulAssociative22(a, b, c);
  }

  lemma TransposeOfProduct(a: Matrix3, b: Matrix3)
    ensures Transpose(Mul(a, b)) == Mul(Transpose(b), Transpose(a))
  {
  }

  lemma MulIdentity(a: Matrix3)
    ensures Mul(Identity(), a) == a && Mul(a, Identity()) == a
  {
  }

  /** The product of two orthogonal matrices is orthogonal. */
  lemma ProductOrthogonal(a: Matrix3, b: Matrix3)
    requires Orthogonal(a) && Orthogonal(b)
    ensures Orthogonal(Mul(a, b))
  {
    var ab := Mul(a, b);
    calc {
      Mul(Transpose(ab), ab);
      { TransposeOfProduct(a, b); }
      Mul(Mul(Transpose(b), Transpose(a)), Mul(a, b));
      { MulAssociative(Transpose(b), Transpose(a), Mul(a, b)); }
      Mul(Transpose(b), Mul(Transpose(a), Mul(a, b)));
      { MulAssociative(Transpose(a), a, b); }
      Mul(Transpose(b), Mul(Mul(Transpose(a), a), b));
      { MulIdentity(b); }
      Mul(Transpose(b), b);
    }
  }

  lemma RotationXYOrthogonal(c: real, s: real)
    requires c * c + s * s == 1.0
    ensures Orthogonal(RotationXY(c, s))
  {
  }

  lemma RotationYZOrthogonal(c: real, s: real)
    requires c * c + s * s == 1.0
    ensures Orthogonal(RotationYZ(c, s))
  {
  }
}
