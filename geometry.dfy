/** Exact real-valued vectors and 4x4 homogeneous matrices: the part of
    numpy's array arithmetic that the transform kernel relies on. */
module Geometry {

  /** A 3D point (one row of the vertex array). */
  type Vec3 = v: seq<real> | |v| == 3 witness [0.0, 0.0, 0.0]

  /** A homogeneous 4-vector. */
  type Vec4 = v: seq<real> | |v| == 4 witness [0.0, 0.0, 0.0, 0.0]

  /** A 4x4 matrix, given by its four rows. */
  type Mat4 = m: seq<Vec4> | |m| == 4
    witness var zero: Vec4 := [0.0, 0.0, 0.0, 0.0]; [zero, zero, zero, zero]

  function Dot(u: Vec4, v: Vec4): real
  {
    u[0] * v[0] + u[1] * v[1] + u[2] * v[2] + u[3] * v[3]
  }

  function Column(m: Mat4, j: nat): Vec4
    requires j < 4
  {
    [m[0][j], m[1][j], m[2][j], m[3][j]]
  }

  function Identity(): Mat4
  {
    [[1.0, 0.0, 0.0, 0.0],
     [0.0, 1.0, 0.0, 0.0],
     [0.0, 0.0, 1.0, 0.0],
     [0.0, 0.0, 0.0, 1.0]]
  }

  /** `m.T` */
  function Transpose(m: Mat4): (t: Mat4)
    ensures forall i, j :: 0 <= i < 4 && 0 <= j < 4 ==> t[i][j] == m[j][i]
  {
    [Column(m, 0), Column(m, 1), Column(m, 2), Column(m, 3)]
  }

  /** Row vector times matrix, `h @ m`. */
  function RowTimes(h: Vec4, m: Mat4): Vec4
  {
    [Dot(h, Column(m, 0)), Dot(h, Column(m, 1)), Dot(h, Column(m, 2)), Dot(h, Column(m, 3))]
  }

  /** Matrix times column vector, `m @ v`: the textbook action of a matrix on a point. */
  function MatVec(m: Mat4, v: Vec4): Vec4
  {
    [Dot(m[0], v), Dot(m[1], v), Dot(m[2], v), Dot(m[3], v)]
  }

  /** Matrix product `a @ b`: row i of the product is row i of `a` times `b`, so entry (i, j)
      is row i of `a` against column j of `b`. */
  function Mul(a: Mat4, b: Mat4): (p: Mat4)
    ensures forall i, j :: 0 <= i < 4 && 0 <= j < 4 ==> p[i][j] == Dot(a[i], Column(b, j))
  {
    [RowTimes(a[0], b), RowTimes(a[1], b), RowTimes(a[2], b), RowTimes(a[3], b)]
  }

  function Sub(u: Vec4, v: Vec4): Vec4
  {
    [u[0] - v[0], u[1] - v[1], u[2] - v[2], u[3] - v[3]]
  }

  /** A matrix is affine when its bottom row is [0, 0, 0, 1]. */
  predicate Affine(m: Mat4)
  {
    m[3] == [0.0, 0.0, 0.0, 1.0]
  }

  lemma DotSymmetric(u: Vec4, v: Vec4)
    ensures Dot(u, v) == Dot(v, u)
  {
  }

  /** The entries p and q have dot product k. */
  predicate EntriesDot(p0: real, p1: real, p2: real, p3: real,
                       q0: real, q1: real, q2: real, q3: real, k: real)
  {
    p0 * q0 + p1 * q1 + p2 * q2 + p3 * q3 == k
  }

  /** The dot product of two vectors given entry by entry. The entries are passed as plain
      scalars, tied to the vectors only by the requires, because the solver does not rewrite
      an indexed term such as `u[0]` inside a nonlinear product; callers state the product
      once over the scalars and this lemma carries it to `Dot`. */
  lemma DotOfEntries(u: Vec4, v: Vec4, p0: real, p1: real, p2: real, p3: real,
                     q0: real, q1: real, q2: real, q3: real, k: real)
    requires u == [p0, p1, p2, p3] && v == [q0, q1, q2, q3]
    requires EntriesDot(p0, p1, p2, p3, q0, q1, q2, q3, k)
    ensures Dot(u, v) == k
  {
  }

  lemma TransposeInvolutive(m: Mat4)
    ensures Transpose(Transpose(m)) == m
  {
    var t := Transpose(Transpose(m));
    forall i | 0 <= i < 4
      ensures t[i] == m[i]
    {
      assert t[i][0] == m[i][0] && t[i][1] == m[i][1] && t[i][2] == m[i][2] && t[i][3] == m[i][3];
    }
  }

  /** The row form used by the source, `h @ m.T`, is the column form `m @ h`. */
  lemma RowTimesTranspose(h: Vec4, m: Mat4)
    ensures RowTimes(h, Transpose(m)) == MatVec(m, h)
  {
    var r := RowTimes(h, Transpose(m));
    forall j | 0 <= j < 4
      ensures r[j] == Dot(m[j], h)
    {
      assert Column(Transpose(m), j) == m[j];
    }
  }

  lemma MatVecIdentity(v: Vec4)
    ensures MatVec(Identity(), v) == v
  {
    var w := MatVec(Identity(), v);
    assert w[0] == v[0] && w[1] == v[1] && w[2] == v[2] && w[3] == v[3];
  }

  /** A row times the identity is that row. */
  lemma RowTimesIdentity(h: Vec4)
    ensures RowTimes(h, Identity()) == h
  {
    var r := RowTimes(h, Identity());
    assert r[0] == h[0] && r[1] == h[1] && r[2] == h[2] && r[3] == h[3];
  }

  /** Row i of the identity times `m` is row i of `m`. */
  lemma IdentityRowTimes(i: nat, m: Mat4)
    requires i < 4
    ensures RowTimes(Identity()[i], m) == m[i]
  {
    var r := RowTimes(Identity()[i], m);
    assert r[0] == m[i][0] && r[1] == m[i][1] && r[2] == m[i][2] && r[3] == m[i][3];
  }

  lemma MulIdentity(m: Mat4)
    ensures Mul(Identity(), m) == m
    ensures Mul(m, Identity()) == m
  {
    IdentityRowTimes(0, m);
    IdentityRowTimes(1, m);
    IdentityRowTimes(2, m);
    IdentityRowTimes(3, m);
    RowTimesIdentity(m[0]);
    RowTimesIdentity(m[1]);
    RowTimesIdentity(m[2]);
    RowTimesIdentity(m[3]);
  }

  /** One component of `(a @ b) @ v == a @ (b @ v)`. */
  lemma DotOfProduct(r: Vec4, b: Mat4, v: Vec4)
    ensures Dot(RowTimes(r, b), v) == Dot(r, MatVec(b, v))
  {
    var r0, r1, r2, r3 := r[0], r[1], r[2], r[3];
    var v0, v1, v2, v3 := v[0], v[1], v[2], v[3];
    var b0, b1, b2, b3 := b[0], b[1], b[2], b[3];
    calc {
      Dot(RowTimes(r, b), v);
      (r0 * b0[0] + r1 * b1[0] + r2 * b2[0] + r3 * b3[0]) * v0
        + (r0 * b0[1] + r1 * b1[1] + r2 * b2[1] + r3 * b3[1]) * v1
        + (r0 * b0[2] + r1 * b1[2] + r2 * b2[2] + r3 * b3[2]) * v2
        + (r0 * b0[3] + r1 * b1[3] + r2 * b2[3] + r3 * b3[3]) * v3;
      r0 * (b0[0] * v0 + b0[1] * v1 + b0[2] * v2 + b0[3] * v3)
        + r1 * (b1[0] * v0 + b1[1] * v1 + b1[2] * v2 + b1[3] * v3)
        + r2 * (b2[0] * v0 + b2[1] * v1 + b2[2] * v2 + b2[3] * v3)
        + r3 * (b3[0] * v0 + b3[1] * v1 + b3[2] * v2 + b3[3] * v3);
      Dot(r, MatVec(b, v));
    }
  }

  /** Applying a product is applying its factors right to left. */
  lemma MatVecMul(a: Mat4, b: Mat4, v: Vec4)
    ensures MatVec(Mul(a, b), v) == MatVec(a, MatVec(b, v))
  {
    DotOfProduct(a[0], b, v);
    DotOfProduct(a[1], b, v);
    DotOfProduct(a[2], b, v);
    DotOfProduct(a[3], b, v);
  }

  lemma MatVecLinear(m: Mat4, u: Vec4, v: Vec4)
    ensures MatVec(m, Sub(u, v)) == Sub(MatVec(m, u), MatVec(m, v))
  {
    var l, r := MatVec(m, Sub(u, v)), Sub(MatVec(m, u), MatVec(m, v));
    assert l[0] == r[0] && l[1] == r[1] && l[2] == r[2] && l[3] == r[3];
  }

  /** The product of two affine matrices is affine. */
  lemma AffineMul(a: Mat4, b: Mat4)
    requires Affine(a) && Affine(b)
    ensures Affine(Mul(a, b))
  {
    var r := Mul(a, b)[3];
    assert r == RowTimes([0.0, 0.0, 0.0, 1.0], b);
    assert r[0] == 0.0 && r[1] == 0.0 && r[2] == 0.0 && r[3] == 1.0;
  }

  /** An affine matrix keeps the homogeneous coordinate of a point at 1. */
  lemma AffineKeepsW(m: Mat4, v: Vec4)
    requires Affine(m) && v[3] == 1.0
    ensures MatVec(m, v)[3] == 1.0
  {
  }

  /** The determinant of the 3x3 matrix with rows (a0 a1 a2), (b0 b1 b2), (c0 c1 c2). */
  function Det3Of(a0: real, a1: real, a2: real, b0: real, b1: real, b2: real,
                  c0: real, c1: real, c2: real): real
  {
    a0 * (b1 * c2 - b2 * c1) - a1 * (b0 * c2 - b2 * c0) + a2 * (b0 * c1 - b1 * c0)
  }

  /** The trace of the upper-left 3x3 block. */
  function Trace3(m: Mat4): real
  {
    m[0][0] + m[1][1] + m[2][2]
  }

  /** The determinant of the upper-left 3x3 block: the volume factor of the linear part. */
  function Det3(m: Mat4): real
  {
    Det3Of(m[0][0], m[0][1], m[0][2], m[1][0], m[1][1], m[1][2], m[2][0], m[2][1], m[2][2])
  }

  /** The determinant of a product of two 3x3 matrices, entry by entry. */
  lemma Det3OfProduct(a00: real, a01: real, a02: real, a10: real, a11: real, a12: real,
                      a20: real, a21: real, a22: real,
                      b00: real, b01: real, b02: real, b10: real, b11: real, b12: real,
                      b20: real, b21: real, b22: real)
    ensures Det3Of(a00 * b00 + a01 * b10 + a02 * b20, a00 * b01 + a01 * b11 + a02 * b21,
                   a00 * b02 + a01 * b12 + a02 * b22,
                   a10 * b00 + a11 * b10 + a12 * b20, a10 * b01 + a11 * b11 + a12 * b21,
                   a10 * b02 + a11 * b12 + a12 * b22,
                   a20 * b00 + a21 * b10 + a22 * b20, a20 * b01 + a21 * b11 + a22 * b21,
                   a20 * b02 + a21 * b12 + a22 * b22)
         == Det3Of(a00, a01, a02, a10, a11, a12, a20, a21, a22)
          * Det3Of(b00, b01, b02, b10, b11, b12, b20, b21, b22)
  {
  }

  /** When the right factor is affine, the upper-left block of a product is the product of
      the blocks, so its determinant is the product of the two determinants. */
  lemma Det3Mul(a: Mat4, b: Mat4)
    requires Affine(b)
    ensures Det3(Mul(a, b)) == Det3(a) * Det3(b)
  {
    calc {
      Det3(Mul(a, b));
      { ProductBlock(a, b); }
      Det3Of(a[0][0] * b[0][0] + a[0][1] * b[1][0] + a[0][2] * b[2][0], a[0][0] * b[0][1] + a[0][1] * b[1][1] + a[0][2] * b[2][1], a[0][0] * b[0][2] + a[0][1] * b[1][2] + a[0][2] * b[2][2],
             a[1][0] * b[0][0] + a[1][1] * b[1][0] + a[1][2] * b[2][0], a[1][0] * b[0][1] + a[1][1] * b[1][1] + a[1][2] * b[2][1], a[1][0] * b[0][2] + a[1][1] * b[1][2] + a[1][2] * b[2][2],
             a[2][0] * b[0][0] + a[2][1] * b[1][0] + a[2][2] * b[2][0], a[2][0] * b[0][1] + a[2][1] * b[1][1] + a[2][2] * b[2][1], a[2][0] * b[0][2] + a[2][1] * b[1][2] + a[2][2] * b[2][2]);
      { Det3OfProduct(a[0][0], a[0][1], a[0][2], a[1][0], a[1][1], a[1][2], a[2][0], a[2][1], a[2][2],
                      b[0][0], b[0][1], b[0][2], b[1][0], b[1][1], b[1][2], b[2][0], b[2][1], b[2][2]); }
      Det3(a) * Det3(b);
    }
  }

  /** The upper-left block of a product with an affine right factor, entry by entry. */
  lemma ProductBlock(a: Mat4, b: Mat4)
    requires Affine(b)
    ensures Det3(Mul(a, b)) == Det3Of(a[0][0] * b[0][0] + a[0][1] * b[1][0] + a[0][2] * b[2][0], a[0][0] * b[0][1] + a[0][1] * b[1][1] + a[0][2] * b[2][1], a[0][0] * b[0][2] + a[0][1] * b[1][2] + a[0][2] * b[2][2],
                                      a[1][0] * b[0][0] + a[1][1] * b[1][0] + a[1][2] * b[2][0], a[1][0] * b[0][1] + a[1][1] * b[1][1] + a[1][2] * b[2][1], a[1][0] * b[0][2] + a[1][1] * b[1][2] + a[1][2] * b[2][2],
                                      a[2][0] * b[0][0] + a[2][1] * b[1][0] + a[2][2] * b[2][0], a[2][0] * b[0][1] + a[2][1] * b[1][1] + a[2][2] * b[2][1], a[2][0] * b[0][2] + a[2][1] * b[1][2] + a[2][2] * b[2][2])
  {
    var p := Mul(a, b);
    assert p[0][0] == a[0][0] * b[0][0] + a[0][1] * b[1][0] + a[0][2] * b[2][0];
    assert p[0][1] == a[0][0] * b[0][1] + a[0][1] * b[1][1] + a[0][2] * b[2][1];
    assert p[0][2] == a[0][0] * b[0][2] + a[0][1] * b[1][2] + a[0][2] * b[2][2];
    assert p[1][0] == a[1][0] * b[0][0] + a[1][1] * b[1][0] + a[1][2] * b[2][0];
    assert p[1][1] == a[1][0] * b[0][1] + a[1][1] * b[1][1] + a[1][2] * b[2][1];
    assert p[1][2] == a[1][0] * b[0][2] + a[1][1] * b[1][2] + a[1][2] * b[2][2];
    assert p[2][0] == a[2][0] * b[0][0] + a[2][1] * b[1][0] + a[2][2] * b[2][0];
    assert p[2][1] == a[2][0] * b[0][1] + a[2][1] * b[1][1] + a[2][2] * b[2][1];
    assert p[2][2] == a[2][0] * b[0][2] + a[2][1] * b[1][2] + a[2][2] * b[2][2];
  }

  /** A matrix with orthonormal columns preserves the squared length of every vector. */
  lemma OrthogonalPreservesLength(m: Mat4, v: Vec4)
    requires Mul(Transpose(m), m) == Identity()
    ensures Dot(MatVec(m, v), MatVec(m, v)) == Dot(v, v)
  {
    var w := MatVec(m, v);
    DotOfProduct(w, m, v);
    RowTimesTranspose(w, Transpose(m));
    TransposeInvolutive(m);
    assert RowTimes(w, m) == MatVec(Transpose(m), w);
    MatVecMul(Transpose(m), m, v);
    MatVecIdentity(v);
  }
}
