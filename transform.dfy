/** Homogeneous transforms of lab6.py: the scale and translation builders, the
    product chain `scale @ translation @ rotation`, and `apply_transformation`. */
module Transform {
  import opened Geometry

  /** A point lifted to homogeneous form: `np.hstack([vertices, ones])` on one row. */
  function Lift(p: Vec3): (h: Vec4)
    ensures h[..3] == p && h[3] == 1.0
  {
    p + [1.0]
  }

  /** The first three coordinates: `[:, :3]` on one row. It undoes `Lift` on every point
      whose homogeneous coordinate is 1. */
  function Drop(h: Vec4): (p: Vec3)
    ensures h[3] == 1.0 ==> Lift(p) == h
  {
    h[..3]
  }

  /** Reference action of a homogeneous matrix on one point: `m @ (p, 1)`, without its w. */
  function TransformPoint(m: Mat4, p: Vec3): Vec3
  {
    Drop(MatVec(m, Lift(p)))
  }

  /** Every row of `rows`, as a row vector, times `m`: the `(N x 4) @ (4 x 4)` product. */
  function RowsTimes(rows: seq<Vec4>, m: Mat4): (r: seq<Vec4>)
    ensures |r| == |rows|
    ensures forall i :: 0 <= i < |rows| ==> r[i] == RowTimes(rows[i], m)
  {
    seq(|rows|, i requires 0 <= i < |rows| => RowTimes(rows[i], m))
  }

  lemma RowTimesTransposeAll(m: Mat4)
    ensures forall h: Vec4 :: RowTimes(h, Transpose(m)) == MatVec(m, h)
  {
    forall h: Vec4
      ensures RowTimes(h, Transpose(m)) == MatVec(m, h)
    {
      RowTimesTranspose(h, m);
    }
  }

  /** `apply_transformation`: lift every vertex, multiply the rows by `m.T`, keep three
      columns. The result has one point per input point, in the same order, and point i
      is `m` applied to input point i alone. */
  function ApplyTransformation(vertices: seq<Vec3>, m: Mat4): (r: seq<Vec3>)
    ensures |r| == |vertices|
    ensures forall i :: 0 <= i < |vertices| ==> r[i] == TransformPoint(m, vertices[i])
  {
    RowTimesTransposeAll(m);
    var homogeneous := seq(|vertices|, i requires 0 <= i < |vertices| => Lift(vertices[i]));
    var transformed := RowsTimes(homogeneous, Transpose(m));
    seq(|transformed|, i requires 0 <= i < |transformed| => Drop(transformed[i]))
  }

  /** `create_scale_matrix`: affine, scaling volumes by sx * sy * sz, and the identity
      exactly for unit factors. */
  function ScaleMatrix(sx: real, sy: real, sz: real): (m: Mat4)
    ensures Affine(m)
    ensures Det3(m) == sx * sy * sz
    ensures m == Identity() <==> sx == 1.0 && sy == 1.0 && sz == 1.0
  {
    [[sx, 0.0, 0.0, 0.0],
     [0.0, sy, 0.0, 0.0],
     [0.0, 0.0, sz, 0.0],
     [0.0, 0.0, 0.0, 1.0]]
  }

  /** `create_translation_matrix`: affine, with the identity as its linear part (so
      determinant 1), and the identity exactly for a zero offset. */
  function TranslationMatrix(tx: real, ty: real, tz: real): (m: Mat4)
    ensures Affine(m)
    ensures forall i, j :: 0 <= i < 3 && 0 <= j < 3 ==> m[i][j] == Identity()[i][j]
    ensures Det3(m) == 1.0
    ensures m == Identity() <==> tx == 0.0 && ty == 0.0 && tz == 0.0
  {
    [[1.0, 0.0, 0.0, tx],
     [0.0, 1.0, 0.0, ty],
     [0.0, 0.0, 1.0, tz],
     [0.0, 0.0, 0.0, 1.0]]
  }

  /** The product chain `scale_matrix @ translation_matrix @ rotation_matrix`
      (numpy's `@` associates to the left). Three affine factors give an affine product. */
  function FinalMatrix(scale: Mat4, translation: Mat4, rotation: Mat4): (m: Mat4)
    ensures Affine(scale) && Affine(translation) && Affine(rotation) ==> Affine(m)
  {
    ChainAffine(scale, translation, rotation);
    Mul(Mul(scale, translation), rotation)
  }

  lemma ChainAffine(scale: Mat4, translation: Mat4, rotation: Mat4)
    ensures Affine(scale) && Affine(translation) && Affine(rotation) ==>
      Affine(Mul(Mul(scale, translation), rotation))
  {
    if Affine(scale) && Affine(translation) && Affine(rotation) {
      AffineMul(scale, translation);
      AffineMul(Mul(scale, translation), rotation);
    }
  }

  function SqDist(p: Vec3, q: Vec3): real
  {
    (p[0] - q[0]) * (p[0] - q[0]) + (p[1] - q[1]) * (p[1] - q[1]) + (p[2] - q[2]) * (p[2] - q[2])
  }

  /** Scaling multiplies each coordinate by its own factor. */
  lemma ScaleActs(sx: real, sy: real, sz: real, p: Vec3)
    ensures TransformPoint(ScaleMatrix(sx, sy, sz), p) == [sx * p[0], sy * p[1], sz * p[2]]
  {
    var r := TransformPoint(ScaleMatrix(sx, sy, sz), p);
    assert r[0] == sx * p[0] && r[1] == sy * p[1] && r[2] == sz * p[2];
  }

  /** Translation adds the offset to each coordinate. */
  lemma TranslationActs(tx: real, ty: real, tz: real, p: Vec3)
    ensures TransformPoint(TranslationMatrix(tx, ty, tz), p) == [p[0] + tx, p[1] + ty, p[2] + tz]
  {
    var r := TransformPoint(TranslationMatrix(tx, ty, tz), p);
    assert r[0] == p[0] + tx && r[1] == p[1] + ty && r[2] == p[2] + tz;
  }

  /** Under an affine matrix the homogeneous coordinate of a lifted point stays 1, so
      dropping it loses nothing: lifting the transformed point gives back the full product. */
  lemma DropLosesNothing(m: Mat4, p: Vec3)
    requires Affine(m)
    ensures MatVec(m, Lift(p))[3] == 1.0
    ensures Lift(TransformPoint(m, p)) == MatVec(m, Lift(p))
  {
    AffineKeepsW(m, Lift(p));
  }

  /** Applying a product of two matrices is applying the right factor first, then the left
      one, provided the right factor is affine. */
  lemma TransformPointMul(a: Mat4, b: Mat4, p: Vec3)
    requires Affine(b)
    ensures TransformPoint(Mul(a, b), p) == TransformPoint(a, TransformPoint(b, p))
  {
    MatVecMul(a, b, Lift(p));
    DropLosesNothing(b, p);
  }

  /** Composition order: the product chain applies the rotation first, then the
      translation, then the scale, one point at a time. */
  lemma {:induction false} FinalMatrixOrder(scale: Mat4, translation: Mat4, rotation: Mat4, vertices: seq<Vec3>)
    requires Affine(translation) && Affine(rotation)
    ensures ApplyTransformation(vertices, FinalMatrix(scale, translation, rotation))
         == ApplyTransformation(ApplyTransformation(ApplyTransformation(vertices, rotation), translation), scale)
  {
    var lhs := ApplyTransformation(vertices, FinalMatrix(scale, translation, rotation));
    var r1 := ApplyTransformation(vertices, rotation);
    var r2 := ApplyTransformation(r1, translation);
    var rhs := ApplyTransformation(r2, scale);
    forall i | 0 <= i < |vertices|
      ensures lhs[i] == rhs[i]
    {
      TransformPointMul(Mul(scale, translation), rotation, vertices[i]);
      TransformPointMul(scale, translation, r1[i]);
    }
  }

  /** The identity matrix leaves every vertex set unchanged. */
  lemma {:induction false} IdentityLeavesUnchanged(vertices: seq<Vec3>)
    ensures ApplyTransformation(vertices, Identity()) == vertices
  {
    var r := ApplyTransformation(vertices, Identity());
    forall i | 0 <= i < |vertices|
      ensures r[i] == vertices[i]
    {
      IdentityFixesPoint(vertices[i]);
    }
  }

  lemma IdentityFixesPoint(p: Vec3)
    ensures TransformPoint(Identity(), p) == p
  {
    MatVecIdentity(Lift(p));
    assert Drop(Lift(p)) == p;
  }

  /** Scaling by nonzero factors and then by their reciprocals gives back every vertex. */
  lemma {:induction false} ScaleRoundTrip(sx: real, sy: real, sz: real, vertices: seq<Vec3>)
    requires sx != 0.0 && sy != 0.0 && sz != 0.0
    ensures ApplyTransformation(ApplyTransformation(vertices, ScaleMatrix(sx, sy, sz)),
                                ScaleMatrix(1.0 / sx, 1.0 / sy, 1.0 / sz)) == vertices
  {
    var once := ApplyTransformation(vertices, ScaleMatrix(sx, sy, sz));
    var back := ApplyTransformation(once, ScaleMatrix(1.0 / sx, 1.0 / sy, 1.0 / sz));
    forall i | 0 <= i < |vertices|
      ensures back[i] == vertices[i]
    {
      var p := vertices[i];
      ScaleActs(sx, sy, sz, p);
      ScaleActs(1.0 / sx, 1.0 / sy, 1.0 / sz, once[i]);
      assert 1.0 / sx * (sx * p[0]) == p[0];
      assert 1.0 / sy * (sy * p[1]) == p[1];
      assert 1.0 / sz * (sz * p[2]) == p[2];
      assert back[i][0] == p[0] && back[i][1] == p[1] && back[i][2] == p[2];
    }
  }

  /** Translating by an offset and then by its negation gives back every vertex. */
  lemma {:induction false} TranslationRoundTrip(tx: real, ty: real, tz: real, vertices: seq<Vec3>)
    ensures ApplyTransformation(ApplyTransformation(vertices, TranslationMatrix(tx, ty, tz)),
                                TranslationMatrix(-tx, -ty, -tz)) == vertices
  {
    var once := ApplyTransformation(vertices, TranslationMatrix(tx, ty, tz));
    var back := ApplyTransformation(once, TranslationMatrix(-tx, -ty, -tz));
    forall i | 0 <= i < |vertices|
      ensures back[i] == vertices[i]
    {
      TranslationActs(tx, ty, tz, vertices[i]);
      TranslationActs(-tx, -ty, -tz, once[i]);
      assert back[i][0] == vertices[i][0] && back[i][1] == vertices[i][1] && back[i][2] == vertices[i][2];
    }
  }

  /** The linear part of the product chain has the scale's determinant when the rotation's
      is 1: translation and rotation do not change volume. */
  lemma FinalMatrixDeterminant(scale: Mat4, translation: Mat4, rotation: Mat4)
    requires Affine(translation) && Affine(rotation)
    requires Det3(translation) == 1.0 && Det3(rotation) == 1.0
    ensures Det3(FinalMatrix(scale, translation, rotation)) == Det3(scale)
  {
    UnitDeterminantFactor(scale, translation);
    UnitDeterminantFactor(Mul(scale, translation), rotation);
  }

  /** Multiplying by an affine matrix of determinant 1 keeps the determinant. */
  lemma UnitDeterminantFactor(a: Mat4, b: Mat4)
    requires Affine(b) && Det3(b) == 1.0
    ensures Det3(Mul(a, b)) == Det3(a)
  {
    Det3Mul(a, b);
    TimesOne(Det3(a), Det3(b), Det3(Mul(a, b)));
  }

  /** A product by a factor known to be 1, given as scalars so that the solver need not
      rewrite a determinant term inside the product. */
  lemma TimesOne(a: real, b: real, x: real)
    requires b == 1.0 && x == a * b
    ensures x == a
  {
  }

  /** A matrix that is affine and has orthonormal columns keeps every distance. */
  lemma OrthogonalIsometry(m: Mat4, p: Vec3, q: Vec3)
    requires Affine(m) && Mul(Transpose(m), m) == Identity()
    ensures SqDist(TransformPoint(m, p), TransformPoint(m, q)) == SqDist(p, q)
  {
    var w := Sub(Lift(p), Lift(q));
    MatVecLinear(m, Lift(p), Lift(q));
    OrthogonalPreservesLength(m, w);
    var mw := MatVec(m, w);
    assert mw[3] == w[3] == 0.0;
    var tp, tq := TransformPoint(m, p), TransformPoint(m, q);
    assert tp[0] - tq[0] == mw[0] && tp[1] - tq[1] == mw[1] && tp[2] - tq[2] == mw[2];
  }
}
