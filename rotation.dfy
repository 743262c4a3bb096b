/** `create_rotation_matrix`: Rodrigues' axis-angle rotation in homogeneous form.
    The cosine and sine of the angle and the Euclidean norm of the axis are computed by
    numpy in the source; here they are parameters, constrained only by what they are. */
module Rotation {
  import opened Geometry
  import opened Transform

  datatype Error = ZeroRotationAxis
  datatype Result<T> = Ok(value: T) | Err(error: Error)

  /** The rotation about the axis (x, y, z) whose angle has cosine c and sine s: c I plus
      (1 - c) times the axis' outer product with itself plus s times its cross-product matrix.
      It is affine with last column (0, 0, 0, 1); its antisymmetric part is 2 s times the
      axis, and its trace is 3c + (1 - c)|axis|². */
  function RotationMatrix(x: real, y: real, z: real, c: real, s: real): (m: Mat4)
    ensures Affine(m) && m[0][3] == 0.0 && m[1][3] == 0.0 && m[2][3] == 0.0
    ensures m[2][1] - m[1][2] == 2.0 * s * x
    ensures m[0][2] - m[2][0] == 2.0 * s * y
    ensures m[1][0] - m[0][1] == 2.0 * s * z
    ensures Trace3(m) == 3.0 * c + (1.0 - c) * (x * x + y * y + z * z)
  {
    var t := 1.0 - c;
    [[t * x * x + c,     t * x * y - s * z, t * x * z + s * y, 0.0],
     [t * x * y + s * z, t * y * y + c,     t * y * z - s * x, 0.0],
     [t * x * z - s * y, t * y * z + s * x, t * z * z + c,     0.0],
     [0.0,               0.0,               0.0,               1.0]]
  }

  /** The cross product `u × p`. */
  function Cross(u: Vec3, p: Vec3): Vec3
  {
    [u[1] * p[2] - u[2] * p[1], u[2] * p[0] - u[0] * p[2], u[0] * p[1] - u[1] * p[0]]
  }

  function Dot3(u: Vec3, p: Vec3): real
  {
    u[0] * p[0] + u[1] * p[1] + u[2] * p[2]
  }

  /** Rodrigues' rotation formula in vector form, the reference the matrix is checked
      against: p turns about u to c p + s (u × p) + (1 - c)(u · p) u. */
  function Rodrigues(u: Vec3, c: real, s: real, p: Vec3): Vec3
  {
    var k := Cross(u, p);
    var d := (1.0 - c) * Dot3(u, p);
    [c * p[0] + s * k[0] + d * u[0], c * p[1] + s * k[1] + d * u[1], c * p[2] + s * k[2] + d * u[2]]
  }

  function SqNorm(v: Vec3): real
  {
    v[0] * v[0] + v[1] * v[1] + v[2] * v[2]
  }

  /** The cosine and sine of one angle. */
  predicate IsTrig(c: real, s: real)
  {
    c * c + s * s == 1.0
  }

  /** `norm` is the Euclidean length of `axis`. */
  predicate IsNorm(axis: Vec3, norm: real)
  {
    norm >= 0.0 && norm * norm == SqNorm(axis)
  }

  /** A proper rigid rotation about the origin: affine, its last column is (0, 0, 0, 1),
      its columns are orthonormal, and it keeps orientation (determinant 1). */
  predicate IsRotation(m: Mat4)
  {
    && Affine(m)
    && m[0][3] == 0.0 && m[1][3] == 0.0 && m[2][3] == 0.0
    && Mul(Transpose(m), m) == Identity()
    && Det3(m) == 1.0
  }

  /** `create_rotation_matrix(axis, angle)`, with `np.linalg.norm(axis)` given as `norm` and
      the cosine and sine of the angle as `c` and `s`. The source divides by the norm; a zero
      axis is reported as an error. Otherwise the result is a rotation that fixes the
      normalised axis, turns every point about it by Rodrigues' formula, and has trace
      1 + 2c, so c is the cosine of its angle. */
  function CreateRotation(axis: Vec3, norm: real, c: real, s: real): (r: Result<Mat4>)
    requires IsNorm(axis, norm) && IsTrig(c, s)
    ensures r.Err? <==> axis == [0.0, 0.0, 0.0]
    ensures r.Ok? ==> IsRotation(r.value)
    ensures r.Ok? ==> norm > 0.0 && TransformPoint(r.value, Normalize(axis, norm)) == Normalize(axis, norm)
    ensures r.Ok? && c == 1.0 && s == 0.0 ==> r.value == Identity()
    ensures r.Ok? ==> Trace3(r.value) == 1.0 + 2.0 * c
    ensures r.Ok? ==> forall p: Vec3 :: TransformPoint(r.value, p) == Rodrigues(Normalize(axis, norm), c, s, p)
  {
    ZeroNormIffZeroAxis(axis, norm);
    if norm == 0.0 then
      Err(ZeroRotationAxis)
    else
      var u := Normalize(axis, norm);
      NormalizeIsUnit(axis, norm);
      RotationIsRotation(u[0], u[1], u[2], c, s);
      RotationFixesAxis(u[0], u[1], u[2], c, s);
      ZeroAngleIsIdentity(u[0], u[1], u[2]);
      RotationTrace(u[0], u[1], u[2], c, s);
      RotationActsEverywhere(u, c, s);
      Ok(RotationMatrix(u[0], u[1], u[2], c, s))
  }

  /** `axis / np.linalg.norm(axis)`: the vector that, scaled by the norm, is the axis. */
  function Normalize(axis: Vec3, norm: real): (u: Vec3)
    requires norm > 0.0
    ensures u[0] * norm == axis[0] && u[1] * norm == axis[1] && u[2] * norm == axis[2]
  {
    [axis[0] / norm, axis[1] / norm, axis[2] / norm]
  }

  lemma ProductBound(a: real, b: real, x: real)
    requires a > 0.0 && b > 0.0 && a * b <= x
    ensures x > 0.0
  {
  }

  /** `x` is the square of `a`: it is never negative, and zero exactly when `a` is. */
  lemma SquareSign(a: real, x: real)
    requires x == a * a
    ensures x >= 0.0
    ensures x == 0.0 <==> a == 0.0
  {
    if a > 0.0 {
      ProductBound(a, a, x);
    } else if a < 0.0 {
      ProductBound(-a, -a, x);
    }
  }

  /** The square of the norm is the sum of the squares of the components; each square is zero
      exactly when its base is, so the norm is zero exactly when every component is. */
  lemma SumOfSquaresZero(n: real, x: real, y: real, z: real, nn: real, xx: real, yy: real, zz: real)
    requires n >= 0.0 && nn == xx + yy + zz
    requires nn >= 0.0 && (nn == 0.0 <==> n == 0.0)
    requires xx >= 0.0 && (xx == 0.0 <==> x == 0.0)
    requires yy >= 0.0 && (yy == 0.0 <==> y == 0.0)
    requires zz >= 0.0 && (zz == 0.0 <==> z == 0.0)
    ensures n == 0.0 <==> x == 0.0 && y == 0.0 && z == 0.0
  {
  }

  /** The Euclidean norm vanishes exactly on the zero vector. */
  lemma ZeroNormIffZeroAxis(axis: Vec3, norm: real)
    requires IsNorm(axis, norm)
    ensures norm == 0.0 <==> axis == [0.0, 0.0, 0.0]
  {
    var x, y, z := axis[0], axis[1], axis[2];
    SquareSign(norm, norm * norm);
    SquareSign(x, x * x);
    SquareSign(y, y * y);
    SquareSign(z, z * z);
    SumOfSquaresZero(norm, x, y, z, norm * norm, x * x, y * y, z * z);
    assert x == 0.0 && y == 0.0 && z == 0.0 <==> axis == [0.0, 0.0, 0.0];
  }

  lemma NormalizeIsUnit(axis: Vec3, norm: real)
    requires IsNorm(axis, norm) && norm > 0.0
    ensures SqNorm(Normalize(axis, norm)) == 1.0
  {
    var u := Normalize(axis, norm);
    assert u[0] * norm == axis[0] && u[1] * norm == axis[1] && u[2] * norm == axis[2];
    calc {
      SqNorm(u) * (norm * norm);
      (u[0] * norm) * (u[0] * norm) + (u[1] * norm) * (u[1] * norm) + (u[2] * norm) * (u[2] * norm);
      SqNorm(axis);
      norm * norm;
    }
  }

  /** Column 0 of the rotation has unit length. */
  lemma Gram00(x: real, y: real, z: real, c: real, s: real)
    requires x * x + y * y + z * z == 1.0 && IsTrig(c, s)
    ensures EntriesDot((1.0 - c) * x * x + c, (1.0 - c) * x * y + s * z, (1.0 - c) * x * z - s * y, 0.0,
      (1.0 - c) * x * x + c, (1.0 - c) * x * y + s * z, (1.0 - c) * x * z - s * y, 0.0, 1.0)
  {
    calc {
      ((1.0 - c) * x * x + c) * ((1.0 - c) * x * x + c) +
        ((1.0 - c) * x * y + s * z) * ((1.0 - c) * x * y + s * z) +
        ((1.0 - c) * x * z - s * y) * ((1.0 - c) * x * z - s * y) +
        (0.0) * (0.0);
      x * x * ((1.0 - c) * (1.0 - c) * (x * x + y * y + z * z) + 2.0 * (1.0 - c) * c - s * s) + c * c + s * s * (x * x + y * y + z * z);
      x * x * ((1.0 - c) * (1.0 - c) + 2.0 * (1.0 - c) * c - s * s) + (c * c + s * s);
      { assert (1.0 - c) * (1.0 - c) + 2.0 * (1.0 - c) * c - s * s == 1.0 - (c * c + s * s); }
      x * x * 0.0 + 1.0;
      1.0;
    }
  }

  /** Columns 0 and 1 of the rotation are orthogonal. */
  lemma Gram01(x: real, y: real, z: real, c: real, s: real)
    requires x * x + y * y + z * z == 1.0 && IsTrig(c, s)
    ensures EntriesDot((1.0 - c) * x * x + c, (1.0 - c) * x * y + s * z, (1.0 - c) * x * z - s * y, 0.0,
      (1.0 - c) * x * y - s * z, (1.0 - c) * y * y + c, (1.0 - c) * y * z + s * x, 0.0, 0.0)
  {
    calc {
      ((1.0 - c) * x * x + c) * ((1.0 - c) * x * y - s * z) +
        ((1.0 - c) * x * y + s * z) * ((1.0 - c) * y * y + c) +
        ((1.0 - c) * x * z - s * y) * ((1.0 - c) * y * z + s * x) +
        (0.0) * (0.0);
      x * y * ((1.0 - c) * (1.0 - c) * (x * x + y * y + z * z) + 2.0 * (1.0 - c) * c - s * s);
      x * y * ((1.0 - c) * (1.0 - c) + 2.0 * (1.0 - c) * c - s * s);
      { assert (1.0 - c) * (1.0 - c) + 2.0 * (1.0 - c) * c - s * s == 1.0 - (c * c + s * s); }
      x * y * 0.0;
      0.0;
    }
  }

  /** Columns 0 and 2 of the rotation are orthogonal. */
  lemma Gram02(x: real, y: real, z: real, c: real, s: real)
    requires x * x + y * y + z * z == 1.0 && IsTrig(c, s)
    ensures EntriesDot((1.0 - c) * x * x + c, (1.0 - c) * x * y + s * z, (1.0 - c) * x * z - s * y, 0.0,
      (1.0 - c) * x * z + s * y, (1.0 - c) * y * z - s * x, (1.0 - c) * z * z + c, 0.0, 0.0)
  {
    calc {
      ((1.0 - c) * x * x + c) * ((1.0 - c) * x * z + s * y) +
        ((1.0 - c) * x * y + s * z) * ((1.0 - c) * y * z - s * x) +
        ((1.0 - c) * x * z - s * y) * ((1.0 - c) * z * z + c) +
        (0.0) * (0.0);
      x * z * ((1.0 - c) * (1.0 - c) * (x * x + y * y + z * z) + 2.0 * (1.0 - c) * c - s * s);
      x * z * ((1.0 - c) * (1.0 - c) + 2.0 * (1.0 - c) * c - s * s);
      { assert (1.0 - c) * (1.0 - c) + 2.0 * (1.0 - c) * c - s * s == 1.0 - (c * c + s * s); }
      x * z * 0.0;
      0.0;
    }
  }

  /** Column 1 of the rotation has unit length. */
  lemma Gram11(x: real, y: real, z: real, c: real, s: real)
    requires x * x + y * y + z * z == 1.0 && IsTrig(c, s)
    ensures EntriesDot((1.0 - c) * x * y - s * z, (1.0 - c) * y * y + c, (1.0 - c) * y * z + s * x, 0.0,
      (1.0 - c) * x * y - s * z, (1.0 - c) * y * y + c, (1.0 - c) * y * z + s * x, 0.0, 1.0)
  {
    calc {
      ((1.0 - c) * x * y - s * z) * ((1.0 - c) * x * y - s * z) +
        ((1.0 - c) * y * y + c) * ((1.0 - c) * y * y + c) +
        ((1.0 - c) * y * z + s * x) * ((1.0 - c) * y * z + s * x) +
        (0.0) * (0.0);
      y * y * ((1.0 - c) * (1.0 - c) * (x * x + y * y + z * z) + 2.0 * (1.0 - c) * c - s * s) + c * c + s * s * (x * x + y * y + z * z);
      y * y * ((1.0 - c) * (1.0 - c) + 2.0 * (1.0 - c) * c - s * s) + (c * c + s * s);
      { assert (1.0 - c) * (1.0 - c) + 2.0 * (1.0 - c) * c - s * s == 1.0 - (c * c + s * s); }
      y * y * 0.0 + 1.0;
      1.0;
    }
  }

  /** Columns 1 and 2 of the rotation are orthogonal. */
  lemma Gram12(x: real, y: real, z: real, c: real, s: real)
    requires x * x + y * y + z * z == 1.0 && IsTrig(c, s)
    ensures EntriesDot((1.0 - c) * x * y - s * z, (1.0 - c) * y * y + c, (1.0 - c) * y * z + s * x, 0.0,
      (1.0 - c) * x * z + s * y, (1.0 - c) * y * z - s * x, (1.0 - c) * z * z + c, 0.0, 0.0)
  {
    calc {
      ((1.0 - c) * x * y - s * z) * ((1.0 - c) * x * z + s * y) +
        ((1.0 - c) * y * y + c) * ((1.0 - c) * y * z - s * x) +
        ((1.0 - c) * y * z + s * x) * ((1.0 - c) * z * z + c) +
        (0.0) * (0.0);
      y * z * ((1.0 - c) * (1.0 - c) * (x * x + y * y + z * z) + 2.0 * (1.0 - c) * c - s * s);
      y * z * ((1.0 - c) * (1.0 - c) + 2.0 * (1.0 - c) * c - s * s);
      { assert (1.0 - c) * (1.0 - c) + 2.0 * (1.0 - c) * c - s * s == 1.0 - (c * c + s * s); }
      y * z * 0.0;
      0.0;
    }
  }

  /** Column 2 of the rotation has unit length. */
  lemma Gram22(x: real, y: real, z: real, c: real, s: real)
    requires x * x + y * y + z * z == 1.0 && IsTrig(c, s)
    ensures EntriesDot((1.0 - c) * x * z + s * y, (1.0 - c) * y * z - s * x, (1.0 - c) * z * z + c, 0.0,
      (1.0 - c) * x * z + s * y, (1.0 - c) * y * z - s * x, (1.0 - c) * z * z + c, 0.0, 1.0)
  {
    calc {
      ((1.0 - c) * x * z + s * y) * ((1.0 - c) * x * z + s * y) +
        ((1.0 - c) * y * z - s * x) * ((1.0 - c) * y * z - s * x) +
        ((1.0 - c) * z * z + c) * ((1.0 - c) * z * z + c) +
        (0.0) * (0.0);
      z * z * ((1.0 - c) * (1.0 - c) * (x * x + y * y + z * z) + 2.0 * (1.0 - c) * c - s * s) + c * c + s * s * (x * x + y * y + z * z);
      z * z * ((1.0 - c) * (1.0 - c) + 2.0 * (1.0 - c) * c - s * s) + (c * c + s * s);
      { assert (1.0 - c) * (1.0 - c) + 2.0 * (1.0 - c) * c - s * s == 1.0 - (c * c + s * s); }
      z * z * 0.0 + 1.0;
      1.0;
    }
  }

  /** Row 0 of the rotation, applied to the unit axis, gives back coordinate x. */
  lemma AxisRow0(x: real, y: real, z: real, c: real, s: real)
    requires x * x + y * y + z * z == 1.0
    ensures EntriesDot((1.0 - c) * x * x + c, (1.0 - c) * x * y - s * z, (1.0 - c) * x * z + s * y, 0.0,
      x, y, z, 1.0, x)
  {
    calc {
      ((1.0 - c) * x * x + c) * (x) +
        ((1.0 - c) * x * y - s * z) * (y) +
        ((1.0 - c) * x * z + s * y) * (z) +
        (0.0) * (1.0);
      x * ((1.0 - c) * (x * x + y * y + z * z) + c);
      x;
    }
  }

  /** Row 1 of the rotation, applied to the unit axis, gives back coordinate y. */
  lemma AxisRow1(x: real, y: real, z: real, c: real, s: real)
    requires x * x + y * y + z * z == 1.0
    ensures EntriesDot((1.0 - c) * x * y + s * z, (1.0 - c) * y * y + c, (1.0 - c) * y * z - s * x, 0.0,
      x, y, z, 1.0, y)
  {
    calc {
      ((1.0 - c) * x * y + s * z) * (x) +
        ((1.0 - c) * y * y + c) * (y) +
        ((1.0 - c) * y * z - s * x) * (z) +
        (0.0) * (1.0);
      y * ((1.0 - c) * (x * x + y * y + z * z) + c);
      y;
    }
  }

  /** Row 2 of the rotation, applied to the unit axis, gives back coordinate z. */
  lemma AxisRow2(x: real, y: real, z: real, c: real, s: real)
    requires x * x + y * y + z * z == 1.0
    ensures EntriesDot((1.0 - c) * x * z - s * y, (1.0 - c) * y * z + s * x, (1.0 - c) * z * z + c, 0.0,
      x, y, z, 1.0, z)
  {
    calc {
      ((1.0 - c) * x * z - s * y) * (x) +
        ((1.0 - c) * y * z + s * x) * (y) +
        ((1.0 - c) * z * z + c) * (z) +
        (0.0) * (1.0);
      z * ((1.0 - c) * (x * x + y * y + z * z) + c);
      z;
    }
  }

  /** For a unit axis and c² + s² = 1: the columns of the matrix are orthonormal, that is
      RᵀR = I (so also on its upper-left 3x3 block), and its fourth row and column are
      (0, 0, 0, 1). */
  lemma RotationIsRotation(x: real, y: real, z: real, c: real, s: real)
    requires x * x + y * y + z * z == 1.0 && IsTrig(c, s)
    ensures IsRotation(RotationMatrix(x, y, z, c, s))
  {
    var r := RotationMatrix(x, y, z, c, s);
    var g := Mul(Transpose(r), r);
    var c0, c1, c2, c3 := Column(r, 0), Column(r, 1), Column(r, 2), Column(r, 3);
    assert c0 == [(1.0 - c) * x * x + c, (1.0 - c) * x * y + s * z, (1.0 - c) * x * z - s * y, 0.0];
    assert c1 == [(1.0 - c) * x * y - s * z, (1.0 - c) * y * y + c, (1.0 - c) * y * z + s * x, 0.0];
    assert c2 == [(1.0 - c) * x * z + s * y, (1.0 - c) * y * z - s * x, (1.0 - c) * z * z + c, 0.0];
    assert c3 == [0.0, 0.0, 0.0, 1.0];
    Gram00(x, y, z, c, s);
    DotOfEntries(c0, c0, (1.0 - c) * x * x + c, (1.0 - c) * x * y + s * z, (1.0 - c) * x * z - s * y, 0.0,
      (1.0 - c) * x * x + c, (1.0 - c) * x * y + s * z, (1.0 - c) * x * z - s * y, 0.0, 1.0);
    Gram01(x, y, z, c, s);
    DotOfEntries(c0, c1, (1.0 - c) * x * x + c, (1.0 - c) * x * y + s * z, (1.0 - c) * x * z - s * y, 0.0,
      (1.0 - c) * x * y - s * z, (1.0 - c) * y * y + c, (1.0 - c) * y * z + s * x, 0.0, 0.0);
    Gram02(x, y, z, c, s);
    DotOfEntries(c0, c2, (1.0 - c) * x * x + c, (1.0 - c) * x * y + s * z, (1.0 - c) * x * z - s * y, 0.0,
      (1.0 - c) * x * z + s * y, (1.0 - c) * y * z - s * x, (1.0 - c) * z * z + c, 0.0, 0.0);
    Gram11(x, y, z, c, s);
    DotOfEntries(c1, c1, (1.0 - c) * x * y - s * z, (1.0 - c) * y * y + c, (1.0 - c) * y * z + s * x, 0.0,
      (1.0 - c) * x * y - s * z, (1.0 - c) * y * y + c, (1.0 - c) * y * z + s * x, 0.0, 1.0);
    Gram12(x, y, z, c, s);
    DotOfEntries(c1, c2, (1.0 - c) * x * y - s * z, (1.0 - c) * y * y + c, (1.0 - c) * y * z + s * x, 0.0,
      (1.0 - c) * x * z + s * y, (1.0 - c) * y * z - s * x, (1.0 - c) * z * z + c, 0.0, 0.0);
    Gram22(x, y, z, c, s);
    DotOfEntries(c2, c2, (1.0 - c) * x * z + s * y, (1.0 - c) * y * z - s * x, (1.0 - c) * z * z + c, 0.0,
      (1.0 - c) * x * z + s * y, (1.0 - c) * y * z - s * x, (1.0 - c) * z * z + c, 0.0, 1.0);
    assert Transpose(r) == [c0, c1, c2, c3];
    assert g[0] == [Dot(c0, c0), Dot(c0, c1), Dot(c0, c2), Dot(c0, c3)];
    assert g[1] == [Dot(c1, c0), Dot(c1, c1), Dot(c1, c2), Dot(c1, c3)];
    assert g[2] == [Dot(c2, c0), Dot(c2, c1), Dot(c2, c2), Dot(c2, c3)];
    assert g[3] == [Dot(c3, c0), Dot(c3, c1), Dot(c3, c2), Dot(c3, c3)];
    DotSymmetric(c0, c1);
    DotSymmetric(c0, c2);
    DotSymmetric(c1, c2);
    RotationDeterminant(x, y, z, c, s);
  }

  /** For any axis u and any c, s, t, the matrix c I + t u u^T + s [u]x has determinant
      (c + t|u|^2)(c^2 + s^2 |u|^2): the eigenvalue along u times the two across it. */
  lemma RotationDeterminantFactors(x: real, y: real, z: real, c: real, s: real, t: real)
    ensures Det3Of(t * x * x + c, t * x * y - s * z, t * x * z + s * y,
                   t * x * y + s * z, t * y * y + c, t * y * z - s * x,
                   t * x * z - s * y, t * y * z + s * x, t * z * z + c)
         == (c + t * (x * x + y * y + z * z)) * (c * c + s * s * (x * x + y * y + z * z))
  {
  }

  /** That determinant is 1 for a unit axis and an angle of the unit circle. */
  lemma UnitFactors(n: real, c: real, s: real, t: real)
    requires n == 1.0 && t == 1.0 - c && IsTrig(c, s)
    ensures (c + t * n) * (c * c + s * s * n) == 1.0
  {
  }

  /** Replaces the versine 1 - c by its name t inside a product, a step the solver does not
      take on its own. */
  lemma VersineProduct(t: real, c: real, a: real, b: real)
    requires t == 1.0 - c
    ensures (1.0 - c) * a * b == t * a * b
  {
  }

  /** The determinant of the rotation block, for any axis and any c, s (with t = 1 - c). */
  lemma RotationDeterminantForm(x: real, y: real, z: real, c: real, s: real, t: real)
    requires t == 1.0 - c
    ensures Det3(RotationMatrix(x, y, z, c, s))
         == (c + t * (x * x + y * y + z * z)) * (c * c + s * s * (x * x + y * y + z * z))
  {
    var r := RotationMatrix(x, y, z, c, s);
    VersineProduct(t, c, x, x);
    VersineProduct(t, c, x, y);
    VersineProduct(t, c, x, z);
    VersineProduct(t, c, y, y);
    VersineProduct(t, c, y, z);
    VersineProduct(t, c, z, z);
    assert r[0][0] == t * x * x + c && r[0][1] == t * x * y - s * z && r[0][2] == t * x * z + s * y;
    assert r[1][0] == t * x * y + s * z && r[1][1] == t * y * y + c && r[1][2] == t * y * z - s * x;
    assert r[2][0] == t * x * z - s * y && r[2][1] == t * y * z + s * x && r[2][2] == t * z * z + c;
    RotationDeterminantFactors(x, y, z, c, s, t);
  }

  /** For a unit axis and an angle of the unit circle, the rotation keeps orientation. */
  lemma RotationDeterminant(x: real, y: real, z: real, c: real, s: real)
    requires x * x + y * y + z * z == 1.0 && IsTrig(c, s)
    ensures Det3(RotationMatrix(x, y, z, c, s)) == 1.0
  {
    var t := 1.0 - c;
    calc {
      Det3(RotationMatrix(x, y, z, c, s));
      { RotationDeterminantForm(x, y, z, c, s, t); }
      (c + t * (x * x + y * y + z * z)) * (c * c + s * s * (x * x + y * y + z * z));
      { UnitFactors(x * x + y * y + z * z, c, s, t); }
      1.0;
    }
  }

  /** For a unit axis, the rotation fixes the axis itself. */
  lemma RotationFixesAxis(x: real, y: real, z: real, c: real, s: real)
    requires x * x + y * y + z * z == 1.0
    ensures TransformPoint(RotationMatrix(x, y, z, c, s), [x, y, z]) == [x, y, z]
  {
    var r := RotationMatrix(x, y, z, c, s);
    var v: Vec4 := [x, y, z, 1.0];
    assert Lift([x, y, z]) == v;
    AxisRow0(x, y, z, c, s);
    DotOfEntries(r[0], v, (1.0 - c) * x * x + c, (1.0 - c) * x * y - s * z, (1.0 - c) * x * z + s * y, 0.0,
      x, y, z, 1.0, x);
    AxisRow1(x, y, z, c, s);
    DotOfEntries(r[1], v, (1.0 - c) * x * y + s * z, (1.0 - c) * y * y + c, (1.0 - c) * y * z - s * x, 0.0,
      x, y, z, 1.0, y);
    AxisRow2(x, y, z, c, s);
    DotOfEntries(r[2], v, (1.0 - c) * x * z - s * y, (1.0 - c) * y * z + s * x, (1.0 - c) * z * z + c, 0.0,
      x, y, z, 1.0, z);
    var h := MatVec(r, v);
    assert h[0] == x && h[1] == y && h[2] == z;
    assert h[..3] == [x, y, z];
  }

  /** Row 0 of the rotation, applied to (a, b, d), is coordinate 0 of Rodrigues' formula,
      given coordinate 0 of the cross product as k and the dot product as m. */
  lemma RowPolynomial0(x: real, y: real, z: real, c: real, s: real, a: real, b: real, d: real, k: real, m: real, e: real)
    requires k == y * d - z * b && m == x * a + y * b + z * d
    requires e == c * a + s * k + (1.0 - c) * m * x
    ensures EntriesDot((1.0 - c) * x * x + c, (1.0 - c) * x * y - s * z, (1.0 - c) * x * z + s * y, 0.0,
      a, b, d, 1.0, e)
  {
    Scaled(s, k, y * d - z * b);
    Scaled((1.0 - c) * x, m, x * a + y * b + z * d);
    calc {
      ((1.0 - c) * x * x + c) * a + ((1.0 - c) * x * y - s * z) * b + ((1.0 - c) * x * z + s * y) * d + 0.0 * 1.0;
      c * a + s * (y * d - z * b) + (1.0 - c) * x * (x * a + y * b + z * d);
      c * a + s * k + (1.0 - c) * m * x;
      e;
    }
  }

  /** Row 1 of the rotation, applied to (a, b, d), is coordinate 1 of Rodrigues' formula,
      given coordinate 1 of the cross product as k and the dot product as m. */
  lemma RowPolynomial1(x: real, y: real, z: real, c: real, s: real, a: real, b: real, d: real, k: real, m: real, e: real)
    requires k == z * a - x * d && m == x * a + y * b + z * d
    requires e == c * b + s * k + (1.0 - c) * m * y
    ensures EntriesDot((1.0 - c) * x * y + s * z, (1.0 - c) * y * y + c, (1.0 - c) * y * z - s * x, 0.0,
      a, b, d, 1.0, e)
  {
    Scaled(s, k, z * a - x * d);
    Scaled((1.0 - c) * y, m, x * a + y * b + z * d);
    calc {
      ((1.0 - c) * x * y + s * z) * a + ((1.0 - c) * y * y + c) * b + ((1.0 - c) * y * z - s * x) * d + 0.0 * 1.0;
      c * b + s * (z * a - x * d) + (1.0 - c) * y * (x * a + y * b + z * d);
      c * b + s * k + (1.0 - c) * m * y;
      e;
    }
  }

  /** Row 2 of the rotation, applied to (a, b, d), is coordinate 2 of Rodrigues' formula,
      given coordinate 2 of the cross product as k and the dot product as m. */
  lemma RowPolynomial2(x: real, y: real, z: real, c: real, s: real, a: real, b: real, d: real, k: real, m: real, e: real)
    requires k == x * b - y * a && m == x * a + y * b + z * d
    requires e == c * d + s * k + (1.0 - c) * m * z
    ensures EntriesDot((1.0 - c) * x * z - s * y, (1.0 - c) * y * z + s * x, (1.0 - c) * z * z + c, 0.0,
      a, b, d, 1.0, e)
  {
    Scaled(s, k, x * b - y * a);
    Scaled((1.0 - c) * z, m, x * a + y * b + z * d);
    calc {
      ((1.0 - c) * x * z - s * y) * a + ((1.0 - c) * y * z + s * x) * b + ((1.0 - c) * z * z + c) * d + 0.0 * 1.0;
      c * d + s * (x * b - y * a) + (1.0 - c) * z * (x * a + y * b + z * d);
      c * d + s * k + (1.0 - c) * m * z;
      e;
    }
  }

  /** Multiplies both sides of k == e by f: the solver does not substitute equal terms
      inside a nonlinear product without this step. */
  lemma Scaled(f: real, k: real, e: real)
    requires k == e
    ensures f * k == f * e
  {
  }

  /** The matrix turns every point by Rodrigues' formula about u, for any axis and any c
      and s: it is c p + s (u × p) + (1 - c)(u · p) u written as a matrix. */
  lemma RotationActs(u: Vec3, c: real, s: real, p: Vec3)
    ensures TransformPoint(RotationMatrix(u[0], u[1], u[2], c, s), p) == Rodrigues(u, c, s, p)
  {
    var r := RotationMatrix(u[0], u[1], u[2], c, s);
    var q := Rodrigues(u, c, s, p);
    RodriguesEntry0(u, c, s, p);
    RodriguesEntry1(u, c, s, p);
    RodriguesEntry2(u, c, s, p);
    var h := MatVec(r, Lift(p));
    assert h[0] == q[0] && h[1] == q[1] && h[2] == q[2];
    assert h[..3] == q;
  }

  lemma RodriguesRow0(u: Vec3, c: real, s: real, p: Vec3)
    ensures EntriesDot((1.0 - c) * u[0] * u[0] + c, (1.0 - c) * u[0] * u[1] - s * u[2], (1.0 - c) * u[0] * u[2] + s * u[1], 0.0,
      p[0], p[1], p[2], 1.0, Rodrigues(u, c, s, p)[0])
  {
    RowPolynomial0(u[0], u[1], u[2], c, s, p[0], p[1], p[2], Cross(u, p)[0], Dot3(u, p), Rodrigues(u, c, s, p)[0]);
  }

  lemma RodriguesEntry0(u: Vec3, c: real, s: real, p: Vec3)
    ensures Dot(RotationMatrix(u[0], u[1], u[2], c, s)[0], Lift(p)) == Rodrigues(u, c, s, p)[0]
  {
    RodriguesRow0(u, c, s, p);
    DotOfEntries(RotationMatrix(u[0], u[1], u[2], c, s)[0], Lift(p), (1.0 - c) * u[0] * u[0] + c, (1.0 - c) * u[0] * u[1] - s * u[2], (1.0 - c) * u[0] * u[2] + s * u[1], 0.0,
      p[0], p[1], p[2], 1.0, Rodrigues(u, c, s, p)[0]);
  }

  lemma RodriguesRow1(u: Vec3, c: real, s: real, p: Vec3)
    ensures EntriesDot((1.0 - c) * u[0] * u[1] + s * u[2], (1.0 - c) * u[1] * u[1] + c, (1.0 - c) * u[1] * u[2] - s * u[0], 0.0,
      p[0], p[1], p[2], 1.0, Rodrigues(u, c, s, p)[1])
  {
    RowPolynomial1(u[0], u[1], u[2], c, s, p[0], p[1], p[2], Cross(u, p)[1], Dot3(u, p), Rodrigues(u, c, s, p)[1]);
  }

  lemma RodriguesEntry1(u: Vec3, c: real, s: real, p: Vec3)
    ensures Dot(RotationMatrix(u[0], u[1], u[2], c, s)[1], Lift(p)) == Rodrigues(u, c, s, p)[1]
  {
    RodriguesRow1(u, c, s, p);
    DotOfEntries(RotationMatrix(u[0], u[1], u[2], c, s)[1], Lift(p), (1.0 - c) * u[0] * u[1] + s * u[2], (1.0 - c) * u[1] * u[1] + c, (1.0 - c) * u[1] * u[2] - s * u[0], 0.0,
      p[0], p[1], p[2], 1.0, Rodrigues(u, c, s, p)[1]);
  }

  lemma RodriguesRow2(u: Vec3, c: real, s: real, p: Vec3)
    ensures EntriesDot((1.0 - c) * u[0] * u[2] - s * u[1], (1.0 - c) * u[1] * u[2] + s * u[0], (1.0 - c) * u[2] * u[2] + c, 0.0,
      p[0], p[1], p[2], 1.0, Rodrigues(u, c, s, p)[2])
  {
    RowPolynomial2(u[0], u[1], u[2], c, s, p[0], p[1], p[2], Cross(u, p)[2], Dot3(u, p), Rodrigues(u, c, s, p)[2]);
  }

  lemma RodriguesEntry2(u: Vec3, c: real, s: real, p: Vec3)
    ensures Dot(RotationMatrix(u[0], u[1], u[2], c, s)[2], Lift(p)) == Rodrigues(u, c, s, p)[2]
  {
    RodriguesRow2(u, c, s, p);
    DotOfEntries(RotationMatrix(u[0], u[1], u[2], c, s)[2], Lift(p), (1.0 - c) * u[0] * u[2] - s * u[1], (1.0 - c) * u[1] * u[2] + s * u[0], (1.0 - c) * u[2] * u[2] + c, 0.0,
      p[0], p[1], p[2], 1.0, Rodrigues(u, c, s, p)[2]);
  }

  lemma RotationActsEverywhere(u: Vec3, c: real, s: real)
    ensures forall p: Vec3 :: TransformPoint(RotationMatrix(u[0], u[1], u[2], c, s), p) == Rodrigues(u, c, s, p)
  {
    forall p: Vec3
      ensures TransformPoint(RotationMatrix(u[0], u[1], u[2], c, s), p) == Rodrigues(u, c, s, p)
    {
      RotationActs(u, c, s, p);
    }
  }

  /** For a unit axis the trace of the rotation block is 1 + 2c, so c is the cosine of the
      angle the matrix turns by. */
  lemma RotationTrace(x: real, y: real, z: real, c: real, s: real)
    requires x * x + y * y + z * z == 1.0
    ensures Trace3(RotationMatrix(x, y, z, c, s)) == 1.0 + 2.0 * c
  {
  }

  /** An angle with cosine 1 and sine 0 (the default 0°, or 360°) gives the identity,
      whatever the axis. */
  lemma ZeroAngleIsIdentity(x: real, y: real, z: real)
    ensures RotationMatrix(x, y, z, 1.0, 0.0) == Identity()
  {
  }

  /** Negating the angle (its sine) transposes the matrix. */
  lemma NegatedAngleIsTranspose(x: real, y: real, z: real, c: real, s: real)
    ensures RotationMatrix(x, y, z, c, -s) == Transpose(RotationMatrix(x, y, z, c, s))
  {
    var r, q := RotationMatrix(x, y, z, c, s), RotationMatrix(x, y, z, c, -s);
    assert Transpose(r)[0] == q[0] && Transpose(r)[1] == q[1] && Transpose(r)[2] == q[2] && Transpose(r)[3] == q[3];
  }

  /** Rotating by θ and then by -θ about the same unit axis gives back every vertex. */
  lemma {:induction false} RotationRoundTrip(x: real, y: real, z: real, c: real, s: real, vertices: seq<Vec3>)
    requires x * x + y * y + z * z == 1.0 && IsTrig(c, s)
    ensures ApplyTransformation(ApplyTransformation(vertices, RotationMatrix(x, y, z, c, s)),
                                RotationMatrix(x, y, z, c, -s)) == vertices
  {
    var r := RotationMatrix(x, y, z, c, s);
    RotationIsRotation(x, y, z, c, s);
    NegatedAngleIsTranspose(x, y, z, c, s);
    var once := ApplyTransformation(vertices, r);
    var back := ApplyTransformation(once, Transpose(r));
    forall i | 0 <= i < |vertices|
      ensures back[i] == vertices[i]
    {
      TransformPointMul(Transpose(r), r, vertices[i]);
      MatVecIdentity(Lift(vertices[i]));
      assert Drop(Lift(vertices[i])) == vertices[i];
    }
    IdentityLeavesUnchanged(vertices);
  }

  /** Rotations are isometries: the distance between any two points is unchanged. */
  lemma RotationIsometry(x: real, y: real, z: real, c: real, s: real, p: Vec3, q: Vec3)
    requires x * x + y * y + z * z == 1.0 && IsTrig(c, s)
    ensures var r := RotationMatrix(x, y, z, c, s);
      SqDist(TransformPoint(r, p), TransformPoint(r, q)) == SqDist(p, q)
  {
    RotationIsRotation(x, y, z, c, s);
    OrthogonalIsometry(RotationMatrix(x, y, z, c, s), p, q);
  }
}
