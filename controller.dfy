/** The `update` callback of lab6.py as a pure function: it reads the ten slider values,
    builds the scale, translation and rotation matrices, multiplies them in the order
    `scale @ translation @ rotation`, and transforms the base vertices of the letter,
    which the transformed ones never overwrite. The cosine and sine of the angle and the
    norm of the axis are parameters; `AngleTrig` and `IsNorm` say what they are. */
module Controller {
  import opened Geometry
  import opened Transform
  import opened Rotation
  import opened Mesh
  import opened Projection

  datatype Sliders = Sliders(
    sx: real, sy: real, sz: real,
    tx: real, ty: real, tz: real,
    angle: real,
    axisX: real, axisY: real, axisZ: real)

  /** The initial slider values: unit scale, no translation, angle 0 about the x axis, all
      within the slider ranges. */
  function Defaults(): (d: Sliders)
    ensures InRange(d)
    ensures d.sx == 1.0 && d.sy == 1.0 && d.sz == 1.0 && d.tx == 0.0 && d.ty == 0.0 && d.tz == 0.0
    ensures d.angle == 0.0 && Axis(d) == [1.0, 0.0, 0.0]
  {
    Sliders(1.0, 1.0, 1.0, 0.0, 0.0, 0.0, 0.0, 1.0, 0.0, 0.0)
  }

  /** The slider ranges: scale in [0.5, 2], translation in [-5, 5], angle in [0, 360] degrees,
      axis components in [-1, 1]. No scale slider reaches 0, so the scale matrix is always
      invertible. */
  predicate InRange(sl: Sliders): (r: bool)
    ensures r ==> sl.sx > 0.0 && sl.sy > 0.0 && sl.sz > 0.0
  {
    && 0.5 <= sl.sx <= 2.0 && 0.5 <= sl.sy <= 2.0 && 0.5 <= sl.sz <= 2.0
    && -5.0 <= sl.tx <= 5.0 && -5.0 <= sl.ty <= 5.0 && -5.0 <= sl.tz <= 5.0
    && 0.0 <= sl.angle <= 360.0
    && -1.0 <= sl.axisX <= 1.0 && -1.0 <= sl.axisY <= 1.0 && -1.0 <= sl.axisZ <= 1.0
  }

  function Axis(sl: Sliders): Vec3
  {
    [sl.axisX, sl.axisY, sl.axisZ]
  }

  /** `c` and `s` are the cosine and sine of `angle` degrees: a point of the unit circle, and
      the exact value at the multiples of 90 degrees within the slider range. Both lie in
      [-1, 1]. */
  predicate AngleTrig(angle: real, c: real, s: real): (r: bool)
    ensures r ==> -1.0 <= c <= 1.0 && -1.0 <= s <= 1.0
  {
    && IsTrig(c, s)
    && (angle == 0.0 || angle == 360.0 ==> c == 1.0 && s == 0.0)
    && (angle == 90.0 ==> c == 0.0 && s == 1.0)
    && (angle == 180.0 ==> c == -1.0 && s == 0.0)
    && (angle == 270.0 ==> c == 0.0 && s == -1.0)
  }

  /** `final_matrix` of `update`, or the error for a zero axis. */
  function FinalTransform(sl: Sliders, norm: real, c: real, s: real): (r: Result<Mat4>)
    requires IsNorm(Axis(sl), norm) && AngleTrig(sl.angle, c, s)
    ensures r.Err? <==> Axis(sl) == [0.0, 0.0, 0.0]
    ensures r.Ok? ==> Affine(r.value)
  {
    match CreateRotation(Axis(sl), norm, c, s)
    case Err(e) => Err(e)
    case Ok(rotation) =>
      Ok(FinalMatrix(ScaleMatrix(sl.sx, sl.sy, sl.sz), TranslationMatrix(sl.tx, sl.ty, sl.tz), rotation))
  }

  /** The vertices `update` draws: the base vertices under the final matrix. Each vertex is
      rotated, then translated, then scaled; one output vertex per base vertex, in order. */
  function Update(sl: Sliders, norm: real, c: real, s: real, base: seq<Vec3>): (r: Result<seq<Vec3>>)
    requires IsNorm(Axis(sl), norm) && AngleTrig(sl.angle, c, s)
    ensures r.Err? <==> Axis(sl) == [0.0, 0.0, 0.0]
    ensures r.Ok? ==>
      var rotation := CreateRotation(Axis(sl), norm, c, s).value;
      && |r.value| == |base|
      && forall i :: 0 <= i < |base| ==>
           r.value[i] == TransformPoint(ScaleMatrix(sl.sx, sl.sy, sl.sz),
                           TransformPoint(TranslationMatrix(sl.tx, sl.ty, sl.tz),
                             TransformPoint(rotation, base[i])))
  {
    match FinalTransform(sl, norm, c, s)
    case Err(e) => Err(e)
    case Ok(m) =>
      var rotation := CreateRotation(Axis(sl), norm, c, s).value;
      var scale, translation := ScaleMatrix(sl.sx, sl.sy, sl.sz), TranslationMatrix(sl.tx, sl.ty, sl.tz);
      FinalMatrixOrder(scale, translation, rotation, base);
      Ok(ApplyTransformation(base, m))
  }

  /** The linear part of the final matrix scales volumes by sx * sy * sz: translation and
      rotation do not change volume. */
  lemma FinalTransformDeterminant(sl: Sliders, norm: real, c: real, s: real)
    requires IsNorm(Axis(sl), norm) && AngleTrig(sl.angle, c, s)
    ensures var r := FinalTransform(sl, norm, c, s);
      r.Ok? ==> Det3(r.value) == sl.sx * sl.sy * sl.sz
  {
    var r := CreateRotation(Axis(sl), norm, c, s);
    if r.Ok? {
      var scale, translation := ScaleMatrix(sl.sx, sl.sy, sl.sz), TranslationMatrix(sl.tx, sl.ty, sl.tz);
      calc {
        Det3(FinalTransform(sl, norm, c, s).value);
        Det3(FinalMatrix(scale, translation, r.value));
        { FinalMatrixDeterminant(scale, translation, r.value); }
        Det3(scale);
        sl.sx * sl.sy * sl.sz;
      }
    }
  }

  /** Unit scale, zero translation and an angle of 0 or 360 degrees about any nonzero axis
      draw the letter exactly as built. */
  lemma NeutralSlidersLeaveBaseUnchanged(sl: Sliders, norm: real, c: real, s: real, base: seq<Vec3>)
    requires IsNorm(Axis(sl), norm) && AngleTrig(sl.angle, c, s)
    requires sl.sx == 1.0 && sl.sy == 1.0 && sl.sz == 1.0
    requires sl.tx == 0.0 && sl.ty == 0.0 && sl.tz == 0.0
    requires sl.angle == 0.0 || sl.angle == 360.0
    requires Axis(sl) != [0.0, 0.0, 0.0]
    ensures Update(sl, norm, c, s, base) == Ok(base)
  {
    assert ScaleMatrix(1.0, 1.0, 1.0) == Identity();
    assert TranslationMatrix(0.0, 0.0, 0.0) == Identity();
    MulIdentity(Identity());
    var m := FinalTransform(sl, norm, c, s).value;
    assert m == Identity();
    IdentityLeavesUnchanged(base);
  }

  /** With every slider at its initial value the letter is drawn exactly as built. */
  lemma DefaultsLeaveBaseUnchanged(norm: real, c: real, s: real, base: seq<Vec3>)
    requires IsNorm(Axis(Defaults()), norm) && AngleTrig(Defaults().angle, c, s)
    ensures Update(Defaults(), norm, c, s, base) == Ok(base)
  {
    NeutralSlidersLeaveBaseUnchanged(Defaults(), norm, c, s, base);
  }

  lemma ProductAbove(a: real, b: real, x: real)
    requires a > 1.0 && b > 1.0 && a * b <= x
    ensures x > 1.0
  {
  }

  lemma ProductBelow(a: real, b: real, x: real)
    requires 0.0 <= a < 1.0 && 0.0 <= b < 1.0 && a * b >= x
    ensures x < 1.0
  {
    assert a * b <= a;
  }

  /** A norm of square 1 is 1. */
  lemma UnitNorm(norm: real, x: real)
    requires norm >= 0.0 && x == norm * norm && x == 1.0
    ensures norm == 1.0
  {
    if norm > 1.0 {
      ProductAbove(norm, norm, x);
    } else if norm < 1.0 {
      ProductBelow(norm, norm, x);
    }
  }

  /** A quarter turn about the z axis sends vertex 0 of the letter, (1, 1, 0), to (-1, 1, 0). */
  lemma QuarterTurnScenario(norm: real, c: real, s: real)
    requires IsNorm([0.0, 0.0, 1.0], norm) && AngleTrig(90.0, c, s)
    ensures var sl := Defaults().(angle := 90.0, axisX := 0.0, axisZ := 1.0);
      var r := Update(sl, norm, c, s, CreateLetterK().vertices);
      r.Ok? && r.value[0] == [-1.0, 1.0, 0.0]
  {
    var sl := Defaults().(angle := 90.0, axisX := 0.0, axisZ := 1.0);
    assert Axis(sl) == [0.0, 0.0, 1.0];
    UnitNorm(norm, norm * norm);
    var p := CreateLetterK().vertices[0];
    var rotation := CreateRotation(Axis(sl), norm, c, s).value;
    assert Normalize(Axis(sl), norm) == [0.0, 0.0, 1.0];
    assert rotation == RotationMatrix(0.0, 0.0, 1.0, 0.0, 1.0);
    var q := TransformPoint(rotation, p);
    assert q[0] == -1.0 && q[1] == 1.0 && q[2] == 0.0;
    TranslationActs(0.0, 0.0, 0.0, q);
    ScaleActs(1.0, 1.0, 1.0, q);
  }

  /** The slider ranges admit a zero axis (all three axis sliders at 0); the source then
      divides by a zero norm, and the model reports the error. */
  lemma ZeroAxisIsReachable(base: seq<Vec3>)
    ensures var sl := Defaults().(axisX := 0.0);
      && InRange(sl) && IsNorm(Axis(sl), 0.0) && AngleTrig(sl.angle, 1.0, 0.0)
      && Update(sl, 0.0, 1.0, 0.0, base) == Err(ZeroRotationAxis)
  {
    var sl := Defaults().(axisX := 0.0);
    assert Axis(sl) == [0.0, 0.0, 0.0];
  }

  /** At angle 0 the rotation is the identity, so a drawn vertex is the base vertex
      translated, then scaled. */
  lemma UnrotatedVertex(sl: Sliders, norm: real, c: real, s: real, base: seq<Vec3>, i: int)
    requires IsNorm(Axis(sl), norm) && AngleTrig(sl.angle, c, s)
    requires sl.angle == 0.0 && Axis(sl) != [0.0, 0.0, 0.0] && 0 <= i < |base|
    ensures Update(sl, norm, c, s, base).Ok?
    ensures Update(sl, norm, c, s, base).value[i]
         == TransformPoint(ScaleMatrix(sl.sx, sl.sy, sl.sz),
              TransformPoint(TranslationMatrix(sl.tx, sl.ty, sl.tz), base[i]))
  {
    assert CreateRotation(Axis(sl), norm, c, s).value == Identity();
    IdentityFixesPoint(base[i]);
  }

  /** Scale X at 2 sends vertex 0 of the letter, (1, 1, 0), to (2, 1, 0). */
  lemma ScaleScenario(norm: real, c: real, s: real)
    requires IsNorm(Axis(Defaults()), norm) && AngleTrig(0.0, c, s)
    ensures var sl := Defaults().(sx := 2.0);
      var r := Update(sl, norm, c, s, CreateLetterK().vertices);
      r.Ok? && r.value[0] == [2.0, 1.0, 0.0]
  {
    var sl := Defaults().(sx := 2.0);
    var p := CreateLetterK().vertices[0];
    UnrotatedVertex(sl, norm, c, s, CreateLetterK().vertices, 0);
    assert TranslationMatrix(0.0, 0.0, 0.0) == Identity();
    IdentityFixesPoint(p);
    ScaleActs(2.0, 1.0, 1.0, p);
  }

  /** Translate X at 3 sends vertex 0 of the letter, (1, 1, 0), to (4, 1, 0). */
  lemma TranslateScenario(norm: real, c: real, s: real)
    requires IsNorm(Axis(Defaults()), norm) && AngleTrig(0.0, c, s)
    ensures var sl := Defaults().(tx := 3.0);
      var r := Update(sl, norm, c, s, CreateLetterK().vertices);
      r.Ok? && r.value[0] == [4.0, 1.0, 0.0]
  {
    var sl := Defaults().(tx := 3.0);
    var p := CreateLetterK().vertices[0];
    UnrotatedVertex(sl, norm, c, s, CreateLetterK().vertices, 0);
    TranslationActs(3.0, 0.0, 0.0, p);
    assert ScaleMatrix(1.0, 1.0, 1.0) == Identity();
    IdentityFixesPoint(TransformPoint(TranslationMatrix(3.0, 0.0, 0.0), p));
  }

  /** After any update that succeeds, each of the three projections of the letter draws all
      20 vertices and 17 polylines, each polyline through its face's four vertices, without
      returning to the first one. */
  lemma UpdateProjectionsDrawn(sl: Sliders, norm: real, c: real, s: real, name: string)
    requires IsNorm(Axis(sl), norm) && AngleTrig(sl.angle, c, s)
    requires name == "xy" || name == "xz" || name == "yz"
    ensures var mesh := CreateLetterK();
      var r := Update(sl, norm, c, s, mesh.vertices);
      r.Ok? ==>
        var d := Project(r.value, mesh.faces, name);
        && d.Drawn? && |d.points| == 20 && |d.polylines| == 17
        && forall k :: 0 <= k < 17 ==> |d.polylines[k]| == 4
  {
    var mesh := CreateLetterK();
    var r := Update(sl, norm, c, s, mesh.vertices);
    if r.Ok? {
      assert FacesInBounds(|r.value|, mesh.faces);
    }
  }
}
