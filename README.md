# Letter K transform kernel, modelled in Dafny

`lab6.py` draws a block letter K and lets ten sliders scale, translate and rotate it.
It shows the letter in 3D and projected onto the xy, xz and yz planes. This project
models the geometry behind those views, with numbers as exact Dafny `real`s:

- **Mesh**: `create_letter_K`, 20 vertices on two layers (z = 0 and z = 1) and 17
  quadrilateral faces given as vertex-index lists (module `Mesh`).
- **Builders**: the 4x4 homogeneous scale, translation and axis-angle (Rodrigues)
  rotation matrices (modules `Transform` and `Rotation`). Matrices are sequences of rows
  over the matrix algebra of module `Geometry`.
- **Product chain**: `scale @ translation @ rotation`.
- **`apply_transformation`**: lift every vertex to homogeneous form, multiply the rows by
  the transpose of the matrix, and drop the fourth coordinate. It is modelled literally and
  proved equal to applying the matrix to each point on its own.
- **`plot_projection` selection**: for each plane, the coordinate pair of each vertex for
  the scatter plot, and for each face the polyline through its vertices, gathered by numpy
  fancy indexing (module `Projection`).
- **`update`**: a pure function from the ten slider values and the base vertices to the
  drawn vertices (module `Controller`).

`create_rotation_matrix` gets `np.radians`, `np.cos`, `np.sin` and `np.linalg.norm` from
numpy. In the model these values are parameters:

- `norm` is the axis length: `IsNorm` requires `norm >= 0` and
  `norm * norm == x² + y² + z²`.
- `c` and `s` are the cosine and sine: `IsTrig` requires `c² + s² = 1`.
- In `update`, `AngleTrig` also fixes their exact values at 0, 90, 180, 270 and 360 degrees.

The source divides the axis by its norm. For the zero axis, which the slider ranges allow,
numpy warns `RuntimeWarning: invalid value encountered in divide`, the matrix entries are
NaN, the NaN matrix is printed (lab6.py:126-127), and no error is raised. The model returns
`Err(ZeroRotationAxis)` instead (`Rotation.CreateRotation`, `Controller.ZeroAxisIsReachable`).

## Model

| member | source | states |
|---|---|---|
| Geometry.Mul | lab6.py:124 | entry (i, j) of `a @ b` is row i of `a` times column j of `b` |
| Geometry.Transpose | lab6.py:69 | entry (i, j) of `m.T` is entry (j, i) of `m` |
| Geometry.RowTimesTranspose | lab6.py:69 | the row product `h @ m.T` is `m` applied to `h` as a column |
| Geometry.MatVecMul | lab6.py:124 | applying a product of matrices is applying the right factor first, then the left one |
| Geometry.AffineMul | lab6.py:124 | a product of two matrices with bottom row [0, 0, 0, 1] has that bottom row |
| Geometry.AffineKeepsW | lab6.py:68-70 | a matrix with bottom row [0, 0, 0, 1] keeps the homogeneous coordinate of a point at 1 |
| Geometry.OrthogonalPreservesLength | lab6.py:96-101 | a matrix with orthonormal columns keeps the length of every vector |
| Geometry.Det3Mul | lab6.py:124 | when the right factor is affine, the determinant of the 3x3 block of a product is the product of the determinants |
| Transform.Lift | lab6.py:68 | the homogeneous point keeps the three coordinates and appends 1 |
| Transform.Drop | lab6.py:70 | on a point whose fourth coordinate is 1, dropping it and lifting again gives the point back |
| Transform.ScaleMatrix | lab6.py:72-78 | bottom row [0, 0, 0, 1]; the 3x3 block has determinant sx·sy·sz; the matrix is the identity exactly when sx = sy = sz = 1 |
| Transform.TranslationMatrix | lab6.py:80-86 | bottom row [0, 0, 0, 1]; the 3x3 block is the identity, so its determinant is 1; the matrix is the identity exactly when tx = ty = tz = 0 |
| Transform.FinalMatrix | lab6.py:124 | the product chain of three matrices with bottom row [0, 0, 0, 1] has that bottom row |
| Transform.ApplyTransformation | lab6.py:67-70 | one output point per input point, in the same order; output point i is the matrix applied to input point i alone |
| Transform.ScaleActs | lab6.py:72-78 | the scale matrix sends (x, y, z) to (sx·x, sy·y, sz·z) |
| Transform.TranslationActs | lab6.py:80-86 | the translation matrix sends (x, y, z) to (x + tx, y + ty, z + tz) |
| Transform.DropLosesNothing | lab6.py:68-70 | under such a matrix the fourth coordinate stays 1, so dropping it loses nothing |
| Transform.TransformPointMul | lab6.py:124 | for an affine right factor, applying a product to a point is applying the factors one after the other |
| Transform.FinalMatrixOrder | lab6.py:124 | applying `scale @ translation @ rotation` equals rotating, then translating, then scaling, point by point |
| Transform.IdentityLeavesUnchanged | lab6.py:67-70 | the identity matrix returns every vertex list unchanged |
| Transform.ScaleRoundTrip | lab6.py:72-78 | scaling by nonzero factors and then by their reciprocals gives back every vertex |
| Transform.TranslationRoundTrip | lab6.py:80-86 | translating by an offset and then by its negation gives back every vertex |
| Transform.FinalMatrixDeterminant | lab6.py:124 | the product chain has the scale's determinant when translation and rotation have determinant 1 |
| Transform.OrthogonalIsometry | lab6.py:67-70 | an affine matrix with orthonormal columns keeps the distance between any two points |
| Rotation.CreateRotation | lab6.py:88-101 | an error exactly for the zero axis; otherwise a proper rotation that fixes the normalised axis u, sends every point p to c·p + s·(u × p) + (1 − c)(u · p)·u (Rodrigues' formula), has trace 1 + 2c, and is the identity for c = 1, s = 0 |
| Rotation.RotationMatrix | lab6.py:94-101 | bottom row and last column (0, 0, 0, 1); the antisymmetric part is 2s times the axis; the trace of the 3x3 block is 3c + (1 − c)·\|axis\|² |
| Rotation.Normalize | lab6.py:90 | each component times the norm is the axis component |
| Rotation.RotationActs | lab6.py:94-101 | for any axis u and any c, s the matrix sends every point p to c·p + s·(u × p) + (1 − c)(u · p)·u |
| Rotation.RotationTrace | lab6.py:94-101 | for a unit axis the trace of the 3x3 block is 1 + 2c, so c is the cosine of the angle turned |
| Rotation.ZeroNormIffZeroAxis | lab6.py:90 | the axis norm is zero exactly when the axis is the zero vector |
| Rotation.NormalizeIsUnit | lab6.py:90 | the axis divided by its norm has length 1 |
| Rotation.RotationIsRotation | lab6.py:94-101 | for a unit axis and c² + s² = 1 the columns are orthonormal (RᵀR = I), the 4th row and column are (0, 0, 0, 1), and the determinant is 1 |
| Rotation.RotationDeterminant | lab6.py:94-101 | for a unit axis and c² + s² = 1 the 3x3 block has determinant 1 |
| Rotation.RotationFixesAxis | lab6.py:94-101 | for a unit axis the rotation maps the axis to itself |
| Rotation.ZeroAngleIsIdentity | lab6.py:92-101 | cosine 1 and sine 0 (angle 0 or 360 degrees) give the identity matrix for any axis |
| Rotation.NegatedAngleIsTranspose | lab6.py:92-101 | negating the angle transposes the rotation |
| Rotation.RotationRoundTrip | lab6.py:88-101 | rotating by θ and then by -θ about the same unit axis gives back every vertex |
| Rotation.RotationIsometry | lab6.py:88-101 | a rotation keeps the distance between any two points |
| Mesh.LetterKVertices | lab6.py:8-11 | 20 vertices: the first ten at z = 0, and vertex i + 10 is vertex i lifted to z = 1 |
| Mesh.LetterKFaces | lab6.py:13-17 | 17 faces of four distinct vertex indices each, all in 0..19 |
| Mesh.CreateLetterK | lab6.py:7-19 | 20 vertices and 17 faces; every face has 4 indices, all in 0..19; vertex 0 is (1, 1, 0) |
| Mesh.CreateLetterKCorrected | lab6.py:7-19 | the same counts and index bounds for the mesh with face 7 corrected |
| Mesh.FaceSevenAsWrittenIsBowTie | lab6.py:15 | face `[1, 3, 11, 13]` has sides 3→11 and 13→1 that are distinct segments with the same midpoint (1.5, 6, 0.5), so they cross, and the face does not turn the same way at every corner |
| Mesh.CorrectedFacesAreConvexLoops | lab6.py:13-17 | with face 7 as `[1, 3, 13, 11]`, every one of the 17 faces is a convex loop, and so is every face of `CreateLetterKCorrected()` |
| Mesh.CorrectionOnlyReordersFaceSeven | lab6.py:13-17 | the corrected face list differs from the one as written only in the order of face 7's corners |
| Projection.PlaneOf | lab6.py:41-61 | the names 'xy', 'xz' and 'yz' select their planes, and no other name selects one |
| Projection.Select | lab6.py:44-60 | the slices `[:, :2]`, `[:, [0, 2]]` and `[:, 1:]` select the coordinate pairs (0, 1), (0, 2) and (1, 2) |
| Projection.AxesPartitionCoordinates | lab6.py:41-57 | the two selected coordinates and the plane's normal are the three coordinates |
| Projection.SelectIgnoresNormal | lab6.py:44-60 | moving a vertex along the plane's normal does not move its projection |
| Projection.Wrap | lab6.py:46 | a numpy index in -n..n-1 names the vertex it denotes, negative ones counting from the end |
| Projection.Polyline | lab6.py:45-61 | the polyline of a face has one point per face index, in face order: the selected pair of the vertex that index denotes, negative indices counting from the end |
| Projection.Project | lab6.py:39-61 | unknown plane: nothing. Out-of-range face index: IndexError. Otherwise the selected pair of every vertex, in order, and per face a polyline of the face's length through the face's vertices in face order, not closed |
| Controller.Defaults | lab6.py:174-185 | the initial slider values: scale 1, translation 0, angle 0 about axis (1, 0, 0), all within the slider ranges |
| Controller.InRange | lab6.py:174-185 | within the slider ranges every scale factor is positive, hence nonzero, as `Transform.ScaleRoundTrip` requires |
| Controller.AngleTrig | lab6.py:89-93 | the cosine and sine are a point of the unit circle with the exact values at 0, 90, 180, 270 and 360 degrees, both in [-1, 1] |
| Controller.FinalTransform | lab6.py:119-124 | `final_matrix` exists exactly when the axis is nonzero, and has bottom row [0, 0, 0, 1] |
| Controller.Update | lab6.py:103-129 | an error exactly for a zero axis; otherwise every base vertex rotated, then translated, then scaled, in order |
| Controller.FinalTransformDeterminant | lab6.py:119-124 | the final matrix scales volumes by sx·sy·sz |
| Controller.NeutralSlidersLeaveBaseUnchanged | lab6.py:103-129 | unit scale, zero translation and an angle of 0 or 360 degrees about any nonzero axis return the base vertices unchanged |
| Controller.DefaultsLeaveBaseUnchanged | lab6.py:174-185 | the initial slider state returns the base vertices unchanged |
| Controller.ZeroAxisIsReachable | lab6.py:183-185 | the axis sliders can all be 0 within their ranges, and then the update reports the zero-axis error |
| Controller.ScaleScenario | lab6.py:119-129 | scale X at 2 sends vertex 0 = (1, 1, 0) to (2, 1, 0) |
| Controller.TranslateScenario | lab6.py:119-129 | translate X at 3 sends vertex 0 = (1, 1, 0) to (4, 1, 0) |
| Controller.QuarterTurnScenario | lab6.py:88-101 | a 90-degree turn about (0, 0, 1) sends vertex 0 = (1, 1, 0) to (-1, 1, 0) |
| Controller.UpdateProjectionsDrawn | lab6.py:129-133 | after a successful update, each of the three projections draws 20 points and 17 polylines of 4 points each |

## Left out

- Drawing is not modelled: `plot_3d_object` (lab6.py:21-37) and the axis clearing, labels, limits, scatter and plot calls of `plot_projection`. Only which coordinates are selected is modelled.
- The slider construction and `on_changed` wiring (lab6.py:156-198) are user interface and are not modelled. Their ranges and initial values appear as `Controller.InRange` and `Controller.Defaults`.
- The printing of the final matrix (lab6.py:126-127) is diagnostic output and is not modelled.
- The `if name == "main":` block (lab6.py:134-198) sits inside `update` and is entry-point plumbing, so it is not modelled.
- Floating point is not modelled; arithmetic is exact over the reals, with no rounding and no tolerance.
- `np.radians`, `np.cos`, `np.sin` and `np.linalg.norm` are parameters constrained by `IsTrig`, `AngleTrig` and `IsNorm`. Their values at other angles are not computed.
- Rotation.CreateRotation: for the zero axis the source produces NaN entries without an error. The model returns `Err(ZeroRotationAxis)`, because NaN has no counterpart over the reals.
- The global `vertices` and `faces` of `update` and `plot_projection` are parameters here. `update` declares `global vertices` (lab6.py:104), and the entry-point line inside it (lab6.py:135) reassigns `vertices` to the base mesh; the transformed vertices are never stored back, so each update starts from the base vertices, as `Controller.Update` does.
- `update` as written cannot run: the assignment to `faces` at lab6.py:135, and the slider and axes assignments at lab6.py:137-185, make those names local to `update`, so its first slider read (lab6.py:106) raises `UnboundLocalError`. `Controller.Update` models the evidently intended callback, which reads the module-level sliders and faces.
- The integer dtype of the vertex array built at lab6.py:19 is not modelled; vertices are reals from the start.
- numpy shapes and broadcasting are not modelled. Only 3-vectors, 4-vectors and 4x4 matrices occur.
- Projection.Project: when a face index is out of range, the source has already drawn the scatter points and any earlier polylines before raising. The model reports only `IndexError`.
- Face index lists hold Python integers. Other index kinds numpy would accept (boolean masks, arrays) are not modelled.

## Findings

| source | as written | input that shows it | evidently intended | confidence | as-written member | corrected member |
|---|---|---|---|---|---|---|
| lab6.py:15 | face 7 is `[1, 3, 11, 13]` | its corners (1,6,0), (2,6,0), (1,6,1), (2,6,1) in that order: sides 3→11 and 13→1 are the two crossing diagonals of the wall at y = 6, so the face is drawn as a bow tie | `[1, 3, 13, 11]`, which goes around the wall's boundary like the other 16 faces | high that the order is wrong, not executed | Mesh.FaceSevenAsWrittenIsBowTie | Mesh.CorrectedFacesAreConvexLoops |
