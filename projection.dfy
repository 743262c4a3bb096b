/** The coordinate selection inside `plot_projection` (lab6.py): for the plane 'xy', 'xz'
    or 'yz' it selects two coordinates of every vertex for the scatter plot, and for every
    face the polyline through that face's vertices, gathered by numpy fancy indexing. */
module Projection {
  import opened Geometry

  datatype Option<T> = None | Some(value: T)

  datatype Plane = XY | XZ | YZ

  /** The plane names the source compares against; any other name matches no branch. */
  function PlaneOf(name: string): (p: Option<Plane>)
    ensures p == Some(XY) <==> name == "xy"
    ensures p == Some(XZ) <==> name == "xz"
    ensures p == Some(YZ) <==> name == "yz"
  {
    if name == "xy" then Some(XY)
    else if name == "xz" then Some(XZ)
    else if name == "yz" then Some(YZ)
    else None
  }

  /** The axis labels the source sets for each plane, as coordinate numbers (X = 0, Y = 1,
      Z = 2): the horizontal axis, then the vertical one. */
  function Axes(p: Plane): (int, int)
  {
    match p
    case XY => (0, 1)
    case XZ => (0, 2)
    case YZ => (1, 2)
  }

  /** The coordinate a plane leaves out: the direction it is seen along. */
  function Normal(p: Plane): int
  {
    match p
    case XY => 2
    case XZ => 1
    case YZ => 0
  }

  /** The column slice the source applies to one vertex: `[:, :2]`, `[:, [0, 2]]`, `[:, 1:]`. */
  function Select(v: Vec3, p: Plane): (q: seq<real>)
    ensures |q| == 2
    ensures q[0] == v[Axes(p).0] && q[1] == v[Axes(p).1]
  {
    match p
    case XY => v[..2]
    case XZ => [v[0], v[2]]
    case YZ => v[1..]
  }

  /** The two selected coordinates and the left-out one are the three coordinates. */
  lemma AxesPartitionCoordinates(p: Plane)
    ensures var (a, b) := Axes(p); {a, b, Normal(p)} == {0, 1, 2} && a < b
  {
  }

  /** Moving a vertex along the plane's normal does not move its projection. */
  lemma SelectIgnoresNormal(v: Vec3, w: Vec3, p: Plane)
    requires forall i :: 0 <= i < 3 && i != Normal(p) ==> v[i] == w[i]
    ensures Select(v, p) == Select(w, p)
  {
    var (a, b) := Axes(p);
    AxesPartitionCoordinates(p);
    assert v[a] == w[a] && v[b] == w[b];
  }

  /** numpy accepts an index in -n .. n-1; a negative one counts from the end. */
  predicate InBounds(n: int, i: int)
  {
    -n <= i < n
  }

  function Wrap(n: int, i: int): (k: int)
    requires InBounds(n, i)
    ensures 0 <= k < n
    ensures k == i || k == i + n
  {
    if i < 0 then i + n else i
  }

  /** Every index of every face is one numpy accepts for `n` vertices. */
  predicate FacesInBounds(n: int, faces: seq<seq<int>>)
  {
    forall k, j :: 0 <= k < |faces| && 0 <= j < |faces[k]| ==> InBounds(n, faces[k][j])
  }

  datatype Drawing =
    | Drawn(points: seq<seq<real>>, polylines: seq<seq<seq<real>>>)
    | Nothing
    | IndexError

  /** `vertices[edge][:, cols]` for one face: the face's vertices in the face's order. */
  function Polyline(vertices: seq<Vec3>, face: seq<int>, p: Plane): (line: seq<seq<real>>)
    requires forall j :: 0 <= j < |face| ==> InBounds(|vertices|, face[j])
    ensures |line| == |face|
    ensures forall j :: 0 <= j < |face| ==> line[j] == Select(vertices[Wrap(|vertices|, face[j])], p)
  {
    seq(|face|, j requires 0 <= j < |face| => Select(vertices[Wrap(|vertices|, face[j])], p))
  }

  /** `plot_projection(ax, vertices, plane)` without the drawing: the scatter points and one
      polyline per face. An unknown plane draws nothing; a face index numpy rejects raises
      IndexError. */
  function Project(vertices: seq<Vec3>, faces: seq<seq<int>>, name: string): (d: Drawing)
    ensures d.Nothing? <==> PlaneOf(name).None?
    ensures d.IndexError? <==> PlaneOf(name).Some? && !FacesInBounds(|vertices|, faces)
    ensures d.Drawn? ==>
      var (a, b) := Axes(PlaneOf(name).value);
      && |d.points| == |vertices|
      && (forall i :: 0 <= i < |vertices| ==> d.points[i] == [vertices[i][a], vertices[i][b]])
      && |d.polylines| == |faces|
      && (forall k :: 0 <= k < |faces| ==> |d.polylines[k]| == |faces[k]|)
      && (forall k, j :: 0 <= k < |faces| && 0 <= j < |faces[k]| ==>
            d.polylines[k][j] == d.points[Wrap(|vertices|, faces[k][j])])
  {
    match PlaneOf(name)
    case None => Nothing
    case Some(p) =>
      if !FacesInBounds(|vertices|, faces) then
        IndexError
      else
        var points := seq(|vertices|, i requires 0 <= i < |vertices| => Select(vertices[i], p));
        var lines := seq(|faces|, k requires 0 <= k < |faces| => Polyline(vertices, faces[k], p));
        Drawn(points, lines)
  }
}
