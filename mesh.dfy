/** The fixed mesh of lab6.py: `create_letter_K`, a block letter K of 20 vertices (two
    layers, z = 0 and z = 1) and 17 quadrilateral faces given as index lists. */
module Mesh {
  import opened Geometry

  datatype Mesh = Mesh(vertices: seq<Vec3>, faces: seq<seq<int>>)

  /** Every face has exactly four indices, each naming one of the vertices. */
  predicate WellFormed(m: Mesh)
  {
    forall k :: 0 <= k < |m.faces| ==>
      |m.faces[k]| == 4 && forall j :: 0 <= j < 4 ==> 0 <= m.faces[k][j] < |m.vertices|
  }

  /** The letter is an extrusion: vertices 0..9 outline it at z = 0, and vertex i + 10 is
      vertex i lifted to z = 1. */
  function LetterKVertices(): (v: seq<Vec3>)
    ensures |v| == 20
    ensures forall i :: 0 <= i < 10 ==> v[i][2] == 0.0 && v[i + 10] == [v[i][0], v[i][1], 1.0]
  {
    [[1.0, 1.0, 0.0], [1.0, 6.0, 0.0], [2.0, 1.0, 0.0], [2.0, 6.0, 0.0], [2.0, 3.0, 0.0],
     [2.0, 4.0, 0.0], [4.0, 1.0, 0.0], [5.0, 1.0, 0.0], [4.0, 6.0, 0.0], [5.0, 6.0, 0.0],
     [1.0, 1.0, 1.0], [1.0, 6.0, 1.0], [2.0, 1.0, 1.0], [2.0, 6.0, 1.0], [2.0, 3.0, 1.0],
     [2.0, 4.0, 1.0], [4.0, 1.0, 1.0], [5.0, 1.0, 1.0], [4.0, 6.0, 1.0], [5.0, 6.0, 1.0]]
  }

  /** The face list exactly as the source writes it; face 7 is `[1, 3, 11, 13]`. Each of the
      17 faces names four different vertices, all among the 20. */
  function LetterKFaces(): (f: seq<seq<int>>)
    ensures |f| == 17
    ensures forall k :: 0 <= k < 17 ==> |f[k]| == 4 && forall j :: 0 <= j < 4 ==> 0 <= f[k][j] < 20
    ensures forall k, i, j :: 0 <= k < 17 && 0 <= i < j < 4 ==> f[k][i] != f[k][j]
  {
    [[0, 1, 3, 2], [4, 5, 7, 6], [5, 4, 9, 8], [10, 11, 13, 12], [14, 15, 17, 16],
     [15, 14, 19, 18], [0, 10, 11, 1], [1, 3, 11, 13], [13, 3, 5, 15], [5, 15, 18, 8],
     [8, 18, 19, 9], [19, 9, 4, 14], [5, 15, 17, 7], [7, 17, 16, 6], [16, 6, 4, 14],
     [14, 4, 2, 12], [12, 2, 0, 10]]
  }

  /** The face list with face 7 visiting its corners around the boundary, `[1, 3, 13, 11]`. */
  function LetterKFacesCorrected(): seq<seq<int>>
  {
    LetterKFaces()[7 := [1, 3, 13, 11]]
  }

  /** `create_letter_K()`: 20 vertices, 17 faces of four valid indices each. */
  function CreateLetterK(): (m: Mesh)
    ensures |m.vertices| == 20 && |m.faces| == 17
    ensures WellFormed(m)
    ensures m.vertices[0] == [1.0, 1.0, 0.0]
  {
    Mesh(LetterKVertices(), LetterKFaces())
  }

  /** The mesh with the corrected face 7; same vertices, same counts, still well formed. */
  function CreateLetterKCorrected(): (m: Mesh)
    ensures |m.vertices| == 20 && |m.faces| == 17
    ensures WellFormed(m)
    ensures m.vertices[0] == [1.0, 1.0, 0.0]
  {
    Mesh(LetterKVertices(), LetterKFacesCorrected())
  }

  /** The turn at corner b of the path a -> b -> c: the cross product (b - a) x (c - b). */
  function Turn(a: Vec3, b: Vec3, c: Vec3): Vec3
  {
    var ux, uy, uz := b[0] - a[0], b[1] - a[1], b[2] - a[2];
    var wx, wy, wz := c[0] - b[0], c[1] - b[1], c[2] - b[2];
    [uy * wz - uz * wy, uz * wx - ux * wz, ux * wy - uy * wx]
  }

  /** The component of the turn at corner b along the direction n. */
  function TurnAlong(a: Vec3, b: Vec3, c: Vec3, n: Vec3): real
  {
    var t := Turn(a, b, c);
    t[0] * n[0] + t[1] * n[1] + t[2] * n[2]
  }

  /** The quadrilateral p0 p1 p2 p3, read as a closed boundary, turns the same way at every
      corner: a convex polygon traversed around its edge, not a bow tie whose sides cross. */
  predicate ConvexLoop(p0: Vec3, p1: Vec3, p2: Vec3, p3: Vec3)
  {
    var n := Turn(p3, p0, p1);
    && TurnAlong(p3, p0, p1, n) > 0.0
    && TurnAlong(p0, p1, p2, n) > 0.0
    && TurnAlong(p1, p2, p3, n) > 0.0
    && TurnAlong(p2, p3, p0, n) > 0.0
  }

  predicate FaceIsConvexLoop(vertices: seq<Vec3>, face: seq<int>)
    requires |face| == 4 && forall j :: 0 <= j < 4 ==> 0 <= face[j] < |vertices|
  {
    ConvexLoop(vertices[face[0]], vertices[face[1]], vertices[face[2]], vertices[face[3]])
  }

  /** The segments a-b and c-d cross: they are different segments with the same midpoint. */
  predicate SidesCross(a: Vec3, b: Vec3, c: Vec3, d: Vec3)
  {
    && a != c && a != d
    && a[0] + b[0] == c[0] + d[0] && a[1] + b[1] == c[1] + d[1] && a[2] + b[2] == c[2] + d[2]
  }

  /** The corners of face 7 as written: vertices 1, 3, 11, 13 are (1,6,0), (2,6,0), (1,6,1),
      (2,6,1), all on the wall y = 6. */
  lemma FaceSevenCorners()
    ensures LetterKFaces()[7] == [1, 3, 11, 13]
    ensures var v := LetterKVertices();
      v[1] == [1.0, 6.0, 0.0] && v[3] == [2.0, 6.0, 0.0] && v[11] == [1.0, 6.0, 1.0] && v[13] == [2.0, 6.0, 1.0]
  {
  }

  /** Face 7 as written is a bow tie: its second side 3 -> 11 and its fourth side 13 -> 1 are
      the two diagonals of the wall y = 6, crossing at (1.5, 6, 0.5), and the loop does not
      turn the same way at every corner. */
  lemma FaceSevenAsWrittenIsBowTie()
    ensures var v, f := LetterKVertices(), LetterKFaces()[7];
      SidesCross(v[f[1]], v[f[2]], v[f[3]], v[f[0]])
    ensures !FaceIsConvexLoop(LetterKVertices(), LetterKFaces()[7])
  {
    FaceSevenCorners();
    var v := LetterKVertices();
    assert Turn(v[13], v[1], v[3]) == [0.0, -1.0, 0.0];
    assert TurnAlong(v[3], v[11], v[13], [0.0, -1.0, 0.0]) < 0.0;
  }

  /** With face 7 corrected, every face of the letter is a convex loop. */
  lemma CorrectedFacesAreConvexLoops()
    ensures forall k :: 0 <= k < 17 ==> FaceIsConvexLoop(LetterKVertices(), LetterKFacesCorrected()[k])
    ensures var m := CreateLetterKCorrected();
      forall k :: 0 <= k < |m.faces| ==> FaceIsConvexLoop(m.vertices, m.faces[k])
  {
    forall k | 0 <= k < 17
      ensures FaceIsConvexLoop(LetterKVertices(), LetterKFacesCorrected()[k])
    {
      if k == 0 {
        FaceConvex0();
      } else if k == 1 {
        FaceConvex1();
      } else if k == 2 {
        FaceConvex2();
      } else if k == 3 {
        FaceConvex3();
      } else if k == 4 {
        FaceConvex4();
      } else if k == 5 {
        FaceConvex5();
      } else if k == 6 {
        FaceConvex6();
      } else if k == 7 {
        FaceConvex7();
      } else if k == 8 {
        FaceConvex8();
      } else if k == 9 {
        FaceConvex9();
      } else if k == 10 {
        FaceConvex10();
      } else if k == 11 {
        FaceConvex11();
      } else if k == 12 {
        FaceConvex12();
      } else if k == 13 {
        FaceConvex13();
      } else if k == 14 {
        FaceConvex14();
      } else if k == 15 {
        FaceConvex15();
      } else {
        FaceConvex16();
      }
    }
  }

  lemma FaceConvex0()
    ensures FaceIsConvexLoop(LetterKVertices(), LetterKFacesCorrected()[0])
  {
    var v, f := LetterKVertices(), LetterKFacesCorrected();
    assert f[0] == [0, 1, 3, 2];
    assert v[0] == [1.0, 1.0, 0.0] && v[1] == [1.0, 6.0, 0.0] && v[3] == [2.0, 6.0, 0.0] && v[2] == [2.0, 1.0, 0.0];
  }

  lemma FaceConvex1()
    ensures FaceIsConvexLoop(LetterKVertices(), LetterKFacesCorrected()[1])
  {
    var v, f := LetterKVertices(), LetterKFacesCorrected();
    assert f[1] == [4, 5, 7, 6];
    assert v[4] == [2.0, 3.0, 0.0] && v[5] == [2.0, 4.0, 0.0] && v[7] == [5.0, 1.0, 0.0] && v[6] == [4.0, 1.0, 0.0];
  }

  lemma FaceConvex2()
    ensures FaceIsConvexLoop(LetterKVertices(), LetterKFacesCorrected()[2])
  {
    var v, f := LetterKVertices(), LetterKFacesCorrected();
    assert f[2] == [5, 4, 9, 8];
    assert v[5] == [2.0, 4.0, 0.0] && v[4] == [2.0, 3.0, 0.0] && v[9] == [5.0, 6.0, 0.0] && v[8] == [4.0, 6.0, 0.0];
  }

  lemma FaceConvex3()
    ensures FaceIsConvexLoop(LetterKVertices(), LetterKFacesCorrected()[3])
  {
    var v, f := LetterKVertices(), LetterKFacesCorrected();
    assert f[3] == [10, 11, 13, 12];
    assert v[10] == [1.0, 1.0, 1.0] && v[11] == [1.0, 6.0, 1.0] && v[13] == [2.0, 6.0, 1.0] && v[12] == [2.0, 1.0, 1.0];
  }

  lemma FaceConvex4()
    ensures FaceIsConvexLoop(LetterKVertices(), LetterKFacesCorrected()[4])
  {
    var v, f := LetterKVertices(), LetterKFacesCorrected();
    assert f[4] == [14, 15, 17, 16];
    assert v[14] == [2.0, 3.0, 1.0] && v[15] == [2.0, 4.0, 1.0] && v[17] == [5.0, 1.0, 1.0] && v[16] == [4.0, 1.0, 1.0];
  }

  lemma FaceConvex5()
    ensures FaceIsConvexLoop(LetterKVertices(), LetterKFacesCorrected()[5])
  {
    var v, f := LetterKVertices(), LetterKFacesCorrected();
    assert f[5] == [15, 14, 19, 18];
    assert v[15] == [2.0, 4.0, 1.0] && v[14] == [2.0, 3.0, 1.0] && v[19] == [5.0, 6.0, 1.0] && v[18] == [4.0, 6.0, 1.0];
  }

  lemma FaceConvex6()
    ensures FaceIsConvexLoop(LetterKVertices(), LetterKFacesCorrected()[6])
  {
    var v, f := LetterKVertices(), LetterKFacesCorrected();
    assert f[6] == [0, 10, 11, 1];
    assert v[0] == [1.0, 1.0, 0.0] && v[10] == [1.0, 1.0, 1.0] && v[11] == [1.0, 6.0, 1.0] && v[1] == [1.0, 6.0, 0.0];
  }

  lemma FaceConvex7()
    ensures FaceIsConvexLoop(LetterKVertices(), LetterKFacesCorrected()[7])
  {
    var v, f := LetterKVertices(), LetterKFacesCorrected();
    assert f[7] == [1, 3, 13, 11];
    assert v[1] == [1.0, 6.0, 0.0] && v[3] == [2.0, 6.0, 0.0] && v[13] == [2.0, 6.0, 1.0] && v[11] == [1.0, 6.0, 1.0];
  }

  lemma FaceConvex8()
    ensures FaceIsConvexLoop(LetterKVertices(), LetterKFacesCorrected()[8])
  {
    var v, f := LetterKVertices(), LetterKFacesCorrected();
    assert f[8] == [13, 3, 5, 15];
    assert v[13] == [2.0, 6.0, 1.0] && v[3] == [2.0, 6.0, 0.0] && v[5] == [2.0, 4.0, 0.0] && v[15] == [2.0, 4.0, 1.0];
  }

  lemma FaceConvex9()
    ensures FaceIsConvexLoop(LetterKVertices(), LetterKFacesCorrected()[9])
  {
    var v, f := LetterKVertices(), LetterKFacesCorrected();
    assert f[9] == [5, 15, 18, 8];
    assert v[5] == [2.0, 4.0, 0.0] && v[15] == [2.0, 4.0, 1.0] && v[18] == [4.0, 6.0, 1.0] && v[8] == [4.0, 6.0, 0.0];
  }

  lemma FaceConvex10()
    ensures FaceIsConvexLoop(LetterKVertices(), LetterKFacesCorrected()[10])
  {
    var v, f := LetterKVertices(), LetterKFacesCorrected();
    assert f[10] == [8, 18, 19, 9];
    assert v[8] == [4.0, 6.0, 0.0] && v[18] == [4.0, 6.0, 1.0] && v[19] == [5.0, 6.0, 1.0] && v[9] == [5.0, 6.0, 0.0];
  }

  lemma FaceConvex11()
    ensures FaceIsConvexLoop(LetterKVertices(), LetterKFacesCorrected()[11])
  {
    var v, f := LetterKVertices(), LetterKFacesCorrected();
    assert f[11] == [19, 9, 4, 14];
    assert v[19] == [5.0, 6.0, 1.0] && v[9] == [5.0, 6.0, 0.0] && v[4] == [2.0, 3.0, 0.0] && v[14] == [2.0, 3.0, 1.0];
  }

  lemma FaceConvex12()
    ensures FaceIsConvexLoop(LetterKVertices(), LetterKFacesCorrected()[12])
  {
    var v, f := LetterKVertices(), LetterKFacesCorrected();
    assert f[12] == [5, 15, 17, 7];
    assert v[5] == [2.0, 4.0, 0.0] && v[15] == [2.0, 4.0, 1.0] && v[17] == [5.0, 1.0, 1.0] && v[7] == [5.0, 1.0, 0.0];
  }

  lemma FaceConvex13()
    ensures FaceIsConvexLoop(LetterKVertices(), LetterKFacesCorrected()[13])
  {
    var v, f := LetterKVertices(), LetterKFacesCorrected();
    assert f[13] == [7, 17, 16, 6];
    assert v[7] == [5.0, 1.0, 0.0] && v[17] == [5.0, 1.0, 1.0] && v[16] == [4.0, 1.0, 1.0] && v[6] == [4.0, 1.0, 0.0];
  }

  lemma FaceConvex14()
    ensures FaceIsConvexLoop(LetterKVertices(), LetterKFacesCorrected()[14])
  {
    var v, f := LetterKVertices(), LetterKFacesCorrected();
    assert f[14] == [16, 6, 4, 14];
    assert v[16] == [4.0, 1.0, 1.0] && v[6] == [4.0, 1.0, 0.0] && v[4] == [2.0, 3.0, 0.0] && v[14] == [2.0, 3.0, 1.0];
  }

  lemma FaceConvex15()
    ensures FaceIsConvexLoop(LetterKVertices(), LetterKFacesCorrected()[15])
  {
    var v, f := LetterKVertices(), LetterKFacesCorrected();
    assert f[15] == [14, 4, 2, 12];
    assert v[14] == [2.0, 3.0, 1.0] && v[4] == [2.0, 3.0, 0.0] && v[2] == [2.0, 1.0, 0.0] && v[12] == [2.0, 1.0, 1.0];
  }

  lemma FaceConvex16()
    ensures FaceIsConvexLoop(LetterKVertices(), LetterKFacesCorrected()[16])
  {
    var v, f := LetterKVertices(), LetterKFacesCorrected();
    assert f[16] == [12, 2, 0, 10];
    assert v[12] == [2.0, 1.0, 1.0] && v[2] == [2.0, 1.0, 0.0] && v[0] == [1.0, 1.0, 0.0] && v[10] == [1.0, 1.0, 1.0];
  }

  /** The correction only reorders face 7: every other face is unchanged and face 7 keeps
      the same four corners. */
  lemma CorrectionOnlyReordersFaceSeven()
    ensures |LetterKFacesCorrected()| == |LetterKFaces()|
    ensures forall k :: 0 <= k < 17 && k != 7 ==> LetterKFacesCorrected()[k] == LetterKFaces()[k]
    ensures multiset(LetterKFacesCorrected()[7]) == multiset(LetterKFaces()[7])
  {
    assert LetterKFacesCorrected()[7] == [1, 3, 13, 11];
    assert LetterKFaces()[7] == [1, 3, 11, 13];
  }
}
