/** The four arrays `createCube` builds, as literal tables. */
module CubeTables {
  /** The tables are laid out face by face: front, back, top, bottom,
      right, left. */
  const CubeVertices: seq<real> :=
    FrontCorners + BackCorners + TopCorners + BottomCorners + RightCorners + LeftCorners
  const FrontCorners: seq<real> := [-1.0, -1.0, 1.0,   1.0, -1.0, 1.0,   1.0, 1.0, 1.0,   -1.0, 1.0, 1.0]
  const BackCorners: seq<real> := [-1.0, -1.0, -1.0,   -1.0, 1.0, -1.0,   1.0, 1.0, -1.0,   1.0, -1.0, -1.0]
  const TopCorners: seq<real> := [-1.0, 1.0, -1.0,   -1.0, 1.0, 1.0,   1.0, 1.0, 1.0,   1.0, 1.0, -1.0]
  const BottomCorners: seq<real> := [-1.0, -1.0, -1.0,   1.0, -1.0, -1.0,   1.0, -1.0, 1.0,   -1.0, -1.0, 1.0]
  const RightCorners: seq<real> := [1.0, -1.0, -1.0,   1.0, 1.0, -1.0,   1.0, 1.0, 1.0,   1.0, -1.0, 1.0]
  const LeftCorners: seq<real> := [-1.0, -1.0, -1.0,   -1.0, -1.0, 1.0,   -1.0, 1.0, 1.0,   -1.0, 1.0, -1.0]

  const CubeNormals: seq<real> :=
    FrontNormals + BackNormals + TopNormals + BottomNormals + RightNormals + LeftNormals
  const FrontNormals: seq<real> := [0.0, 0.0, 1.0,   0.0, 0.0, 1.0,   0.0, 0.0, 1.0,   0.0, 0.0, 1.0]
  const BackNormals: seq<real> := [0.0, 0.0, -1.0,   0.0, 0.0, -1.0,   0.0, 0.0, -1.0,   0.0, 0.0, -1.0]
  const TopNormals: seq<real> := [0.0, 1.0, 0.0,   0.0, 1.0, 0.0,   0.0, 1.0, 0.0,   0.0, 1.0, 0.0]
  const BottomNormals: seq<real> := [0.0, -1.0, 0.0,   0.0, -1.0, 0.0,   0.0, -1.0, 0.0,   0.0, -1.0, 0.0]
  const RightNormals: seq<real> := [1.0, 0.0, 0.0,   1.0, 0.0, 0.0,   1.0, 0.0, 0.0,   1.0, 0.0, 0.0]
  const LeftNormals: seq<real> := [-1.0, 0.0, 0.0,   -1.0, 0.0, 0.0,   -1.0, 0.0, 0.0,   -1.0, 0.0, 0.0]

  const CubeTexCoords: seq<real> :=
    FrontTexCoords + BackTexCoords + TopTexCoords + BottomTexCoords + RightTexCoords + LeftTexCoords
  const FrontTexCoords: seq<real> := [0.0, 0.0,   1.0, 0.0,   1.0, 1.0,   0.0, 1.0]
  const BackTexCoords: seq<real> := [1.0, 0.0,   1.0, 1.0,   0.0, 1.0,   0.0, 0.0]
  const TopTexCoords: seq<real> := [0.0, 1.0,   0.0, 0.0,   1.0, 0.0,   1.0, 1.0]
  const BottomTexCoords: seq<real> := [1.0, 1.0,   0.0, 1.0,   0.0, 0.0,   1.0, 0.0]
  const RightTexCoords: seq<real> := [1.0, 0.0,   1.0, 1.0,   0.0, 1.0,   0.0, 0.0]
  const LeftTexCoords: seq<real> := [0.0, 0.0,   1.0, 0.0,   1.0, 1.0,   0.0, 1.0]

  const CubeIndices: seq<int> :=
    [  0,  1,  2,    0,  2,  3,
       4,  5,  6,    4,  6,  7,
       8,  9, 10,    8, 10, 11,
      12, 13, 14,   12, 14, 15,
      16, 17, 18,   16, 18, 19,
      20, 21, 22,   20, 22, 23 ]
}

/** The WebGL2 renderer's fixed data: the cube mesh it draws every frame
    and the matrices it hands to the vertex shader. Matrices are 16 numbers
    in column-major order, as `uniformMatrix4fv` reads them when its
    transpose argument is false. */
module Mesh {
  import opened CubeTables

  /** The four arrays `createCube` returns. */
  datatype Cube = Cube(vertices: seq<real>, normals: seq<real>, texCoords: seq<real>, indices: seq<int>)

  datatype Vec3 = Vec3(x: real, y: real, z: real)

  /** `createCube`: a 2x2x2 cube centred on the origin, four vertices per
      face (front, back, top, bottom, right, left), two triangles per face. */
  function CreateCube(): (c: Cube)
    ensures |c.vertices| == 72 && |c.normals| == 72 && |c.texCoords| == 48 && |c.indices| == 36
  {
    Cube(CubeVertices, CubeNormals, CubeTexCoords, CubeIndices)
  }

  /** Vertex `v`'s position and normal. */
  function Position(v: nat): Vec3
    requires v < 24
  {
    Vec3(CubeVertices[3 * v], CubeVertices[3 * v + 1], CubeVertices[3 * v + 2])
  }

  function Normal(v: nat): Vec3
    requires v < 24
  {
    Vec3(CubeNormals[3 * v], CubeNormals[3 * v + 1], CubeNormals[3 * v + 2])
  }

  function Dot(a: Vec3, b: Vec3): real {
    a.x * b.x + a.y * b.y + a.z * b.z
  }

  function Cross(a: Vec3, b: Vec3): Vec3 {
    Vec3(a.y * b.z - a.z * b.y, a.z * b.x - a.x * b.z, a.x * b.y - a.y * b.x)
  }

  function Sub(a: Vec3, b: Vec3): Vec3 {
    Vec3(a.x - b.x, a.y - b.y, a.z - b.z)
  }

  /** A unit vector along one of the three axes. */
  predicate IsUnitAxis(n: Vec3) {
    (n.x == 0.0 && n.y == 0.0 && (n.z == 1.0 || n.z == -1.0))
    || (n.x == 0.0 && n.z == 0.0 && (n.y == 1.0 || n.y == -1.0))
    || (n.y == 0.0 && n.z == 0.0 && (n.x == 1.0 || n.x == -1.0))
  }

  /** Which of its face's four corners each of the face's six indices
      names: triangles (0, 1, 2) and (0, 2, 3). */
  const FacePattern: seq<nat> := [0, 1, 2, 0, 2, 3]

  /** Index `s` of face `f`'s six. */
  function IndexOf(f: nat, s: nat): int
    requires f < 6 && s < 6
  {
    CubeIndices[6 * f + s]
  }

  lemma FaceIndexCases(f: nat, s: nat)
    requires f < 6 && s < 6
    ensures IndexOf(f, s) == 4 * f + FacePattern[s]
  {
    if f == 0 {} else if f == 1 {} else if f == 2 {} else if f == 3 {} else if f == 4 {} else {}
  }

  /** Every index names one of the 24 vertices, and face `f`'s six
      indices are its two triangles over its own vertices 4f..4f+3. */
  lemma IndicesWellFormed()
    ensures forall t :: 0 <= t < 36 ==> 0 <= CreateCube().indices[t] < 24
    ensures forall f, s :: 0 <= f < 6 && 0 <= s < 6 ==> IndexOf(f, s) == 4 * f + FacePattern[s]
  {
    forall f, s | 0 <= f < 6 && 0 <= s < 6
      ensures IndexOf(f, s) == 4 * f + FacePattern[s]
    {
      FaceIndexCases(f, s);
    }
  }

  /** Face `f`'s slice of each table. */
  function FaceCorners(f: nat): seq<real>
    requires f < 6
  {
    if f == 0 then FrontCorners else if f == 1 then BackCorners else if f == 2 then TopCorners
    else if f == 3 then BottomCorners else if f == 4 then RightCorners else LeftCorners
  }

  function FaceNormals(f: nat): seq<real>
    requires f < 6
  {
    if f == 0 then FrontNormals else if f == 1 then BackNormals else if f == 2 then TopNormals
    else if f == 3 then BottomNormals else if f == 4 then RightNormals else LeftNormals
  }

  function FaceTexCoords(f: nat): seq<real>
    requires f < 6
  {
    if f == 0 then FrontTexCoords else if f == 1 then BackTexCoords else if f == 2 then TopTexCoords
    else if f == 3 then BottomTexCoords else if f == 4 then RightTexCoords else LeftTexCoords
  }

  /** Corner `v` of face `f` as its face's slice lists it: position and normal. */
  function Corner(f: nat, v: nat): Vec3
    requires f < 6 && v < 4
  {
    var t := FaceCorners(f);
    Vec3(t[3 * v], t[3 * v + 1], t[3 * v + 2])
  }

  function CornerNormal(f: nat, v: nat): Vec3
    requires f < 6 && v < 4
  {
    var t := FaceNormals(f);
    Vec3(t[3 * v], t[3 * v + 1], t[3 * v + 2])
  }

  lemma VertexSlice(f: nat, k: nat)
    requires f < 6 && k < 12
    ensures CubeVertices[12 * f + k] == FaceCorners(f)[k]
  {
    SixSlices(FrontCorners, BackCorners, TopCorners, BottomCorners, RightCorners, LeftCorners, f, k);
  }

  lemma NormalSlice(f: nat, k: nat)
    requires f < 6 && k < 12
    ensures CubeNormals[12 * f + k] == FaceNormals(f)[k]
  {
    SixSlices(FrontNormals, BackNormals, TopNormals, BottomNormals, RightNormals, LeftNormals, f, k);
  }

  /** Entry `k` of block `f` in six blocks of twelve laid end to end. */
  lemma SixSlices(a: seq<real>, b: seq<real>, c: seq<real>, d: seq<real>, e: seq<real>, g: seq<real>, f: nat, k: nat)
    requires |a| == |b| == |c| == |d| == |e| == |g| == 12 && f < 6 && k < 12
    ensures (a + b + c + d + e + g)[12 * f + k]
            == (if f == 0 then a else if f == 1 then b else if f == 2 then c
                else if f == 3 then d else if f == 4 then e else g)[k]
  {
  }

  lemma PositionSlice(f: nat, v: nat)
    requires f < 6 && v < 4
    ensures Position(4 * f + v) == Corner(f, v)
  {
    VertexSlice(f, 3 * v);
    VertexSlice(f, 3 * v + 1);
    VertexSlice(f, 3 * v + 2);
    TripleAt(CubeVertices, FaceCorners(f), f, v);
  }

  lemma NormalAt(f: nat, v: nat)
    requires f < 6 && v < 4
    ensures Normal(4 * f + v) == CornerNormal(f, v)
  {
    NormalSlice(f, 3 * v);
    NormalSlice(f, 3 * v + 1);
    NormalSlice(f, 3 * v + 2);
    TripleAt(CubeNormals, FaceNormals(f), f, v);
  }

  /** Three consecutive entries of a face's slice are vertex 4f+v's entries
      of the whole table. */
  lemma TripleAt(table: seq<real>, slice: seq<real>, f: nat, v: nat)
    requires |table| == 72 && |slice| == 12 && f < 6 && v < 4
    requires table[12 * f + 3 * v] == slice[3 * v]
    requires table[12 * f + 3 * v + 1] == slice[3 * v + 1]
    requires table[12 * f + 3 * v + 2] == slice[3 * v + 2]
    ensures Vec3(table[3 * (4 * f + v)], table[3 * (4 * f + v) + 1], table[3 * (4 * f + v) + 2])
         == Vec3(slice[3 * v], slice[3 * v + 1], slice[3 * v + 2])
  {
    assert 3 * (4 * f + v) == 12 * f + 3 * v;
  }

  /** The flat tables are the faces' slices end to end: vertex 4f+v is
      corner v of face f. */
  lemma FaceSlices()
    ensures forall f, v :: 0 <= f < 6 && 0 <= v < 4 ==>
              Position(4 * f + v) == Corner(f, v) && Normal(4 * f + v) == CornerNormal(f, v)
  {
    forall f, v | 0 <= f < 6 && 0 <= v < 4
      ensures Position(4 * f + v) == Corner(f, v) && Normal(4 * f + v) == CornerNormal(f, v)
    {
      PositionSlice(f, v);
      NormalAt(f, v);
    }
  }

  lemma FaceCases(f: nat, v: nat)
    requires f < 6 && v < 4
    ensures CornerNormal(f, v) == CornerNormal(f, 0) && IsUnitAxis(CornerNormal(f, 0))
    ensures Dot(Corner(f, v), CornerNormal(f, 0)) == 1.0
  {
    if f == 0 {} else if f == 1 {} else if f == 2 {} else if f == 3 {} else if f == 4 {} else {}
  }

  /** The four normals of a face are one unit axis vector, no two faces
      share a normal, and every corner of a face lies on the side of the
      cube its normal points out of. */
  lemma NormalsPerFace()
    ensures forall f, v :: 0 <= f < 6 && 0 <= v < 4 ==>
              CornerNormal(f, v) == CornerNormal(f, 0) && IsUnitAxis(CornerNormal(f, v))
              && Dot(Corner(f, v), CornerNormal(f, v)) == 1.0
    ensures forall f, g :: 0 <= f < g < 6 ==> CornerNormal(f, 0) != CornerNormal(g, 0)
  {
    forall f, v | 0 <= f < 6 && 0 <= v < 4
      ensures CornerNormal(f, v) == CornerNormal(f, 0) && IsUnitAxis(CornerNormal(f, v))
              && Dot(Corner(f, v), CornerNormal(f, v)) == 1.0
    {
      FaceCases(f, v);
    }
    NormalsDistinct();
  }

  lemma NormalsDistinct()
    ensures forall f, g :: 0 <= f < g < 6 ==> CornerNormal(f, 0) != CornerNormal(g, 0)
  {
    assert CornerNormal(0, 0) == Vec3(0.0, 0.0, 1.0);
    assert CornerNormal(1, 0) == Vec3(0.0, 0.0, -1.0);
    assert CornerNormal(2, 0) == Vec3(0.0, 1.0, 0.0);
    assert CornerNormal(3, 0) == Vec3(0.0, -1.0, 0.0);
    assert CornerNormal(4, 0) == Vec3(1.0, 0.0, 0.0);
    assert CornerNormal(5, 0) == Vec3(-1.0, 0.0, 0.0);
  }

  lemma TexCases(f: nat, j: nat)
    requires f < 6 && j < 8
    ensures CubeTexCoords[8 * f + j] == FaceTexCoords(f)[j]
    ensures FaceTexCoords(f)[j] == 0.0 || FaceTexCoords(f)[j] == 1.0
  {
    if f == 0 {} else if f == 1 {} else if f == 2 {} else if f == 3 {} else if f == 4 {} else {}
  }

  /** Texture coordinates are corners of the unit square. */
  lemma TexCoordsInUnitSquare()
    ensures forall k :: 0 <= k < 48 ==> CreateCube().texCoords[k] == 0.0 || CreateCube().texCoords[k] == 1.0
  {
    forall k | 0 <= k < 48
      ensures CubeTexCoords[k] == 0.0 || CubeTexCoords[k] == 1.0
    {
      TexCases(k / 8, k % 8);
    }
  }

  // ---------------------------------------------------------------------
  // Matrices

  /** A column-major 4x4 matrix applied to the point (x, y, z, 1). */
  function Apply(m: seq<real>, p: Vec3): (r: seq<real>)
    requires |m| == 16
    ensures |r| == 4
  {
    seq(4, i requires 0 <= i < 4 => m[i] * p.x + m[4 + i] * p.y + m[8 + i] * p.z + m[12 + i])
  }

  /** `createModelViewMatrix`: move the scene 5 units away from the camera. */
  function ModelViewMatrix(): (m: seq<real>)
    ensures |m| == 16
  {
    [1.0, 0.0, 0.0, 0.0,
     0.0, 1.0, 0.0, 0.0,
     0.0, 0.0, 1.0, 0.0,
     0.0, 0.0, -5.0, 1.0]
  }

  /** `createNormalMatrix`: the identity, whatever model-view matrix it is
      given (the inverse transpose is not computed). */
  function NormalMatrix(modelView: seq<real>): (m: seq<real>)
    ensures |m| == 16
  {
    [1.0, 0.0, 0.0, 0.0,
     0.0, 1.0, 0.0, 0.0,
     0.0, 0.0, 1.0, 0.0,
     0.0, 0.0, 0.0, 1.0]
  }

  /** The model-view matrix is a pure translation by -5 along z. */
  lemma ModelViewTranslates(p: Vec3)
    ensures Apply(ModelViewMatrix(), p) == [p.x, p.y, p.z - 5.0, 1.0]
  {
    var r := Apply(ModelViewMatrix(), p);
    assert r[0] == p.x && r[1] == p.y && r[2] == p.z - 5.0 && r[3] == 1.0;
  }

  /** The normal matrix leaves every point where it is, for every input. */
  lemma NormalMatrixIsIdentity(modelView: seq<real>, p: Vec3)
    ensures Apply(NormalMatrix(modelView), p) == [p.x, p.y, p.z, 1.0]
  {
    var r := Apply(NormalMatrix(modelView), p);
    assert r[0] == p.x && r[1] == p.y && r[2] == p.z && r[3] == 1.0;
  }

  /** `createPerspectiveMatrix` with the focal scale `f = tan(pi/2 - fov/2)`
      taken as given: only `f`, the aspect ratio and the clip planes enter. */
  function PerspectiveMatrix(f: real, aspect: real, near: real, far: real): (m: seq<real>)
    requires aspect != 0.0 && near != far
    ensures |m| == 16
  {
    var rangeInv := 1.0 / (near - far);
    [f / aspect, 0.0, 0.0, 0.0,
     0.0, f, 0.0, 0.0,
     0.0, 0.0, (near + far) * rangeInv, -1.0,
     0.0, 0.0, near * far * rangeInv * 2.0, 0.0]
  }

  /** A perspective projection: the clip-space w of a point is minus its
      eye-space depth, x and y are only scaled, and depth maps the near
      plane to -1 and the far plane to +1 after the divide by w. */
  lemma PerspectiveProjects(f: real, aspect: real, near: real, far: real, p: Vec3)
    requires aspect != 0.0 && near != far
    ensures var r := Apply(PerspectiveMatrix(f, aspect, near, far), p);
            r[0] == f / aspect * p.x && r[1] == f * p.y && r[3] == -p.z
    ensures near != 0.0 ==>
              Apply(PerspectiveMatrix(f, aspect, near, far), Vec3(p.x, p.y, -near))[2] == -1.0 * near
    ensures far != 0.0 ==>
              Apply(PerspectiveMatrix(f, aspect, near, far), Vec3(p.x, p.y, -far))[2] == far
  {
    var m := PerspectiveMatrix(f, aspect, near, far);
    var rangeInv := 1.0 / (near - far);
    assert rangeInv * (near - far) == 1.0;
    if near != 0.0 {
      var r := Apply(m, Vec3(p.x, p.y, -near));
      calc {
        r[2];
        (near + far) * rangeInv * -near + near * far * rangeInv * 2.0;
        near * rangeInv * (far - near);
        -1.0 * near * (rangeInv * (near - far));
      }
    }
    if far != 0.0 {
      var r := Apply(m, Vec3(p.x, p.y, -far));
      calc {
        r[2];
        (near + far) * rangeInv * -far + near * far * rangeInv * 2.0;
        far * rangeInv * (near - far);
      }
    }
  }
}
