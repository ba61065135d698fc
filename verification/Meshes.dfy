/**
 The static meshes of the Review and PixelLighting labs: vertex arrays of
 position, normal and texture coordinate, and triangle-list index arrays
 that are drawn with `DrawIndexed` and a fixed index count.

 Every mesh is a list of quads, four vertices each with the quad's normal,
 and every index array joins each quad's corners 0, 1, 2 and 2, 1, 3.
 */
module Meshes {

  import opened Geometry

  /** A vertex position with its texture coordinate (u, v). */
  datatype Corner = Corner(position: Vec3, u: real, v: real)

  /** Four consecutive vertices sharing one normal. */
  datatype Quad = Quad(normal: Vec3, corners: seq<Corner>)

  /** A `BasicVertex`. */
  datatype Vertex = Vertex(position: Vec3, normal: Vec3, u: real, v: real)

  predicate WellFormed(quads: seq<Quad>)
  {
    forall f :: 0 <= f < |quads| ==> |quads[f].corners| == 4
  }

  /** Corner k of a quad as a vertex with the quad's normal. */
  function CornerVertex(q: Quad, k: nat): Vertex
    requires k < |q.corners|
  {
    Vertex(q.corners[k].position, q.normal, q.corners[k].u, q.corners[k].v)
  }

  /** The vertex array spelled out by a list of quads. */
  function Vertices(quads: seq<Quad>): (vs: seq<Vertex>)
    requires WellFormed(quads)
    ensures |vs| == 4 * |quads|
  {
    if |quads| == 0 then []
    else
      var q := quads[|quads| - 1];
      Vertices(quads[..|quads| - 1]) + [CornerVertex(q, 0), CornerVertex(q, 1), CornerVertex(q, 2), CornerVertex(q, 3)]
  }

  /** Vertex 4 f + k is corner k of quad f, with quad f's normal. */
  lemma {:induction false} VertexOfQuad(quads: seq<Quad>, f: nat, k: nat)
    requires WellFormed(quads) && f < |quads| && k < 4
    ensures Vertices(quads)[4 * f + k] == CornerVertex(quads[f], k)
  {
    var init := quads[..|quads| - 1];
    if f < |quads| - 1 {
      VertexOfQuad(init, f, k);
    }
  }

  /** The index pattern of `n` quads: 4f, 4f+1, 4f+2, 4f+2, 4f+1, 4f+3 for each quad f. */
  function QuadIndices(n: nat): (ix: seq<int>)
    ensures |ix| == 6 * n
    ensures forall i :: 0 <= i < |ix| ==> 0 <= ix[i] < 4 * n
  {
    if n == 0 then []
    else
      var b := 4 * (n - 1);
      QuadIndices(n - 1) + [b, b + 1, b + 2, b + 2, b + 1, b + 3]
  }

  /** Entry i of the pattern lies in quad i / 6, at the corner the pattern names. */
  lemma {:induction false} QuadIndexEntry(n: nat, i: nat)
    requires i < 6 * n
    ensures QuadIndices(n)[i] == 4 * (i / 6) + [0, 1, 2, 2, 1, 3][i % 6]
  {
    if i < 6 * (n - 1) {
      QuadIndexEntry(n - 1, i);
    } else {
      assert i / 6 == n - 1;
    }
  }

  /**
   Every triangle of the index pattern uses three corners of one quad, so
   over a mesh of quads all three of its vertices carry the same normal.
   */
  lemma {:induction false} FlatTriangles(quads: seq<Quad>, t: nat)
    requires WellFormed(quads) && t < 2 * |quads|
    ensures Vertices(quads)[QuadIndices(|quads|)[3 * t]].normal == quads[t / 2].normal
    ensures Vertices(quads)[QuadIndices(|quads|)[3 * t + 1]].normal == quads[t / 2].normal
    ensures Vertices(quads)[QuadIndices(|quads|)[3 * t + 2]].normal == quads[t / 2].normal
  {
    TriangleCorner(quads, t, 0);
    TriangleCorner(quads, t, 1);
    TriangleCorner(quads, t, 2);
  }

  /** Corner j of triangle t is a vertex of quad t / 2. */
  lemma {:induction false} TriangleCorner(quads: seq<Quad>, t: nat, j: nat)
    requires WellFormed(quads) && t < 2 * |quads| && j < 3
    ensures Vertices(quads)[QuadIndices(|quads|)[3 * t + j]].normal == quads[t / 2].normal
  {
    var i, m := 3 * t + j, t / 2;
    var r := i - 6 * m;
    assert 0 <= r < 6;
    DivMod6(i, m, r);
    QuadIndexEntry(|quads|, i);
    VertexOfQuad(quads, m, [0, 1, 2, 2, 1, 3][r]);
  }

  /** Quotient and remainder by 6 of a number written as 6 m + r. */
  lemma DivMod6(i: int, m: int, r: int)
    requires i == 6 * m + r && 0 <= r < 6
    ensures i / 6 == m && i % 6 == r
  {
  }

  //// Review lab

  const ReviewCube: seq<Quad> := [
      Quad(Vec3(0.0, 0.0, -1.0),
          [Corner(Vec3(-1.0, 1.0, -1.0), 0.0, 1.0),
           Corner(Vec3(1.0, 1.0, -1.0), 0.0, 0.0),
           Corner(Vec3(-1.0, -1.0, -1.0), 1.0, 1.0),
           Corner(Vec3(1.0, -1.0, -1.0), 1.0, 0.0)]),
      Quad(Vec3(1.0, 0.0, 0.0),
          [Corner(Vec3(1.0, 1.0, -1.0), 0.0, 0.0),
           Corner(Vec3(1.0, 1.0, 1.0), 1.0, 0.0),
           Corner(Vec3(1.0, -1.0, -1.0), 0.0, 1.0),
           Corner(Vec3(1.0, -1.0, 1.0), 1.0, 1.0)]),
      Quad(Vec3(0.0, 0.0, 1.0),
          [Corner(Vec3(1.0, 1.0, 1.0), 0.0, 0.0),
           Corner(Vec3(-1.0, 1.0, 1.0), 1.0, 0.0),
           Corner(Vec3(1.0, -1.0, 1.0), 0.0, 1.0),
           Corner(Vec3(-1.0, -1.0, 1.0), 1.0, 1.0)]),
      Quad(Vec3(-1.0, 0.0, 0.0),
          [Corner(Vec3(-1.0, 1.0, 1.0), 0.0, 0.0),
           Corner(Vec3(-1.0, 1.0, -1.0), 1.0, 0.0),
           Corner(Vec3(-1.0, -1.0, 1.0), 0.0, 1.0),
           Corner(Vec3(-1.0, -1.0, -1.0), 1.0, 1.0)]),
      Quad(Vec3(0.0, 1.0, 0.0),
          [Corner(Vec3(-1.0, 1.0, 1.0), 0.0, 0.0),
           Corner(Vec3(1.0, 1.0, 1.0), 1.0, 0.0),
           Corner(Vec3(-1.0, 1.0, -1.0), 0.0, 1.0),
           Corner(Vec3(1.0, 1.0, -1.0), 1.0, 1.0)]),
      Quad(Vec3(0.0, -1.0, 0.0),
          [Corner(Vec3(-1.0, -1.0, -1.0), 0.0, 0.0),
           Corner(Vec3(1.0, -1.0, -1.0), 1.0, 0.0),
           Corner(Vec3(-1.0, -1.0, 1.0), 0.0, 1.0),
           Corner(Vec3(1.0, -1.0, 1.0), 1.0, 1.0)])
  ]

  const ReviewCubeIndices: seq<int> := [
     0,  1,  2,  2,  1,  3,
     4,  5,  6,  6,  5,  7,
     8,  9, 10, 10,  9, 11,
    12, 13, 14, 14, 13, 15,
    16, 17, 18, 18, 17, 19,
    20, 21, 22, 22, 21, 23]

  const ReviewFloor: seq<Quad> := [
      Quad(Vec3(0.0, 1.0, 0.0),
          [Corner(Vec3(-100.0, 0.0, 100.0), 0.0, 0.0),
           Corner(Vec3(100.0, 0.0, 100.0), 20.0, 0.0),
           Corner(Vec3(-100.0, 0.0, -100.0), 0.0, 20.0),
           Corner(Vec3(100.0, 0.0, -100.0), 20.0, 20.0)])
  ]

  const ReviewFloorIndices: seq<int> := [0, 1, 2, 2, 1, 3]

  /** The index counts passed to `DrawIndexed` for the floor and the cube. */
  const ReviewFloorDrawCount := 6
  const ReviewCubeDrawCount := 36

  //// PixelLighting lab

  const LightingCube: seq<Quad> := [
      Quad(Vec3(0.0, 0.0, -1.0),
          [Corner(Vec3(-1.0, 1.0, -1.0), 0.0, 0.0),
           Corner(Vec3(1.0, 1.0, -1.0), 1.0, 0.0),
           Corner(Vec3(-1.0, -1.0, -1.0), 0.0, 1.0),
           Corner(Vec3(1.0, -1.0, -1.0), 1.0, 1.0)]),
      Quad(Vec3(1.0, 0.0, 0.0),
          [Corner(Vec3(1.0, 1.0, -1.0), 0.0, 0.0),
           Corner(Vec3(1.0, 1.0, 1.0), 1.0, 0.0),
           Corner(Vec3(1.0, -1.0, -1.0), 0.0, 1.0),
           Corner(Vec3(1.0, -1.0, 1.0), 1.0, 1.0)]),
      Quad(Vec3(0.0, 0.0, 1.0),
          [Corner(Vec3(1.0, 1.0, 1.0), 0.0, 0.0),
           Corner(Vec3(-1.0, 1.0, 1.0), 1.0, 0.0),
           Corner(Vec3(1.0, -1.0, 1.0), 0.0, 1.0),
           Corner(Vec3(-1.0, -1.0, 1.0), 1.0, 1.0)]),
      Quad(Vec3(-1.0, 0.0, 0.0),
          [Corner(Vec3(-1.0, 1.0, 1.0), 0.0, 0.0),
           Corner(Vec3(-1.0, 1.0, -1.0), 1.0, 0.0),
           Corner(Vec3(-1.0, -1.0, 1.0), 0.0, 1.0),
           Corner(Vec3(-1.0, -1.0, -1.0), 1.0, 1.0)]),
      Quad(Vec3(0.0, 1.0, 0.0),
          [Corner(Vec3(-1.0, 1.0, 1.0), 0.0, 0.0),
           Corner(Vec3(1.0, 1.0, 1.0), 1.0, 0.0),
           Corner(Vec3(-1.0, 1.0, -1.0), 0.0, 1.0),
           Corner(Vec3(1.0, 1.0, -1.0), 1.0, 1.0)]),
      Quad(Vec3(0.0, -1.0, 0.0),
          [Corner(Vec3(-1.0, -1.0, -1.0), 0.0, 0.0),
           Corner(Vec3(1.0, -1.0, -1.0), 1.0, 0.0),
           Corner(Vec3(-1.0, -1.0, 1.0), 0.0, 1.0),
           Corner(Vec3(1.0, -1.0, 1.0), 1.0, 1.0)])
  ]

  const LightingCubeIndices: seq<int> := [
     0,  1,  2,  2,  1,  3,
     4,  5,  6,  6,  5,  7,
     8,  9, 10, 10,  9, 11,
    12, 13, 14, 14, 13, 15,
    16, 17, 18, 18, 17, 19,
    20, 21, 22, 22, 21, 23]

  const LightingFloor: seq<Quad> := [
      Quad(Vec3(0.0, 1.0, 0.0),
          [Corner(Vec3(-100.0, 0.0, 100.0), 0.0, 0.0),
           Corner(Vec3(100.0, 0.0, 100.0), 20.0, 0.0),
           Corner(Vec3(-100.0, 0.0, -100.0), 0.0, 20.0),
           Corner(Vec3(100.0, 0.0, -100.0), 20.0, 20.0)])
  ]

  const LightingFloorIndices: seq<int> := [0, 1, 2, 2, 1, 3]

  /** Three interlocking squares, drawn with additive blending. */
  const LightingLight: seq<Quad> := [
      Quad(Vec3(1.0, 0.0, 0.0),
          [Corner(Vec3(0.0, 1.0, -1.0), 0.0, 0.0),
           Corner(Vec3(0.0, 1.0, 1.0), 1.0, 0.0),
           Corner(Vec3(0.0, -1.0, -1.0), 0.0, 1.0),
           Corner(Vec3(0.0, -1.0, 1.0), 1.0, 1.0)]),
      Quad(Vec3(0.0, 1.0, 0.0),
          [Corner(Vec3(-1.0, 0.0, 1.0), 0.0, 0.0),
           Corner(Vec3(1.0, 0.0, 1.0), 1.0, 0.0),
           Corner(Vec3(-1.0, 0.0, -1.0), 0.0, 1.0),
           Corner(Vec3(1.0, 0.0, -1.0), 1.0, 1.0)]),
      Quad(Vec3(0.0, 0.0, 1.0),
          [Corner(Vec3(1.0, 1.0, 0.0), 0.0, 0.0),
           Corner(Vec3(-1.0, 1.0, 0.0), 1.0, 0.0),
           Corner(Vec3(1.0, -1.0, 0.0), 0.0, 1.0),
           Corner(Vec3(-1.0, -1.0, 0.0), 1.0, 1.0)])
  ]

  const LightingLightIndices: seq<int> := [
    0, 1,  2,  2, 1,  3,
    4, 5,  6,  6, 5,  7,
    8, 9, 10, 10, 9, 11]

  const LightingFloorDrawCount := 6
  const LightingCubeDrawCount := 36
  const LightingLightDrawCount := 18

  /** Every index array is the quad pattern for its mesh. */
  lemma IndicesFollowQuadPattern()
    ensures ReviewCubeIndices == QuadIndices(|ReviewCube|)
    ensures ReviewFloorIndices == QuadIndices(|ReviewFloor|)
    ensures LightingCubeIndices == QuadIndices(|LightingCube|)
    ensures LightingFloorIndices == QuadIndices(|LightingFloor|)
    ensures LightingLightIndices == QuadIndices(|LightingLight|)
  {
    PatternOfThree();
    PatternOfSix();
  }

  /** The pattern for one to three quads, spelled out. */
  lemma PatternOfThree()
    ensures QuadIndices(1) == [0, 1, 2, 2, 1, 3]
    ensures QuadIndices(3) == [0, 1, 2, 2, 1, 3, 4, 5, 6, 6, 5, 7, 8, 9, 10, 10, 9, 11]
  {
    assert QuadIndices(1) == [0, 1, 2, 2, 1, 3];
    assert QuadIndices(2) == [0, 1, 2, 2, 1, 3, 4, 5, 6, 6, 5, 7] by {
      assert QuadIndices(2) == QuadIndices(1) + [4, 5, 6, 6, 5, 7];
    }
    assert QuadIndices(3) == QuadIndices(2) + [8, 9, 10, 10, 9, 11];
  }

  /** The pattern for six quads, spelled out. */
  lemma PatternOfSix()
    ensures QuadIndices(6) == [0, 1, 2, 2, 1, 3, 4, 5, 6, 6, 5, 7, 8, 9, 10, 10, 9, 11,
                               12, 13, 14, 14, 13, 15, 16, 17, 18, 18, 17, 19, 20, 21, 22, 22, 21, 23]
  {
    PatternOfThree();
    assert QuadIndices(4) == QuadIndices(3) + [12, 13, 14, 14, 13, 15];
    assert QuadIndices(5) == QuadIndices(4) + [16, 17, 18, 18, 17, 19];
  }

  /**
   Review lab: each index names an existing vertex (cube below 24, floor
   below 4), and each `DrawIndexed` count is exactly the index array's
   length, a whole number of triangles.
   */
  lemma ReviewIndexDataMatchesDraws()
    ensures WellFormed(ReviewCube) && WellFormed(ReviewFloor)
    ensures |Vertices(ReviewCube)| == 24 && |Vertices(ReviewFloor)| == 4
    ensures forall i :: 0 <= i < |ReviewCubeIndices| ==> 0 <= ReviewCubeIndices[i] < |Vertices(ReviewCube)|
    ensures forall i :: 0 <= i < |ReviewFloorIndices| ==> 0 <= ReviewFloorIndices[i] < |Vertices(ReviewFloor)|
    ensures |ReviewCubeIndices| == ReviewCubeDrawCount && |ReviewFloorIndices| == ReviewFloorDrawCount
    ensures ReviewCubeDrawCount % 3 == 0 && ReviewFloorDrawCount % 3 == 0
  {
    IndicesFollowQuadPattern();
  }

  /**
   PixelLighting lab: each index names an existing vertex (cube below 24,
   floor below 4, light below 12), and each `DrawIndexed` count is exactly
   the index array's length, a whole number of triangles.
   */
  lemma LightingIndexDataMatchesDraws()
    ensures WellFormed(LightingCube) && WellFormed(LightingFloor) && WellFormed(LightingLight)
    ensures |Vertices(LightingCube)| == 24 && |Vertices(LightingFloor)| == 4 && |Vertices(LightingLight)| == 12
    ensures forall i :: 0 <= i < |LightingCubeIndices| ==> 0 <= LightingCubeIndices[i] < |Vertices(LightingCube)|
    ensures forall i :: 0 <= i < |LightingFloorIndices| ==> 0 <= LightingFloorIndices[i] < |Vertices(LightingFloor)|
    ensures forall i :: 0 <= i < |LightingLightIndices| ==> 0 <= LightingLightIndices[i] < |Vertices(LightingLight)|
    ensures |LightingCubeIndices| == LightingCubeDrawCount && |LightingFloorIndices| == LightingFloorDrawCount
    ensures |LightingLightIndices| == LightingLightDrawCount
    ensures LightingCubeDrawCount % 3 == 0 && LightingFloorDrawCount % 3 == 0 && LightingLightDrawCount % 3 == 0
  {
    IndicesFollowQuadPattern();
  }

  function Dot(a: Vec3, b: Vec3): real
  {
    a.x * b.x + a.y * b.y + a.z * b.z
  }

  /** Every corner of every quad lies on the plane through `offset` times the quad's normal. */
  predicate OnPlanes(quads: seq<Quad>, offset: real)
  {
    forall f, k :: 0 <= f < |quads| && 0 <= k < |quads[f].corners| ==> Dot(quads[f].corners[k].position, quads[f].normal) == offset
  }

  /** The cube faces lie one unit out along their normals, the floor on y = 0, the light's squares through the origin. */
  lemma MeshesArePlanar()
    ensures OnPlanes(ReviewCube, 1.0) && OnPlanes(LightingCube, 1.0)
    ensures OnPlanes(ReviewFloor, 0.0) && OnPlanes(LightingFloor, 0.0)
    ensures OnPlanes(LightingLight, 0.0)
  {
  }
}
