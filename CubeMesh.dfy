/**
 * The unit-cube mesh of the point-light cubes (glimac::Cube): build() pushes
 * 36 vertices, six per face in the order front, back, right, left, top, bottom,
 * two triangles per face; and the recentering loop of run() that moves a copy
 * of those vertices before they are uploaded.
 */
module CubeMesh {
  import opened Linear

  /** glimac::ShapeVertex. */
  datatype ShapeVertex = ShapeVertex(position: Vec3, normal: Vec3, texCoords: Vec2)

  const VERTEX_COUNT: nat := 36
  const FACE_COUNT: nat := 6

  /** The six vertices build() pushes for face k (0 front, 1 back, 2 right, 3 left, 4 top, 5 bottom). */
  function FaceVertices(k: nat, size: real): (r: seq<ShapeVertex>)
    requires k < FACE_COUNT
    ensures |r| == 6
  {
    if k == 0 then  // front
      [ShapeVertex(Vec3(0.0, 0.0, 0.0), Vec3(0.0, 0.0, 1.0), Vec2(0.0, 1.0)),
       ShapeVertex(Vec3(size, 0.0, 0.0), Vec3(0.0, 0.0, 1.0), Vec2(1.0, 1.0)),
       ShapeVertex(Vec3(0.0, size, 0.0), Vec3(0.0, 0.0, 1.0), Vec2(0.0, 0.0)),
       ShapeVertex(Vec3(0.0, size, 0.0), Vec3(0.0, 0.0, 1.0), Vec2(0.0, 0.0)),
       ShapeVertex(Vec3(size, 0.0, 0.0), Vec3(0.0, 0.0, 1.0), Vec2(1.0, 1.0)),
       ShapeVertex(Vec3(size, size, 0.0), Vec3(0.0, 0.0, 1.0), Vec2(1.0, 0.0))]
    else if k == 1 then  // back
      [ShapeVertex(Vec3(0.0, 0.0, -size), Vec3(0.0, 0.0, -1.0), Vec2(0.0, 1.0)),
       ShapeVertex(Vec3(0.0, size, -size), Vec3(0.0, 0.0, -1.0), Vec2(0.0, 0.0)),
       ShapeVertex(Vec3(size, 0.0, -size), Vec3(0.0, 0.0, -1.0), Vec2(1.0, 1.0)),
       ShapeVertex(Vec3(0.0, size, -size), Vec3(0.0, 0.0, -1.0), Vec2(0.0, 0.0)),
       ShapeVertex(Vec3(size, size, -size), Vec3(0.0, 0.0, -1.0), Vec2(1.0, 0.0)),
       ShapeVertex(Vec3(size, 0.0, -size), Vec3(0.0, 0.0, -1.0), Vec2(1.0, 1.0))]
    else if k == 2 then  // right
      [ShapeVertex(Vec3(size, 0.0, 0.0), Vec3(1.0, 0.0, 0.0), Vec2(0.0, 1.0)),
       ShapeVertex(Vec3(size, 0.0, -size), Vec3(1.0, 0.0, 0.0), Vec2(1.0, 1.0)),
       ShapeVertex(Vec3(size, size, 0.0), Vec3(1.0, 0.0, 0.0), Vec2(0.0, 0.0)),
       ShapeVertex(Vec3(size, size, 0.0), Vec3(1.0, 0.0, 0.0), Vec2(0.0, 0.0)),
       ShapeVertex(Vec3(size, 0.0, -size), Vec3(1.0, 0.0, 0.0), Vec2(1.0, 1.0)),
       ShapeVertex(Vec3(size, size, -size), Vec3(1.0, 0.0, 0.0), Vec2(1.0, 0.0))]
    else if k == 3 then  // left
      [ShapeVertex(Vec3(0.0, 0.0, -size), Vec3(-1.0, 0.0, 0.0), Vec2(0.0, 1.0)),
       ShapeVertex(Vec3(0.0, 0.0, 0.0), Vec3(-1.0, 0.0, 0.0), Vec2(1.0, 1.0)),
       ShapeVertex(Vec3(0.0, size, -size), Vec3(-1.0, 0.0, 0.0), Vec2(0.0, 0.0)),
       ShapeVertex(Vec3(0.0, size, -size), Vec3(-1.0, 0.0, 0.0), Vec2(0.0, 0.0)),
       ShapeVertex(Vec3(0.0, 0.0, 0.0), Vec3(-1.0, 0.0, 0.0), Vec2(1.0, 1.0)),
       ShapeVertex(Vec3(0.0, size, 0.0), Vec3(-1.0, 0.0, 0.0), Vec2(1.0, 0.0))]
    else if k == 4 then  // top
      [ShapeVertex(Vec3(size, size, 0.0), Vec3(0.0, 1.0, 0.0), Vec2(0.0, 1.0)),
       ShapeVertex(Vec3(size, size, -size), Vec3(0.0, 1.0, 0.0), Vec2(1.0, 1.0)),
       ShapeVertex(Vec3(0.0, size, 0.0), Vec3(0.0, 1.0, 0.0), Vec2(0.0, 0.0)),
       ShapeVertex(Vec3(0.0, size, 0.0), Vec3(0.0, 1.0, 0.0), Vec2(0.0, 0.0)),
       ShapeVertex(Vec3(size, size, -size), Vec3(0.0, 1.0, 0.0), Vec2(1.0, 1.0)),
       ShapeVertex(Vec3(0.0, size, -size), Vec3(0.0, 1.0, 0.0), Vec2(1.0, 0.0))]
    else  // bottom
      [ShapeVertex(Vec3(0.0, 0.0, -size), Vec3(0.0, -1.0, 0.0), Vec2(0.0, 1.0)),
       ShapeVertex(Vec3(size, 0.0, -size), Vec3(0.0, -1.0, 0.0), Vec2(1.0, 1.0)),
       ShapeVertex(Vec3(0.0, 0.0, 0.0), Vec3(0.0, -1.0, 0.0), Vec2(0.0, 0.0)),
       ShapeVertex(Vec3(0.0, 0.0, 0.0), Vec3(0.0, -1.0, 0.0), Vec2(0.0, 0.0)),
       ShapeVertex(Vec3(size, 0.0, -size), Vec3(0.0, -1.0, 0.0), Vec2(1.0, 1.0)),
       ShapeVertex(Vec3(size, 0.0, 0.0), Vec3(0.0, -1.0, 0.0), Vec2(1.0, 0.0))]
  }

  /** The vertices of the first n faces. */
  function FacesUpTo(size: real, n: nat): (r: seq<ShapeVertex>)
    requires n <= FACE_COUNT
    ensures |r| == 6 * n
  {
    if n == 0 then [] else FacesUpTo(size, n - 1) + FaceVertices(n - 1, size)
  }

  /** Everything build() pushes, in order. */
  function CubeVertices(size: real): (r: seq<ShapeVertex>)
    ensures |r| == VERTEX_COUNT
  {
    FacesUpTo(size, FACE_COUNT)
  }

  // ---------------------------------------------------------------------------
  // Geometry of the cube: [0, size] x [0, size] x [-size, 0]

  /** The outward normal of face k. */
  function FaceNormal(k: nat): Vec3
    requires k < FACE_COUNT
  {
    [Vec3(0.0, 0.0, 1.0), Vec3(0.0, 0.0, -1.0), Vec3(1.0, 0.0, 0.0),
     Vec3(-1.0, 0.0, 0.0), Vec3(0.0, 1.0, 0.0), Vec3(0.0, -1.0, 0.0)][k]
  }

  /** The plane of face k: z = 0, z = -size, x = size, x = 0, y = size, y = 0. */
  predicate OnFacePlane(k: nat, size: real, p: Vec3)
    requires k < FACE_COUNT
  {
    if k == 0 then p.z == 0.0
    else if k == 1 then p.z == -size
    else if k == 2 then p.x == size
    else if k == 3 then p.x == 0.0
    else if k == 4 then p.y == size
    else p.y == 0.0
  }

  /** p is one of the cube's eight corners. */
  predicate IsCorner(size: real, p: Vec3) {
    (p.x == 0.0 || p.x == size) && (p.y == 0.0 || p.y == size) && (p.z == 0.0 || p.z == -size)
  }

  predicate IsUnitCoordinate(t: Vec2) {
    (t.x == 0.0 || t.x == 1.0) && (t.y == 0.0 || t.y == 1.0)
  }

  /** The corners of the cube that lie on face k's plane. */
  function FaceCorners(k: nat, size: real): set<Vec3>
    requires k < FACE_COUNT
  {
    set x, y, z | x in {0.0, size} && y in {0.0, size} && z in {0.0, -size} && OnFacePlane(k, size, Vec3(x, y, z))
      :: Vec3(x, y, z)
  }

  function Positions(vs: seq<ShapeVertex>): set<Vec3> {
    set i | 0 <= i < |vs| :: vs[i].position
  }

  /** Face k's vertices share its normal, lie on its plane and are corners with texture coordinates in {0, 1}. */
  lemma FaceVertexFacts(k: nat, size: real)
    requires k < FACE_COUNT
    ensures forall j :: 0 <= j < 6 ==>
      var v := FaceVertices(k, size)[j];
      v.normal == FaceNormal(k) && OnFacePlane(k, size, v.position) &&
      IsCorner(size, v.position) && IsUnitCoordinate(v.texCoords)
  {
  }

  /** Vertex 6k + j of the cube is vertex j of face k. */
  lemma {:induction false} FacesUpToAt(size: real, n: nat, k: nat, j: nat)
    requires n <= FACE_COUNT && k < n && j < 6
    ensures FacesUpTo(size, n)[6 * k + j] == FaceVertices(k, size)[j]
  {
    if k < n - 1 {
      FacesUpToAt(size, n - 1, k, j);
    }
  }

  /**
   * Vertices 6k..6k+5 form face k: all carry face k's outward normal and lie on
   * its plane; every position is a corner and every texture coordinate is 0 or 1.
   */
  lemma CubeFaceGrouping(size: real)
    ensures forall i :: 0 <= i < VERTEX_COUNT ==>
      var v := CubeVertices(size)[i];
      v.normal == FaceNormal(i / 6) && OnFacePlane(i / 6, size, v.position) &&
      IsCorner(size, v.position) && IsUnitCoordinate(v.texCoords)
  {
    forall i | 0 <= i < VERTEX_COUNT
      ensures var v := CubeVertices(size)[i];
        v.normal == FaceNormal(i / 6) && OnFacePlane(i / 6, size, v.position) &&
        IsCorner(size, v.position) && IsUnitCoordinate(v.texCoords)
    {
      var k, j := i / 6, i % 6;
      FacesUpToAt(size, FACE_COUNT, k, j);
      FaceVertexFacts(k, size);
    }
  }

  /** The four corners of face k's square, listed. */
  function SquareCorners(k: nat, size: real): set<Vec3>
    requires k < FACE_COUNT
  {
    if k == 0 then {Vec3(0.0, 0.0, 0.0), Vec3(size, 0.0, 0.0), Vec3(0.0, size, 0.0), Vec3(size, size, 0.0)}
    else if k == 1 then {Vec3(0.0, 0.0, -size), Vec3(size, 0.0, -size), Vec3(0.0, size, -size), Vec3(size, size, -size)}
    else if k == 2 then {Vec3(size, 0.0, 0.0), Vec3(size, size, 0.0), Vec3(size, 0.0, -size), Vec3(size, size, -size)}
    else if k == 3 then {Vec3(0.0, 0.0, 0.0), Vec3(0.0, size, 0.0), Vec3(0.0, 0.0, -size), Vec3(0.0, size, -size)}
    else if k == 4 then {Vec3(0.0, size, 0.0), Vec3(size, size, 0.0), Vec3(0.0, size, -size), Vec3(size, size, -size)}
    else {Vec3(0.0, 0.0, 0.0), Vec3(size, 0.0, 0.0), Vec3(0.0, 0.0, -size), Vec3(size, 0.0, -size)}
  }

  lemma FaceCornersListed(k: nat, size: real)
    requires k < FACE_COUNT
    ensures FaceCorners(k, size) == SquareCorners(k, size)
  {
    forall p | p in FaceCorners(k, size) ensures p in SquareCorners(k, size) {
      var x, y, z :| x in {0.0, size} && y in {0.0, size} && z in {0.0, -size} &&
        OnFacePlane(k, size, Vec3(x, y, z)) && p == Vec3(x, y, z);
    }
    forall p | p in SquareCorners(k, size) ensures p in FaceCorners(k, size) {
      assert p.x in {0.0, size} && p.y in {0.0, size} && p.z in {0.0, -size} && p == Vec3(p.x, p.y, p.z);
    }
  }

  lemma PositionsListed(k: nat, size: real)
    requires k < FACE_COUNT
    ensures Positions(FaceVertices(k, size)) == SquareCorners(k, size)
  {
    var f := FaceVertices(k, size);
    assert Positions(f) == {f[0].position, f[1].position, f[2].position, f[3].position, f[4].position, f[5].position};
  }

  lemma SquareCornersCount(k: nat, size: real)
    requires k < FACE_COUNT && size != 0.0
    ensures |SquareCorners(k, size)| == 4
  {
  }

  /** A face's six vertices sit on exactly the four corners of that face's square. */
  lemma FaceUsesItsFourCorners(k: nat, size: real)
    requires k < FACE_COUNT && size != 0.0
    ensures Positions(FaceVertices(k, size)) == FaceCorners(k, size)
    ensures |FaceCorners(k, size)| == 4
  {
    FaceCornersListed(k, size);
    PositionsListed(k, size);
    SquareCornersCount(k, size);
  }

  /**
   * Each of a face's two triangles winds counter-clockwise seen from outside:
   * its edge cross product is size^2 times the outward normal (so, for size != 0,
   * it is a proper triangle; as the face has only four corners, the two
   * triangles share one edge).
   */
  lemma FaceTriangles(k: nat, size: real)
    requires k < FACE_COUNT
    ensures forall t :: 0 <= t < 2 ==>
      var f := FaceVertices(k, size);
      Cross(Sub(f[3 * t + 1].position, f[3 * t].position), Sub(f[3 * t + 2].position, f[3 * t].position)) ==
        Scale(size * size, FaceNormal(k))
  {
    forall t | 0 <= t < 2
      ensures var f := FaceVertices(k, size);
        Cross(Sub(f[3 * t + 1].position, f[3 * t].position), Sub(f[3 * t + 2].position, f[3 * t].position)) ==
          Scale(size * size, FaceNormal(k))
    {
      TriangleWinds(k, size, t);
    }
  }

  /** The cross product of triangle t of face k, one face and one triangle at a time. */
  lemma TriangleWinds(k: nat, size: real, t: nat)
    requires k < FACE_COUNT && t < 2
    ensures var f := FaceVertices(k, size);
      Cross(Sub(f[3 * t + 1].position, f[3 * t].position), Sub(f[3 * t + 2].position, f[3 * t].position)) ==
        Scale(size * size, FaceNormal(k))
  {
    var f := FaceVertices(k, size);
    var a, b, c := f[3 * t].position, f[3 * t + 1].position, f[3 * t + 2].position;
    var n := FaceNormal(k);
    assert size * (-size) == -(size * size) && (-size) * size == -(size * size) && (-size) * (-size) == size * size;
    if k == 0 {
      assert n == Vec3(0.0, 0.0, 1.0);
    } else if k == 1 {
      assert n == Vec3(0.0, 0.0, -1.0);
    } else if k == 2 {
      assert n == Vec3(1.0, 0.0, 0.0);
    } else if k == 3 {
      assert n == Vec3(-1.0, 0.0, 0.0);
    } else if k == 4 {
      assert n == Vec3(0.0, 1.0, 0.0);
    } else {
      assert n == Vec3(0.0, -1.0, 0.0);
    }
  }

  /** The six pushes of face 1 (front) in build(size_c). */
  method PushFront(before: seq<ShapeVertex>, previous: ShapeVertex, size: real) returns (data: seq<ShapeVertex>, vertex: ShapeVertex)
    ensures data == before + FaceVertices(0, size)
  {
    data, vertex := before, previous;
    vertex := vertex.(texCoords := Vec2(0.0, 1.0), normal := Vec3(0.0, 0.0, 1.0), position := Vec3(0.0, 0.0, 0.0));
    data := data + [vertex];
    vertex := vertex.(texCoords := Vec2(1.0, 1.0), normal := Vec3(0.0, 0.0, 1.0), position := Vec3(size, 0.0, 0.0));
    data := data + [vertex];
    vertex := vertex.(texCoords := Vec2(0.0, 0.0), normal := Vec3(0.0, 0.0, 1.0), position := Vec3(0.0, size, 0.0));
    data := data + [vertex];
    // second triangle
    vertex := vertex.(texCoords := Vec2(0.0, 0.0), normal := Vec3(0.0, 0.0, 1.0), position := Vec3(0.0, size, 0.0));
    data := data + [vertex];
    vertex := vertex.(texCoords := Vec2(1.0, 1.0), normal := Vec3(0.0, 0.0, 1.0), position := Vec3(size, 0.0, 0.0));
    data := data + [vertex];
    vertex := vertex.(texCoords := Vec2(1.0, 0.0), normal := Vec3(0.0, 0.0, 1.0), position := Vec3(size, size, 0.0));
    data := data + [vertex];
  }

  /** The six pushes of face 2 (back) in build(size_c). */
  method PushBack(before: seq<ShapeVertex>, previous: ShapeVertex, size: real) returns (data: seq<ShapeVertex>, vertex: ShapeVertex)
    ensures data == before + FaceVertices(1, size)
  {
    data, vertex := before, previous;
    vertex := vertex.(texCoords := Vec2(0.0, 1.0), normal := Vec3(0.0, 0.0, -1.0), position := Vec3(0.0, 0.0, -size));
    data := data + [vertex];
    vertex := vertex.(texCoords := Vec2(0.0, 0.0), normal := Vec3(0.0, 0.0, -1.0), position := Vec3(0.0, size, -size));
    data := data + [vertex];
    vertex := vertex.(texCoords := Vec2(1.0, 1.0), normal := Vec3(0.0, 0.0, -1.0), position := Vec3(size, 0.0, -size));
    data := data + [vertex];
    // second triangle
    vertex := vertex.(texCoords := Vec2(0.0, 0.0), normal := Vec3(0.0, 0.0, -1.0), position := Vec3(0.0, size, -size));
    data := data + [vertex];
    vertex := vertex.(texCoords := Vec2(1.0, 0.0), normal := Vec3(0.0, 0.0, -1.0), position := Vec3(size, size, -size));
    data := data + [vertex];
    vertex := vertex.(texCoords := Vec2(1.0, 1.0), normal := Vec3(0.0, 0.0, -1.0), position := Vec3(size, 0.0, -size));
    data := data + [vertex];
  }

  /** The six pushes of face 3 (right) in build(size_c). */
  method PushRight(before: seq<ShapeVertex>, previous: ShapeVertex, size: real) returns (data: seq<ShapeVertex>, vertex: ShapeVertex)
    ensures data == before + FaceVertices(2, size)
  {
    data, vertex := before, previous;
    vertex := vertex.(texCoords := Vec2(0.0, 1.0), normal := Vec3(1.0, 0.0, 0.0), position := Vec3(size, 0.0, 0.0));
    data := data + [vertex];
    vertex := vertex.(texCoords := Vec2(1.0, 1.0), normal := Vec3(1.0, 0.0, 0.0), position := Vec3(size, 0.0, -size));
    data := data + [vertex];
    vertex := vertex.(texCoords := Vec2(0.0, 0.0), normal := Vec3(1.0, 0.0, 0.0), position := Vec3(size, size, 0.0));
    data := data + [vertex];
    // second triangle
    vertex := vertex.(texCoords := Vec2(0.0, 0.0), normal := Vec3(1.0, 0.0, 0.0), position := Vec3(size, size, 0.0));
    data := data + [vertex];
    vertex := vertex.(texCoords := Vec2(1.0, 1.0), normal := Vec3(1.0, 0.0, 0.0), position := Vec3(size, 0.0, -size));
    data := data + [vertex];
    vertex := vertex.(texCoords := Vec2(1.0, 0.0), normal := Vec3(1.0, 0.0, 0.0), position := Vec3(size, size, -size));
    data := data + [vertex];
  }

  /** The six pushes of face 4 (left) in build(size_c). */
  method PushLeft(before: seq<ShapeVertex>, previous: ShapeVertex, size: real) returns (data: seq<ShapeVertex>, vertex: ShapeVertex)
    ensures data == before + FaceVertices(3, size)
  {
    data, vertex := before, previous;
    vertex := vertex.(texCoords := Vec2(0.0, 1.0), normal := Vec3(-1.0, 0.0, 0.0), position := Vec3(0.0, 0.0, -size));
    data := data + [vertex];
    vertex := vertex.(texCoords := Vec2(1.0, 1.0), normal := Vec3(-1.0, 0.0, 0.0), position := Vec3(0.0, 0.0, 0.0));
    data := data + [vertex];
    vertex := vertex.(texCoords := Vec2(0.0, 0.0), normal := Vec3(-1.0, 0.0, 0.0), position := Vec3(0.0, size, -size));
    data := data + [vertex];
    // second triangle
    vertex := vertex.(texCoords := Vec2(0.0, 0.0), normal := Vec3(-1.0, 0.0, 0.0), position := Vec3(0.0, size, -size));
    data := data + [vertex];
    vertex := vertex.(texCoords := Vec2(1.0, 1.0), normal := Vec3(-1.0, 0.0, 0.0), position := Vec3(0.0, 0.0, 0.0));
    data := data + [vertex];
    vertex := vertex.(texCoords := Vec2(1.0, 0.0), normal := Vec3(-1.0, 0.0, 0.0), position := Vec3(0.0, size, 0.0));
    data := data + [vertex];
  }

  /** The six pushes of face 5 (top) in build(size_c). */
  method PushTop(before: seq<ShapeVertex>, previous: ShapeVertex, size: real) returns (data: seq<ShapeVertex>, vertex: ShapeVertex)
    ensures data == before + FaceVertices(4, size)
  {
    data, vertex := before, previous;
    vertex := vertex.(texCoords := Vec2(0.0, 1.0), normal := Vec3(0.0, 1.0, 0.0), position := Vec3(size, size, 0.0));
    data := data + [vertex];
    vertex := vertex.(texCoords := Vec2(1.0, 1.0), normal := Vec3(0.0, 1.0, 0.0), position := Vec3(size, size, -size));
    data := data + [vertex];
    vertex := vertex.(texCoords := Vec2(0.0, 0.0), normal := Vec3(0.0, 1.0, 0.0), position := Vec3(0.0, size, 0.0));
    data := data + [vertex];
    // second triangle
    vertex := vertex.(texCoords := Vec2(0.0, 0.0), normal := Vec3(0.0, 1.0, 0.0), position := Vec3(0.0, size, 0.0));
    data := data + [vertex];
    vertex := vertex.(texCoords := Vec2(1.0, 1.0), normal := Vec3(0.0, 1.0, 0.0), position := Vec3(size, size, -size));
    data := data + [vertex];
    vertex := vertex.(texCoords := Vec2(1.0, 0.0), normal := Vec3(0.0, 1.0, 0.0), position := Vec3(0.0, size, -size));
    data := data + [vertex];
  }

  /** The six pushes of face 6 (bottom) in build(size_c). */
  method PushBottom(before: seq<ShapeVertex>, previous: ShapeVertex, size: real) returns (data: seq<ShapeVertex>, vertex: ShapeVertex)
    ensures data == before + FaceVertices(5, size)
  {
    data, vertex := before, previous;
    vertex := vertex.(texCoords := Vec2(0.0, 1.0), normal := Vec3(0.0, -1.0, 0.0), position := Vec3(0.0, 0.0, -size));
    data := data + [vertex];
    vertex := vertex.(texCoords := Vec2(1.0, 1.0), normal := Vec3(0.0, -1.0, 0.0), position := Vec3(size, 0.0, -size));
    data := data + [vertex];
    vertex := vertex.(texCoords := Vec2(0.0, 0.0), normal := Vec3(0.0, -1.0, 0.0), position := Vec3(0.0, 0.0, 0.0));
    data := data + [vertex];
    // second triangle
    vertex := vertex.(texCoords := Vec2(0.0, 0.0), normal := Vec3(0.0, -1.0, 0.0), position := Vec3(0.0, 0.0, 0.0));
    data := data + [vertex];
    vertex := vertex.(texCoords := Vec2(1.0, 1.0), normal := Vec3(0.0, -1.0, 0.0), position := Vec3(size, 0.0, -size));
    data := data + [vertex];
    vertex := vertex.(texCoords := Vec2(1.0, 0.0), normal := Vec3(0.0, -1.0, 0.0), position := Vec3(size, 0.0, 0.0));
    data := data + [vertex];
  }

  class Cube {
    /** m_Vertices */
    var vertices: seq<ShapeVertex>
    /** m_nVertexCount */
    var vertexCount: int

    /** Cube(size_c): m_nVertexCount starts at 0, then build(size_c). */
    constructor (size: real)
      ensures vertices == CubeVertices(size) && vertexCount == VERTEX_COUNT
    {
      vertexCount := 0;
      vertices := [];
      new;
      Build(size);
    }

    /** build(size_c): one ShapeVertex variable, overwritten and pushed 36 times, face by face. */
    method Build(size: real)
      modifies this
      ensures vertices == CubeVertices(size) && vertexCount == VERTEX_COUNT == |vertices|
    {
      var data: seq<ShapeVertex> := [];
      var vertex := ShapeVertex(Zero3, Zero3, Vec2(0.0, 0.0));
      data, vertex := PushFront(data, vertex, size);
      assert data == FacesUpTo(size, 1);
      data, vertex := PushBack(data, vertex, size);
      assert data == FacesUpTo(size, 2);
      data, vertex := PushRight(data, vertex, size);
      assert data == FacesUpTo(size, 3);
      data, vertex := PushLeft(data, vertex, size);
      assert data == FacesUpTo(size, 4);
      data, vertex := PushTop(data, vertex, size);
      assert data == FacesUpTo(size, 5);
      data, vertex := PushBottom(data, vertex, size);
      assert data == FacesUpTo(size, 6);
      vertexCount := 36;
      vertices := data;
    }
  }

  // ---------------------------------------------------------------------------
  // Recentering the light cube in run() (which builds Cube(1))

  /** Every corner of the cube is the position of one of its vertices, j. */
  lemma CornerVertex(size: real, p: Vec3) returns (j: nat)
    requires IsCorner(size, p)
    ensures j < VERTEX_COUNT && CubeVertices(size)[j].position == p
  {
    var k := if p.z == 0.0 then 0 else 1;
    PositionsListed(k, size);
    assert p in SquareCorners(k, size);
    var l :| 0 <= l < 6 && FaceVertices(k, size)[l].position == p;
    FacesUpToAt(size, FACE_COUNT, k, l);
    j := 6 * k + l;
  }

  /**
   * The loop body as written: position[0] -= 0.5, then position[1] -= 0.5 twice;
   * position[2] is never touched.
   */
  function RecenterAsWritten(v: ShapeVertex): (r: ShapeVertex)
    ensures r.normal == v.normal && r.texCoords == v.texCoords
    ensures r.position == Vec3(v.position.x - 0.5, v.position.y - 1.0, v.position.z)
  {
    var p0 := v.position;
    var p1 := p0.(x := p0.x - 0.5);
    var p2 := p1.(y := p1.y - 0.5);
    var p3 := p2.(y := p2.y - 0.5);
    v.(position := p3)
  }

  /**
   * As written, the unit cube ends up entirely in y <= 0 and z <= 0, centred on
   * (0, -0.5, -0.5) rather than on the origin; its first vertex goes to (-0.5, -1, 0).
   */
  lemma RecenterAsWrittenMissesOrigin()
    ensures forall i :: 0 <= i < VERTEX_COUNT ==>
      RecenterAsWritten(CubeVertices(1.0)[i]).position.y <= 0.0 &&
      RecenterAsWritten(CubeVertices(1.0)[i]).position.z <= 0.0
    ensures RecenterAsWritten(CubeVertices(1.0)[0]).position == Vec3(-0.5, -1.0, 0.0)
  {
    CubeFaceGrouping(1.0);
    FacesUpToAt(1.0, FACE_COUNT, 0, 0);
  }

  /** The centre of Cube(1): [0, 1] x [0, 1] x [-1, 0]. */
  const UnitCubeCentre: Vec3 := Vec3(0.5, 0.5, -0.5)

  /** The intended move: every vertex by minus the unit cube's centre. */
  function Recenter(v: ShapeVertex): (r: ShapeVertex)
    ensures r.normal == v.normal && r.texCoords == v.texCoords
    ensures Add(r.position, UnitCubeCentre) == v.position
  {
    v.(position := Sub(v.position, UnitCubeCentre))
  }

  /** Moved the intended way, every coordinate of the unit cube is -0.5 or 0.5. */
  lemma RecenteredCubeCorners()
    ensures forall i :: 0 <= i < VERTEX_COUNT ==>
      var p := Recenter(CubeVertices(1.0)[i]).position;
      (p.x == -0.5 || p.x == 0.5) && (p.y == -0.5 || p.y == 0.5) && (p.z == -0.5 || p.z == 0.5)
  {
    CubeFaceGrouping(1.0);
  }

  /**
   * Moved the intended way, Cube(1) is centred on the origin: the mirror image
   * through the origin of every vertex position is again a vertex position.
   */
  lemma RecenteredCubeIsSymmetric(size: real, i: nat)
    requires size == 1.0 && i < VERTEX_COUNT
    ensures exists j ::
      && 0 <= j < VERTEX_COUNT
      && Recenter(CubeVertices(size)[j]).position == Scale(-1.0, Recenter(CubeVertices(size)[i]).position)
  {
    var p := VertexCorner(size, i);
    var q := Vec3(1.0 - p.x, 1.0 - p.y, -1.0 - p.z);
    var j := CornerVertex(size, q);
    assert Sub(q, UnitCubeCentre) == Scale(-1.0, Sub(p, UnitCubeCentre));
  }

  /** The position of vertex i is a corner of the cube. */
  lemma VertexCorner(size: real, i: nat) returns (p: Vec3)
    requires i < VERTEX_COUNT
    ensures p == CubeVertices(size)[i].position && IsCorner(size, p)
  {
    FacesUpToAt(size, FACE_COUNT, i / 6, i % 6);
    FaceVertexFacts(i / 6, size);
    p := CubeVertices(size)[i].position;
  }

  /**
   * The recentering loop of run(): copy each of the cube's vertexCount vertices
   * and move the copy, with the three coordinate updates as written.
   */
  method RecenteredCubeVertices(cube: Cube) returns (vertices: seq<ShapeVertex>)
    requires 0 <= cube.vertexCount <= |cube.vertices|
    ensures |vertices| == cube.vertexCount
    ensures forall i :: 0 <= i < |vertices| ==> vertices[i] == RecenterAsWritten(cube.vertices[i])
  {
    var countVertex := cube.vertexCount;
    var data := cube.vertices;
    vertices := [];
    var i := 0;
    while i < countVertex
      invariant 0 <= i <= countVertex
      invariant |vertices| == i
      invariant forall j :: 0 <= j < i ==> vertices[j] == RecenterAsWritten(cube.vertices[j])
    {
      vertices := vertices + [data[i]];
      var p := vertices[i].position;
      vertices := vertices[i := vertices[i].(position := p.(x := p.x - 0.5))];
      p := vertices[i].position;
      vertices := vertices[i := vertices[i].(position := p.(y := p.y - 0.5))];
      p := vertices[i].position;
      vertices := vertices[i := vertices[i].(position := p.(y := p.y - 0.5))];
      i := i + 1;
    }
  }
}
