/**
 * The procedural mesh generators of MonoDreams/Draw/IMeshGenerator.cs: circle fans, thick lines,
 * rectangle outlines and fills, gradient paths, and a composite that concatenates the meshes of
 * other generators.
 *
 * The vertex and index lists the helpers append to are sequences passed in and returned, and the
 * `ref int indexOffset` is an in/out integer. MathF.Cos, MathF.Sin and Vector2.Normalize are the
 * parameters `cos`, `sin` and `normalize`; float rounding of the angles is not modelled.
 */
module MeshGenerators {
  import opened Wrappers
  import opened Vectors
  import opened Meshes

  /** MathF.PI, the single-precision value of pi. */
  const Pi: real := 3.1415927410125732421875

  function At(p: Vec2, color: Color): VertexPositionColor {
    VertexPositionColor(Vec3(p.x, p.y, 0.0), color)
  }

  /** The point of the rim at `2π·k/segments`. */
  function RimPoint(center: Vec2, radius: real, k: int, segments: int, cos: real -> real, sin: real -> real): Vec2
    requires segments > 0
  {
    var angle := 2.0 * Pi * k as real / segments as real;
    Vec2(center.x + radius * cos(angle), center.y + radius * sin(angle))
  }

  /** The 2·count rim vertices of the first `count` segments: each segment's two ends. */
  function RimVertices(center: Vec2, radius: real, color: Color, segments: int, count: nat,
                       cos: real -> real, sin: real -> real): (r: seq<VertexPositionColor>)
    requires 0 < segments && count <= segments
    ensures |r| == 2 * count
  {
    if count == 0 then []
    else
      var k := count - 1;
      RimVertices(center, radius, color, segments, k, cos, sin) +
      [At(RimPoint(center, radius, k, segments, cos, sin), color),
       At(RimPoint(center, radius, (k + 1) % segments, segments, cos, sin), color)]
  }

  /** The fan triangles of the first `count` segments around the centre vertex. */
  function FanIndices(centerIndex: int, count: nat): (r: seq<int>)
    ensures |r| == 3 * count
    ensures forall j :: 0 <= j < |r| ==> centerIndex <= r[j] <= centerIndex + 2 * count
  {
    if count == 0 then []
    else
      var first := centerIndex + 1 + 2 * (count - 1);
      FanIndices(centerIndex, count - 1) + [centerIndex, first, first + 1]
  }

  /**
   * AddCircle: a centre vertex, then two rim vertices and one fan triangle per segment; the offset
   * advances by one plus two per segment. A non-positive segment count adds only the centre.
   */
  method AddCircle(vertices: seq<VertexPositionColor>, indices: seq<int>, center: Vec2, radius: real,
                   color: Color, indexOffset: int, segments: int, cos: real -> real, sin: real -> real)
    returns (vertices': seq<VertexPositionColor>, indices': seq<int>, indexOffset': int)
    ensures var n := if segments > 0 then segments else 0;
            vertices' == vertices + [At(center, color)] +
              (if segments > 0 then RimVertices(center, radius, color, segments, n, cos, sin) else []) &&
            indices' == indices + FanIndices(indexOffset, n) &&
            indexOffset' == indexOffset + 1 + 2 * n
  {
    vertices' := vertices + [At(center, color)];
    var centerIndex := indexOffset;
    indexOffset' := indexOffset + 1;
    indices' := indices;
    var i := 0;
    while i < segments
      invariant 0 <= i && (segments > 0 ==> i <= segments) && (segments <= 0 ==> i == 0)
      invariant segments > 0 ==> vertices' == vertices + [At(center, color)] + RimVertices(center, radius, color, segments, i, cos, sin)
      invariant segments <= 0 ==> vertices' == vertices + [At(center, color)]
      invariant indices' == indices + FanIndices(centerIndex, i)
      invariant indexOffset' == centerIndex + 1 + 2 * i
      decreases segments - i
    {
      var point1 := RimPoint(center, radius, i, segments, cos, sin);
      var point2 := RimPoint(center, radius, (i + 1) % segments, segments, cos, sin);
      vertices' := vertices' + [At(point1, color), At(point2, color)];
      indices' := indices' + [centerIndex, indexOffset', indexOffset' + 1];
      indexOffset' := indexOffset' + 2;
      i := i + 1;
    }
    if segments <= 0 {
      assert i == 0 && FanIndices(centerIndex, 0) == [];
      assert vertices' + [] == vertices';
    } else {
      assert i == segments;
    }
  }

  /** The four corners of a line of the given half-width vector: start ± p, end ∓ p. */
  function LineQuad(start: Vec2, end: Vec2, perpendicular: Vec2, color: Color): seq<VertexPositionColor> {
    [At(start.Plus(perpendicular), color), At(start.Minus(perpendicular), color),
     At(end.Minus(perpendicular), color), At(end.Plus(perpendicular), color)]
  }

  /** The two triangles of a quad whose first vertex has index o. */
  function QuadIndices(o: int): seq<int> {
    [o, o + 1, o + 2, o, o + 2, o + 3]
  }

  /** The perpendicular of the line direction, normalised and scaled to half the thickness. */
  function LinePerpendicular(start: Vec2, end: Vec2, thickness: real, normalize: Vec2 -> Vec2): Vec2 {
    var direction := end.Minus(start);
    normalize(Vec2(-direction.y, direction.x)).Scaled(thickness / 2.0)
  }

  /** AddLine: four vertices, two triangles over them, and the offset advanced by four. */
  method AddLine(vertices: seq<VertexPositionColor>, indices: seq<int>, start: Vec2, end: Vec2,
                 thickness: real, color: Color, indexOffset: int, normalize: Vec2 -> Vec2)
    returns (vertices': seq<VertexPositionColor>, indices': seq<int>, indexOffset': int)
    ensures vertices' == vertices + LineQuad(start, end, LinePerpendicular(start, end, thickness, normalize), color)
    ensures indices' == indices + QuadIndices(indexOffset)
    ensures indexOffset' == indexOffset + 4
  {
    var direction := end.Minus(start);
    var perpendicular := normalize(Vec2(-direction.y, direction.x));
    perpendicular := perpendicular.Scaled(thickness / 2.0);
    vertices' := vertices + [At(start.Plus(perpendicular), color)];
    vertices' := vertices' + [At(start.Minus(perpendicular), color)];
    vertices' := vertices' + [At(end.Minus(perpendicular), color)];
    vertices' := vertices' + [At(end.Plus(perpendicular), color)];
    indices' := indices + [indexOffset, indexOffset + 1, indexOffset + 2];
    indices' := indices' + [indexOffset, indexOffset + 2, indexOffset + 3];
    indexOffset' := indexOffset + 4;
  }

  /**
   * The helpers keep a mesh under construction sound: when the offset counts the vertices and
   * every index names a vertex, the same holds after appending a circle.
   */
  lemma AddCircleKeepsInRange(vertices: seq<VertexPositionColor>, indices: seq<int>, indexOffset: int,
                              vertices': seq<VertexPositionColor>, indices': seq<int>, indexOffset': int,
                              center: VertexPositionColor, rim: seq<VertexPositionColor>, n: nat)
    requires indexOffset == |vertices|
    requires IndicesInRange(NewMesh(vertices, indices))
    requires |rim| == 2 * n && vertices' == vertices + [center] + rim
    requires indices' == indices + FanIndices(indexOffset, n) && indexOffset' == indexOffset + 1 + 2 * n
    ensures indexOffset' == |vertices'|
    ensures IndicesInRange(NewMesh(vertices', indices'))
  {
    var fan := FanIndices(indexOffset, n);
    forall j | 0 <= j < |indices'| ensures 0 <= indices'[j] < |vertices'| {
      if j >= |indices| {
        assert indices'[j] == fan[j - |indices|];
      }
    }
  }

  /** The same for a line. */
  lemma AddLineKeepsInRange(vertices: seq<VertexPositionColor>, indices: seq<int>, indexOffset: int,
                            quad: seq<VertexPositionColor>)
    requires indexOffset == |vertices| && |quad| == 4
    requires IndicesInRange(NewMesh(vertices, indices))
    ensures IndicesInRange(NewMesh(vertices + quad, indices + QuadIndices(indexOffset)))
  {
    var v', i' := vertices + quad, indices + QuadIndices(indexOffset);
    forall j | 0 <= j < |i'| ensures 0 <= i'[j] < |v'| {
      if j >= |indices| {
        assert i'[j] == QuadIndices(indexOffset)[j - |indices|];
      }
    }
  }

  /** CircleMeshGenerator.Generate: 1 + 2·segments vertices, 3·segments indices, all in range. */
  method GenerateCircle(center: Vec2, radius: real, color: Color, segments: int, cos: real -> real, sin: real -> real)
    returns (mesh: MeshData)
    ensures var n := if segments > 0 then segments else 0;
            |mesh.vertices| == 1 + 2 * n && |mesh.indices| == 3 * n
    ensures mesh.vertices[0] == At(center, color)
    ensures IndicesInRange(mesh) && mesh.primitiveType == TriangleList
    ensures segments > 0 ==> mesh.PrimitiveCount() == segments
  {
    var vertices, indices, indexOffset := AddCircle([], [], center, radius, color, 0, segments, cos, sin);
    var n := if segments > 0 then segments else 0;
    var rim := if segments > 0 then RimVertices(center, radius, color, segments, n, cos, sin) else [];
    AddCircleKeepsInRange([], [], 0, vertices, indices, indexOffset, At(center, color), rim, n);
    mesh := NewMesh(vertices, indices);
  }

  /** LineMeshGenerator.Generate: one quad. */
  method GenerateLine(start: Vec2, end: Vec2, thickness: real, color: Color, normalize: Vec2 -> Vec2)
    returns (mesh: MeshData)
    ensures mesh.vertices == LineQuad(start, end, LinePerpendicular(start, end, thickness, normalize), color)
    ensures mesh.indices == [0, 1, 2, 0, 2, 3]
    ensures IndicesInRange(mesh) && mesh.PrimitiveCount() == 2
  {
    var vertices, indices, indexOffset := AddLine([], [], start, end, thickness, color, 0, normalize);
    mesh := NewMesh(vertices, indices);
  }

  /** The corners of an integer rectangle, clockwise from the top left. */
  function Corners(bounds: Rectangle): seq<Vec2> {
    var l, t := bounds.x as real, bounds.y as real;
    var r, b := (bounds.x + bounds.width) as real, (bounds.y + bounds.height) as real;
    [Vec2(l, t), Vec2(r, t), Vec2(r, b), Vec2(l, b)]
  }

  /** Edge k of the outline: the line from corner k to the next corner, clockwise. */
  function OutlineEdge(bounds: Rectangle, k: int, thickness: real, color: Color, normalize: Vec2 -> Vec2): (r: seq<VertexPositionColor>)
    requires 0 <= k < 4
    ensures |r| == 4
  {
    var c := Corners(bounds);
    var from, to := c[k], c[(k + 1) % 4];
    LineQuad(from, to, LinePerpendicular(from, to, thickness, normalize), color)
  }

  /**
   * RectangleOutlineMeshGenerator.Generate: four lines, top, right, bottom and left, each a quad
   * from one corner to the next: 16 vertices and 24 indices, every index a vertex.
   */
  method GenerateRectangleOutline(bounds: Rectangle, thickness: real, color: Color, normalize: Vec2 -> Vec2)
    returns (mesh: MeshData)
    ensures mesh.vertices == OutlineEdge(bounds, 0, thickness, color, normalize) + OutlineEdge(bounds, 1, thickness, color, normalize) +
                             OutlineEdge(bounds, 2, thickness, color, normalize) + OutlineEdge(bounds, 3, thickness, color, normalize)
    ensures mesh.indices == QuadIndices(0) + QuadIndices(4) + QuadIndices(8) + QuadIndices(12)
    ensures |mesh.vertices| == 16 && |mesh.indices| == 24
    ensures IndicesInRange(mesh) && mesh.PrimitiveCount() == 8
  {
    var c := Corners(bounds);
    var topLeft, topRight, bottomRight, bottomLeft := c[0], c[1], c[2], c[3];
    var v0, i0, o0 := AddLine([], [], topLeft, topRight, thickness, color, 0, normalize);
    var v1, i1, o1 := AddLine(v0, i0, topRight, bottomRight, thickness, color, o0, normalize);
    var v2, i2, o2 := AddLine(v1, i1, bottomRight, bottomLeft, thickness, color, o1, normalize);
    var v3, i3, o3 := AddLine(v2, i2, bottomLeft, topLeft, thickness, color, o2, normalize);
    ghost var e0, e1 := OutlineEdge(bounds, 0, thickness, color, normalize), OutlineEdge(bounds, 1, thickness, color, normalize);
    ghost var e2, e3 := OutlineEdge(bounds, 2, thickness, color, normalize), OutlineEdge(bounds, 3, thickness, color, normalize);
    assert v0 == [] + e0 && v1 == v0 + e1 && v2 == v1 + e2 && v3 == v2 + e3;
    assert [] + e0 == e0;
    AddLineKeepsInRange([], [], 0, OutlineEdge(bounds, 0, thickness, color, normalize));
    AddLineKeepsInRange(v0, i0, 4, OutlineEdge(bounds, 1, thickness, color, normalize));
    AddLineKeepsInRange(v1, i1, 8, OutlineEdge(bounds, 2, thickness, color, normalize));
    AddLineKeepsInRange(v2, i2, 12, OutlineEdge(bounds, 3, thickness, color, normalize));
    mesh := NewMesh(v3, i3);
  }

  /** FilledRectangleMeshGenerator.Generate: the four corners and two triangles over them. */
  function GenerateFilledRectangle(bounds: Rectangle, color: Color): (mesh: MeshData)
    ensures |mesh.vertices| == 4 && mesh.indices == [0, 1, 2, 0, 2, 3]
    ensures forall k :: 0 <= k < 4 ==> mesh.vertices[k] == At(Corners(bounds)[k], color)
    ensures IndicesInRange(mesh) && mesh.PrimitiveCount() == 2 && mesh.IsValid()
  {
    var c := Corners(bounds);
    NewMesh([At(c[0], color), At(c[1], color), At(c[2], color), At(c[3], color)], [0, 1, 2, 0, 2, 3])
  }

  /**
   * The direction a gradient path is widened across at point i: the first and last segments at
   * the ends, the chord over both neighbours in between.
   */
  function PathDirection(points: seq<Vec2>, i: int): Vec2
    requires |points| >= 2 && 0 <= i < |points|
  {
    if i == 0 then points[1].Minus(points[0])
    else if i == |points| - 1 then points[i].Minus(points[i - 1])
    else points[i + 1].Minus(points[i - 1])
  }

  /** The two vertices of path point i: either side of the point, coloured at t = i / (n - 1). */
  function PathPair(points: seq<Vec2>, i: int, width: real, colorFunction: real -> Color,
                    normalize: Vec2 -> Vec2): seq<VertexPositionColor>
    requires |points| >= 2 && 0 <= i < |points|
  {
    var t := i as real / (|points| - 1) as real;
    var direction := normalize(PathDirection(points, i));
    var perpendicular := Vec2(-direction.y, direction.x).Scaled(width / 2.0);
    [At(points[i].Plus(perpendicular), colorFunction(t)), At(points[i].Minus(perpendicular), colorFunction(t))]
  }

  /** The two triangles joining the vertex pairs of path points i - 1 and i. */
  function StripQuad(i: int): seq<int> {
    var b := (i - 1) * 2;
    [b, b + 1, b + 2, b + 1, b + 3, b + 2]
  }

  function PathVertices(points: seq<Vec2>, count: nat, width: real, colorFunction: real -> Color,
                        normalize: Vec2 -> Vec2): (r: seq<VertexPositionColor>)
    requires |points| >= 2 && count <= |points|
    ensures |r| == 2 * count
  {
    if count == 0 then []
    else PathVertices(points, count - 1, width, colorFunction, normalize) + PathPair(points, count - 1, width, colorFunction, normalize)
  }

  function PathIndices(count: nat): (r: seq<int>)
    ensures |r| == (if count == 0 then 0 else 6 * (count - 1))
    ensures forall j :: 0 <= j < |r| ==> 0 <= r[j] < 2 * count
  {
    if count <= 1 then [] else PathIndices(count - 1) + StripQuad(count - 1)
  }

  /**
   * GradientPathMeshGenerator.Generate: a null path or one of fewer than two points gives the
   * empty mesh; n points give 2n vertices and 6(n - 1) indices forming 2(n - 1) triangles.
   */
  method GenerateGradientPath(pathPoints: Option<seq<Vec2>>, width: real, colorFunction: real -> Color,
                              normalize: Vec2 -> Vec2)
    returns (mesh: MeshData)
    ensures pathPoints.None? || |pathPoints.value| < 2 ==> mesh == EmptyMesh()
    ensures pathPoints.Some? && |pathPoints.value| >= 2 ==>
      var points := pathPoints.value;
      mesh.vertices == PathVertices(points, |points|, width, colorFunction, normalize) &&
      mesh.indices == PathIndices(|points|) &&
      |mesh.vertices| == 2 * |points| && |mesh.indices| == 6 * (|points| - 1) &&
      mesh.PrimitiveCount() == 2 * (|points| - 1)
    ensures IndicesInRange(mesh)
  {
    if pathPoints.None? || |pathPoints.value| < 2 {
      return EmptyMesh();
    }
    var points := pathPoints.value;
    var vertices: seq<VertexPositionColor> := [];
    var indices: seq<int> := [];
    for i := 0 to |points|
      invariant vertices == PathVertices(points, i, width, colorFunction, normalize)
      invariant indices == PathIndices(i)
    {
      var t := i as real / (|points| - 1) as real;
      var color := colorFunction(t);
      var direction;
      if i == 0 {
        direction := points[1].Minus(points[0]);
      } else if i == |points| - 1 {
        direction := points[i].Minus(points[i - 1]);
      } else {
        direction := points[i + 1].Minus(points[i - 1]);
      }
      direction := normalize(direction);
      var perpendicular := Vec2(-direction.y, direction.x).Scaled(width / 2.0);
      vertices := vertices + [At(points[i].Plus(perpendicular), color)];
      vertices := vertices + [At(points[i].Minus(perpendicular), color)];
      if i > 0 {
        var baseIndex := (i - 1) * 2;
        indices := indices + [baseIndex, baseIndex + 1, baseIndex + 2];
        indices := indices + [baseIndex + 1, baseIndex + 3, baseIndex + 2];
      }
    }
    mesh := NewMesh(vertices, indices);
  }

  /** Every index plus the offset. */
  function Shifted(indices: seq<int>, offset: int): (r: seq<int>)
    ensures |r| == |indices|
    ensures forall j :: 0 <= j < |indices| ==> r[j] == indices[j] + offset
  {
    seq(|indices|, j requires 0 <= j < |indices| => indices[j] + offset)
  }

  /** The meshes concatenated in order, each one's indices moved past the vertices before it. */
  function Combined(meshes: seq<MeshData>): MeshData {
    if meshes == [] then NewMesh([], [])
    else
      var front := Combined(meshes[..|meshes| - 1]);
      var last := meshes[|meshes| - 1];
      NewMesh(front.vertices + last.vertices, front.indices + Shifted(last.indices, |front.vertices|))
  }

  /**
   * CompositeMeshGenerator: the meshes its generators produce, in the order they were added.
   * Each generator is represented by the mesh its Generate returns.
   */
  class CompositeMeshGenerator {
    var generators: seq<MeshData>

    constructor()
      ensures generators == []
    {
      generators := [];
    }

    /** Add: appends a generator and returns this generator for chaining. */
    method Add(generator: MeshData) returns (r: CompositeMeshGenerator)
      modifies this
      ensures generators == old(generators) + [generator] && r == this
    {
      generators := generators + [generator];
      r := this;
    }

    /** Generate: every mesh's vertices appended, its indices shifted by the vertex count so far. */
    method Generate() returns (mesh: MeshData)
      ensures mesh == Combined(generators)
    {
      var allVertices: seq<VertexPositionColor> := [];
      var allIndices: seq<int> := [];
      for g := 0 to |generators|
        invariant NewMesh(allVertices, allIndices) == Combined(generators[..g])
      {
        var m := generators[g];
        var indexOffset := |allVertices|;
        allVertices := allVertices + m.vertices;
        for k := 0 to |m.indices|
          invariant allIndices == Combined(generators[..g]).indices + Shifted(m.indices[..k], indexOffset)
        {
          assert Shifted(m.indices[..k + 1], indexOffset) == Shifted(m.indices[..k], indexOffset) + [m.indices[k] + indexOffset];
          allIndices := allIndices + [m.indices[k] + indexOffset];
        }
        assert m.indices[..|m.indices|] == m.indices;
        assert generators[..g + 1][..g] == generators[..g];
      }
      assert generators[..|generators|] == generators;
      mesh := NewMesh(allVertices, allIndices);
    }
  }

  /** The combined mesh holds every part's vertices, after those of the parts before it. */
  lemma {:induction false} CombinedVertices(meshes: seq<MeshData>, k: int)
    requires 0 <= k < |meshes|
    ensures |Combined(meshes[..k]).vertices| + |meshes[k].vertices| <= |Combined(meshes).vertices|
    ensures var start := |Combined(meshes[..k]).vertices|;
            Combined(meshes).vertices[start..start + |meshes[k].vertices|] == meshes[k].vertices
  {
    var n := |meshes|;
    if k < n - 1 {
      assert meshes[..n - 1][..k] == meshes[..k];
      CombinedVertices(meshes[..n - 1], k);
    } else {
      assert meshes[..k] == meshes[..n - 1];
    }
  }

  /** When every part's indices name its own vertices, every index of the composite names one of its vertices. */
  lemma {:induction false} CombinedInRange(meshes: seq<MeshData>)
    requires forall k :: 0 <= k < |meshes| ==> IndicesInRange(meshes[k])
    ensures IndicesInRange(Combined(meshes))
  {
    if meshes != [] {
      var n := |meshes|;
      CombinedInRange(meshes[..n - 1]);
      var front := Combined(meshes[..n - 1]);
      var last := meshes[n - 1];
      var c := Combined(meshes);
      forall j | 0 <= j < |c.indices| ensures 0 <= c.indices[j] < |c.vertices| {
        if j >= |front.indices| {
          assert c.indices[j] == last.indices[j - |front.indices|] + |front.vertices|;
        } else {
          assert c.indices[j] == front.indices[j];
        }
      }
    }
  }
}
