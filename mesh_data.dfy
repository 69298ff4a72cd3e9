/**
 * Vertex buffer data for procedural geometry (MonoDreams/Draw/MeshData.cs): coloured vertices,
 * an index list and the primitive type that says how the indices are grouped.
 */
module Meshes {
  /** MonoGame's Vector3. */
  datatype Vec3 = Vec3(x: real, y: real, z: real)

  /** MonoGame's Color, four byte channels. */
  datatype Color = Color(r: int, g: int, b: int, a: int)

  datatype VertexPositionColor = VertexPositionColor(position: Vec3, color: Color)

  /** MonoGame's PrimitiveType. */
  datatype PrimitiveType = TriangleList | TriangleStrip | LineList | LineStrip | PointList

  datatype MeshData = MeshData(
    vertices: seq<VertexPositionColor>,
    indices: seq<int>,
    primitiveType: PrimitiveType,
    isDirty: bool)
  {
    /** IsValid: both arrays are non-empty. */
    predicate IsValid() {
      |vertices| > 0 && |indices| > 0
    }

    /**
     * PrimitiveCount: whole triangles or segments the indices describe. C#'s division truncates,
     * which on a length is Dafny's division; a strip shorter than its first primitive counts
     * negative.
     */
    function PrimitiveCount(): (c: int)
      ensures primitiveType == TriangleList ==> 0 <= c && 3 * c <= |indices| < 3 * c + 3
      ensures primitiveType == TriangleStrip ==> c + 2 == |indices|
      ensures primitiveType == LineList ==> 0 <= c && 2 * c <= |indices| < 2 * c + 2
      ensures primitiveType == LineStrip ==> c + 1 == |indices|
      ensures primitiveType == PointList ==> c == 0
    {
      match primitiveType
      case TriangleList => |indices| / 3
      case TriangleStrip => |indices| - 2
      case LineList => |indices| / 2
      case LineStrip => |indices| - 1
      case PointList => 0
    }
  }

  /** The parameterless constructor: no vertices, no indices, a triangle list, dirty. */
  function EmptyMesh(): (m: MeshData)
    ensures !m.IsValid() && m.PrimitiveCount() == 0
    ensures m.primitiveType == TriangleList && m.isDirty
  {
    MeshData([], [], TriangleList, true)
  }

  /** The array constructor keeps its arguments and marks the mesh dirty. */
  function NewMesh(vertices: seq<VertexPositionColor>, indices: seq<int>,
                   primitiveType: PrimitiveType := TriangleList): (m: MeshData)
    ensures m.vertices == vertices && m.indices == indices && m.primitiveType == primitiveType
    ensures m.isDirty
    ensures m.IsValid() <==> |vertices| > 0 && |indices| > 0
  {
    MeshData(vertices, indices, primitiveType, true)
  }

  /** Every index names one of the mesh's vertices. */
  predicate IndicesInRange(m: MeshData) {
    forall i :: 0 <= i < |m.indices| ==> 0 <= m.indices[i] < |m.vertices|
  }

  /** A triangle list's count grows by one for every three more indices. */
  lemma TriangleCountStep(vertices: seq<VertexPositionColor>, indices: seq<int>, tri: seq<int>)
    requires |tri| == 3
    ensures NewMesh(vertices, indices + tri).PrimitiveCount() == NewMesh(vertices, indices).PrimitiveCount() + 1
  {
    var c, c' := NewMesh(vertices, indices).PrimitiveCount(), NewMesh(vertices, indices + tri).PrimitiveCount();
    assert 3 * c <= |indices| < 3 * c + 3;
    assert 3 * c' <= |indices| + 3 < 3 * c' + 3;
  }

  /**
   * IsValid does not rule out a negative count: among valid meshes, exactly the triangle strips
   * with a single index report one (-1).
   */
  lemma ValidCountNegative(m: MeshData)
    requires m.IsValid()
    ensures m.PrimitiveCount() < 0 <==> m.primitiveType == TriangleStrip && |m.indices| == 1
    ensures m.PrimitiveCount() < 0 ==> m.PrimitiveCount() == -1
  {
  }
}
