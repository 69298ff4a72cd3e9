/**
 * The Blender add-on that writes a level as JSON (Tools/blender_level_export.py): mesh
 * classification, texture and UV extraction, custom-property coercion, the X/Z to 2D mapping of
 * each object, and the export of the filtered, name-sorted object list.
 *
 * Blender objects are abstract records; `bpy.path.abspath` is a function parameter.
 */
module BlenderExport {
  import opened Wrappers
  import opened Json
  import opened Sorting
  import opened Numerics

  // ---------------------------------------------------------------------------------------
  // Python's round(x, n) and math.degrees
  // ---------------------------------------------------------------------------------------

  function Pow10(n: nat): (p: nat)
    ensures p >= 1
  {
    if n == 0 then 1 else 10 * Pow10(n - 1)
  }

  /** x expressed in units of 10^-places. */
  function Scale(x: real, places: nat): real { x * Pow10(places) as real }

  /** n units of 10^-places. */
  function Unscale(n: int, places: nat): (r: real)
    ensures Scale(r, places) == n as real
  { n as real / Pow10(places) as real }

  /** Python's `round(x, places)`: round half to even at the given number of decimals. */
  function Round(x: real, places: nat): real {
    Unscale(RoundHalfEven(Scale(x, places)), places)
  }

  /** A value with at most `places` decimals. */
  predicate OnGrid(x: real, places: nat) {
    Scale(x, places).Floor as real == Scale(x, places)
  }

  /** Rounding moves a value by at most half a unit in the last kept decimal. */
  lemma RoundError(x: real, places: nat)
    ensures -0.5 <= Scale(x, places) - Scale(Round(x, places), places) <= 0.5
  {
  }

  /** Rounded values lie on the decimal grid, and rounding them again changes nothing. */
  lemma RoundIdempotent(x: real, places: nat)
    ensures OnGrid(Round(x, places), places)
    ensures Round(Round(x, places), places) == Round(x, places)
  {
    var n := RoundHalfEven(Scale(x, places));
    assert Scale(Round(x, places), places) == n as real;
    assert RoundHalfEven(n as real) == n;
  }

  const Pi: real := 3.141592653589793

  /** math.degrees */
  function Degrees(radians: real): real { radians * (180.0 / Pi) }

  // ---------------------------------------------------------------------------------------
  // Blender data, as the exporter reads it
  // ---------------------------------------------------------------------------------------

  datatype Vec3 = Vec3(x: real, y: real, z: real)
  datatype Uv = Uv(u: real, v: real)

  datatype Image = Image(name: string, filepath: string, packed: bool)
  datatype ShaderNode = ShaderNode(nodeType: string, image: Option<Image>)
  /** A material slot's material: whether it uses nodes, and its node tree's nodes. */
  datatype Material = Material(useNodes: bool, nodes: seq<ShaderNode>)

  /** A UV layer stores one coordinate per loop (face corner). */
  datatype UvLayerData = UvLayerData(name: string, uvs: seq<Uv>)

  /**
   * Mesh data: its name, the number of vertices, each polygon's loop indices, the vertex of
   * each loop, and the UV layers.
   */
  datatype MeshData = MeshData(
    name: string,
    vertexCount: nat,
    polygons: seq<seq<nat>>,
    loopVertices: seq<nat>,
    uvLayers: seq<UvLayerData>)

  /** An element of a Blender ID-property array: arrays hold ints, floats or bools. */
  datatype ArrayItem = IntItem(i: int) | FloatItem(r: real) | BoolItem(b: bool)

  /** A custom-property value: Python primitives, arrays with `to_list`, or anything else. */
  datatype PropValue =
    | IntProp(i: int)
    | FloatProp(r: real)
    | StrProp(s: string)
    | BoolProp(b: bool)
    | ArrayProp(items: seq<ArrayItem>)
      /** what `float(value)` and `str(value)` give, None where they raise */
    | OtherProp(asFloat: Option<real>, asStr: Option<string>)

  /**
   * A scene object: `location` and `rotationZ` are the translation and Z Euler angle (radians)
   * of its world matrix; `scale` its own scale; `dimensions` its bounding-box size.
   */
  datatype SceneObject = SceneObject(
    name: string,
    objType: string,
    location: Vec3,
    scale: Vec3,
    dimensions: Vec3,
    rotationZ: real,
    mesh: Option<MeshData>,
    materialSlots: seq<Option<Material>>,
    properties: seq<(string, PropValue)>)

  /** Blender keeps every loop index, loop vertex and per-loop UV table in range. */
  predicate ValidMesh(m: MeshData) {
    && (forall i, j :: 0 <= i < |m.polygons| && 0 <= j < |m.polygons[i]| ==> m.polygons[i][j] < |m.loopVertices|)
    && (forall l :: 0 <= l < |m.loopVertices| ==> m.loopVertices[l] < m.vertexCount)
    && (forall k :: 0 <= k < |m.uvLayers| ==> |m.uvLayers[k].uvs| == |m.loopVertices|)
  }

  predicate DistinctKeys<V>(props: seq<(string, V)>) {
    forall i, j :: 0 <= i < j < |props| ==> props[i].0 != props[j].0
  }

  /** A MESH object carries valid mesh data; custom-property keys are unique. */
  predicate WellFormed(obj: SceneObject) {
    && (obj.objType == "MESH" ==> obj.mesh.Some? && ValidMesh(obj.mesh.value))
    && DistinctKeys(obj.properties)
  }

  // ---------------------------------------------------------------------------------------
  // Output records
  // ---------------------------------------------------------------------------------------

  datatype Point2 = Point2(x: real, y: real)
  datatype UvCoordinate = UvCoordinate(vertexIndex: nat, u: real, v: real)
  datatype UvLayerOut = UvLayerOut(name: string, uvCoordinates: seq<UvCoordinate>)
  datatype UvMapping = UvMapping(texturePath: Option<string>, uvLayers: seq<UvLayerOut>)

  datatype ExportedObject = ExportedObject(
    name: string,
    objType: string,
    meshType: Option<string>,
    position: Point2,
    dimensions: Point2,
    scale: Point2,
    rotation: real,
    customProperties: seq<(string, JsonValue)>,
    uvMapping: Option<UvMapping>)

  datatype ExportDocument = ExportDocument(
    version: string,
    exportedFrom: string,
    scaleFactor: real,
    objects: seq<ExportedObject>)

  // ---------------------------------------------------------------------------------------
  // get_mesh_type
  // ---------------------------------------------------------------------------------------

  function GetMeshType(obj: SceneObject): (r: Option<string>)
    requires WellFormed(obj)
    ensures r.None? <==> obj.objType != "MESH"
    ensures r.Some? ==> r.value in {"plane", "cube", obj.mesh.value.name}
  {
    if obj.objType != "MESH" then None
    else
      var mesh := obj.mesh.value;
      if mesh.vertexCount == 4 && |mesh.polygons| <= 2 then Some("plane")
      else if mesh.vertexCount == 8 && |mesh.polygons| in {6, 12} then Some("cube")
      else Some(mesh.name)
  }

  /** The three classification rules, each read off the vertex and face counts. */
  lemma MeshTypeRules(obj: SceneObject)
    requires WellFormed(obj) && obj.objType == "MESH"
    ensures var m := obj.mesh.value;
      && (m.vertexCount == 4 && |m.polygons| <= 2 ==> GetMeshType(obj) == Some("plane"))
      && (m.vertexCount == 8 && (|m.polygons| == 6 || |m.polygons| == 12) ==> GetMeshType(obj) == Some("cube"))
      && (!(m.vertexCount == 4 && |m.polygons| <= 2) && !(m.vertexCount == 8 && (|m.polygons| == 6 || |m.polygons| == 12))
          ==> GetMeshType(obj) == Some(m.name))
  {
  }

  // ---------------------------------------------------------------------------------------
  // get_texture_image_path
  // ---------------------------------------------------------------------------------------

  /** What an image-texture node yields: its absolute file path, or a marker for a packed image. */
  function NodeImagePath(node: ShaderNode, abspath: string -> string): Option<string> {
    if node.nodeType == "TEX_IMAGE" && node.image.Some? then
      var image := node.image.value;
      if image.filepath != "" then Some(abspath(image.filepath))
      else if image.packed then Some("[packed]" + image.name)
      else None
    else None
  }

  /** Nodes in the order the exporter visits them: slots in order, node-based materials only. */
  function CandidateNodes(slots: seq<Option<Material>>): seq<ShaderNode> {
    if slots == [] then []
    else
      var rest := CandidateNodes(slots[1..]);
      if slots[0].Some? && slots[0].value.useNodes then slots[0].value.nodes + rest else rest
  }

  /** The path of the first node that yields one. */
  function FirstImagePath(nodes: seq<ShaderNode>, abspath: string -> string): Option<string> {
    if nodes == [] then None
    else
      var here := NodeImagePath(nodes[0], abspath);
      if here.Some? then here else FirstImagePath(nodes[1..], abspath)
  }

  /** No path exactly when no node yields one; otherwise the path of the first node that does. */
  lemma {:induction false} FirstImagePathIsFirst(nodes: seq<ShaderNode>, abspath: string -> string)
    ensures var r := FirstImagePath(nodes, abspath);
      && (r.None? <==> forall i :: 0 <= i < |nodes| ==> NodeImagePath(nodes[i], abspath).None?)
      && (r.Some? ==>
            exists i :: 0 <= i < |nodes| && NodeImagePath(nodes[i], abspath) == r
                        && forall j :: 0 <= j < i ==> NodeImagePath(nodes[j], abspath).None?)
  {
    if nodes != [] && NodeImagePath(nodes[0], abspath).None? {
      FirstImagePathIsFirst(nodes[1..], abspath);
      assert forall i :: 1 <= i < |nodes| ==> nodes[i] == nodes[1..][i - 1];
      var r := FirstImagePath(nodes, abspath);
      if r.Some? {
        var i :| 0 <= i < |nodes[1..]| && NodeImagePath(nodes[1..][i], abspath) == r
          && forall j :: 0 <= j < i ==> NodeImagePath(nodes[1..][j], abspath).None?;
        assert NodeImagePath(nodes[i + 1], abspath) == r;
      }
    }
  }

  /**
   * The first slot whose material uses nodes and has an image-texture node with a file path or a
   * packed image decides; every later slot is scanned only when the earlier ones yield nothing.
   */
  function GetTextureImagePath(slots: seq<Option<Material>>, abspath: string -> string): (r: Option<string>)
    ensures r == FirstImagePath(CandidateNodes(slots), abspath)
  {
    if slots == [] then None
    else if slots[0].None? || !slots[0].value.useNodes then GetTextureImagePath(slots[1..], abspath)
    else
      var here := FirstImagePath(slots[0].value.nodes, abspath);
      FirstImagePathAppend(slots[0].value.nodes, CandidateNodes(slots[1..]), abspath);
      if here.Some? then here else GetTextureImagePath(slots[1..], abspath)
  }

  /** Scanning a + b finds a's first path if a has one, and b's otherwise. */
  lemma {:induction false} FirstImagePathAppend(a: seq<ShaderNode>, b: seq<ShaderNode>, abspath: string -> string)
    ensures FirstImagePath(a + b, abspath)
         == if FirstImagePath(a, abspath).Some? then FirstImagePath(a, abspath) else FirstImagePath(b, abspath)
  {
    if a == [] {
      assert a + b == b;
    } else {
      assert (a + b)[0] == a[0];
      assert (a + b)[1..] == a[1..] + b;
      FirstImagePathAppend(a[1..], b, abspath);
    }
  }

  /** No material slot, or none with a usable image node: no texture path. */
  lemma NoTextureWithoutImageNodes(slots: seq<Option<Material>>, abspath: string -> string)
    requires forall i :: 0 <= i < |CandidateNodes(slots)| ==> NodeImagePath(CandidateNodes(slots)[i], abspath).None?
    ensures GetTextureImagePath(slots, abspath) == None
  {
    FirstImagePathIsFirst(CandidateNodes(slots), abspath);
  }

  // ---------------------------------------------------------------------------------------
  // get_uv_data
  // ---------------------------------------------------------------------------------------

  /** The loop indices of all polygons, in polygon order. */
  function Corners(polygons: seq<seq<nat>>): seq<nat> {
    if polygons == [] then [] else Corners(polygons[..|polygons| - 1]) + polygons[|polygons| - 1]
  }

  lemma {:induction false} CornersInRange(m: MeshData, n: nat)
    requires ValidMesh(m) && n <= |m.polygons|
    ensures forall k :: 0 <= k < |Corners(m.polygons[..n])| ==> Corners(m.polygons[..n])[k] < |m.loopVertices|
  {
    if n > 0 {
      assert m.polygons[..n][..n - 1] == m.polygons[..n - 1];
      CornersInRange(m, n - 1);
    }
  }

  function RoundUv(uv: Uv): Uv { Uv(Round(uv.u, 6), Round(uv.v, 6)) }

  /** (vertex index, rounded UV) for each loop index, in the given order. */
  function CornerPairs(m: MeshData, layer: UvLayerData, loops: seq<nat>): seq<(nat, Uv)>
    requires |layer.uvs| == |m.loopVertices|
    requires forall k :: 0 <= k < |loops| ==> loops[k] < |m.loopVertices|
  {
    if loops == [] then []
    else
      var l := loops[|loops| - 1];
      CornerPairs(m, layer, loops[..|loops| - 1]) + [(m.loopVertices[l], RoundUv(layer.uvs[l]))]
  }

  /** Python's `if vertex_idx not in vertex_uvs: vertex_uvs[vertex_idx] = uv` over the pairs. */
  function FirstSeen(pairs: seq<(nat, Uv)>): map<nat, Uv> {
    if pairs == [] then map[]
    else
      var m := FirstSeen(pairs[..|pairs| - 1]);
      var p := pairs[|pairs| - 1];
      if p.0 in m then m else m[p.0 := p.1]
  }

  /** A vertex is recorded exactly when some corner touches it, with the UV of the first such corner. */
  lemma {:induction false} FirstSeenIsFirst(pairs: seq<(nat, Uv)>, v: nat)
    ensures v in FirstSeen(pairs) <==> exists k :: 0 <= k < |pairs| && pairs[k].0 == v
    ensures v in FirstSeen(pairs) ==>
      exists k :: 0 <= k < |pairs| && pairs[k].0 == v && FirstSeen(pairs)[v] == pairs[k].1
                  && forall j :: 0 <= j < k ==> pairs[j].0 != v
  {
    if pairs != [] {
      var init := pairs[..|pairs| - 1];
      FirstSeenIsFirst(init, v);
      assert forall k :: 0 <= k < |init| ==> init[k] == pairs[k];
      if v in FirstSeen(init) {
        var k :| 0 <= k < |init| && init[k].0 == v && FirstSeen(init)[v] == init[k].1
          && forall j :: 0 <= j < k ==> init[j].0 != v;
        assert pairs[k].0 == v;
      }
    }
  }

  /** (vertex, rounded UV) of every face corner of the mesh, in polygon and loop order. */
  function CornerUvs(m: MeshData, layer: UvLayerData): seq<(nat, Uv)>
    requires ValidMesh(m) && |layer.uvs| == |m.loopVertices|
  {
    CornersInRange(m, |m.polygons|);
    assert m.polygons[..|m.polygons|] == m.polygons;
    CornerPairs(m, layer, Corners(m.polygons))
  }

  /** The UV recorded per vertex for one layer. */
  function FirstUvs(m: MeshData, layer: UvLayerData): map<nat, Uv>
    requires ValidMesh(m) && |layer.uvs| == |m.loopVertices|
  {
    FirstSeen(CornerUvs(m, layer))
  }

  /** The coordinates of the vertices below n that are in the map, by ascending vertex index. */
  function CoordinatesBelow(uvs: map<nat, Uv>, n: nat): seq<UvCoordinate> {
    if n == 0 then []
    else
      CoordinatesBelow(uvs, n - 1)
        + (if n - 1 in uvs then [UvCoordinate(n - 1, uvs[n - 1].u, uvs[n - 1].v)] else [])
  }

  /** One UV layer's coordinates as exported: one entry per recorded vertex, ascending. */
  function UvCoordinatesOf(m: MeshData, layer: UvLayerData): seq<UvCoordinate>
    requires ValidMesh(m) && |layer.uvs| == |m.loopVertices|
  {
    CoordinatesBelow(FirstUvs(m, layer), m.vertexCount)
  }

  lemma {:induction false} CoordinatesBelowShape(uvs: map<nat, Uv>, n: nat)
    ensures forall i, j :: 0 <= i < j < |CoordinatesBelow(uvs, n)| ==>
      CoordinatesBelow(uvs, n)[i].vertexIndex < CoordinatesBelow(uvs, n)[j].vertexIndex
    ensures forall i :: 0 <= i < |CoordinatesBelow(uvs, n)| ==>
      var c := CoordinatesBelow(uvs, n)[i];
      c.vertexIndex < n && c.vertexIndex in uvs && uvs[c.vertexIndex] == Uv(c.u, c.v)
    ensures forall v :: v in uvs && v < n ==> exists i :: 0 <= i < |CoordinatesBelow(uvs, n)| && CoordinatesBelow(uvs, n)[i].vertexIndex == v
  {
    if n > 0 {
      CoordinatesBelowShape(uvs, n - 1);
      var prev := CoordinatesBelow(uvs, n - 1);
      var cur := CoordinatesBelow(uvs, n);
      assert forall i :: 0 <= i < |prev| ==> cur[i] == prev[i];
      if n - 1 in uvs {
        assert cur[|prev|].vertexIndex == n - 1;
      }
    }
  }

  lemma {:induction false} CornerPairsVertices(m: MeshData, layer: UvLayerData, loops: seq<nat>)
    requires |layer.uvs| == |m.loopVertices|
    requires forall l :: 0 <= l < |m.loopVertices| ==> m.loopVertices[l] < m.vertexCount
    requires forall k :: 0 <= k < |loops| ==> loops[k] < |m.loopVertices|
    ensures |CornerPairs(m, layer, loops)| == |loops|
    ensures forall k :: 0 <= k < |loops| ==> CornerPairs(m, layer, loops)[k] == (m.loopVertices[loops[k]], RoundUv(layer.uvs[loops[k]]))
  {
    if loops != [] {
      CornerPairsVertices(m, layer, loops[..|loops| - 1]);
    }
  }

  /** The exported layer lists its coordinates by strictly ascending vertex index. */
  lemma UvCoordinatesAscending(m: MeshData, layer: UvLayerData)
    requires ValidMesh(m) && |layer.uvs| == |m.loopVertices|
    ensures var cs := UvCoordinatesOf(m, layer);
      forall i, j :: 0 <= i < j < |cs| ==> cs[i].vertexIndex < cs[j].vertexIndex
  {
    CoordinatesBelowShape(FirstUvs(m, layer), m.vertexCount);
  }

  /**
   * Each exported coordinate carries the rounded UV of the first face corner (in polygon and loop
   * order) on its vertex.
   */
  lemma UvCoordinatesFirstCorner(m: MeshData, layer: UvLayerData)
    requires ValidMesh(m) && |layer.uvs| == |m.loopVertices|
    ensures var cs := UvCoordinatesOf(m, layer);
      var corners := CornerUvs(m, layer);
      forall i :: 0 <= i < |cs| ==>
        exists k :: 0 <= k < |corners| && corners[k] == (cs[i].vertexIndex, Uv(cs[i].u, cs[i].v))
                    && forall j :: 0 <= j < k ==> corners[j].0 != cs[i].vertexIndex
  {
    var corners := CornerUvs(m, layer);
    var cs := UvCoordinatesOf(m, layer);
    CoordinatesBelowShape(FirstUvs(m, layer), m.vertexCount);
    forall i | 0 <= i < |cs|
      ensures exists k :: 0 <= k < |corners| && corners[k] == (cs[i].vertexIndex, Uv(cs[i].u, cs[i].v))
                          && forall j :: 0 <= j < k ==> corners[j].0 != cs[i].vertexIndex
    {
      var c := cs[i];
      assert c.vertexIndex in FirstSeen(corners) && FirstSeen(corners)[c.vertexIndex] == Uv(c.u, c.v);
      FirstSeenIsFirst(corners, c.vertexIndex);
      var k :| 0 <= k < |corners| && corners[k].0 == c.vertexIndex && FirstSeen(corners)[c.vertexIndex] == corners[k].1
               && forall j :: 0 <= j < k ==> corners[j].0 != c.vertexIndex;
      assert corners[k] == (c.vertexIndex, Uv(c.u, c.v));
    }
  }

  /** Every vertex some face corner uses has an exported coordinate. */
  lemma UvCoordinatesCoverCorners(m: MeshData, layer: UvLayerData)
    requires ValidMesh(m) && |layer.uvs| == |m.loopVertices|
    ensures var cs := UvCoordinatesOf(m, layer);
      var corners := CornerUvs(m, layer);
      forall k :: 0 <= k < |corners| ==> exists i :: 0 <= i < |cs| && cs[i].vertexIndex == corners[k].0
  {
    var corners := CornerUvs(m, layer);
    var cs := UvCoordinatesOf(m, layer);
    CoordinatesBelowShape(FirstUvs(m, layer), m.vertexCount);
    CornersInRange(m, |m.polygons|);
    assert m.polygons[..|m.polygons|] == m.polygons;
    CornerPairsVertices(m, layer, Corners(m.polygons));
    forall k | 0 <= k < |corners|
      ensures exists i :: 0 <= i < |cs| && cs[i].vertexIndex == corners[k].0
    {
      FirstSeenIsFirst(corners, corners[k].0);
      assert corners[k].0 in FirstUvs(m, layer) && corners[k].0 < m.vertexCount;
    }
  }

  /** Each corner entry pairs a loop's vertex with that loop's rounded UV. */
  lemma CornerUvsEntries(m: MeshData, layer: UvLayerData)
    requires ValidMesh(m) && |layer.uvs| == |m.loopVertices|
    ensures var corners := Corners(m.polygons);
      && |CornerUvs(m, layer)| == |corners|
      && forall k :: 0 <= k < |corners| ==>
           corners[k] < |m.loopVertices|
           && CornerUvs(m, layer)[k] == (m.loopVertices[corners[k]], RoundUv(layer.uvs[corners[k]]))
  {
    CornersInRange(m, |m.polygons|);
    assert m.polygons[..|m.polygons|] == m.polygons;
    CornerPairsVertices(m, layer, Corners(m.polygons));
  }

  lemma CornerPairsSnoc(m: MeshData, layer: UvLayerData, loops: seq<nat>, l: nat)
    requires |layer.uvs| == |m.loopVertices|
    requires forall k :: 0 <= k < |loops| ==> loops[k] < |m.loopVertices|
    requires l < |m.loopVertices|
    ensures CornerPairs(m, layer, loops + [l]) == CornerPairs(m, layer, loops) + [(m.loopVertices[l], RoundUv(layer.uvs[l]))]
  {
    assert (loops + [l])[..|loops|] == loops;
  }

  lemma FirstSeenSnoc(pairs: seq<(nat, Uv)>, p: (nat, Uv))
    ensures FirstSeen(pairs + [p]) == if p.0 in FirstSeen(pairs) then FirstSeen(pairs) else FirstSeen(pairs)[p.0 := p.1]
  {
    assert (pairs + [p])[..|pairs|] == pairs;
  }

  /** The inner loop of get_uv_data over one polygon's loops. */
  method AddPolygonCorners(
    m: MeshData, layer: UvLayerData, vertexUvs: map<nat, Uv>, ghost done: seq<nat>, loops: seq<nat>)
    returns (updated: map<nat, Uv>)
    requires |layer.uvs| == |m.loopVertices|
    requires forall j :: 0 <= j < |done| ==> done[j] < |m.loopVertices|
    requires forall j :: 0 <= j < |loops| ==> loops[j] < |m.loopVertices|
    requires vertexUvs == FirstSeen(CornerPairs(m, layer, done))
    ensures updated == FirstSeen(CornerPairs(m, layer, done + loops))
  {
    updated := vertexUvs;
    assert done + loops[..0] == done;
    var k := 0;
    while k < |loops|
      invariant 0 <= k <= |loops|
      invariant updated == FirstSeen(CornerPairs(m, layer, done + loops[..k]))
    {
      var l := loops[k];
      var v := m.loopVertices[l];
      assert done + loops[..k + 1] == (done + loops[..k]) + [l];
      CornerPairsSnoc(m, layer, done + loops[..k], l);
      FirstSeenSnoc(CornerPairs(m, layer, done + loops[..k]), (v, RoundUv(layer.uvs[l])));
      if v !in updated {
        updated := updated[v := RoundUv(layer.uvs[l])];
      }
      k := k + 1;
    }
    assert loops[..|loops|] == loops;
  }

  /** The outer loop of get_uv_data: record each vertex's UV at its first corner. */
  method CollectVertexUvs(m: MeshData, layer: UvLayerData) returns (vertexUvs: map<nat, Uv>)
    requires ValidMesh(m) && |layer.uvs| == |m.loopVertices|
    ensures vertexUvs == FirstUvs(m, layer)
  {
    vertexUvs := map[];
    var p := 0;
    while p < |m.polygons|
      invariant 0 <= p <= |m.polygons|
      invariant CornersInRangeAt(m, p)
      invariant vertexUvs == FirstSeen(CornerPairs(m, layer, Corners(m.polygons[..p])))
    {
      assert m.polygons[..p + 1][..p] == m.polygons[..p];
      assert Corners(m.polygons[..p + 1]) == Corners(m.polygons[..p]) + m.polygons[p];
      CornersInRange(m, p + 1);
      vertexUvs := AddPolygonCorners(m, layer, vertexUvs, Corners(m.polygons[..p]), m.polygons[p]);
      p := p + 1;
    }
    assert m.polygons[..|m.polygons|] == m.polygons;
  }

  /** One layer's entry, as the loops of get_uv_data build it. */
  method LayerCoordinates(m: MeshData, layer: UvLayerData) returns (coords: seq<UvCoordinate>)
    requires ValidMesh(m) && |layer.uvs| == |m.loopVertices|
    ensures coords == UvCoordinatesOf(m, layer)
  {
    var vertexUvs := CollectVertexUvs(m, layer);
    coords := [];
    var v := 0;
    while v < m.vertexCount
      invariant 0 <= v <= m.vertexCount
      invariant coords == CoordinatesBelow(vertexUvs, v)
    {
      if v in vertexUvs {
        coords := coords + [UvCoordinate(v, vertexUvs[v].u, vertexUvs[v].v)];
      }
      v := v + 1;
    }
  }

  predicate CornersInRangeAt(m: MeshData, p: nat)
    requires p <= |m.polygons|
  {
    forall k :: 0 <= k < |Corners(m.polygons[..p])| ==> Corners(m.polygons[..p])[k] < |m.loopVertices|
  }

  /** The `uvMapping` entry of an object, absent for non-meshes and meshes without UV layers. */
  function UvMappingOf(obj: SceneObject, abspath: string -> string): Option<UvMapping>
    requires WellFormed(obj)
  {
    if obj.objType != "MESH" || obj.mesh.value.uvLayers == [] then None
    else
      var m := obj.mesh.value;
      Some(UvMapping(
        GetTextureImagePath(obj.materialSlots, abspath),
        seq(|m.uvLayers|, k requires 0 <= k < |m.uvLayers| => UvLayerOut(m.uvLayers[k].name, UvCoordinatesOf(m, m.uvLayers[k])))))
  }

  method GetUvData(obj: SceneObject, abspath: string -> string) returns (r: Option<UvMapping>)
    requires WellFormed(obj)
    ensures r == UvMappingOf(obj, abspath)
  {
    if obj.objType != "MESH" {
      return None;
    }
    var m := obj.mesh.value;
    if m.uvLayers == [] {
      return None;
    }
    var layers: seq<UvLayerOut> := [];
    var k := 0;
    while k < |m.uvLayers|
      invariant 0 <= k <= |m.uvLayers|
      invariant |layers| == k
      invariant forall j :: 0 <= j < k ==> layers[j] == UvLayerOut(m.uvLayers[j].name, UvCoordinatesOf(m, m.uvLayers[j]))
    {
      var coords := LayerCoordinates(m, m.uvLayers[k]);
      layers := layers + [UvLayerOut(m.uvLayers[k].name, coords)];
      k := k + 1;
    }
    assert layers == seq(|m.uvLayers|, j requires 0 <= j < |m.uvLayers| =>
                           UvLayerOut(m.uvLayers[j].name, UvCoordinatesOf(m, m.uvLayers[j])));
    r := Some(UvMapping(GetTextureImagePath(obj.materialSlots, abspath), layers));
  }

  /** Objects other than meshes, and meshes without UV layers, carry no `uvMapping`. */
  lemma UvMappingPresence(obj: SceneObject, abspath: string -> string)
    requires WellFormed(obj)
    ensures UvMappingOf(obj, abspath).Some? <==> obj.objType == "MESH" && obj.mesh.value.uvLayers != []
    ensures UvMappingOf(obj, abspath).Some? ==> |UvMappingOf(obj, abspath).value.uvLayers| == |obj.mesh.value.uvLayers|
  {
  }

  // ---------------------------------------------------------------------------------------
  // get_custom_properties
  // ---------------------------------------------------------------------------------------

  /** Keys starting with "_" are Blender's own. */
  predicate Internal(key: string) { |key| > 0 && key[0] == '_' }

  /** The JSON value a property becomes, or None when it is dropped. */
  function ConvertProperty(v: PropValue): (r: Option<JsonValue>)
    ensures r.None? <==> v.OtherProp? && v.asFloat.None? && v.asStr.None?
  {
    match v
    case IntProp(i) => Some(JInt(i))
    case FloatProp(x) => Some(JReal(x))
    case StrProp(s) => Some(JString(s))
    case BoolProp(b) => Some(JBool(b))
    case ArrayProp(items) => Some(JArray(seq(|items|, k requires 0 <= k < |items| => ItemJson(items[k]))))
    case OtherProp(asFloat, asStr) =>
      if asFloat.Some? then Some(JReal(asFloat.value))
      else if asStr.Some? then Some(JString(asStr.value))
      else None
  }

  /** `to_list()` keeps each element's Python type, and `json.dump` writes it as such. */
  function ItemJson(item: ArrayItem): JsonValue {
    match item
    case IntItem(i) => JInt(i)
    case FloatItem(x) => JReal(x)
    case BoolItem(b) => JBool(b)
  }

  /** The primitive property an array element would be on its own. */
  function ItemProp(item: ArrayItem): PropValue {
    match item
    case IntItem(i) => IntProp(i)
    case FloatItem(x) => FloatProp(x)
    case BoolItem(b) => BoolProp(b)
  }

  /**
   * Primitives are exported unchanged, and an array keeps its length and order, each element
   * exported exactly as the same value would be on its own.
   */
  lemma PropertiesKept(v: PropValue)
    ensures v.IntProp? ==> ConvertProperty(v) == Some(JInt(v.i))
    ensures v.FloatProp? ==> ConvertProperty(v) == Some(JReal(v.r))
    ensures v.StrProp? ==> ConvertProperty(v) == Some(JString(v.s))
    ensures v.BoolProp? ==> ConvertProperty(v) == Some(JBool(v.b))
    ensures v.ArrayProp? ==>
              ConvertProperty(v).Some? && ConvertProperty(v).value.JArray? && |ConvertProperty(v).value.items| == |v.items| &&
              forall k :: 0 <= k < |v.items| ==> Some(ConvertProperty(v).value.items[k]) == ConvertProperty(ItemProp(v.items[k]))
  {
  }

  /** The dictionary get_custom_properties builds, as its (key, value) entries in insertion order. */
  function CustomPropertiesOf(props: seq<(string, PropValue)>): seq<(string, JsonValue)> {
    if props == [] then []
    else
      var prev := CustomPropertiesOf(props[..|props| - 1]);
      var (key, value) := props[|props| - 1];
      if Internal(key) || ConvertProperty(value).None? then prev
      else prev + [(key, ConvertProperty(value).value)]
  }

  method GetCustomProperties(props: seq<(string, PropValue)>) returns (r: seq<(string, JsonValue)>)
    requires DistinctKeys(props)
    ensures r == CustomPropertiesOf(props)
  {
    r := [];
    var i := 0;
    while i < |props|
      invariant 0 <= i <= |props|
      invariant r == CustomPropertiesOf(props[..i])
    {
      assert props[..i + 1][..i] == props[..i];
      var (key, value) := props[i];
      if !Internal(key) {
        var converted := ConvertProperty(value);
        if converted.Some? {
          r := r + [(key, converted.value)];
        }
      }
      i := i + 1;
    }
    assert props[..|props|] == props;
  }

  /**
   * An entry is exported exactly when its key is not internal and its value converts; the
   * exported value is the conversion (so int, float, str and bool values are kept unchanged).
   */
  lemma {:induction false} CustomPropertyEntries(props: seq<(string, PropValue)>, key: string, value: JsonValue)
    ensures (key, value) in CustomPropertiesOf(props) <==>
      exists i :: 0 <= i < |props| && props[i].0 == key && !Internal(key) && ConvertProperty(props[i].1) == Some(value)
  {
    if props != [] {
      var init := props[..|props| - 1];
      CustomPropertyEntries(init, key, value);
      assert forall i :: 0 <= i < |init| ==> init[i] == props[i];
    }
  }

  /** The exported keys are distinct, as in the Python dict. */
  lemma {:induction false} CustomPropertyKeysDistinct(props: seq<(string, PropValue)>)
    requires DistinctKeys(props)
    ensures DistinctKeys(CustomPropertiesOf(props))
  {
    if props != [] {
      var init := props[..|props| - 1];
      assert DistinctKeys(init);
      CustomPropertyKeysDistinct(init);
      var prev := CustomPropertiesOf(init);
      var key := props[|props| - 1].0;
      forall i | 0 <= i < |prev| ensures prev[i].0 != key {
        CustomPropertyEntries(init, prev[i].0, prev[i].1);
      }
    }
  }

  // ---------------------------------------------------------------------------------------
  // get_object_data
  // ---------------------------------------------------------------------------------------

  /** The rounded 2D transform of one object: Blender X becomes x, Blender Z becomes y. */
  datatype Transform2 = Transform2(position: Point2, dimensions: Point2, scale: Point2, rotation: real)

  function TransformOf(obj: SceneObject, scaleFactor: real): Transform2 {
    Transform2(
      Point2(Round(obj.location.x * scaleFactor, 4), Round(obj.location.z * scaleFactor, 4)),
      Point2(Round(obj.dimensions.x * scaleFactor, 4), Round(obj.dimensions.y * scaleFactor, 4)),
      Point2(Round(obj.scale.x, 4), Round(obj.scale.z, 4)),
      Round(Degrees(obj.rotationZ), 4))
  }

  /** The exported record of one object. */
  function ObjectDataOf(obj: SceneObject, scaleFactor: real, abspath: string -> string): ExportedObject
    requires WellFormed(obj)
  {
    var t := TransformOf(obj, scaleFactor);
    ExportedObject(
      obj.name, obj.objType, GetMeshType(obj), t.position, t.dimensions, t.scale, t.rotation,
      CustomPropertiesOf(obj.properties), UvMappingOf(obj, abspath))
  }

  method GetObjectData(obj: SceneObject, scaleFactor: real, abspath: string -> string) returns (r: ExportedObject)
    requires WellFormed(obj)
    ensures r == ObjectDataOf(obj, scaleFactor, abspath)
  {
    var t := TransformOf(obj, scaleFactor);
    var meshType := if obj.objType == "MESH" then GetMeshType(obj) else None;
    var uvData: Option<UvMapping> := None;
    if obj.objType == "MESH" {
      uvData := GetUvData(obj, abspath);
    }
    var customProps := GetCustomProperties(obj.properties);
    r := ExportedObject(obj.name, obj.objType, meshType, t.position, t.dimensions, t.scale,
                        t.rotation, customProps, uvData);
  }

  /**
   * Every number of the transform is rounded to four decimals (and so is unchanged by rounding
   * again): position and dimensions scaled by the scale factor, rotation in degrees.
   */
  lemma TransformRounded(obj: SceneObject, scaleFactor: real)
    ensures var t := TransformOf(obj, scaleFactor);
      && OnGrid(t.position.x, 4) && OnGrid(t.position.y, 4)
      && OnGrid(t.dimensions.x, 4) && OnGrid(t.dimensions.y, 4)
      && OnGrid(t.scale.x, 4) && OnGrid(t.scale.y, 4)
      && OnGrid(t.rotation, 4)
  {
    RoundIdempotent(obj.location.x * scaleFactor, 4);
    RoundIdempotent(obj.location.z * scaleFactor, 4);
    RoundIdempotent(obj.dimensions.x * scaleFactor, 4);
    RoundIdempotent(obj.dimensions.y * scaleFactor, 4);
    RoundIdempotent(obj.scale.x, 4);
    RoundIdempotent(obj.scale.z, 4);
    RoundIdempotent(Degrees(obj.rotationZ), 4);
  }

  // ---------------------------------------------------------------------------------------
  // export_level
  // ---------------------------------------------------------------------------------------

  predicate Exportable(obj: SceneObject) {
    obj.objType in {"MESH", "CAMERA", "LIGHT", "EMPTY"}
  }

  function FilterExportable(objects: seq<SceneObject>): (r: seq<SceneObject>)
    ensures forall i :: 0 <= i < |r| ==> Exportable(r[i])
    ensures forall o :: o in r <==> o in objects && Exportable(o)
  {
    if objects == [] then []
    else
      var rest := FilterExportable(objects[1..]);
      assert forall o :: o in objects <==> o == objects[0] || o in objects[1..];
      if Exportable(objects[0]) then [objects[0]] + rest else rest
  }

  function ObjectsDataOf(objects: seq<SceneObject>, scaleFactor: real, abspath: string -> string): (r: seq<ExportedObject>)
    requires forall o :: o in objects ==> WellFormed(o)
    ensures |r| == |objects|
    ensures forall i :: 0 <= i < |objects| ==> r[i] == ObjectDataOf(objects[i], scaleFactor, abspath)
  {
    seq(|objects|, i requires 0 <= i < |objects| => ObjectDataOf(objects[i], scaleFactor, abspath))
  }

  predicate NameLe(a: ExportedObject, b: ExportedObject) {
    StrLe(a.name, b.name)
  }

  lemma NameLeIsTotalPreorder()
    ensures Total(NameLe) && Transitive(NameLe)
  {
    forall a: ExportedObject, b: ExportedObject ensures NameLe(a, b) || NameLe(b, a) {
      StrLeTotal(a.name, b.name);
    }
    forall a: ExportedObject, b: ExportedObject, c: ExportedObject | NameLe(a, b) && NameLe(b, c)
      ensures NameLe(a, c)
    {
      StrLeTransitive(a.name, b.name, c.name);
    }
  }

  /** The loop of export_level that collects each object's data, in scene order. */
  method CollectObjectData(objects: seq<SceneObject>, scaleFactor: real, abspath: string -> string)
    returns (exported: seq<ExportedObject>)
    requires forall o :: o in objects ==> WellFormed(o)
    ensures exported == ObjectsDataOf(objects, scaleFactor, abspath)
  {
    exported := [];
    var i := 0;
    while i < |objects|
      invariant 0 <= i <= |objects|
      invariant |exported| == i
      invariant forall j :: 0 <= j < i ==> exported[j] == ObjectDataOf(objects[j], scaleFactor, abspath)
    {
      var data := GetObjectData(objects[i], scaleFactor, abspath);
      exported := exported + [data];
      i := i + 1;
    }
  }

  /** Only MESH, CAMERA, LIGHT and EMPTY objects reach the document. */
  lemma ExportedTypes(objects: seq<SceneObject>, scaleFactor: real, abspath: string -> string)
    requires forall o :: o in objects ==> WellFormed(o)
    ensures forall d: ExportedObject :: d in multiset(ObjectsDataOf(FilterExportable(objects), scaleFactor, abspath)) ==>
      d.objType in {"MESH", "CAMERA", "LIGHT", "EMPTY"}
  {
    var filtered := FilterExportable(objects);
    var data := ObjectsDataOf(filtered, scaleFactor, abspath);
    forall d: ExportedObject | d in multiset(data) ensures d.objType in {"MESH", "CAMERA", "LIGHT", "EMPTY"} {
      var j :| 0 <= j < |data| && data[j] == d;
      assert Exportable(filtered[j]);
    }
  }

  /**
   * The document holds the data of exactly the MESH/CAMERA/LIGHT/EMPTY objects among the scene's
   * (or the selection's) objects, sorted by name.
   */
  method ExportLevel(
    sceneObjects: seq<SceneObject>, selectedObjects: seq<SceneObject>, exportSelectedOnly: bool,
    scaleFactor: real, blenderVersion: string, abspath: string -> string)
    returns (doc: ExportDocument)
    requires forall o :: o in sceneObjects ==> WellFormed(o)
    requires forall o :: o in selectedObjects ==> WellFormed(o)
    ensures doc.version == "1.0" && doc.exportedFrom == "Blender " + blenderVersion
    ensures doc.scaleFactor == scaleFactor
    ensures var source := if exportSelectedOnly then selectedObjects else sceneObjects;
      multiset(doc.objects) == multiset(ObjectsDataOf(FilterExportable(source), scaleFactor, abspath))
    ensures SortedBy(doc.objects, NameLe)
    ensures forall i :: 0 <= i < |doc.objects| ==> doc.objects[i].objType in {"MESH", "CAMERA", "LIGHT", "EMPTY"}
  {
    var objects := if exportSelectedOnly then selectedObjects else sceneObjects;
    var exported := CollectObjectData(FilterExportable(objects), scaleFactor, abspath);
    NameLeIsTotalPreorder();
    SortBySorted(exported, NameLe);
    ExportedTypes(objects, scaleFactor, abspath);
    var sorted := SortBy(exported, NameLe);
    assert forall k :: 0 <= k < |sorted| ==> sorted[k] in multiset(exported);
    doc := ExportDocument("1.0", "Blender " + blenderVersion, scaleFactor, sorted);
  }
}
