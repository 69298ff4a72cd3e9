/**
 * The records the Blender level parser reads from blender_level.json, as System.Text.Json
 * deserialises them. A reference that the JSON can leave null is an Option; a
 * Dictionary<string, object> of custom properties is a map whose JNull entries are null values.
 */
module BlenderLevelData {
  import opened Wrappers
  import opened Vectors
  import opened Json

  datatype UvCoordinate = UvCoordinate(vertexIndex: int, u: real, v: real)

  datatype UvLayer = UvLayer(name: Option<string>, uvCoordinates: Option<seq<UvCoordinate>>)

  datatype UvMapping = UvMapping(texturePath: Option<string>, uvLayers: Option<seq<UvLayer>>)

  /** A Dictionary<string, object> of properties, null when the JSON has none. */
  type Properties = Option<map<string, JsonValue>>

  /**
   * One exported object. CollectionProperties is a dictionary that the parser both looks up and
   * enumerates in insertion order, so it is kept as its entries in document order.
   */
  datatype BlenderObject = BlenderObject(
    name: string,
    objType: string,
    parent: Option<string>,
    collections: Option<seq<string>>,
    collectionProperties: Option<seq<(string, Properties)>>,
    position: Option<Vec2>,
    dimensions: Option<Vec2>,
    originOffset: Option<Vec2>,
    customProperties: Properties,
    uvMapping: Option<UvMapping>,
    vertices: Option<seq<Vec2>>)

  /**
   * The parts of the level document the parser uses; the hierarchy maps a collection to its parent,
   * and the scale factor (0 when the document has none) converts Blender units to pixels.
   */
  datatype LevelData = LevelData(
    objects: Option<seq<BlenderObject>>,
    collectionHierarchy: Option<map<string, string>>,
    scaleFactor: real)

  /** Width and height in pixels of a texture the content manager can load. */
  datatype TextureSize = TextureSize(width: int, height: int)

  /** string.IsNullOrEmpty */
  predicate IsNullOrEmpty(s: Option<string>) {
    s.None? || s.value == []
  }

  /** The first entry of an enumerated dictionary stored under `key`. */
  function LookupEntry(entries: seq<(string, Properties)>, key: string): (r: Option<Properties>)
    ensures r.Some? <==> exists i :: 0 <= i < |entries| && entries[i].0 == key
    ensures r.Some? ==> exists i :: 0 <= i < |entries| && entries[i] == (key, r.value)
  {
    if entries == [] then None
    else if entries[0].0 == key then Some(entries[0].1)
    else
      var rest := LookupEntry(entries[1..], key);
      assert forall i :: 0 < i < |entries| ==> entries[i] == entries[1..][i - 1];
      rest
  }
}
