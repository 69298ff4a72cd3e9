/**
 * The level-loading state machine of MonoDreams/System/Level/BlenderLevelParserSystem.cs.
 *
 * The ECS world is seen through the components the parser sets: an entity is a number handed out
 * by `nextId`, and each component kind is a map from entity to the component's value. Each pass of
 * OnLoadLevelRequest is specified by a function over a LoadState; the class's methods run the
 * passes as loops and are proved against those functions.
 */
module BlenderLevelParser {
  import opened Wrappers
  import opened Vectors
  import opened FloatBounds
  import opened Json
  import opened Strings
  import opened DrawLayers
  import opened BlenderLevelData
  import opened BlenderParserHelpers

  /** The SpriteInfo fields the parser sets; YSortOffset starts at 0. */
  datatype Sprite = Sprite(texture: string, source: Rectangle, size: Vec2, origin: Vec2, layerDepth: real, ySortOffset: real)

  /** A BoxCollider; None stands for the BoxCollider constructor's own default. */
  datatype BoxCollider = BoxCollider(bounds: Rectangle, activeLayers: Option<set<int>>, passive: Option<bool>)

  /** The layer and passive settings of a convex collider: taken over from a box, or its own. */
  datatype ColliderSettings = InheritedFrom(box: BoxCollider) | Settings(activeLayers: set<int>, passive: bool)

  datatype ConvexCollider = ConvexCollider(modelVertices: seq<Vec2>, settings: ColliderSettings)

  /**
   * The world's entities and the components this model tracks: EntityInfo kinds,
   * SpriteInfo, BoxCollider, ConvexCollider, the ColliderTag marker and parent links.
   */
  datatype World = World(
    nextId: nat,
    alive: set<nat>,
    kinds: map<nat, string>,
    sprites: map<nat, Sprite>,
    boxes: map<nat, BoxCollider>,
    convex: map<nat, ConvexCollider>,
    tagged: set<nat>,
    parents: map<nat, nat>)

  /** What the world holds for one entity: each component it has, None for one it lacks. */
  datatype Components = Components(kind: Option<string>, sprite: Option<Sprite>, box: Option<BoxCollider>,
                                   convex: Option<ConvexCollider>, tagged: bool, parent: Option<nat>)

  const NoComponents: Components := Components(None, None, None, None, false, None)

  function Get<K, V>(m: map<K, V>, k: K): Option<V> {
    if k in m then Some(m[k]) else None
  }

  function ComponentsOf(w: World, e: nat): Components {
    Components(Get(w.kinds, e), Get(w.sprites, e), Get(w.boxes, e), Get(w.convex, e), e in w.tagged, Get(w.parents, e))
  }

  /** The camera's zoom: a float, or the infinity or NaN that a division by zero leaves in it. */
  datatype Zoom = Zoom(value: real) | NotFinite

  /** The smallest zoom Camera.Zoom's setter lets through (0.1f). */
  const MinZoom: real := 0.1

  /** The game camera as the parser sees it: position, zoom and the fixed virtual width. */
  datatype GameCamera = GameCamera(position: Vec2, zoom: Zoom, virtualWidth: int)

  /** The parser's fields together with the world and the camera it writes to. */
  datatype LoadState = LoadState(
    blenderEntities: set<nat>,
    nameToEntity: map<string, nat>,
    loadedTextures: map<string, TextureSize>,
    world: World,
    camera: GameCamera)

  /** A state and whether the load goes on; false once an exception has ended it. */
  datatype Step = Step(state: LoadState, running: bool)

  // ----- CleanupEntities -----

  /** Disposing the entities of D that are alive removes them with all their components. */
  function Disposed(w: World, D: set<nat>): (r: World)
    ensures r.alive == w.alive - D && r.nextId == w.nextId
    ensures forall e :: e in D && e in w.alive ==> ComponentsOf(r, e) == NoComponents
    ensures forall e :: !(e in D && e in w.alive) ==> ComponentsOf(r, e) == ComponentsOf(w, e)
  {
    var dead := D * w.alive;
    w.(alive := w.alive - dead,
       kinds := w.kinds - dead,
       sprites := w.sprites - dead,
       boxes := w.boxes - dead,
       convex := w.convex - dead,
       tagged := w.tagged - dead,
       parents := w.parents - dead)
  }

  /** CleanupEntities: the previous level's entities are disposed and both collections emptied. */
  function Cleanup(s: LoadState): (r: LoadState)
    ensures r.blenderEntities == {} && r.nameToEntity == map[]
    ensures r.world.alive == s.world.alive - s.blenderEntities
    ensures r.loadedTextures == s.loadedTextures && r.camera == s.camera
  {
    LoadState({}, map[], s.loadedTextures, Disposed(s.world, s.blenderEntities), s.camera)
  }

  // ----- Pre-scan -----

  /** An object named "...-collider" with a parent is a collider child. */
  predicate IsColliderChild(obj: BlenderObject) {
    EndsWith(obj.name, "-collider") && !IsNullOrEmpty(obj.parent)
  }

  /** `dictionary[key] = value` on a dictionary kept as its entries in insertion order. */
  function Assign(entries: seq<(string, BlenderObject)>, key: string, value: BlenderObject): (r: seq<(string, BlenderObject)>)
    ensures |r| == |entries| || |r| == |entries| + 1
    ensures forall i :: 0 <= i < |entries| ==> r[i].0 == entries[i].0
  {
    if entries == [] then [(key, value)]
    else if entries[0].0 == key then [(key, value)] + entries[1..]
    else [entries[0]] + Assign(entries[1..], key, value)
  }

  /** The dictionary's value for `key`. */
  function Lookup(entries: seq<(string, BlenderObject)>, key: string): Option<BlenderObject> {
    if entries == [] then None
    else if entries[0].0 == key then Some(entries[0].1)
    else Lookup(entries[1..], key)
  }

  predicate DistinctKeys(entries: seq<(string, BlenderObject)>) {
    forall i, j :: 0 <= i < j < |entries| ==> entries[i].0 != entries[j].0
  }

  lemma {:induction false} AssignLookup(entries: seq<(string, BlenderObject)>, key: string, value: BlenderObject, other: string)
    requires DistinctKeys(entries)
    ensures DistinctKeys(Assign(entries, key, value))
    ensures Lookup(Assign(entries, key, value), other) == if other == key then Some(value) else Lookup(entries, other)
  {
    if entries != [] && entries[0].0 != key {
      AssignLookup(entries[1..], key, value, other);
      var r := Assign(entries, key, value);
      assert r == [entries[0]] + Assign(entries[1..], key, value);
      KeyAbsentFromAssign(entries[1..], key, value, entries[0].0);
    } else if entries != [] {
      var r := Assign(entries, key, value);
      assert forall i :: 0 < i < |r| ==> r[i] == entries[i];
    }
  }

  lemma {:induction false} KeyAbsentFromAssign(entries: seq<(string, BlenderObject)>, key: string, value: BlenderObject, k: string)
    requires k != key && forall i :: 0 <= i < |entries| ==> entries[i].0 != k
    ensures forall i :: 0 <= i < |Assign(entries, key, value)| ==> Assign(entries, key, value)[i].0 != k
  {
    if entries != [] && entries[0].0 != key {
      KeyAbsentFromAssign(entries[1..], key, value, k);
    }
  }

  /** colliderChildMap after the pre-scan has seen the first k objects. */
  function ColliderChildMap(objs: seq<BlenderObject>, k: nat): seq<(string, BlenderObject)>
    requires k <= |objs|
  {
    if k == 0 then []
    else
      var prev := ColliderChildMap(objs, k - 1);
      var obj := objs[k - 1];
      if IsColliderChild(obj) then Assign(prev, obj.parent.value, obj) else prev
  }

  /** colliderChildNames after the pre-scan has seen the first k objects. */
  function ColliderChildNames(objs: seq<BlenderObject>, k: nat): (r: set<string>)
    requires k <= |objs|
    ensures forall n :: n in r <==> exists i :: 0 <= i < k && IsColliderChild(objs[i]) && objs[i].name == n
  {
    if k == 0 then {}
    else
      var prev := ColliderChildNames(objs, k - 1);
      var obj := objs[k - 1];
      if IsColliderChild(obj) then prev + {obj.name} else prev
  }

  /** The last collider child among the first k objects whose parent is `parent`. */
  function LastColliderChild(objs: seq<BlenderObject>, k: nat, parent: string): Option<BlenderObject>
    requires k <= |objs|
  {
    if k == 0 then None
    else if IsColliderChild(objs[k - 1]) && objs[k - 1].parent.value == parent then Some(objs[k - 1])
    else LastColliderChild(objs, k - 1, parent)
  }

  /** The pre-scan pairs each parent with its last collider child, under one key per parent. */
  lemma {:induction false} ColliderChildMapIsLastChild(objs: seq<BlenderObject>, k: nat, parent: string)
    requires k <= |objs|
    ensures DistinctKeys(ColliderChildMap(objs, k))
    ensures Lookup(ColliderChildMap(objs, k), parent) == LastColliderChild(objs, k, parent)
  {
    if k > 0 {
      ColliderChildMapIsLastChild(objs, k - 1, parent);
      var obj := objs[k - 1];
      if IsColliderChild(obj) {
        AssignLookup(ColliderChildMap(objs, k - 1), obj.parent.value, obj, parent);
      }
    }
  }

  // ----- Pass 1: entity creation -----

  /** _world.CreateEntity() plus the bookkeeping in _blenderEntities and _nameToEntity. */
  function CreateEntityStep(s: LoadState, name: string): (r: (LoadState, nat))
    ensures r.0.nameToEntity == s.nameToEntity[name := r.1]
    ensures r.0.blenderEntities == s.blenderEntities + {r.1}
    ensures r.0.world.alive == s.world.alive + {r.1} && r.0.world.nextId > r.1
  {
    var e := s.world.nextId;
    (s.(blenderEntities := s.blenderEntities + {e},
        nameToEntity := s.nameToEntity[name := e],
        world := s.world.(nextId := e + 1, alive := s.world.alive + {e})), e)
  }

  /** Every name in _nameToEntity maps to one of _blenderEntities, and those are alive. */
  predicate Registered(s: LoadState) {
    (forall n :: n in s.nameToEntity ==> s.nameToEntity[n] in s.blenderEntities) &&
    s.blenderEntities <= s.world.alive
  }

  /**
   * r is s, or s with one new entity (the next id) created and registered under `name`; the other
   * components may differ.
   */
  predicate AddsAtMostOne(s: LoadState, r: LoadState, name: string) {
    (r.blenderEntities == s.blenderEntities && r.nameToEntity == s.nameToEntity &&
     r.world.alive == s.world.alive && r.world.nextId == s.world.nextId) ||
    (var e := s.world.nextId;
     r.blenderEntities == s.blenderEntities + {e} && r.nameToEntity == s.nameToEntity[name := e] &&
     r.world.alive == s.world.alive + {e} && r.world.nextId == e + 1)
  }

  /** From s to r the world only gains entities it had not handed out before. */
  predicate GrowsFrom(s: LoadState, r: LoadState) {
    r.world.nextId >= s.world.nextId &&
    forall e :: e in r.world.alive ==> e in s.world.alive || e >= s.world.nextId
  }

  /** ProcessEmpty: a new entity registered under the object's name, of kind "Empty". */
  function EmptyStep(s: LoadState, obj: BlenderObject): (r: LoadState)
    ensures obj.name in r.nameToEntity && r.nameToEntity[obj.name] == s.world.nextId
    ensures AddsAtMostOne(s, r, obj.name)
  {
    var (s1, e) := CreateEntityStep(s, obj.name);
    s1.(world := s1.world.(kinds := s1.world.kinds[e := "Empty"]))
  }

  /**
   * `_camera.Zoom = VirtualWidth / (orthoScale * scaleFactor)` through the setter, which raises a
   * value below 0.1 to 0.1. A zero visible width divides by zero: +infinity and NaN stay, and
   * -infinity is raised to 0.1.
   */
  function ZoomFor(virtualWidth: int, orthoScale: real, scaleFactor: real): (r: Zoom)
    ensures r.Zoom? ==> r.value >= MinZoom
    ensures orthoScale * scaleFactor != 0.0 ==>
              r.Zoom? && (r.value * (orthoScale * scaleFactor) == virtualWidth as real ||
                          (r.value == MinZoom && virtualWidth as real / (orthoScale * scaleFactor) < MinZoom))
    ensures orthoScale * scaleFactor != 0.0 && virtualWidth as real / (orthoScale * scaleFactor) >= MinZoom ==>
              r.Zoom? && r.value * (orthoScale * scaleFactor) == virtualWidth as real
    ensures orthoScale * scaleFactor == 0.0 ==> (r.NotFinite? <==> virtualWidth >= 0)
  {
    var visible := orthoScale * scaleFactor;
    if visible == 0.0 then (if virtualWidth >= 0 then NotFinite else Zoom(MinZoom))
    else
      var z := virtualWidth as real / visible;
      Zoom(if z < MinZoom then MinZoom else z)
  }

  /** The camera's "zoom" custom property, None when it is missing or null. */
  function ZoomProperty(obj: BlenderObject): Option<JsonValue> {
    if obj.customProperties.Some? && "zoom" in obj.customProperties.value && !obj.customProperties.value["zoom"].JNull?
    then Some(obj.customProperties.value["zoom"]) else None
  }

  /** JsonElement.TryGetDouble on a value that is not null: the number, None for any other kind. */
  function OrthoScale(v: JsonValue): Option<real> {
    match v
    case JInt(i) => Some(i as real)
    case JReal(x) => Some(x)
    case _ => None
  }

  /**
   * ProcessCamera: a camera with a position moves the game camera there, then a numeric "zoom"
   * property (Blender's ortho_scale) sets the zoom; a "zoom" of any other kind makes
   * TryGetDouble throw after the move.
   */
  function CameraStep(s: LoadState, obj: BlenderObject, scaleFactor: real): (r: Step)
    ensures r.state == s.(camera := r.state.camera) && r.state.camera.virtualWidth == s.camera.virtualWidth
    ensures AddsAtMostOne(s, r.state, obj.name)
    ensures obj.position.None? ==> r == Step(s, true)
    ensures obj.position.Some? ==> r.state.camera.position == obj.position.value
    ensures obj.position.Some? ==>
              (r.running <==> ZoomProperty(obj).None? || OrthoScale(ZoomProperty(obj).value).Some?)
    ensures obj.position.Some? && ZoomProperty(obj).Some? && OrthoScale(ZoomProperty(obj).value).Some? ==>
              r.state.camera.zoom == ZoomFor(s.camera.virtualWidth, OrthoScale(ZoomProperty(obj).value).value, scaleFactor)
    ensures ZoomProperty(obj).None? || OrthoScale(ZoomProperty(obj).value).None? ==> r.state.camera.zoom == s.camera.zoom
  {
    if obj.position.None? then Step(s, true)
    else
      var moved := s.(camera := s.camera.(position := obj.position.value));
      match ZoomProperty(obj)
      case None => Step(moved, true)
      case Some(zoom) =>
        match OrthoScale(zoom)
        case None => Step(moved, false)
        case Some(orthoScale) =>
          Step(moved.(camera := moved.camera.(zoom := ZoomFor(s.camera.virtualWidth, orthoScale, scaleFactor))), true)
  }

  /** The UV coordinates of the first UV layer, if any. */
  function FirstLayerCoordinates(uvLayers: Option<seq<UvLayer>>): Option<seq<UvCoordinate>> {
    if uvLayers.None? || uvLayers.value == [] then None else uvLayers.value[0].uvCoordinates
  }

  /** The collision settings of the "Collision" collection: its layer (default -1) and passive flag. */
  function CollisionBox(obj: BlenderObject, bounds: Rectangle): Outcome<BoxCollider> {
    var props := if obj.collectionProperties.Some? then LookupEntry(obj.collectionProperties.value, "Collision") else None;
    if props.None? then Returned(BoxCollider(bounds, Some({-1}), Some(false)))
    else
      match GetIntProperty(props.value, "layer", -1)
      case Thrown => Thrown
      case Returned(layer) => Returned(BoxCollider(bounds, Some({layer}), Some(GetBoolProperty(props.value, "passive", false))))
  }

  /**
   * ProcessCollections: "Collision" gives a box with the collection's settings, "Player" replaces it
   * with a default box, "Trigger" adds a passive box only when there is none; each of the four
   * collections present sets the entity's kind, the last one winning.
   */
  function CollectionsStep(w: World, e: nat, obj: BlenderObject, size: Vec2): (r: (World, bool))
    ensures r.0 == w.(kinds := r.0.kinds, boxes := r.0.boxes)
    ensures forall x :: x != e ==> ComponentsOf(r.0, x) == ComponentsOf(w, x)
    ensures obj.collections.None? ==> r == (w, true)
    ensures obj.collections.Some? ==>
              var cols := obj.collections.value;
              var bounds := CollisionBounds(size, obj.originOffset);
              (!r.1 <==> "Collision" in cols && CollisionBox(obj, bounds).Thrown?) &&
              (!r.1 ==> r.0 == w.(kinds := w.kinds[e := "Collision"])) &&
              (r.1 ==> Get(r.0.kinds, e) == if CollectionKind(cols).Some? then CollectionKind(cols) else Get(w.kinds, e)) &&
              (r.1 && "Player" in cols ==> Get(r.0.boxes, e) == Some(BoxCollider(bounds, None, None))) &&
              (r.1 && "Collision" in cols && "Player" !in cols ==> Get(r.0.boxes, e) == Some(CollisionBox(obj, bounds).value)) &&
              (r.1 && "Collision" !in cols && "Player" !in cols ==>
                 Get(r.0.boxes, e) == if "Trigger" in cols && e !in w.boxes then Some(BoxCollider(bounds, None, Some(true))) else Get(w.boxes, e))
  {
    if obj.collections.None? || obj.collections.value == [] then (w, true)
    else
      var cols := obj.collections.value;
      var bounds := CollisionBounds(size, obj.originOffset);
      var w0 := if "Collision" in cols then w.(kinds := w.kinds[e := "Collision"]) else w;
      var box := if "Collision" in cols then CollisionBox(obj, bounds) else Returned(BoxCollider(bounds, None, None));
      if box.Thrown? then (w0, false)
      else
        var w1 := if "Collision" in cols then w0.(boxes := w0.boxes[e := box.value]) else w0;
        var w2 := if "Player" in cols then w1.(kinds := w1.kinds[e := "Player"], boxes := w1.boxes[e := BoxCollider(bounds, None, None)]) else w1;
        var w3 := if "Enemy" in cols then w2.(kinds := w2.kinds[e := "Enemy"]) else w2;
        var w4 :=
          if "Trigger" in cols then
            var boxed := if e in w3.boxes then w3 else w3.(boxes := w3.boxes[e := BoxCollider(bounds, None, Some(true))]);
            boxed.(kinds := boxed.kinds[e := "Trigger"])
          else w3;
        (w4, true)
  }

  /** The EntityInfo kind the collections give: the last of Collision, Player, Enemy and Trigger present. */
  function CollectionKind(cols: seq<string>): Option<string> {
    if "Trigger" in cols then Some("Trigger")
    else if "Enemy" in cols then Some("Enemy")
    else if "Player" in cols then Some("Player")
    else if "Collision" in cols then Some("Collision")
    else None
  }

  /** The texture for a content path: the cached one, else one the content manager can load. */
  function TextureFor(s: LoadState, contentPath: string, available: map<string, TextureSize>): Option<TextureSize> {
    if contentPath in s.loadedTextures then Some(s.loadedTextures[contentPath])
    else if contentPath in available then Some(available[contentPath])
    else None
  }

  /**
   * ProcessMesh: skipped without UV mapping, without a content path, when the texture cannot be
   * loaded, or without UV coordinates in the first layer; otherwise a sprite entity whose depth
   * comes from ResolveLayerDepth, then its collections.
   */
  function MeshStep(s: LoadState, obj: BlenderObject, layerMap: DrawLayerMap?, hierarchy: Option<map<string, string>>,
                       ghost rank: map<string, nat>, available: map<string, TextureSize>): (r: Step)
    requires hierarchy.Some? ==> Ranked(hierarchy.value, rank)
    ensures AddsAtMostOne(s, r.state, obj.name)
    ensures r.state.camera == s.camera
    ensures forall p :: p in s.loadedTextures ==> p in r.state.loadedTextures && r.state.loadedTextures[p] == s.loadedTextures[p]
    ensures forall x :: x != s.world.nextId ==> ComponentsOf(r.state.world, x) == ComponentsOf(s.world, x)
  {
    if obj.uvMapping.None? then Step(s, true)
    else
      var contentPath := ExtractContentPath(obj.uvMapping.value.texturePath);
      if IsNullOrEmpty(contentPath) then Step(s, true)
      else
        var texture := TextureFor(s, contentPath.value, available);
        if texture.None? then Step(s, true)
        else
          var s1 := if contentPath.value in s.loadedTextures then s
                    else s.(loadedTextures := s.loadedTextures[contentPath.value := texture.value]);
          TexturedMeshStep(s1, obj, contentPath.value, texture.value, layerMap, hierarchy, rank)
  }

  /** ProcessMesh once the texture is cached: skipped without UV coordinates, else a sprite entity. */
  function TexturedMeshStep(s: LoadState, obj: BlenderObject, contentPath: string, texture: TextureSize,
                            layerMap: DrawLayerMap?, hierarchy: Option<map<string, string>>, ghost rank: map<string, nat>): (r: Step)
    requires hierarchy.Some? ==> Ranked(hierarchy.value, rank)
    requires obj.uvMapping.Some?
    ensures AddsAtMostOne(s, r.state, obj.name)
    ensures r.state.camera == s.camera && r.state.loadedTextures == s.loadedTextures
    ensures forall x :: x != s.world.nextId ==> ComponentsOf(r.state.world, x) == ComponentsOf(s.world, x)
  {
    var coords := FirstLayerCoordinates(obj.uvMapping.value.uvLayers);
    if coords.None? || coords.value == [] then Step(s, true)
    else SpriteEntityStep(s, obj, contentPath, CalculateSourceRect(coords, texture), layerMap, hierarchy, rank)
  }

  /** ProcessMesh past its guards: a new entity registered under the object's name, then its sprite. */
  function SpriteEntityStep(s: LoadState, obj: BlenderObject, contentPath: string, sourceRect: Rectangle,
                            layerMap: DrawLayerMap?, hierarchy: Option<map<string, string>>, ghost rank: map<string, nat>): (r: Step)
    requires hierarchy.Some? ==> Ranked(hierarchy.value, rank)
    ensures AddsAtMostOne(s, r.state, obj.name)
    ensures r.state.camera == s.camera && r.state.loadedTextures == s.loadedTextures
    ensures forall x :: x != s.world.nextId ==> ComponentsOf(r.state.world, x) == ComponentsOf(s.world, x)
  {
    var (s2, e) := CreateEntityStep(s, obj.name);
    SpriteStep(s2, e, obj, contentPath, sourceRect, layerMap, hierarchy, rank)
  }

  /**
   * ProcessMesh's guards all pass: UV mapping, a content path in the texture path, a texture that is
   * cached or loads, and UV coordinates in the first layer.
   */
  predicate Drawable(s: LoadState, obj: BlenderObject, available: map<string, TextureSize>) {
    obj.uvMapping.Some? &&
    var contentPath := ExtractContentPath(obj.uvMapping.value.texturePath);
    !IsNullOrEmpty(contentPath) && TextureFor(s, contentPath.value, available).Some? &&
    var coords := FirstLayerCoordinates(obj.uvMapping.value.uvLayers);
    coords.Some? && coords.value != []
  }

  /** When one of ProcessMesh's guards fails, it returns early: at most the loaded texture is cached. */
  lemma MeshSkipsUndrawable(s: LoadState, obj: BlenderObject, layerMap: DrawLayerMap?, hierarchy: Option<map<string, string>>,
                            rank: map<string, nat>, available: map<string, TextureSize>)
    requires hierarchy.Some? ==> Ranked(hierarchy.value, rank)
    requires !Drawable(s, obj, available)
    ensures var r := MeshStep(s, obj, layerMap, hierarchy, rank, available);
            r.running && r.state == s.(loadedTextures := r.state.loadedTextures)
  {
  }

  /**
   * Once its guards pass, ProcessMesh caches the texture, registers a new entity under the object's
   * name and, unless resolving the depth throws, gives it the sprite cut from the texture by the UVs.
   */
  lemma MeshCreatesSprite(s: LoadState, obj: BlenderObject, layerMap: DrawLayerMap?, hierarchy: Option<map<string, string>>,
                          rank: map<string, nat>, available: map<string, TextureSize>)
    requires hierarchy.Some? ==> Ranked(hierarchy.value, rank)
    requires Drawable(s, obj, available)
    ensures var r := MeshStep(s, obj, layerMap, hierarchy, rank, available);
            var contentPath := ExtractContentPath(obj.uvMapping.value.texturePath).value;
            var texture := TextureFor(s, contentPath, available).value;
            var sourceRect := CalculateSourceRect(FirstLayerCoordinates(obj.uvMapping.value.uvLayers), texture);
            var e := s.world.nextId;
            contentPath in r.state.loadedTextures && r.state.loadedTextures[contentPath] == texture &&
            r.state.nameToEntity == s.nameToEntity[obj.name := e] && r.state.world.alive == s.world.alive + {e} &&
            (LayerDepthOf(layerMap, obj, hierarchy, rank).Thrown? ==> !r.running) &&
            (r.running ==>
               e in r.state.world.sprites && LayerDepthOf(layerMap, obj, hierarchy, rank) == Returned(r.state.world.sprites[e].layerDepth) &&
               r.state.world.sprites[e] == Sprite(contentPath, sourceRect, MeshSize(obj, sourceRect), SpriteOrigin(obj, sourceRect),
                                                  r.state.world.sprites[e].layerDepth, 0.0))
  {
  }

  /** The rest of ProcessMesh once entity e exists: its sprite at the resolved depth, then its collections. */
  function SpriteStep(s: LoadState, e: nat, obj: BlenderObject, contentPath: string, sourceRect: Rectangle,
                      layerMap: DrawLayerMap?, hierarchy: Option<map<string, string>>, ghost rank: map<string, nat>): (r: Step)
    requires hierarchy.Some? ==> Ranked(hierarchy.value, rank)
    ensures r.state == s.(world := r.state.world)
    ensures r.state.world.alive == s.world.alive && r.state.world.nextId == s.world.nextId
    ensures forall x :: x != e ==> ComponentsOf(r.state.world, x) == ComponentsOf(s.world, x)
    ensures LayerDepthOf(layerMap, obj, hierarchy, rank).Thrown? ==> r == Step(s, false)
    ensures r.running ==>
              e in r.state.world.sprites && LayerDepthOf(layerMap, obj, hierarchy, rank) == Returned(r.state.world.sprites[e].layerDepth) &&
              r.state.world.sprites[e] == Sprite(contentPath, sourceRect, MeshSize(obj, sourceRect), SpriteOrigin(obj, sourceRect),
                                                 r.state.world.sprites[e].layerDepth, 0.0)
  {
    match LayerDepthOf(layerMap, obj, hierarchy, rank)
    case Thrown => Step(s, false)
    case Returned(depth) =>
      var size := MeshSize(obj, sourceRect);
      var sprite := Sprite(contentPath, sourceRect, size, SpriteOrigin(obj, sourceRect), depth, 0.0);
      var (w, ok) := CollectionsStep(s.world.(sprites := s.world.sprites[e := sprite]), e, obj, size);
      Step(s.(world := w), ok)
  }

  /** The drawn size: the exported dimensions, else the source rectangle's size. */
  function MeshSize(obj: BlenderObject, sourceRect: Rectangle): Vec2 {
    if obj.dimensions.Some? then obj.dimensions.value else Vec2(sourceRect.width as real, sourceRect.height as real)
  }

  /** The origin in source pixels, Y measured from the top. */
  function SpriteOrigin(obj: BlenderObject, sourceRect: Rectangle): Vec2 {
    var o := OriginOf(obj.originOffset);
    Vec2(sourceRect.width as real * o.x, sourceRect.height as real * (1.0 - o.y))
  }

  /** One iteration of pass 1. */
  function ObjectStep(s: LoadState, obj: BlenderObject, childNames: set<string>, scaleFactor: real, layerMap: DrawLayerMap?,
                         hierarchy: Option<map<string, string>>, ghost rank: map<string, nat>,
                         available: map<string, TextureSize>): (r: Step)
    requires hierarchy.Some? ==> Ranked(hierarchy.value, rank)
    ensures obj.name in childNames ==> r == Step(s, true)
    ensures obj.objType == "EMPTY" && obj.name !in childNames ==> r.running && obj.name in r.state.nameToEntity
    ensures AddsAtMostOne(s, r.state, obj.name)
  {
    if obj.name in childNames then Step(s, true)
    else if obj.objType == "CAMERA" then CameraStep(s, obj, scaleFactor)
    else if obj.objType == "MESH" || obj.objType == "GREASEPENCIL" then MeshStep(s, obj, layerMap, hierarchy, rank, available)
    else if obj.objType == "EMPTY" then Step(EmptyStep(s, obj), true)
    else Step(s, true)
  }

  /** Pass 1 over the first k objects; it stops at the first exception. */
  function Pass1(s: LoadState, objs: seq<BlenderObject>, k: nat, childNames: set<string>, scaleFactor: real, layerMap: DrawLayerMap?,
                 hierarchy: Option<map<string, string>>, ghost rank: map<string, nat>,
                 available: map<string, TextureSize>): Step
    requires k <= |objs|
    requires hierarchy.Some? ==> Ranked(hierarchy.value, rank)
  {
    if k == 0 then Step(s, true)
    else
      var prev := Pass1(s, objs, k - 1, childNames, scaleFactor, layerMap, hierarchy, rank, available);
      if !prev.running then prev
      else ObjectStep(prev.state, objs[k - 1], childNames, scaleFactor, layerMap, hierarchy, rank, available)
  }

  // ----- Post-pass 1: ApplyColliderChild -----

  /** The smallest extent a collider polygon needs on each axis (0.01f). */
  const MinExtent: real := 0.01

  /** At least three vertices, spread by at least MinExtent on both axes. */
  predicate UsableShape(vs: seq<Vec2>) {
    |vs| >= 3 &&
    MaxFrom(-FloatMax, Xs(vs)) - MinFrom(FloatMax, Xs(vs)) >= MinExtent &&
    MaxFrom(-FloatMax, Ys(vs)) - MinFrom(FloatMax, Ys(vs)) >= MinExtent
  }

  /** The settings a convex collider takes from its own first collection's properties. */
  function OwnSettings(collectionProperties: Option<seq<(string, Properties)>>): Outcome<ColliderSettings> {
    if collectionProperties.None? || collectionProperties.value == [] then Returned(Settings({-1}, false))
    else
      var props := collectionProperties.value[0].1;
      match GetIntProperty(props, "layer", -1)
      case Thrown => Thrown
      case Returned(layer) => Returned(Settings({layer}, GetBoolProperty(props, "passive", false)))
  }

  /**
   * ApplyColliderChild: with a known parent and a usable shape, the parent's box collider (if any)
   * gives way to a convex collider of the child's vertices, its sprite's YSortOffset becomes the
   * lowest point of the shape, and it is tagged; otherwise nothing changes.
   */
  function ColliderChildStep(s: LoadState, parentName: string, colliderObj: BlenderObject): (r: Step)
    ensures r.state == s.(world := r.state.world)
    ensures r.state.world.alive == s.world.alive && r.state.world.nextId == s.world.nextId
    ensures parentName !in s.nameToEntity || colliderObj.vertices.None? || !UsableShape(colliderObj.vertices.value) ==>
              r == Step(s, true)
    ensures parentName in s.nameToEntity ==>
              forall x :: x != s.nameToEntity[parentName] ==> ComponentsOf(r.state.world, x) == ComponentsOf(s.world, x)
    ensures parentName in s.nameToEntity && colliderObj.vertices.Some? && UsableShape(colliderObj.vertices.value) ==>
              var e := s.nameToEntity[parentName];
              var vs := colliderObj.vertices.value;
              var settings := if e in s.world.boxes then Returned(InheritedFrom(s.world.boxes[e]))
                              else OwnSettings(colliderObj.collectionProperties);
              (settings.Thrown? ==> r == Step(s, false)) &&
              (settings.Returned? ==>
                 r.running &&
                 ComponentsOf(r.state.world, e) ==
                   ComponentsOf(s.world, e).(box := None, convex := Some(ConvexCollider(vs, settings.value)), tagged := true,
                                             sprite := if e in s.world.sprites
                                                       then Some(s.world.sprites[e].(ySortOffset := MaxFrom(-FloatMax, Ys(vs))))
                                                       else None))
  {
    if parentName !in s.nameToEntity then Step(s, true)
    else if colliderObj.vertices.None? || |colliderObj.vertices.value| < 3 then Step(s, true)
    else
      var vs := colliderObj.vertices.value;
      var minX, maxX := MinFrom(FloatMax, Xs(vs)), MaxFrom(-FloatMax, Xs(vs));
      var minY, maxY := MinFrom(FloatMax, Ys(vs)), MaxFrom(-FloatMax, Ys(vs));
      if maxX - minX < MinExtent || maxY - minY < MinExtent then Step(s, true)
      else
        var e := s.nameToEntity[parentName];
        var w := s.world;
        var settings := if e in w.boxes then Returned(InheritedFrom(w.boxes[e])) else OwnSettings(colliderObj.collectionProperties);
        if settings.Thrown? then Step(s, false)
        else
          var w' := w.(boxes := w.boxes - {e},
                       convex := w.convex[e := ConvexCollider(vs, settings.value)],
                       sprites := if e in w.sprites then w.sprites[e := w.sprites[e].(ySortOffset := maxY)] else w.sprites,
                       tagged := w.tagged + {e});
          Step(s.(world := w'), true)
  }

  /** Post-pass 1 over the first k dictionary entries; it stops at the first exception. */
  function ApplyColliders(s: LoadState, entries: seq<(string, BlenderObject)>, k: nat): (r: Step)
    requires k <= |entries|
    ensures r.state.nameToEntity == s.nameToEntity && r.state.blenderEntities == s.blenderEntities
    ensures r.state.world.alive == s.world.alive && r.state.world.nextId == s.world.nextId
  {
    if k == 0 then Step(s, true)
    else
      var prev := ApplyColliders(s, entries, k - 1);
      if !prev.running then prev
      else ColliderChildStep(prev.state, entries[k - 1].0, entries[k - 1].1)
  }

  // ----- Pass 2 and post-pass 2 -----

  /** The child and parent entities of an object that passes 2 and 3 act on. */
  function LinkedPair(s: LoadState, obj: BlenderObject, childNames: set<string>): Option<(nat, nat)> {
    if IsNullOrEmpty(obj.parent) || obj.name in childNames then None
    else if obj.name !in s.nameToEntity || obj.parent.value !in s.nameToEntity then None
    else Some((s.nameToEntity[obj.name], s.nameToEntity[obj.parent.value]))
  }

  /** Pass 2 over the first k objects: childEntity.SetParent(parentEntity). */
  function LinkParents(s: LoadState, objs: seq<BlenderObject>, k: nat, childNames: set<string>): (r: LoadState)
    requires k <= |objs|
    ensures r.nameToEntity == s.nameToEntity && r.blenderEntities == s.blenderEntities
    ensures r.world == s.world.(parents := r.world.parents)
  {
    if k == 0 then s
    else
      var prev := LinkParents(s, objs, k - 1, childNames);
      match LinkedPair(prev, objs[k - 1], childNames)
      case None => prev
      case Some((c, p)) => prev.(world := prev.world.(parents := prev.world.parents[c := p]))
  }

  /** Post-pass 2 over the first k objects: a sprite child takes its sprite parent's non-zero YSortOffset. */
  function PropagateYSort(s: LoadState, objs: seq<BlenderObject>, k: nat, childNames: set<string>): (r: LoadState)
    requires k <= |objs|
    ensures r.nameToEntity == s.nameToEntity && r.blenderEntities == s.blenderEntities
    ensures r.world == s.world.(sprites := r.world.sprites)
  {
    if k == 0 then s
    else
      var prev := PropagateYSort(s, objs, k - 1, childNames);
      match LinkedPair(prev, objs[k - 1], childNames)
      case None => prev
      case Some((c, p)) =>
        if c in prev.world.sprites && p in prev.world.sprites && prev.world.sprites[p].ySortOffset != 0.0 then
          var sprites := prev.world.sprites;
          prev.(world := prev.world.(sprites := sprites[c := sprites[c].(ySortOffset := sprites[p].ySortOffset)]))
        else prev
  }

  /** Object o is one that pass 2 links, with c as its child entity. */
  predicate LinksChild(s: LoadState, o: BlenderObject, childNames: set<string>, c: nat) {
    LinkedPair(s, o, childNames).Some? && LinkedPair(s, o, childNames).value.0 == c
  }

  /**
   * What pass 2 does: an entity that no linked object names as its child keeps its parent link
   * (or its lack of one); an entity that some do gets the parent entity of the last of them.
   */
  lemma {:induction false} LinkParentsResult(s: LoadState, objs: seq<BlenderObject>, k: nat, childNames: set<string>, c: nat)
    requires k <= |objs|
    ensures var r := LinkParents(s, objs, k, childNames);
            (forall i :: 0 <= i < k ==> !LinksChild(s, objs[i], childNames, c)) ==> Get(r.world.parents, c) == Get(s.world.parents, c)
    ensures var r := LinkParents(s, objs, k, childNames);
            (exists i :: 0 <= i < k && LinksChild(s, objs[i], childNames, c)) ==>
              exists i :: 0 <= i < k && LinksChild(s, objs[i], childNames, c) &&
                          Get(r.world.parents, c) == Some(LinkedPair(s, objs[i], childNames).value.1) &&
                          forall j :: i < j < k ==> !LinksChild(s, objs[j], childNames, c)
  {
    if k > 0 {
      LinkParentsResult(s, objs, k - 1, childNames, c);
      var prev := LinkParents(s, objs, k - 1, childNames);
      assert LinkedPair(prev, objs[k - 1], childNames) == LinkedPair(s, objs[k - 1], childNames);
      if !LinksChild(s, objs[k - 1], childNames, c) {
        assert forall i :: 0 <= i < k && LinksChild(s, objs[i], childNames, c) ==> i < k - 1;
      }
    }
  }

  /**
   * What post-pass 2 does: every sprite stays, with at most its YSortOffset changed, and a changed
   * offset is non-zero and belongs to the child entity of a linked object.
   */
  lemma {:induction false} PropagateYSortResult(s: LoadState, objs: seq<BlenderObject>, k: nat, childNames: set<string>)
    requires k <= |objs|
    ensures var r := PropagateYSort(s, objs, k, childNames);
            r.world.sprites.Keys == s.world.sprites.Keys &&
            forall e :: e in s.world.sprites ==>
              r.world.sprites[e] == s.world.sprites[e].(ySortOffset := r.world.sprites[e].ySortOffset) &&
              (r.world.sprites[e].ySortOffset != s.world.sprites[e].ySortOffset ==>
                 r.world.sprites[e].ySortOffset != 0.0 && exists i :: 0 <= i < k && LinksChild(s, objs[i], childNames, e))
  {
    if k > 0 {
      PropagateYSortResult(s, objs, k - 1, childNames);
      var prev := PropagateYSort(s, objs, k - 1, childNames);
      assert LinkedPair(prev, objs[k - 1], childNames) == LinkedPair(s, objs[k - 1], childNames);
    }
  }

  /**
   * One post-pass 2 iteration: when the linked child and parent both have sprites and the parent's
   * offset is non-zero, the child takes that offset and no other sprite changes; otherwise nothing changes.
   */
  lemma PropagateYSortStep(s: LoadState, objs: seq<BlenderObject>, k: nat, childNames: set<string>)
    requires 0 < k <= |objs|
    ensures var prev := PropagateYSort(s, objs, k - 1, childNames);
            var r := PropagateYSort(s, objs, k, childNames);
            var pair := LinkedPair(s, objs[k - 1], childNames);
            if pair.Some? && pair.value.0 in prev.world.sprites && pair.value.1 in prev.world.sprites &&
               prev.world.sprites[pair.value.1].ySortOffset != 0.0
            then
              var (c, p) := pair.value;
              r.world.sprites[c].ySortOffset == prev.world.sprites[p].ySortOffset &&
              forall e :: e != c ==> Get(r.world.sprites, e) == Get(prev.world.sprites, e)
            else r == prev
  {
    var prev := PropagateYSort(s, objs, k - 1, childNames);
    assert LinkedPair(prev, objs[k - 1], childNames) == LinkedPair(s, objs[k - 1], childNames);
  }

  // ----- OnLoadLevelRequest -----

  ghost predicate HierarchyRanked(levelData: Option<LevelData>, rank: map<string, nat>) {
    levelData.Some? && levelData.value.collectionHierarchy.Some? ==> Ranked(levelData.value.collectionHierarchy.value, rank)
  }

  /**
   * OnLoadLevelRequest: ignored when disabled or for identifiers without the "Blender_" prefix;
   * otherwise cleanup, then (given objects) the pre-scan, pass 1, the collider children, pass 2
   * and the Y-sort propagation, the load ending early at an exception.
   */
  function LoadLevel(s: LoadState, isEnabled: bool, levelIdentifier: string, levelData: Option<LevelData>,
                     layerMap: DrawLayerMap?, ghost rank: map<string, nat>, available: map<string, TextureSize>): (r: LoadState)
    requires HierarchyRanked(levelData, rank)
    ensures !isEnabled || !StartsWith(levelIdentifier, "Blender_") ==> r == s
  {
    if !isEnabled || !StartsWith(levelIdentifier, "Blender_") then s
    else
      var cleaned := Cleanup(s);
      if levelData.None? || levelData.value.objects.None? then cleaned
      else
        var objs := levelData.value.objects.value;
        var childNames := ColliderChildNames(objs, |objs|);
        var entries := ColliderChildMap(objs, |objs|);
        var pass1 := Pass1(cleaned, objs, |objs|, childNames, levelData.value.scaleFactor, layerMap,
                           levelData.value.collectionHierarchy, rank, available);
        if !pass1.running then pass1.state
        else
          var applied := ApplyColliders(pass1.state, entries, |entries|);
          if !applied.running then applied.state
          else
            var linked := LinkParents(applied.state, objs, |objs|, childNames);
            PropagateYSort(linked, objs, |objs|, childNames)
  }

  /** What one object's step can do to the registry: keep every name, add at most its own, stay consistent. */
  lemma AddsAtMostOneKeeps(s: LoadState, r: LoadState, name: string)
    requires AddsAtMostOne(s, r, name)
    ensures forall n :: n != name ==> (n in r.nameToEntity <==> n in s.nameToEntity)
    ensures forall n :: n in s.nameToEntity ==> n in r.nameToEntity
    ensures Registered(s) ==> Registered(r)
    ensures GrowsFrom(s, r)
  {
  }

  /** Once an exception has ended pass 1, the remaining objects change nothing. */
  lemma {:induction false} Pass1Stops(s: LoadState, objs: seq<BlenderObject>, i: nat, n: nat, childNames: set<string>,
                                      scaleFactor: real, layerMap: DrawLayerMap?, hierarchy: Option<map<string, string>>,
                                      rank: map<string, nat>, available: map<string, TextureSize>)
    requires i <= n <= |objs|
    requires hierarchy.Some? ==> Ranked(hierarchy.value, rank)
    requires !Pass1(s, objs, i, childNames, scaleFactor, layerMap, hierarchy, rank, available).running
    ensures Pass1(s, objs, n, childNames, scaleFactor, layerMap, hierarchy, rank, available) == Pass1(s, objs, i, childNames, scaleFactor, layerMap, hierarchy, rank, available)
    decreases n - i
  {
    if i < n {
      Pass1Stops(s, objs, i, n - 1, childNames, scaleFactor, layerMap, hierarchy, rank, available);
    }
  }

  /** Once an exception has ended the collider-child pass, the remaining entries change nothing. */
  lemma {:induction false} ApplyCollidersStops(s: LoadState, entries: seq<(string, BlenderObject)>, i: nat, n: nat)
    requires i <= n <= |entries|
    requires !ApplyColliders(s, entries, i).running
    ensures ApplyColliders(s, entries, n) == ApplyColliders(s, entries, i)
    decreases n - i
  {
    if i < n {
      ApplyCollidersStops(s, entries, i, n - 1);
    }
  }

  /**
   * Pass 1 keeps the registry consistent and only ever registers names of objects it did not skip
   * as collider children; while it runs, every EMPTY object seen so far has an entity.
   */
  lemma {:induction false} Pass1Registry(s: LoadState, objs: seq<BlenderObject>, k: nat, childNames: set<string>,
                                         scaleFactor: real, layerMap: DrawLayerMap?, hierarchy: Option<map<string, string>>,
                                         rank: map<string, nat>, available: map<string, TextureSize>)
    requires k <= |objs|
    requires hierarchy.Some? ==> Ranked(hierarchy.value, rank)
    ensures Registered(s) ==> Registered(Pass1(s, objs, k, childNames, scaleFactor, layerMap, hierarchy, rank, available).state)
    ensures GrowsFrom(s, Pass1(s, objs, k, childNames, scaleFactor, layerMap, hierarchy, rank, available).state)
    ensures forall n :: n in s.nameToEntity ==> n in Pass1(s, objs, k, childNames, scaleFactor, layerMap, hierarchy, rank, available).state.nameToEntity
    ensures forall n :: n in Pass1(s, objs, k, childNames, scaleFactor, layerMap, hierarchy, rank, available).state.nameToEntity ==>
              n in s.nameToEntity || (n !in childNames && exists i :: 0 <= i < k && objs[i].name == n)
    ensures Pass1(s, objs, k, childNames, scaleFactor, layerMap, hierarchy, rank, available).running ==>
              forall i :: 0 <= i < k && objs[i].objType == "EMPTY" && objs[i].name !in childNames ==>
                objs[i].name in Pass1(s, objs, k, childNames, scaleFactor, layerMap, hierarchy, rank, available).state.nameToEntity
  {
    if k > 0 {
      Pass1Registry(s, objs, k - 1, childNames, scaleFactor, layerMap, hierarchy, rank, available);
      var prev := Pass1(s, objs, k - 1, childNames, scaleFactor, layerMap, hierarchy, rank, available);
      if prev.running {
        var r := ObjectStep(prev.state, objs[k - 1], childNames, scaleFactor, layerMap, hierarchy, rank, available);
        AddsAtMostOneKeeps(prev.state, r.state, objs[k - 1].name);
      }
    }
  }

  /** `n` names an object of the level that is not skipped as a collider child. */
  predicate NamesLoadedObject(levelData: Option<LevelData>, n: string) {
    levelData.Some? && levelData.value.objects.Some? &&
    var objs := levelData.value.objects.value;
    n !in ColliderChildNames(objs, |objs|) && exists i :: 0 <= i < |objs| && objs[i].name == n
  }

  /**
   * A load keeps the registry consistent. After it, every registered name is a loaded object's
   * (so no collider child has an entity), and none of the previous level's entities is alive.
   */
  lemma LoadLevelRegistry(s: LoadState, isEnabled: bool, levelIdentifier: string, levelData: Option<LevelData>,
                          layerMap: DrawLayerMap?, rank: map<string, nat>, available: map<string, TextureSize>)
    requires HierarchyRanked(levelData, rank)
    requires Registered(s)
    ensures Registered(LoadLevel(s, isEnabled, levelIdentifier, levelData, layerMap, rank, available))
    ensures isEnabled && StartsWith(levelIdentifier, "Blender_") ==>
              forall n :: n in LoadLevel(s, isEnabled, levelIdentifier, levelData, layerMap, rank, available).nameToEntity ==>
                NamesLoadedObject(levelData, n)
    ensures isEnabled && StartsWith(levelIdentifier, "Blender_") && (forall e :: e in s.world.alive ==> e < s.world.nextId) ==>
              forall e :: e in s.blenderEntities ==> e !in LoadLevel(s, isEnabled, levelIdentifier, levelData, layerMap, rank, available).world.alive
  {
    if isEnabled && StartsWith(levelIdentifier, "Blender_") {
      var cleaned := Cleanup(s);
      if levelData.Some? && levelData.value.objects.Some? {
        var objs := levelData.value.objects.value;
        var childNames := ColliderChildNames(objs, |objs|);
        var hierarchy := levelData.value.collectionHierarchy;
        Pass1Registry(cleaned, objs, |objs|, childNames, levelData.value.scaleFactor, layerMap, hierarchy, rank, available);
      }
    }
  }
}
