/**
 * BlenderLevelParserSystem (MonoDreams/System/Level/BlenderLevelParserSystem.cs) as an object whose
 * fields the load updates in place. Each method is proved against the function of
 * BlenderLevelParser that specifies the same step, so the properties proved there about the
 * functions hold of the object's state.
 */
module BlenderParserSystem {
  import opened Wrappers
  import opened Vectors
  import opened FloatBounds
  import opened Json
  import opened Strings
  import opened DrawLayers
  import opened BlenderLevelData
  import opened BlenderParserHelpers
  import opened BlenderLevelParser

  /** The pre-scan loop: the collider-child dictionary and the set of collider-child names. */
  method ScanColliderChildren(objs: seq<BlenderObject>) returns (childMap: seq<(string, BlenderObject)>, childNames: set<string>)
    ensures childMap == ColliderChildMap(objs, |objs|)
    ensures childNames == ColliderChildNames(objs, |objs|)
  {
    childMap, childNames := [], {};
    for i := 0 to |objs|
      invariant childMap == ColliderChildMap(objs, i)
      invariant childNames == ColliderChildNames(objs, i)
    {
      var obj := objs[i];
      if EndsWith(obj.name, "-collider") && !IsNullOrEmpty(obj.parent) {
        childMap := Assign(childMap, obj.parent.value, obj);
        childNames := childNames + {obj.name};
      }
    }
  }

  /** The min/max loop of ApplyColliderChild, from the float.MaxValue and float.MinValue sentinels. */
  method Extents(vs: seq<Vec2>) returns (minX: real, maxX: real, minY: real, maxY: real)
    ensures minX == MinFrom(FloatMax, Xs(vs)) && maxX == MaxFrom(-FloatMax, Xs(vs))
    ensures minY == MinFrom(FloatMax, Ys(vs)) && maxY == MaxFrom(-FloatMax, Ys(vs))
  {
    minX, maxX, minY, maxY := FloatMax, -FloatMax, FloatMax, -FloatMax;
    for i := 0 to |vs|
      invariant minX == MinFrom(FloatMax, Xs(vs)[..i]) && maxX == MaxFrom(-FloatMax, Xs(vs)[..i])
      invariant minY == MinFrom(FloatMax, Ys(vs)[..i]) && maxY == MaxFrom(-FloatMax, Ys(vs)[..i])
    {
      ExtentsStep(vs, i);
      var v := vs[i];
      if v.x < minX { minX := v.x; }
      if v.x > maxX { maxX := v.x; }
      if v.y < minY { minY := v.y; }
      if v.y > maxY { maxY := v.y; }
    }
    assert Xs(vs)[..|vs|] == Xs(vs);
    assert Ys(vs)[..|vs|] == Ys(vs);
  }

  /** The extents loop of ApplyColliderChild over the first i vertices. */
  lemma ExtentsStep(vs: seq<Vec2>, i: nat)
    requires i < |vs|
    ensures Xs(vs)[..i + 1] == Xs(vs)[..i] + [vs[i].x]
    ensures Ys(vs)[..i + 1] == Ys(vs)[..i] + [vs[i].y]
  {
  }

  class BlenderLevelParserSystem {
    var isEnabled: bool
    var drawLayerMap: DrawLayerMap?
    var loadedTextures: map<string, TextureSize>
    var blenderEntities: set<nat>
    var nameToEntity: map<string, nat>
    /** The ECS world and the game camera, as far as the parser writes to them. */
    var world: World
    var camera: GameCamera

    /** The fields a load reads and writes. */
    function State(): LoadState
      reads this
    {
      LoadState(blenderEntities, nameToEntity, loadedTextures, world, camera)
    }

    /** A parser for `world` and `camera`: enabled, without a layer map, with nothing loaded. */
    constructor(world: World, camera: GameCamera)
      ensures State() == LoadState({}, map[], map[], world, camera)
      ensures isEnabled && drawLayerMap == null
    {
      isEnabled := true;
      drawLayerMap := null;
      loadedTextures := map[];
      blenderEntities := {};
      nameToEntity := map[];
      this.world := world;
      this.camera := camera;
    }

    /** SetDrawLayerMap: the map used from now on to resolve depths. */
    method SetDrawLayerMap(layerMap: DrawLayerMap)
      modifies this
      ensures drawLayerMap == layerMap
      ensures State() == old(State()) && isEnabled == old(isEnabled)
    {
      drawLayerMap := layerMap;
    }

    /** CleanupEntities: dispose every tracked entity that is still alive, then forget them all. */
    method CleanupEntities()
      modifies this
      ensures State() == Cleanup(old(State()))
      ensures isEnabled == old(isEnabled) && drawLayerMap == old(drawLayerMap)
    {
      var snapshot := blenderEntities;
      var remaining := snapshot;
      ghost var w0 := world;
      while remaining != {}
        invariant remaining <= snapshot
        invariant world == Disposed(w0, snapshot - remaining)
        invariant blenderEntities == old(blenderEntities) && nameToEntity == old(nameToEntity)
        invariant loadedTextures == old(loadedTextures) && camera == old(camera)
        invariant isEnabled == old(isEnabled) && drawLayerMap == old(drawLayerMap)
        decreases remaining
      {
        var entity :| entity in remaining;
        ghost var done := snapshot - remaining;
        DisposeOne(w0, done, entity);
        if entity in world.alive {
          world := Disposed(world, {entity});
        }
        remaining := remaining - {entity};
        assert snapshot - remaining == done + {entity};
      }
      assert snapshot - remaining == snapshot;
      blenderEntities := {};
      nameToEntity := map[];
    }

    /** Dispose: cleanup, and the texture cache is emptied too. */
    method Dispose()
      modifies this
      ensures State() == Cleanup(old(State())).(loadedTextures := map[])
      ensures isEnabled == old(isEnabled) && drawLayerMap == old(drawLayerMap)
    {
      CleanupEntities();
      loadedTextures := map[];
    }

    /** _world.CreateEntity() plus the bookkeeping in _blenderEntities and _nameToEntity. */
    method CreateEntity(name: string) returns (entity: nat)
      modifies this
      ensures (State(), entity) == CreateEntityStep(old(State()), name)
      ensures isEnabled == old(isEnabled) && drawLayerMap == old(drawLayerMap)
    {
      entity := world.nextId;
      world := world.(nextId := entity + 1, alive := world.alive + {entity});
      blenderEntities := blenderEntities + {entity};
      nameToEntity := nameToEntity[name := entity];
    }

    /** ProcessCamera; `ok` is false when reading the zoom threw. */
    method ProcessCamera(cameraObj: BlenderObject, scaleFactor: real) returns (ok: bool)
      modifies this
      ensures Step(State(), ok) == CameraStep(old(State()), cameraObj, scaleFactor)
      ensures isEnabled == old(isEnabled) && drawLayerMap == old(drawLayerMap)
    {
      ok := true;
      if cameraObj.position.None? {
        return;
      }
      camera := camera.(position := cameraObj.position.value);
      if cameraObj.customProperties.Some? && "zoom" in cameraObj.customProperties.value {
        var zoomValue := cameraObj.customProperties.value["zoom"];
        if !zoomValue.JNull? {
          var orthoScale: real;
          match zoomValue {
            case JInt(i) => orthoScale := i as real;
            case JReal(x) => orthoScale := x;
            case _ => return false;
          }
          var visibleWorldWidth := orthoScale * scaleFactor;
          var gameZoom: Zoom;
          if visibleWorldWidth == 0.0 {
            gameZoom := if camera.virtualWidth >= 0 then NotFinite else Zoom(MinZoom);
          } else {
            var z := camera.virtualWidth as real / visibleWorldWidth;
            gameZoom := Zoom(if z < MinZoom then MinZoom else z);
          }
          camera := camera.(zoom := gameZoom);
        }
      }
    }

    /** ProcessEmpty */
    method ProcessEmpty(emptyObj: BlenderObject)
      modifies this
      ensures State() == EmptyStep(old(State()), emptyObj)
      ensures isEnabled == old(isEnabled) && drawLayerMap == old(drawLayerMap)
    {
      var entity := CreateEntity(emptyObj.name);
      world := world.(kinds := world.kinds[entity := "Empty"]);
    }

    /** ResolveLayerDepth; Thrown when the "drawLayer" value is a JSON value other than a string. */
    method ResolveLayerDepth(meshObj: BlenderObject, hierarchy: Option<map<string, string>>, ghost rank: map<string, nat>)
      returns (r: Outcome<real>)
      requires hierarchy.Some? ==> Ranked(hierarchy.value, rank)
      ensures r == LayerDepthOf(drawLayerMap, meshObj, hierarchy, rank)
    {
      var layerMap := drawLayerMap;
      if layerMap == null {
        return Returned(DefaultLayerDepth);
      }
      if meshObj.customProperties.Some? && "drawLayer" in meshObj.customProperties.value {
        var layerName: Option<string>;
        match meshObj.customProperties.value["drawLayer"] {
          case JNull => layerName := None;
          case JString(s) => layerName := Some(s);
          case _ => return Thrown;
        }
        if layerName.Some? {
          var (found, depth) := layerMap.TryGetDepth(layerName.value);
          if found {
            return Returned(depth);
          }
        }
      }
      if meshObj.collections.Some? {
        var collections := meshObj.collections.value;
        for i := 0 to |collections|
          invariant CollectionsDepth(layerMap, hierarchy, rank, collections) == CollectionsDepth(layerMap, hierarchy, rank, collections[i..])
        {
          var current := collections[i];
          while true
            invariant WalkDepth(layerMap, hierarchy, rank, current) == WalkDepth(layerMap, hierarchy, rank, collections[i])
            decreases if hierarchy.Some? && current in hierarchy.value then rank[current] + 1 else 0
          {
            var (found, depth) := layerMap.TryGetDepth(current);
            if found {
              return Returned(depth);
            }
            if hierarchy.None? || current !in hierarchy.value {
              break;
            }
            current := hierarchy.value[current];
          }
          assert collections[i..][1..] == collections[i + 1..];
        }
      }
      return Returned(DefaultLayerDepth);
    }

    /** ProcessCollections; `ok` is false when reading the "Collision" layer threw. */
    method ProcessCollections(entity: nat, meshObj: BlenderObject, size: Vec2) returns (ok: bool)
      modifies this
      ensures (world, ok) == CollectionsStep(old(world), entity, meshObj, size)
      ensures State() == old(State()).(world := world)
      ensures isEnabled == old(isEnabled) && drawLayerMap == old(drawLayerMap)
    {
      ok := true;
      if meshObj.collections.None? || meshObj.collections.value == [] {
        return;
      }
      var collections := meshObj.collections.value;
      var bounds := CollisionBounds(size, meshObj.originOffset);
      if "Collision" in collections {
        world := world.(kinds := world.kinds[entity := "Collision"]);
        var layer, passive := -1, false;
        if meshObj.collectionProperties.Some? {
          var collisionProps := LookupEntry(meshObj.collectionProperties.value, "Collision");
          if collisionProps.Some? {
            var read := GetIntProperty(collisionProps.value, "layer", -1);
            if read.Thrown? {
              return false;
            }
            layer := read.value;
            passive := GetBoolProperty(collisionProps.value, "passive", false);
          }
        }
        world := world.(boxes := world.boxes[entity := BoxCollider(bounds, Some({layer}), Some(passive))]);
      }
      if "Player" in collections {
        world := world.(kinds := world.kinds[entity := "Player"], boxes := world.boxes[entity := BoxCollider(bounds, None, None)]);
      }
      if "Enemy" in collections {
        world := world.(kinds := world.kinds[entity := "Enemy"]);
      }
      if "Trigger" in collections {
        if entity !in world.boxes {
          world := world.(boxes := world.boxes[entity := BoxCollider(bounds, None, Some(true))]);
        }
        world := world.(kinds := world.kinds[entity := "Trigger"]);
      }
    }

    /**
     * The texture for a content path: the cached one, else the content manager's, which is then
     * cached; None when the content manager cannot load it.
     */
    method LoadTexture(contentPath: string, available: map<string, TextureSize>) returns (texture: Option<TextureSize>)
      modifies this
      ensures texture == TextureFor(old(State()), contentPath, available)
      ensures texture.Some? ==> contentPath in loadedTextures && loadedTextures[contentPath] == texture.value
      ensures State() == old(State()).(loadedTextures := loadedTextures)
      ensures loadedTextures == if contentPath in old(loadedTextures) || texture.None? then old(loadedTextures)
                                else old(loadedTextures)[contentPath := texture.value]
      ensures isEnabled == old(isEnabled) && drawLayerMap == old(drawLayerMap)
    {
      if contentPath in loadedTextures {
        return Some(loadedTextures[contentPath]);
      }
      if contentPath !in available {
        return None;
      }
      texture := Some(available[contentPath]);
      loadedTextures := loadedTextures[contentPath := texture.value];
    }

    /** ProcessMesh; `ok` is false when resolving the depth or the collections threw. */
    method ProcessMesh(meshObj: BlenderObject, hierarchy: Option<map<string, string>>, ghost rank: map<string, nat>,
                       available: map<string, TextureSize>) returns (ok: bool)
      requires hierarchy.Some? ==> Ranked(hierarchy.value, rank)
      modifies this
      ensures Step(State(), ok) == MeshStep(old(State()), meshObj, drawLayerMap, hierarchy, rank, available)
      ensures isEnabled == old(isEnabled) && drawLayerMap == old(drawLayerMap)
    {
      ghost var s := State();
      ok := true;
      if meshObj.uvMapping.None? {
        return;
      }
      var contentPath := ExtractContentPath(meshObj.uvMapping.value.texturePath);
      if IsNullOrEmpty(contentPath) {
        return;
      }
      var texture := LoadTexture(contentPath.value, available);
      if texture.None? {
        return;
      }
      ok := ProcessTexturedMesh(meshObj, contentPath.value, texture.value, hierarchy, rank);
    }

    /** ProcessMesh once the texture is cached: the UV guard, then the new entity and its sprite. */
    method ProcessTexturedMesh(meshObj: BlenderObject, contentPath: string, texture: TextureSize,
                               hierarchy: Option<map<string, string>>, ghost rank: map<string, nat>) returns (ok: bool)
      requires hierarchy.Some? ==> Ranked(hierarchy.value, rank)
      requires meshObj.uvMapping.Some?
      modifies this
      ensures Step(State(), ok) == TexturedMeshStep(old(State()), meshObj, contentPath, texture, drawLayerMap, hierarchy, rank)
      ensures isEnabled == old(isEnabled) && drawLayerMap == old(drawLayerMap)
    {
      ok := true;
      var coords := FirstLayerCoordinates(meshObj.uvMapping.value.uvLayers);
      if coords.None? || coords.value == [] {
        return;
      }
      var sourceRect := CalculateSourceRect(coords, texture);
      var entity := CreateEntity(meshObj.name);
      ok := SetUpSprite(entity, meshObj, contentPath, sourceRect, hierarchy, rank);
    }

    /** The rest of ProcessMesh once the entity exists: size, origin, depth, SpriteInfo, collections. */
    method SetUpSprite(entity: nat, meshObj: BlenderObject, contentPath: string, sourceRect: Rectangle,
                       hierarchy: Option<map<string, string>>, ghost rank: map<string, nat>) returns (ok: bool)
      requires hierarchy.Some? ==> Ranked(hierarchy.value, rank)
      modifies this
      ensures Step(State(), ok) == SpriteStep(old(State()), entity, meshObj, contentPath, sourceRect, drawLayerMap, hierarchy, rank)
      ensures isEnabled == old(isEnabled) && drawLayerMap == old(drawLayerMap)
    {
      var size := MeshSize(meshObj, sourceRect);
      var origin := SpriteOrigin(meshObj, sourceRect);
      var depth := ResolveLayerDepth(meshObj, hierarchy, rank);
      if depth.Thrown? {
        return false;
      }
      var sprite := Sprite(contentPath, sourceRect, size, origin, depth.value, 0.0);
      world := world.(sprites := world.sprites[entity := sprite]);
      ok := ProcessCollections(entity, meshObj, size);
    }

    /** ApplyColliderChild; `ok` is false when reading the child's own "layer" threw. */
    method ApplyColliderChild(parentName: string, colliderObj: BlenderObject) returns (ok: bool)
      modifies this
      ensures Step(State(), ok) == ColliderChildStep(old(State()), parentName, colliderObj)
      ensures isEnabled == old(isEnabled) && drawLayerMap == old(drawLayerMap)
    {
      ok := true;
      if parentName !in nameToEntity {
        return;
      }
      var parentEntity := nameToEntity[parentName];
      if colliderObj.vertices.None? || |colliderObj.vertices.value| < 3 {
        return;
      }
      var modelVertices := colliderObj.vertices.value;
      var minX, maxX, minY, maxY := Extents(modelVertices);
      if maxX - minX < MinExtent || maxY - minY < MinExtent {
        return;
      }
      var settings: ColliderSettings;
      if parentEntity in world.boxes {
        settings := InheritedFrom(world.boxes[parentEntity]);
        world := world.(boxes := world.boxes - {parentEntity});
      } else {
        assert world.boxes - {parentEntity} == world.boxes;
        settings := Settings({-1}, false);
        if colliderObj.collectionProperties.Some? && colliderObj.collectionProperties.value != [] {
          var props := colliderObj.collectionProperties.value[0].1;
          var layer := GetIntProperty(props, "layer", -1);
          if layer.Thrown? {
            return false;
          }
          settings := Settings({layer.value}, GetBoolProperty(props, "passive", false));
        }
      }
      world := world.(convex := world.convex[parentEntity := ConvexCollider(modelVertices, settings)]);
      if parentEntity in world.sprites {
        world := world.(sprites := world.sprites[parentEntity := world.sprites[parentEntity].(ySortOffset := maxY)]);
      }
      world := world.(tagged := world.tagged + {parentEntity});
    }

    /** The body of the pass-1 loop: collider children are skipped, the rest dispatched on their type. */
    method ProcessObject(obj: BlenderObject, childNames: set<string>, scaleFactor: real, hierarchy: Option<map<string, string>>,
                         ghost rank: map<string, nat>, available: map<string, TextureSize>) returns (ok: bool)
      requires hierarchy.Some? ==> Ranked(hierarchy.value, rank)
      modifies this
      ensures Step(State(), ok) == ObjectStep(old(State()), obj, childNames, scaleFactor, drawLayerMap, hierarchy, rank, available)
      ensures isEnabled == old(isEnabled) && drawLayerMap == old(drawLayerMap)
    {
      ok := true;
      if obj.name in childNames {
        return;
      }
      if obj.objType == "CAMERA" {
        ok := ProcessCamera(obj, scaleFactor);
      } else if obj.objType == "MESH" || obj.objType == "GREASEPENCIL" {
        ok := ProcessMesh(obj, hierarchy, rank, available);
      } else if obj.objType == "EMPTY" {
        ProcessEmpty(obj);
      }
    }

    /** Pass 1: every object that is not a collider child, by type; false once one threw. */
    method RunPass1(objs: seq<BlenderObject>, childNames: set<string>, scaleFactor: real, hierarchy: Option<map<string, string>>,
                    ghost rank: map<string, nat>, available: map<string, TextureSize>) returns (ok: bool)
      requires hierarchy.Some? ==> Ranked(hierarchy.value, rank)
      modifies this
      ensures Step(State(), ok) == Pass1(old(State()), objs, |objs|, childNames, scaleFactor, drawLayerMap, hierarchy, rank, available)
      ensures isEnabled == old(isEnabled) && drawLayerMap == old(drawLayerMap)
    {
      ghost var s0 := State();
      for i := 0 to |objs|
        invariant Step(State(), true) == Pass1(s0, objs, i, childNames, scaleFactor, drawLayerMap, hierarchy, rank, available)
        invariant isEnabled == old(isEnabled) && drawLayerMap == old(drawLayerMap)
      {
        var stepOk := ProcessObject(objs[i], childNames, scaleFactor, hierarchy, rank, available);
        if !stepOk {
          Pass1Stops(s0, objs, i + 1, |objs|, childNames, scaleFactor, drawLayerMap, hierarchy, rank, available);
          return false;
        }
      }
      return true;
    }

    /** Post-pass 1: each collider child applied to its parent, in dictionary order; false once one threw. */
    method RunPostPass1(childMap: seq<(string, BlenderObject)>) returns (ok: bool)
      modifies this
      ensures Step(State(), ok) == ApplyColliders(old(State()), childMap, |childMap|)
      ensures isEnabled == old(isEnabled) && drawLayerMap == old(drawLayerMap)
    {
      ghost var s0 := State();
      for i := 0 to |childMap|
        invariant Step(State(), true) == ApplyColliders(s0, childMap, i)
        invariant isEnabled == old(isEnabled) && drawLayerMap == old(drawLayerMap)
      {
        var (parentName, colliderObj) := childMap[i];
        var stepOk := ApplyColliderChild(parentName, colliderObj);
        if !stepOk {
          ApplyCollidersStops(s0, childMap, i + 1, |childMap|);
          return false;
        }
      }
      return true;
    }

    /** Pass 2: each child entity linked to its parent entity. */
    method RunPass2(objs: seq<BlenderObject>, childNames: set<string>)
      modifies this
      ensures State() == LinkParents(old(State()), objs, |objs|, childNames)
      ensures isEnabled == old(isEnabled) && drawLayerMap == old(drawLayerMap)
    {
      ghost var s0 := State();
      for i := 0 to |objs|
        invariant State() == LinkParents(s0, objs, i, childNames)
        invariant isEnabled == old(isEnabled) && drawLayerMap == old(drawLayerMap)
      {
        var obj := objs[i];
        if IsNullOrEmpty(obj.parent) || obj.name in childNames {
          continue;
        }
        if obj.name !in nameToEntity || obj.parent.value !in nameToEntity {
          continue;
        }
        var childEntity, parentEntity := nameToEntity[obj.name], nameToEntity[obj.parent.value];
        world := world.(parents := world.parents[childEntity := parentEntity]);
      }
    }

    /** Post-pass 2: a sprite child takes its sprite parent's non-zero YSortOffset. */
    method RunPostPass2(objs: seq<BlenderObject>, childNames: set<string>)
      modifies this
      ensures State() == PropagateYSort(old(State()), objs, |objs|, childNames)
      ensures isEnabled == old(isEnabled) && drawLayerMap == old(drawLayerMap)
    {
      ghost var s0 := State();
      for i := 0 to |objs|
        invariant State() == PropagateYSort(s0, objs, i, childNames)
        invariant isEnabled == old(isEnabled) && drawLayerMap == old(drawLayerMap)
      {
        var obj := objs[i];
        if IsNullOrEmpty(obj.parent) || obj.name in childNames {
          continue;
        }
        if obj.name !in nameToEntity || obj.parent.value !in nameToEntity {
          continue;
        }
        var childEntity, parentEntity := nameToEntity[obj.name], nameToEntity[obj.parent.value];
        if childEntity in world.sprites && parentEntity in world.sprites {
          var parentOffset := world.sprites[parentEntity].ySortOffset;
          if parentOffset != 0.0 {
            world := world.(sprites := world.sprites[childEntity := world.sprites[childEntity].(ySortOffset := parentOffset)]);
          }
        }
      }
    }

    /**
     * OnLoadLevelRequest for the deserialised level document; `available` holds the textures the
     * content manager can load.
     */
    method OnLoadLevelRequest(levelIdentifier: string, levelData: Option<LevelData>, ghost rank: map<string, nat>,
                              available: map<string, TextureSize>)
      requires HierarchyRanked(levelData, rank)
      modifies this
      ensures State() == LoadLevel(old(State()), isEnabled, levelIdentifier, levelData, drawLayerMap, rank, available)
      ensures isEnabled == old(isEnabled) && drawLayerMap == old(drawLayerMap)
    {
      if !isEnabled {
        return;
      }
      if !StartsWith(levelIdentifier, "Blender_") {
        return;
      }
      CleanupEntities();
      if levelData.None? || levelData.value.objects.None? {
        return;
      }
      var objs := levelData.value.objects.value;
      var childMap, childNames := ScanColliderChildren(objs);
      var ok := RunPass1(objs, childNames, levelData.value.scaleFactor, levelData.value.collectionHierarchy, rank, available);
      if !ok {
        return;
      }
      ok := RunPostPass1(childMap);
      if !ok {
        return;
      }
      RunPass2(objs, childNames);
      RunPostPass2(objs, childNames);
    }
  }

  /** Disposing one more entity extends the set already disposed. */
  lemma DisposeOne(w: World, D: set<nat>, e: nat)
    ensures e in Disposed(w, D).alive ==> Disposed(Disposed(w, D), {e}) == Disposed(w, D + {e})
    ensures e !in Disposed(w, D).alive ==> Disposed(w, D) == Disposed(w, D + {e})
  {
    var dead := D * w.alive;
    if e in Disposed(w, D).alive {
      assert dead + {e} == (D + {e}) * w.alive;
    } else {
      assert dead == (D + {e}) * w.alive;
    }
  }
}
