# MonoDreams core, modelled in Dafny

MonoDreams is a MonoGame/DefaultEcs game framework with a Blender level pipeline. This project
models its deterministic core and proves what the code promises about it:

- **Level pipeline.** The Blender exporter script turns scene objects into JSON records: mesh
  classification, one UV per vertex, JSON-safe custom properties, axis mapping and sorting by
  name. The Blender level parser system reads that JSON back into entities: content paths,
  layer-depth resolution up the collection hierarchy, `-collider` children, collider bounds
  snapped outward, and typed property getters with defaults. The LDtk entity parser reads typed
  field instances, including `#RRGGBB` colours.
- **Layout and depth.** `DrawLayerMap` spaces enum members evenly over [0, 1] and gives Y-sort
  ranges. `FlexLayoutNode` measures a node tree bottom-up and positions it top-down.
- **Stateful components.** The collision grid, the inspector's watcher state, the track score,
  the input replay cursor, the transform with its dirty flag, the entity hierarchy maps and the
  text reveal counter.
- **Geometry.** `CollisionRect`, the separating-axis test with its helpers, the convex collider's
  vertex update, the mesh generators and `MeshData` primitive counts.
- **Classifiers.** The game collision-type table, and the overtaking-opportunity scan, merge
  and lap time of the track analysis system.

One Dafny module models each source file, in the file's own form:

- Code that mutates fields is a `class` whose methods carry `modifies` clauses and state the whole
  new state. The model has a class for `Transform`, `WatcherState`, `LevelCollisionGrid`,
  `InputReplaySystem`, `EntityHierarchy`, `TrackScoreComponent`, `ConvexCollider`,
  `CompositeMeshGenerator`, `DrawLayerMap`, `FlexLayoutNode` and the parser system.
- Loops are `while`/`for` loops proved against a specification function, usually a left fold over
  the prefix already visited. Lemmas then prove properties of that function.
- Pure code is datatypes, functions and lemmas.

`common.dfy` holds the shared vocabulary:

- `Option` and `Outcome`, where `Thrown` stands for an exception the source throws, whether or not it is caught;
- 2D vectors and rectangles;
- the `float.MaxValue`/`float.MinValue` sentinel folds;
- a JSON value type;
- C# integer semantics: 32-bit wrap-around, truncating division and casts;
- the `OrdinalIgnoreCase` string helpers.

`sorting.dfy` holds a stable insertion sort that stands for `List.Sort`/`OrderBy`.

Floats are exact reals. A C# `null` is `None`, and so is NaN where the source uses it as a marker.

The model follows the code. Two of its choices are easy to misread:

- The exporter maps Blender's z to the 2D y coordinate as it is, with no sign inversion
  ("Z becomes Y").
- The exporter's texture lookup scans every material slot until one yields an image. It does not
  stop at the first material.

The one exception is the LDtk Point field. The model reads a two-number array the way the code
evidently intends, and the code as written is kept beside it (see Findings).

## Model

| member | source | states |
|---|---|---|
| BlenderExport.RoundError | Tools/blender_level_export.py:108-109 | `round(x, places)` moves a value by at most half a unit of the last kept decimal |
| BlenderExport.RoundIdempotent | Tools/blender_level_export.py:173-194 | a rounded value lies on the decimal grid and rounding it again changes nothing |
| BlenderExport.GetMeshType | Tools/blender_level_export.py:21-39 | no mesh type exactly for non-MESH objects; otherwise "plane", "cube" or the mesh data name |
| BlenderExport.MeshTypeRules | Tools/blender_level_export.py:30-39 | 4 vertices and at most 2 faces is "plane"; 8 vertices and 6 or 12 faces is "cube"; anything else is the mesh name |
| BlenderExport.FirstImagePathIsFirst | Tools/blender_level_export.py:52-60 | no path exactly when no image node yields one; otherwise the path of the first node that does (absolute file path, else "[packed]" + image name) |
| BlenderExport.GetTextureImagePath | Tools/blender_level_export.py:42-62 | slots without a node-based material are skipped and the first image node of the remaining slots, in order, decides |
| BlenderExport.FirstImagePathAppend | Tools/blender_level_export.py:47-60 | scanning one slot's nodes then the rest finds the first slot's path when it has one, otherwise the rest's |
| BlenderExport.NoTextureWithoutImageNodes | Tools/blender_level_export.py:44-62 | no slot, or no usable image node in any slot, gives no texture path |
| BlenderExport.CornerPairsVertices | Tools/blender_level_export.py:99-103 | each face corner pairs its loop's vertex index with that loop's UV rounded to 6 places |
| BlenderExport.FirstSeenIsFirst | Tools/blender_level_export.py:105-110 | a vertex is recorded exactly when some corner touches it, with the UV of its first corner |
| BlenderExport.CoordinatesBelowShape | Tools/blender_level_export.py:113-118 | the coordinate list is strictly ascending by vertex index and holds every recorded vertex |
| BlenderExport.UvCoordinatesAscending | Tools/blender_level_export.py:113-118 | one layer's exported coordinates are in strictly ascending vertex order, one per vertex |
| BlenderExport.UvCoordinatesFirstCorner | Tools/blender_level_export.py:99-118 | every exported coordinate is the rounded UV of the first corner touching that vertex |
| BlenderExport.UvCoordinatesCoverCorners | Tools/blender_level_export.py:99-118 | every vertex used by some face corner has an exported coordinate |
| BlenderExport.CornerUvsEntries | Tools/blender_level_export.py:99-110 | the corner list follows polygons and their loops in order, each with its vertex and rounded UV |
| BlenderExport.AddPolygonCorners | Tools/blender_level_export.py:100-110 | the loop over one polygon's corners extends the first-seen map by exactly those corners |
| BlenderExport.CollectVertexUvs | Tools/blender_level_export.py:97-110 | the nested polygon/loop iteration builds the first-seen UV map of the whole mesh |
| BlenderExport.LayerCoordinates | Tools/blender_level_export.py:88-118 | one layer's entry lists the first-seen UVs by ascending vertex index |
| BlenderExport.GetUvData | Tools/blender_level_export.py:65-122 | the UV mapping is the texture path plus one entry per UV layer, in layer order |
| BlenderExport.UvMappingPresence | Tools/blender_level_export.py:73-80 | there is a UV mapping exactly for MESH objects with at least one UV layer, with one entry per layer |
| BlenderExport.ConvertProperty | Tools/blender_level_export.py:137-149 | a value is dropped exactly when it is no primitive, has no `to_list`, and both `float()` and `str()` raise |
| BlenderExport.PropertiesKept | Tools/blender_level_export.py:137-140 | int, float, str and bool values are exported unchanged; an array keeps its length and order, and each element (int, float or bool) is exported as that value would be on its own |
| BlenderExport.GetCustomProperties | Tools/blender_level_export.py:125-151 | the loop over the keys builds the custom-property dictionary in key order |
| BlenderExport.CustomPropertyEntries | Tools/blender_level_export.py:130-149 | an entry is exported exactly when its key does not start with "_" and its value converts; int, float, str and bool values are kept unchanged |
| BlenderExport.CustomPropertyKeysDistinct | Tools/blender_level_export.py:127-151 | the exported keys are distinct |
| BlenderExport.GetObjectData | Tools/blender_level_export.py:154-223 | the record holds name, type, mesh type, rounded transform, custom properties, and a UV mapping only when there is one |
| BlenderExport.TransformRounded | Tools/blender_level_export.py:173-194 | every exported transform value (position, dimensions, scale and rotation) lies on the 4-decimal grid |
| BlenderExport.FilterExportable | Tools/blender_level_export.py:275-276 | exactly the MESH, CAMERA, LIGHT and EMPTY objects are kept, in order |
| BlenderExport.ObjectsDataOf | Tools/blender_level_export.py:286-288 | one record per exported object, in order |
| BlenderExport.CollectObjectData | Tools/blender_level_export.py:286-288 | the export loop appends each object's record in order |
| BlenderExport.NameLeIsTotalPreorder | Tools/blender_level_export.py:291 | ordering by name is total and transitive, so the sort is well defined |
| BlenderExport.ExportedTypes | Tools/blender_level_export.py:274-276 | only MESH, CAMERA, LIGHT and EMPTY objects reach the document |
| BlenderExport.ExportLevel | Tools/blender_level_export.py:267-291 | the document (version "1.0") holds a permutation of the exportable objects' records, of the selection or of the scene, sorted by name |
| Sorting.SortBy | Tools/blender_level_export.py:291 | the sort keeps the multiset of records |
| Sorting.SortBySorted | Tools/blender_level_export.py:291 | with a total preorder the result is sorted |
| Sorting.SortByStable | Tools/blender_level_export.py:291 | records that compare equal to one another keep their relative order, as Python's stable `list.sort` promises |
| BlenderLevelData.LookupEntry | MonoDreams/System/Level/BlenderLevelParserSystem.cs:497 | a collection's property table is found exactly when some entry carries that name, and it is that entry's table |
| BlenderParserHelpers.ContentIndex | MonoDreams/System/Level/BlenderLevelParserSystem.cs:414-422 | the index is the first case-insensitive occurrence of "/Content/"; only when that never occurs, the first of "\Content\"; missing exactly when neither occurs |
| BlenderParserHelpers.StripExtension | MonoDreams/System/Level/BlenderLevelParserSystem.cs:427-432 | the result is a prefix of the path; it is shorter exactly when a '.' occurs after the first character, and then ends just before the last '.' |
| BlenderParserHelpers.ExtractContentPath | MonoDreams/System/Level/BlenderLevelParserSystem.cs:409-435 | null for a null or empty path and for a path with no content folder; otherwise a prefix of the text after the separator |
| BlenderParserHelpers.ContentPathOfFile | MonoDreams/System/Level/BlenderLevelParserSystem.cs:424-434 | a file `name.ext` under the content folder gives `name`, whatever dots the name holds |
| BlenderParserHelpers.StripExtensionOfFile | MonoDreams/System/Level/BlenderLevelParserSystem.cs:428-432 | only the text from the last dot on is removed |
| BlenderParserHelpers.ContentPathWithoutExtension | MonoDreams/System/Level/BlenderLevelParserSystem.cs:424-434 | a relative path without a dot after its first character is returned whole |
| BlenderParserHelpers.KeepsPathWithoutDot | MonoDreams/System/Level/BlenderLevelParserSystem.cs:428-434 | a dot at index 0, or no dot, leaves the path unchanged |
| BlenderParserHelpers.CalculateSourceRect | MonoDreams/System/Level/BlenderLevelParserSystem.cs:441-458 | a null or empty UV list gives Rectangle.Empty |
| BlenderParserHelpers.SourceRectOfUvBounds | MonoDreams/System/Level/BlenderLevelParserSystem.cs:441-458 | for a non-empty UV list the rectangle spans the least to the greatest U and V that occur, V flipped, scaled by the texture size and rounded half to even |
| BlenderParserHelpers.SourceRectNonNegative | MonoDreams/System/Level/BlenderLevelParserSystem.cs:446-456 | on a texture of non-negative size the rectangle's width and height are never negative |
| BlenderParserHelpers.SourceRectOfWholeTexture | MonoDreams/System/Level/BlenderLevelParserSystem.cs:446-458 | UVs spanning the unit square select the whole texture (V flipped) |
| BlenderParserHelpers.GetIntProperty | MonoDreams/System/Level/BlenderLevelParserSystem.cs:649-670 | a missing dictionary, key or null value gives the default; an int32 number is returned as is; a non-number element throws |
| BlenderParserHelpers.GetIntPropertyTruncates | MonoDreams/System/Level/BlenderLevelParserSystem.cs:658-659 | a fractional number is truncated toward zero |
| BlenderParserHelpers.GetBoolProperty | MonoDreams/System/Level/BlenderLevelParserSystem.cs:675-692 | JSON true and false are returned as is; everything else, and a missing key or dictionary, gives the default |
| BlenderParserHelpers.CollisionBounds | MonoDreams/System/Level/BlenderLevelParserSystem.cs:474-486 | the integer bounds enclose the drawn sprite box and each edge lies less than one pixel outside it |
| BlenderParserHelpers.CollisionBoundsSmallest | MonoDreams/System/Level/BlenderLevelParserSystem.cs:479-486 | every other whole-pixel rectangle enclosing the sprite contains these bounds |
| BlenderParserHelpers.WalkDepth | MonoDreams/System/Level/BlenderLevelParserSystem.cs:387-397 | a depth found on the walk up the hierarchy is a depth of the layer map |
| BlenderParserHelpers.WalkDepthIsNearestLayer | MonoDreams/System/Level/BlenderLevelParserSystem.cs:387-397 | the walk returns the depth of the nearest collection at or above the start that names a layer, or nothing when none does |
| BlenderParserHelpers.CollectionsDepth | MonoDreams/System/Level/BlenderLevelParserSystem.cs:383-399 | nothing exactly when no collection's walk finds a layer; otherwise the first collection's walk that does |
| BlenderParserHelpers.DrawLayerName | MonoDreams/System/Level/BlenderLevelParserSystem.cs:372-377 | no name without a dictionary, key or value; a JSON string gives the name; any other JSON value throws in GetString |
| BlenderParserHelpers.LayerDepthOf | MonoDreams/System/Level/BlenderLevelParserSystem.cs:366-402 | 0.5 without a layer map; it throws exactly when GetString throws; any other result is 0.5 or a depth of the map |
| BlenderParserHelpers.DrawLayerPropertyFirst | MonoDreams/System/Level/BlenderLevelParserSystem.cs:372-391 | a "drawLayer" name the map knows wins over the collections; an unknown one falls through to them |
| BlenderParserHelpers.LayerDepthInUnitRange | MonoDreams/System/Level/BlenderLevelParserSystem.cs:366-402 | with a map built from enum members every resolved depth lies in [0, 1] |
| BlenderLevelParser.Disposed | MonoDreams/System/Level/BlenderLevelParserSystem.cs:697-703 | disposing removes exactly the listed live entities, with all their components, and keeps every other entity's data |
| BlenderLevelParser.Cleanup | MonoDreams/System/Level/BlenderLevelParserSystem.cs:694-706 | the tracked entities leave the world and both the entity set and the name map become empty; the texture cache and camera stay |
| BlenderLevelParser.Assign | MonoDreams/System/Level/BlenderLevelParserSystem.cs:116 | `map[key] = value` keeps every existing key in place and adds at most one entry |
| BlenderLevelParser.AssignLookup | MonoDreams/System/Level/BlenderLevelParserSystem.cs:116 | after the assignment the keys stay distinct, the key reads back the new value and every other key reads as before |
| BlenderLevelParser.KeyAbsentFromAssign | MonoDreams/System/Level/BlenderLevelParserSystem.cs:116 | assigning one key adds no other key |
| BlenderLevelParser.ColliderChildNames | MonoDreams/System/Level/BlenderLevelParserSystem.cs:112-120 | the set holds exactly the names of the objects ending in "-collider" that have a non-empty parent |
| BlenderLevelParser.ColliderChildMapIsLastChild | MonoDreams/System/Level/BlenderLevelParserSystem.cs:112-120 | the pre-scan map has one entry per parent, holding that parent's last collider child |
| BlenderLevelParser.CreateEntityStep | MonoDreams/System/Level/BlenderLevelParserSystem.cs:306-308 | a new live entity is created, tracked, and registered under the object's name |
| BlenderLevelParser.EmptyStep | MonoDreams/System/Level/BlenderLevelParserSystem.cs:231-259 | an EMPTY object gets a new entity registered under its name, and the registry gains at most that name |
| BlenderLevelParser.ZoomFor | MonoDreams/System/Level/BlenderLevelParserSystem.cs:220-223 | the zoom times the visible width (ortho scale times scale factor) is the virtual width, unless that quotient is below the camera's minimum, which is then the zoom; a zero visible width gives no finite zoom for a non-negative virtual width |
| BlenderLevelParser.CameraStep | MonoDreams/System/Level/BlenderLevelParserSystem.cs:205-229 | only the camera changes; it moves to the object's position when there is one; a numeric "zoom" sets the zoom from the virtual width and the ortho scale, and a "zoom" of another kind throws after the move |
| BlenderLevelParser.CollectionsStep | MonoDreams/System/Level/BlenderLevelParserSystem.cs:466-559 | collections change only this entity's kind and box collider: the last known collection sets the kind, "Player" a default box, "Collision" the configured box (or an exception), "Trigger" a passive box only if none exists |
| BlenderLevelParser.MeshStep | MonoDreams/System/Level/BlenderLevelParserSystem.cs:261-360 | a mesh registers at most its own name, and only past the UV, content-path, texture and coordinate guards |
| BlenderLevelParser.MeshSkipsUndrawable | MonoDreams/System/Level/BlenderLevelParserSystem.cs:263-300 | when a guard fails the mesh returns early, and nothing but the texture cache changes |
| BlenderLevelParser.MeshCreatesSprite | MonoDreams/System/Level/BlenderLevelParserSystem.cs:300-360 | when the guards pass, the texture is cached, a new entity is registered under the object's name, and unless the depth lookup throws it gets the sprite cut from the texture by the UVs at the resolved depth |
| BlenderLevelParser.SpriteStep | MonoDreams/System/Level/BlenderLevelParserSystem.cs:311-357 | setting up the sprite changes components only; no entity, name or texture is added |
| BlenderLevelParser.ObjectStep | MonoDreams/System/Level/BlenderLevelParserSystem.cs:123-147 | collider children are skipped; an EMPTY always registers its name; any object adds at most its own name |
| BlenderLevelParser.ColliderChildStep | MonoDreams/System/Level/BlenderLevelParserSystem.cs:564-644 | an unknown parent, fewer than 3 vertices or an extent below 0.01 on an axis changes nothing; otherwise the parent's box collider is replaced by a convex collider of the vertices with inherited or own settings, its sprite's Y-sort offset becomes the lowest vertex, it is tagged, and no other entity changes |
| BlenderLevelParser.ApplyColliders | MonoDreams/System/Level/BlenderLevelParserSystem.cs:150-153 | the collider-child pass creates no entity and leaves the name registry as it was |
| BlenderLevelParser.LinkParents | MonoDreams/System/Level/BlenderLevelParserSystem.cs:156-174 | pass 2 changes only the parent links |
| BlenderLevelParser.PropagateYSort | MonoDreams/System/Level/BlenderLevelParserSystem.cs:177-195 | post-pass 2 changes only sprite components |
| BlenderLevelParser.LinkParentsResult | MonoDreams/System/Level/BlenderLevelParserSystem.cs:156-174 | an entity that no non-collider object with a registered name and registered parent names as its child keeps its parent link; otherwise it gets the parent entity of the last such object |
| BlenderLevelParser.PropagateYSortResult | MonoDreams/System/Level/BlenderLevelParserSystem.cs:177-195 | every sprite stays and only its YSortOffset can change; a changed offset is non-zero and belongs to the child entity of a linked object |
| BlenderLevelParser.PropagateYSortStep | MonoDreams/System/Level/BlenderLevelParserSystem.cs:182-193 | one iteration: when child and parent both have sprites and the parent's offset is non-zero, the child takes that offset and no other sprite changes; otherwise nothing changes |
| BlenderLevelParser.LoadLevel | MonoDreams/System/Level/BlenderLevelParserSystem.cs:73-203 | a disabled system, or an identifier not starting with "Blender_", leaves all state unchanged |
| BlenderLevelParser.AddsAtMostOneKeeps | MonoDreams/System/Level/BlenderLevelParserSystem.cs:244 | a step that adds at most its own name keeps every other name and keeps the registry consistent |
| BlenderLevelParser.Pass1Stops | MonoDreams/System/Level/BlenderLevelParserSystem.cs:199-202 | once an exception has ended pass 1, the remaining objects change nothing |
| BlenderLevelParser.ApplyCollidersStops | MonoDreams/System/Level/BlenderLevelParserSystem.cs:199-202 | once an exception has ended the collider-child pass, the remaining entries change nothing |
| BlenderLevelParser.Pass1Registry | MonoDreams/System/Level/BlenderLevelParserSystem.cs:123-147 | pass 1 keeps the registry consistent, loses no name, and registers only names of objects it processed |
| BlenderLevelParser.LoadLevelRegistry | MonoDreams/System/Level/BlenderLevelParserSystem.cs:73-203 | after a load every registered name maps to a live tracked entity; a load starts from an empty registry |
| BlenderParserSystem.ScanColliderChildren | MonoDreams/System/Level/BlenderLevelParserSystem.cs:110-120 | the pre-scan loop builds the collider-child dictionary and name set |
| BlenderParserSystem.Extents | MonoDreams/System/Level/BlenderLevelParserSystem.cs:586-594 | the extents are the minimum and maximum x and y, starting from float.MaxValue and float.MinValue |
| BlenderParserSystem.BlenderLevelParserSystem.constructor | MonoDreams/System/Level/BlenderLevelParserSystem.cs:43-50 | a new parser is enabled, has no layer map and tracks nothing |
| BlenderParserSystem.BlenderLevelParserSystem.SetDrawLayerMap | MonoDreams/System/Level/BlenderLevelParserSystem.cs:67-70 | the map is stored and nothing else changes |
| BlenderParserSystem.BlenderLevelParserSystem.CleanupEntities | MonoDreams/System/Level/BlenderLevelParserSystem.cs:694-706 | the new state is the cleaned-up state |
| BlenderParserSystem.BlenderLevelParserSystem.Dispose | MonoDreams/System/Level/BlenderLevelParserSystem.cs:713-718 | cleanup happens and the texture cache is emptied as well |
| BlenderParserSystem.BlenderLevelParserSystem.CreateEntity | MonoDreams/System/Level/BlenderLevelParserSystem.cs:306-308 | the entity is created, tracked and named as the step function says |
| BlenderParserSystem.BlenderLevelParserSystem.ProcessCamera | MonoDreams/System/Level/BlenderLevelParserSystem.cs:205-229 | the new state and the exception flag are those of the camera step |
| BlenderParserSystem.BlenderLevelParserSystem.ProcessEmpty | MonoDreams/System/Level/BlenderLevelParserSystem.cs:231-259 | the new state is that of the empty step |
| BlenderParserSystem.BlenderLevelParserSystem.ResolveLayerDepth | MonoDreams/System/Level/BlenderLevelParserSystem.cs:366-402 | the loops compute the depth of the layer-depth rule: the property first, then the collection walk, then 0.5 |
| BlenderParserSystem.BlenderLevelParserSystem.ProcessCollections | MonoDreams/System/Level/BlenderLevelParserSystem.cs:466-559 | only the world changes, as the collections step says |
| BlenderParserSystem.BlenderLevelParserSystem.LoadTexture | MonoDreams/System/Level/BlenderLevelParserSystem.cs:278-292 | a cached texture is reused; a loadable one is cached under its content path; a failed load changes nothing |
| BlenderParserSystem.BlenderLevelParserSystem.ProcessMesh | MonoDreams/System/Level/BlenderLevelParserSystem.cs:261-360 | the new state and exception flag are those of the mesh step |
| BlenderParserSystem.BlenderLevelParserSystem.SetUpSprite | MonoDreams/System/Level/BlenderLevelParserSystem.cs:311-357 | the new state and exception flag are those of the sprite step |
| BlenderParserSystem.BlenderLevelParserSystem.ApplyColliderChild | MonoDreams/System/Level/BlenderLevelParserSystem.cs:564-644 | the new state and exception flag are those of the collider-child step |
| BlenderParserSystem.BlenderLevelParserSystem.ProcessObject | MonoDreams/System/Level/BlenderLevelParserSystem.cs:125-146 | one pass-1 iteration: a skip or a dispatch on the object's type |
| BlenderParserSystem.BlenderLevelParserSystem.RunPass1 | MonoDreams/System/Level/BlenderLevelParserSystem.cs:123-147 | the loop reaches the pass-1 fold over all objects, stopping at the first exception |
| BlenderParserSystem.BlenderLevelParserSystem.RunPostPass1 | MonoDreams/System/Level/BlenderLevelParserSystem.cs:150-153 | the loop applies each collider child in dictionary order, stopping at the first exception |
| BlenderParserSystem.BlenderLevelParserSystem.RunPass2 | MonoDreams/System/Level/BlenderLevelParserSystem.cs:156-174 | the loop links each child entity to its parent entity |
| BlenderParserSystem.BlenderLevelParserSystem.RunPostPass2 | MonoDreams/System/Level/BlenderLevelParserSystem.cs:177-195 | the loop gives each sprite child its sprite parent's non-zero YSortOffset |
| BlenderParserSystem.BlenderLevelParserSystem.OnLoadLevelRequest | MonoDreams/System/Level/BlenderLevelParserSystem.cs:73-203 | the handler's new state is the whole-load function's result |
| BlenderParserSystem.DisposeOne | MonoDreams/System/Level/BlenderLevelParserSystem.cs:697-703 | disposing one more entity extends the set already disposed, and a dead entity adds nothing |
| DrawLayers.MemberDepthRange | MonoDreams/Draw/DrawLayerMap.cs:35-39 | member depths lie in [0, 1]; with more than one member the first is 1.0 and the last 0.0; a single member is 0.5 |
| DrawLayers.MemberDepthSpacing | MonoDreams/Draw/DrawLayerMap.cs:33-37 | neighbouring members are exactly one step apart, 1/(n-1), later members further back |
| DrawLayers.LayerDepthsLookup | MonoDreams/Draw/DrawLayerMap.cs:31-39 | each member name, ignoring case, maps to its own evenly spaced depth |
| DrawLayers.LayerDepthsKeys | MonoDreams/Draw/DrawLayerMap.cs:31-39 | only member names, in any case, are keys |
| DrawLayers.LayerDepthsValues | MonoDreams/Draw/DrawLayerMap.cs:35-39 | every stored depth is some member's depth and lies in [0, 1] |
| DrawLayers.DrawLayerMap.constructor | MonoDreams/Draw/DrawLayerMap.cs:27-42 | FromEnum stores one depth per member, the step 1/(n-1) (1 for at most one member) and no Y-sorted depth |
| DrawLayers.DrawLayerMap.GetDepth | MonoDreams/Draw/DrawLayerMap.cs:63-66 | the indexer throws exactly for a name TryGetDepth does not know, and otherwise returns the depth TryGetDepth finds |
| DrawLayers.DrawLayerMap.GetDepthWithOffset | MonoDreams/Draw/DrawLayerMap.cs:71-74 | the sub-layer overload throws like the indexer, and otherwise returns the base depth plus the offset |
| DrawLayers.DrawLayerMap.TryGetDepth | MonoDreams/Draw/DrawLayerMap.cs:80-83 | true exactly for a known name in any case, with its depth; false with 0 otherwise |
| DrawLayers.DrawLayerMap.WithYSort | MonoDreams/Draw/DrawLayerMap.cs:89-93 | throws exactly for a name that is not a layer, and then marks nothing; otherwise the layer's depth joins the Y-sorted depths |
| DrawLayers.DrawLayerMap.TryGetYSortRange | MonoDreams/Draw/DrawLayerMap.cs:99-113 | for a marked depth d the range is [d - step/2 + 0.001, d + step/2 - 0.001]; unmarked depths give (false, 0, 0) |
| DrawLayers.YSortRangesDisjoint | MonoDreams/Draw/DrawLayerMap.cs:99-113 | the Y-sort bands of neighbouring layers never overlap |
| CollisionRects.CollisionRect.Center | MonoDreams/Extensions/Monogame/CollisionRect.cs:20 | the centre is equally far from the left and right edges, and from the top and bottom edges |
| CollisionRects.FromBounds | MonoDreams/Extensions/Monogame/CollisionRect.cs:32-37 | the integer rectangle is moved by the float position and keeps its size, so every edge shifts by the position |
| CollisionRects.IntersectsSymmetric | MonoDreams/Extensions/Monogame/CollisionRect.cs:22-26 | intersection is symmetric |
| CollisionRects.TouchingDoNotIntersect | MonoDreams/Extensions/Monogame/CollisionRect.cs:22-26 | boxes that only share an edge do not intersect |
| CollisionRects.IntersectsIffSharedInterior | MonoDreams/Extensions/Monogame/CollisionRect.cs:22-26 | boxes of positive size intersect exactly when some point lies strictly inside both |
| CollisionRects.CenterInside | MonoDreams/Extensions/Monogame/CollisionRect.cs:20 | the centre of a box of positive size lies inside it |
| CollisionRects.FromBoundsTranslationInvariant | MonoDreams/Extensions/Monogame/CollisionRect.cs:32-37 | two bounds moved by the same position intersect exactly when the unmoved bounds do |
| GameCollision.DetermineCollisionType | MonoDreams.Examples/Collision/GameCollisionHelper.cs:26-38 | Collectible, Damage, Dialogue and NPCInteraction each happen exactly for a Player hitting a Collectible, Projectile, Zone and NPCZone |
| GameCollision.Create | MonoDreams.Examples/Collision/GameCollisionHelper.cs:14-24 | the call throws exactly when either entity lacks an EntityInfo; otherwise the message carries its arguments unchanged and the type the two EntityInfo types determine |
| GameCollision.OnlyPlayerIsSpecial | MonoDreams.Examples/Collision/GameCollisionHelper.cs:30-36 | anything but a Player always collides as Physics |
| GameCollision.SpecialTypeDeterminesTarget | MonoDreams.Examples/Collision/GameCollisionHelper.cs:32-35 | each special collision type comes from exactly one target type |
| GameCollision.ClassificationIsDirected | MonoDreams.Examples/Collision/GameCollisionHelper.cs:32-36 | for every pair, swapping the entities of a special collision gives Physics: the classification is directed |
| Meshes.MeshData.PrimitiveCount | MonoDreams/Draw/MeshData.cs:35-42 | triangle lists count whole triples, strips indices - 2, line lists whole pairs, line strips indices - 1, and anything else 0 |
| Meshes.EmptyMesh | MonoDreams/Draw/MeshData.cs:17-23 | the parameterless constructor gives an invalid, dirty triangle list with no primitives |
| Meshes.NewMesh | MonoDreams/Draw/MeshData.cs:25-33 | the array constructor keeps its arguments and marks the mesh dirty; it is valid exactly when both arrays are non-empty |
| Meshes.TriangleCountStep | MonoDreams/Draw/MeshData.cs:37 | three more indices add one triangle |
| Meshes.ValidCountNegative | MonoDreams/Draw/MeshData.cs:33-38 | IsValid does not rule out a negative count: a valid mesh counts negative exactly when it is a triangle strip with one index, and the count is then -1 |
| TrackScore.CalculateGrade | MonoDreams.Examples/Component/TrackScoreComponent.cs:19-30 | Platinum exactly when the score reaches threshold 3, Gold when it reaches 2 but not 3, Silver when it reaches 1 but not 2 or 3, Bronze when it reaches 0 but none above, and null when it reaches none |
| TrackScore.GradeCountsThresholdsMet | MonoDreams.Examples/Component/TrackScoreComponent.cs:19-30 | with ascending thresholds, the grade's rank (null 0 … Platinum 4) equals the number of thresholds the score reaches |
| TrackScore.GradeMonotone | MonoDreams.Examples/Component/TrackScoreComponent.cs:19-30 | a higher score never earns a lower grade, for any thresholds |
| TrackScore.TrackScoreComponent.constructor | MonoDreams.Examples/Component/TrackScoreComponent.cs:3-9 | keeps the thresholds; speed, spots and score start at 0 and the grade at null |
| TrackScore.TrackScoreComponent.UpdateScore | MonoDreams.Examples/Component/TrackScoreComponent.cs:11-17 | stores the speed divided by 5 rounding toward zero, the spots, and their product wrapped to 32 bits; with four thresholds or more it stores the grade of that score, and with fewer it throws after those three fields, leaving the grade as it was |
| TrackScore.ScoreWithoutOverflow | MonoDreams.Examples/Component/TrackScoreComponent.cs:13-15 | for speeds up to 5000 and spots up to 100000 the score is exactly (speed / 5) × spots, with no wrap-around |
| TrackScore.SpeedDivisionTruncates | MonoDreams.Examples/Component/TrackScoreComponent.cs:13 | for every speed, the stored top speed is the floor quotient by 5, plus one when the speed is negative and not a multiple of 5 (C# rounds toward zero) |
| WatcherStates.AnyChecked | MonoDreams.Examples/Inspector/WatcherState.cs:21 | true exactly when some listed path is checked |
| WatcherStates.CountChecked | MonoDreams.Examples/Inspector/WatcherState.cs:41 | the count is at most the list length; it is 0 exactly when no listed path is checked and the full length exactly when all are |
| WatcherStates.GetPrefixState | MonoDreams.Examples/Inspector/WatcherState.cs:37-45 | true exactly when the list is non-empty and all listed leaves are checked, false exactly when none is (including the empty list), null exactly when some are and some are not |
| WatcherStates.HasAnyCheckedUnder | MonoDreams.Examples/Inspector/WatcherState.cs:49-52 | true exactly when the prefix state is not false |
| WatcherStates.WatcherState.constructor | MonoDreams.Examples/Inspector/WatcherState.cs:6 | starts with no checked path |
| WatcherStates.WatcherState.ToggleLeaf | MonoDreams.Examples/Inspector/WatcherState.cs:10-14 | removes the leaf if checked, adds it otherwise; its checked state flips |
| WatcherStates.WatcherState.TogglePrefix | MonoDreams.Examples/Inspector/WatcherState.cs:19-32 | if any listed leaf was checked all listed leaves become unchecked, otherwise all become checked |
| WatcherStates.WatcherState.Clear | MonoDreams.Examples/Inspector/WatcherState.cs:54 | no path is checked afterwards |
| WatcherStates.ToggleLeafTwice | MonoDreams.Examples/Inspector/WatcherState.cs:10-14 | toggling the same leaf twice restores the checked set |
| WatcherStates.ToggleLeafLocal | MonoDreams.Examples/Inspector/WatcherState.cs:10-14 | toggling a leaf changes no other path |
| WatcherStates.TogglePrefixLocal | MonoDreams.Examples/Inspector/WatcherState.cs:19-32 | toggling a prefix changes no path outside its list |
| WatcherStates.TogglePrefixSettles | MonoDreams.Examples/Inspector/WatcherState.cs:19-45 | after toggling a non-empty prefix its state is false if any leaf was checked before and true otherwise, never intermediate |
| WatcherStates.TogglePrefixTwiceFromNone | MonoDreams.Examples/Inspector/WatcherState.cs:19-32 | from a state with none of a non-empty list checked, toggling the prefix twice restores the set |
| LevelCollision.LevelCollisionGrid.constructor | MonoDreams.Examples/Component/Level/LevelCollisionGrid.cs:38-45 | for non-negative dimensions, stores the dimensions, cell size and offset and allocates a fresh width × height grid whose every cell is 0 (passable) |
| LevelCollision.NewLevelCollisionGrid | MonoDreams.Examples/Component/Level/LevelCollisionGrid.cs:38-45 | construction throws exactly when a dimension is negative (the array allocation's OverflowException); otherwise it gives a fresh grid with the given fields and every cell 0 |
| LevelCollision.LevelCollisionGrid.GetValue | MonoDreams.Examples/Component/Level/LevelCollisionGrid.cs:51-58 | the stored cell value inside the grid and 0 outside it |
| LevelCollision.LevelCollisionGrid.SetValue | MonoDreams.Examples/Component/Level/LevelCollisionGrid.cs:64-70 | an in-bounds write is read back by GetValue and changes no other cell; an out-of-bounds write changes nothing |
| LevelCollision.LevelCollisionGrid.GetValueAtWorldPosition | MonoDreams.Examples/Component/Level/LevelCollisionGrid.cs:86-90 | the value of the cell WorldToCell gives for the position when that cell is in bounds, and 0 when it is not |
| LevelCollision.WorldToCellContains | MonoDreams.Examples/Component/Level/LevelCollisionGrid.cs:75-81 | a position inside the grid's world rectangle maps to an in-bounds cell whose world square contains it |
| LevelCollision.CellOfCoordinate | MonoDreams.Examples/Component/Level/LevelCollisionGrid.cs:78-79 | on one axis a local coordinate in [0, count × size) falls in cell floor(local / size), within [0, count) |
| LevelCollision.CellOfTruncatesTowardZero | MonoDreams.Examples/Component/Level/LevelCollisionGrid.cs:78 | for every cell size, the int cast truncates toward zero: any local coordinate strictly within one cell of the origin, on either side, lands in cell 0 |
| TextUpdate.VisibleCount | MonoDreams.Examples/System/Draw/TextUpdateSystem.cs:31-35 | the visible count lies between 0 and the text length |
| TextUpdate.DynamicText.constructor | MonoDreams.Examples/System/Dialogue/DialogueSystem.cs:87-98 | a text created as the dialogue box creates it has a NaN (not yet started) reveal start time, is not revealed and shows no character |
| TextUpdate.Update | MonoDreams.Examples/System/Draw/TextUpdateSystem.cs:14-41 | a revealed text or a non-positive speed shows the whole text and marks it revealed; otherwise the start time is set on the first frame, the count follows the elapsed time, and the text becomes revealed exactly when the count reaches the length; the count never exceeds the length and a revealed text stays revealed |
| TextUpdate.TruncateMonotone | MonoDreams.Examples/System/Draw/TextUpdateSystem.cs:32 | the double-to-int cast preserves order |
| TextUpdate.VisibleCountMonotone | MonoDreams.Examples/System/Draw/TextUpdateSystem.cs:31-35 | with a positive speed, later frames of one reveal never show fewer characters |
| TextUpdate.VisibleCountReachesLength | MonoDreams.Examples/System/Draw/TextUpdateSystem.cs:31-40 | once elapsed time × speed covers the length, every character is visible |
| InputReplay.DueEnd | MonoDreams/System/Input/InputReplaySystem.cs:69 | the cursor advances over exactly the commands from its position whose time has arrived and stops at the first that has not, or at the end |
| InputReplay.InputReplaySystem.constructor | MonoDreams/System/Input/InputReplaySystem.cs:23-30 | keeps the plan's commands, holds no action, starts at cursor 0, enabled and not exiting |
| InputReplay.InputReplaySystem.Update | MonoDreams/System/Input/InputReplaySystem.cs:64-99 | a disabled system changes nothing; otherwise the cursor moves to DueEnd, the held actions are the old ones with the due commands applied in order, and the game is asked to exit once all commands are consumed and nothing is held |
| InputReplay.InputReplaySystem.ExecuteDueCommands | MonoDreams/System/Input/InputReplaySystem.cs:69-85 | runs the due commands in order: press adds, release removes, other types do nothing, and the cursor ends at DueEnd |
| InputReplay.TryLoad | MonoDreams/System/Input/InputReplaySystem.cs:32-62 | null exactly when the file is missing, reading or parsing throws, the plan is null, or it has no or zero commands; otherwise a fresh enabled system over the plan's commands |
| InputReplay.ApplyAllAppend | MonoDreams/System/Input/InputReplaySystem.cs:69-85 | running a command list in two parts equals running it at once |
| InputReplay.DueEndCompose | MonoDreams/System/Input/InputReplaySystem.cs:69 | a frame at t1 followed by one at t2 ≥ t1 leaves the cursor where a single frame at t2 would |
| InputReplay.TwoFramesAsOne | MonoDreams/System/Input/InputReplaySystem.cs:64-99 | two consecutive frames leave the same cursor and held actions as one frame at the later time |
| InputReplay.PressThenRelease | MonoDreams/System/Input/InputReplaySystem.cs:73-82 | after any commands, a press followed by a release of an action leaves that action released and every other action as it was |
| InputReplay.UntouchedAction | MonoDreams/System/Input/InputReplaySystem.cs:73-82 | an action that no executed command names is held afterwards exactly when it was held before |
| Hierarchy.RebuildStepConsistent | MonoDreams/State/EntityHierarchy.cs:60-76 | one loop step keeps the two dictionaries in agreement: every listed child's parent entry names that parent, every parent entry appears in that parent's list, and recorded parents are the ChildOf parents |
| Hierarchy.RebuildConsistent | MonoDreams/State/EntityHierarchy.cs:55-77 | after any prefix of the rebuild loop the dictionaries agree with each other |
| Hierarchy.RebuildRecords | MonoDreams/State/EntityHierarchy.cs:55-77 | an entity has a parent entry exactly when it is visited, alive, and its ChildOf parent is alive |
| Hierarchy.EntityHierarchy.constructor | MonoDreams/State/EntityHierarchy.cs:15-16 | both dictionaries start empty |
| Hierarchy.EntityHierarchy.GetChildren | MonoDreams/State/EntityHierarchy.cs:21-26 | the recorded list of children, or an empty list when the parent has none |
| Hierarchy.EntityHierarchy.GetParent | MonoDreams/State/EntityHierarchy.cs:31-34 | some parent exactly when one is recorded, and then the recorded one |
| Hierarchy.EntityHierarchy.GetRoots | MonoDreams/State/EntityHierarchy.cs:47-50 | exactly the alive given entities without a parent entry |
| Hierarchy.GetRootsInOrder | MonoDreams/State/EntityHierarchy.cs:47-50 | the roots come out in the order of the given entities, as `Where` keeps it |
| Hierarchy.EntityHierarchy.Rebuild | MonoDreams/State/EntityHierarchy.cs:55-77 | the dictionaries become those the rebuild loop produces from empty ones |
| Hierarchy.AfterRebuild | MonoDreams/State/EntityHierarchy.cs:21-77 | after a rebuild, c's parent is p exactly when c is among p's children; HasChildren means a non-empty list; and c has a parent exactly when it is a listed, alive entity with an alive ChildOf parent, which is then the parent |
| Transforms.Transform.constructor | MonoDreams/Component/Transform.cs:25-32 | position and last position start equal (so the transform has not moved), the missing scale defaults to (1, 1) and the missing origin to (0, 0); there is no parent and no cached matrix, and the transform is dirty |
| Transforms.Transform.Delta | MonoDreams/Component/Transform.cs:98-99 | the delta is zero exactly when the transform has not moved |
| Transforms.Transform.SetPosition | MonoDreams/Component/Transform.cs:40-44 | replaces the position and marks the transform dirty; no other field changes |
| Transforms.Transform.SetLastPosition | MonoDreams/Component/Transform.cs:50-54 | replaces the last position without marking the transform dirty; no other field changes |
| Transforms.Transform.SetRotation | MonoDreams/Component/Transform.cs:60-64 | replaces the rotation and marks the transform dirty; nothing else changes |
| Transforms.Transform.SetScale | MonoDreams/Component/Transform.cs:70-74 | replaces the scale and marks the transform dirty; nothing else changes |
| Transforms.Transform.SetOrigin | MonoDreams/Component/Transform.cs:80-84 | replaces the origin and marks the transform dirty; nothing else changes |
| Transforms.Transform.SetParent | MonoDreams/Component/Transform.cs:90-94 | replaces the parent (null allowed) and marks the transform dirty; nothing else changes |
| Transforms.Transform.SetDirty | MonoDreams/Component/Transform.cs:186-189 | only the dirty flag changes, to true |
| Transforms.Transform.CommitPosition | MonoDreams/Component/Transform.cs:194-197 | the last position becomes the position and nothing else changes, so the transform no longer counts as moved and its delta is zero |
| Transforms.Transform.SetPositionX | MonoDreams/Component/Transform.cs:204-209 | only x of the position changes; the transform becomes dirty and the same transform is returned |
| Transforms.Transform.SetPositionY | MonoDreams/Component/Transform.cs:212-217 | only y of the position changes; the transform becomes dirty and the same transform is returned |
| Transforms.Transform.Translate | MonoDreams/Component/Transform.cs:220-225 | the position moves by the delta and the transform becomes dirty, so its movement delta grows by exactly that vector; the same transform is returned |
| Transforms.Transform.TranslateBy | MonoDreams/Component/Transform.cs:228-234 | both coordinates move by the given amounts and the transform becomes dirty; the same transform is returned |
| Transforms.Transform.TranslateX | MonoDreams/Component/Transform.cs:237-242 | only x moves, by the delta; the transform becomes dirty and the same transform is returned |
| Transforms.Transform.TranslateY | MonoDreams/Component/Transform.cs:245-250 | only y moves, by the delta; the transform becomes dirty and the same transform is returned |
| Transforms.Transform.Rotate | MonoDreams/Component/Transform.cs:257-262 | the rotation increases by the given radians and the transform becomes dirty; the same transform is returned |
| Transforms.Transform.SetScaleX | MonoDreams/Component/Transform.cs:269-274 | only x of the scale changes; the transform becomes dirty and the same transform is returned |
| Transforms.Transform.SetScaleY | MonoDreams/Component/Transform.cs:277-282 | only y of the scale changes; the transform becomes dirty and the same transform is returned |
| Transforms.Transform.SetUniformScale | MonoDreams/Component/Transform.cs:285-290 | the scale becomes (u, u) and the transform becomes dirty; the same transform is returned |
| Transforms.Transform.ScaleBy | MonoDreams/Component/Transform.cs:293-298 | the scale is multiplied component-wise by the factor and the transform becomes dirty; the same transform is returned |
| Transforms.Transform.ScaleByFactor | MonoDreams/Component/Transform.cs:301-306 | both scale components are multiplied by the factor and the transform becomes dirty; the same transform is returned |
| Transforms.Transform.SetOriginX | MonoDreams/Component/Transform.cs:313-318 | only x of the origin changes; the transform becomes dirty and the same transform is returned |
| Transforms.Transform.SetOriginY | MonoDreams/Component/Transform.cs:321-326 | only y of the origin changes; the transform becomes dirty and the same transform is returned |
| Transforms.Transform.ReadWorldMatrix | MonoDreams/Component/Transform.cs:112-138 | afterwards the transform is clean and has a cached matrix; a recompute with a parent also leaves the parent clean and cached; a clean, cached transform with a clean parent changes no flag on the chain; no local field anywhere on the chain changes |
| Transforms.WorldScalePositive | MonoDreams/Component/Transform.cs:168-176 | the world scale, the product of the scales along the parent chain, is positive on both axes when every scale on the chain is |
| SatCollision.ProjectPolygon | MonoDreams/Extensions/Monogame/SATCollision.cs:100-111 | min and max bound the projection of every vertex onto the axis, min ≤ max for a non-empty polygon, and they equal the sentinel-started folds (float.MaxValue and float.MinValue for an empty polygon) |
| SatCollision.PolygonCenter | MonoDreams/Extensions/Monogame/SATCollision.cs:116-124 | the vertex mean of a non-empty polygon, and nothing (the source divides by zero, giving NaN) for an empty one |
| SatCollision.MeanTranslated | MonoDreams/Extensions/Monogame/SATCollision.cs:116-124 | translating every vertex by d translates the centre by d |
| SatCollision.BoxToPolygon | MonoDreams/Extensions/Monogame/SATCollision.cs:130-139 | writes the box's four corners into the first four slots (top-left, top-right, bottom-right, bottom-left, offset by the position) and leaves the rest of the buffer alone |
| SatCollision.ComputeAABB | MonoDreams/Extensions/Monogame/SATCollision.cs:145-161 | returns the box whose left, top, right and bottom are the minimum and maximum vertex coordinates |
| SatCollision.AabbContains | MonoDreams/Extensions/Monogame/SATCollision.cs:145-161 | every vertex lies inside the computed box |
| SatCollision.AabbTight | MonoDreams/Extensions/Monogame/SATCollision.cs:145-161 | for a non-empty list of float-range vertices, each side of the box is touched by some vertex and the size is non-negative |
| SatCollision.BoxPolygonAabb | MonoDreams/Extensions/Monogame/SATCollision.cs:130-161 | the box of a box collider's four corners is the collider's own rectangle at that position |
| SatCollision.TestAxis | MonoDreams/Extensions/Monogame/SATCollision.cs:39-49 | the axis separates exactly when one projection interval ends where the other starts or before; the overlap is the smaller of the two interval overlaps |
| SatCollision.TestEdgeAxes | MonoDreams/Extensions/Monogame/SATCollision.cs:29-55 | reports separation exactly when some non-degenerate edge normal separates; otherwise the depth is at most the starting depth and every edge's overlap, and it is either the starting depth with the starting normal or the overlap of the edge normal chosen |
| SatCollision.PolygonVsPolygon | MonoDreams/Extensions/Monogame/SATCollision.cs:19-95 | no hit exactly when some edge normal of either polygon separates them, and then depth 0; on a hit the depth is the least overlap over all edge normals, the normal is one of the tested axes attaining it (possibly negated), and it points from A's centre towards B's |
| SatCollision.OverlapNegatedAxis | MonoDreams/Extensions/Monogame/SATCollision.cs:49 | the overlap along an axis equals the overlap along its negation, so flipping the normal keeps the depth |
| ConvexColliders.ConvexCollider.constructor | MonoDreams/Component/Collision/ConvexCollider.cs:34-48 | with at least 3 vertices: keeps the model array, allocates a fresh world copy equal to it and its box, and sets the active layers ({-1} by default) and the flags |
| ConvexColliders.ConvexCollider.UpdateWorldVertices | MonoDreams/Component/Collision/ConvexCollider.cs:54-74 | every world vertex becomes the model vertex scaled, rotated (by 0 when rotation is ignored) and moved by the position, so with rotation ignored it is the model vertex scaled and moved; the box is that of the new world vertices; the model is untouched |
| ConvexColliders.NewConvexCollider | MonoDreams/Component/Collision/ConvexCollider.cs:34-48 | throws exactly when the vertex array is null or has fewer than 3 vertices; otherwise a fresh collider whose world vertices copy the model |
| ConvexColliders.UnrotatedToWorld | MonoDreams/Component/Collision/ConvexCollider.cs:62-71 | with rotation 0 (cos 1, sin 0) a vertex is scaled and then moved by the position |
| ConvexColliders.IdentityToWorld | MonoDreams/Component/Collision/ConvexCollider.cs:62-71 | with unit scale and no rotation the world vertices are the model translated by the position |
| MeshGenerators.AddCircle | MonoDreams/Draw/IMeshGenerator.cs:46-81 | appends the centre vertex and, for each of the segments (none when the count is not positive), two rim vertices plus the triangle centre, k, k+1; the offset grows by 1 + 2 × segments |
| MeshGenerators.AddCircleKeepsInRange | MonoDreams/Draw/IMeshGenerator.cs:46-81 | when the offset equals the vertex count and every index was in range, AddCircle keeps both true |
| MeshGenerators.AddLine | MonoDreams/Draw/IMeshGenerator.cs:113-141 | appends the four corners start ± p, end ∓ p (p the normalised perpendicular times half the thickness) and the two triangles (o, o+1, o+2) and (o, o+2, o+3); the offset grows by 4 |
| MeshGenerators.AddLineKeepsInRange | MonoDreams/Draw/IMeshGenerator.cs:113-141 | when the offset equals the vertex count and every index was in range, AddLine keeps every index in range |
| MeshGenerators.GenerateCircle | MonoDreams/Draw/IMeshGenerator.cs:35-44 | a circle mesh has 1 + 2n vertices and 3n indices (n the positive segment count, else 0), starts with the centre, indexes only its own vertices, and draws one triangle per segment |
| MeshGenerators.GenerateLine | MonoDreams/Draw/IMeshGenerator.cs:102-111 | a line mesh is one quad, indices 0, 1, 2, 0, 2, 3, drawing two triangles with every index in range |
| MeshGenerators.GenerateRectangleOutline | MonoDreams/Draw/IMeshGenerator.cs:160-181 | four line quads along top, right, bottom and left edges: 16 vertices, 24 indices all in range, 8 triangles |
| MeshGenerators.GenerateFilledRectangle | MonoDreams/Draw/IMeshGenerator.cs:198-211 | the four corners top-left, top-right, bottom-right, bottom-left with indices 0, 1, 2, 0, 2, 3: a valid mesh of two triangles |
| MeshGenerators.GenerateGradientPath | MonoDreams/Draw/IMeshGenerator.cs:230-274 | a null path or one with fewer than 2 points gives the empty mesh; otherwise two vertices per point and a quad of two triangles between neighbouring points (2n vertices, 6(n-1) indices), every index in range |
| MeshGenerators.CompositeMeshGenerator.constructor | MonoDreams/Draw/IMeshGenerator.cs:282 | a new composite has no generators |
| MeshGenerators.CompositeMeshGenerator.Add | MonoDreams/Draw/IMeshGenerator.cs:284-288 | appends the generator and returns the same composite |
| MeshGenerators.CompositeMeshGenerator.Generate | MonoDreams/Draw/IMeshGenerator.cs:290-308 | the result is the concatenation of the meshes with each one's indices shifted by the vertices before it |
| MeshGenerators.CombinedVertices | MonoDreams/Draw/IMeshGenerator.cs:295-305 | each mesh's vertices appear unchanged in the combined mesh, starting at the count of the vertices before it |
| MeshGenerators.CombinedInRange | MonoDreams/Draw/IMeshGenerator.cs:290-308 | if every part indexes only its own vertices, so does the combined mesh |
| TrackAnalysis.WellFormedIsBounded | MonoDreams.Examples/System/TrackAnalysisSystem.cs:227-232 | an opportunity that passes the length and speed-loss thresholds has a quality between 0.295 and 1 |
| TrackAnalysis.MinInWindow | MonoDreams.Examples/System/TrackAnalysisSystem.cs:212-221 | the least velocity in the window (float.MaxValue for an empty one) and, unless the window is empty, an index inside it holding that velocity |
| TrackAnalysis.StartPercentageBelowOne | MonoDreams.Examples/System/TrackAnalysisSystem.cs:237 | a start index before the last sample gives a start percentage in [0, 1) |
| TrackAnalysis.ScanStraights | MonoDreams.Examples/System/TrackAnalysisSystem.cs:192-253 | every recorded opportunity meets the length and speed-loss thresholds, carries the quality formula's value and starts in [0, 1); the open straight's start, if any, lies before the last search window |
| TrackAnalysis.IndexOf | MonoDreams.Examples/System/TrackAnalysisSystem.cs:264 | the first index holding the value, or -1 when no element equals it |
| TrackAnalysis.EndStraight | MonoDreams.Examples/System/TrackAnalysisSystem.cs:256-285 | at most one extra opportunity, none unless a straight is open and starts more than 10 samples before the end, and any extra one is well formed |
| TrackAnalysis.MergeNearbyOpportunities | MonoDreams.Examples/System/TrackAnalysisSystem.cs:294-331 | the result is the reference merge: sort by start, then fold each next opportunity into the current one when it starts within the threshold of the current end, otherwise close the current one |
| TrackAnalysis.MergeRunBounded | MonoDreams.Examples/System/TrackAnalysisSystem.cs:305-328 | merging keeps every opportunity within the bounds the scan guarantees |
| TrackAnalysis.MergedProperties | MonoDreams.Examples/System/TrackAnalysisSystem.cs:294-331 | merging never adds opportunities, leaves neighbouring results more than the threshold apart, keeps every input's quality covered by some result of at least that quality, and preserves the bounds |
| TrackAnalysis.ByQualityDescendingOrders | MonoDreams.Examples/System/TrackAnalysisSystem.cs:291 | ordering by descending quality is total and transitive |
| TrackAnalysis.AnalyzeOvertakingOpportunities | MonoDreams.Examples/System/TrackAnalysisSystem.cs:175-292 | 10 or fewer samples give no opportunity; otherwise the merged opportunities come out sorted by descending quality, each meeting the thresholds with quality in [0.295, 1] |
| TrackAnalysis.CalculateLapTime | MonoDreams.Examples/System/TrackAnalysisSystem.cs:333-358 | 0 for profiles of length ≤ 1 or of different lengths; otherwise the sum over segments of distance over mean speed, skipping segments whose mean speed is at most 0.001 |
| TrackAnalysis.LapTimeNonNegative | MonoDreams.Examples/System/TrackAnalysisSystem.cs:341-357 | with non-decreasing distances the lap time is never negative |
| TrackAnalysis.ConstantSpeedLapTime | MonoDreams.Examples/System/TrackAnalysisSystem.cs:341-357 | at a constant speed above 0.001 the lap time is the distance covered divided by that speed |
| FlexLayout.MaxCross | MonoDreams.Examples/Layout/LayoutNode.cs:120-137 | the running maximum of outer cross sizes, starting from 0: at least 0, at least every child's cross size, and either 0 or one of them |
| FlexLayout.MeasureContent | MonoDreams.Examples/Layout/LayoutNode.cs:112-138 | the content width and height are the reference content size: along the direction the outer sizes plus one gap between neighbours, across it the largest outer size |
| FlexLayout.RunningStep | MonoDreams.Examples/Layout/LayoutNode.cs:120-137 | each loop step adds the child's outer main size, and a gap for every child after the first; after the last child the total is the main extent |
| FlexLayout.Measure | MonoDreams.Examples/Layout/LayoutNode.cs:99-167 | a measured node keeps its style and one measured child per child |
| FlexLayout.MeasuredSize | MonoDreams.Examples/Layout/LayoutNode.cs:142-166 | on each axis, a fixed size wins, else an auto size is the content plus padding, else the available size |
| FlexLayout.HorizontalContent | MonoDreams.Examples/Layout/LayoutNode.cs:117-127 | a horizontal node's content width is the sum of outer widths plus (n-1) gaps, and its height is the tallest outer height or 0 |
| FlexLayout.VerticalContent | MonoDreams.Examples/Layout/LayoutNode.cs:128-138 | a vertical node's content height is the sum of outer heights plus (n-1) gaps, and its width is the widest outer width or 0 |
| FlexLayout.Position | MonoDreams.Examples/Layout/LayoutNode.cs:172-290 | a placed node sits at the given offset with its measured size, and has one placed child per child |
| FlexLayout.CalculateLayout | MonoDreams.Examples/Layout/LayoutNode.cs:85-94 | the root is placed at (0, 0) and keeps one placed child per child |
| FlexLayout.StartPlacesFirstChild | MonoDreams.Examples/Layout/LayoutNode.cs:207-282 | with Start justification the first child sits right after the padding and its own leading margin on the main axis |
| FlexLayout.MainPosStep | MonoDreams.Examples/Layout/LayoutNode.cs:240-285 | consecutive children are spaced by the earlier child's outer main size, the gap and the justification spacing |
| FlexLayout.AutoSizeLeavesNoSpace | MonoDreams.Examples/Layout/LayoutNode.cs:142-237 | a node auto-sized along its direction has no free main-axis space, so every justification starts at 0 with no extra spacing |
| FlexLayout.FlexLayoutNode.constructor | MonoDreams.Examples/Layout/LayoutNode.cs:45-46 | a new node has no parent and no children |
| FlexLayout.FlexLayoutNode.AddChild | MonoDreams.Examples/Layout/LayoutNode.cs:54-58 | the child's parent becomes this node and it is appended to the children; of the child only its parent field changes |
| FlexLayout.FlexLayoutNode.RemoveChild | MonoDreams.Examples/Layout/LayoutNode.cs:63-67 | the child's parent becomes null and its first occurrence leaves the children; of the child only its parent field changes |
| FlexLayout.FlexLayoutNode.Clear | MonoDreams.Examples/Layout/LayoutNode.cs:72-79 | every former child loses its parent, and nothing else of it changes; the children list becomes empty |
| FlexLayout.RemoveFirst | MonoDreams.Examples/Layout/LayoutNode.cs:66 | removing an absent element changes nothing; removing a present one drops exactly one occurrence |
| FlexLayout.AddThenRemove | MonoDreams.Examples/Layout/LayoutNode.cs:54-67 | adding a node that was not a child and then removing it restores the children |
| LDtkFields.GetInt32 | MonoDreams/System/Level/LDtkEntityParserSystem.cs:120 | a value read as Int is a 32-bit integer |
| LDtkFields.HexByte | MonoDreams/System/Level/LDtkEntityParserSystem.cs:152-154 | two hex digits give a value in [0, 256) |
| LDtkFields.ParseColor | MonoDreams/System/Level/LDtkEntityParserSystem.cs:149-158 | a colour is read only from a 7-character text starting with '#', and each channel lies in [0, 256) |
| LDtkFields.ParsePointAsWritten | MonoDreams/System/Level/LDtkEntityParserSystem.cs:129-144 | as written, only an object with cx and cy gives a point |
| LDtkFields.ParsePoint | MonoDreams/System/Level/LDtkEntityParserSystem.cs:129-144 | a point comes from an object with cx and cy, a vector from a two-element array |
| LDtkFields.ParseFieldValue | MonoDreams/System/Level/LDtkEntityParserSystem.cs:112-169 | an Int field yields a 32-bit integer or null; a Color field is non-null exactly when its value is text that parses as #rrggbb |
| LDtkFields.HexByteRoundTrip | MonoDreams/System/Level/LDtkEntityParserSystem.cs:152-154 | reading back the two hex digits of a byte gives the byte |
| LDtkFields.ColorRoundTrip | MonoDreams/System/Level/LDtkEntityParserSystem.cs:147-159 | a Color field holding "#rrggbb" text parses back to exactly those channels |
| LDtkFields.ColorOtherFormsNull | MonoDreams/System/Level/LDtkEntityParserSystem.cs:150-158 | colour text that is not 7 characters long or does not start with '#' gives null |
| LDtkFields.UnknownTypeRaw | MonoDreams/System/Level/LDtkEntityParserSystem.cs:161-162 | an unrecognised type name returns the raw JSON value, null for JSON null |
| LDtkFields.ThrowGivesNull | MonoDreams/System/Level/LDtkEntityParserSystem.cs:164-168 | any exception while reading the value makes the result null |
| LDtkFields.PointArrayDropped | MonoDreams/System/Level/LDtkEntityParserSystem.cs:133-140 | as written, a two-number array [x, y] gives null: TryGetProperty throws on a non-object before the array branch is reached |
| LDtkFields.PointArrayParsed | MonoDreams/System/Level/LDtkEntityParserSystem.cs:137-140 | corrected, a two-number array gives the vector (x, y), and values that are not arrays are read as before |
| LDtkFields.ParseFieldInstances | MonoDreams/System/Level/LDtkEntityParserSystem.cs:85-106 | a null array gives an empty dictionary; otherwise the dictionary is the in-order fold of the parsed stored fields |
| LDtkFields.FieldsKeys | MonoDreams/System/Level/LDtkEntityParserSystem.cs:90-97 | the keys are exactly the identifiers of present fields with a non-empty identifier |
| LDtkFields.LastFieldWins | MonoDreams/System/Level/LDtkEntityParserSystem.cs:90-97 | a repeated identifier keeps the parsed value of its last occurrence |

## Left out

- Blender host glue: the operator, its menu registration and the file write, `bpy.path.abspath`, and the decomposition of `matrix_world`. Objects are abstract records, and resolved paths are a parameter.
- Texture loading, the ContentManager, JSON deserialisation, file I/O, the Logger and ECS entity creation are foreign calls. Parsed JSON, the outcome of loading a texture, and whether a file exists are parameters. Entities are ids in a world value that maps them to the components this model tracks; the components it does not track are listed below.
- BlenderParserSystem.BlenderLevelParserSystem.ResolveLayerDepth walks up the collection hierarchy in a loop. The model takes a ghost rank showing that the hierarchy has no cycle. On a cyclic hierarchy the source loops for ever, and that case is not modelled.
- BlenderLevelParser.EmptyStep: does not track the Transform that ProcessEmpty gives the new entity, at the object's position or (0, 0) (BlenderLevelParserSystem.cs:236-241). The world value has no Transform component.
- BlenderParserSystem.BlenderLevelParserSystem.ProcessEmpty: inherits EmptyStep's gap; the new entity's Transform is not tracked.
- BlenderLevelParser.MeshStep: does not track the Transform at the object's position, the DrawComponent or the Visible marker that ProcessMesh sets (BlenderLevelParserSystem.cs:311-317, 347-354).
- BlenderParserSystem.BlenderLevelParserSystem.ProcessMesh: inherits MeshStep's gap (Transform, DrawComponent and Visible).
- BlenderLevelParser.SpriteStep: does not track the DrawComponent and the Visible marker set beside the SpriteInfo (BlenderLevelParserSystem.cs:347-354).
- BlenderParserSystem.BlenderLevelParserSystem.SetUpSprite: inherits SpriteStep's gap (DrawComponent and Visible).
- BlenderLevelParser.CollectionsStep: does not track the RigidBody, Velocity and CameraFollowTarget that the "Player" collection adds (BlenderLevelParserSystem.cs:515-526).
- BlenderParserSystem.BlenderLevelParserSystem.ProcessCollections: inherits CollectionsStep's gap (RigidBody, Velocity and CameraFollowTarget).
- BlenderLevelParser.LinkParents: records the ChildOf link only. The `Transform.Parent` sync that `SetParent` performs when both entities have a Transform (MonoDreams/Extension/EntityHierarchyExtensions.cs:14-24) is not tracked, and neither is RunPass2's.
- BlenderExport.ConvertProperty: arrays are flat lists of ints, floats or bools. Nested `to_list()` results of multi-dimensional properties are not modelled.
- HandleLevelLoaded and CreateEntitySpawnRequest (LDtk) and the game-specific collection handlers that the parser registers only publish messages or call game code, so they are not modelled.
- Float rounding is not modelled: floats are exact reals, so margins such as 0.001 and 0.01 are exact, and results that would be infinite or NaN are not represented. `GetSingle`'s rounding to single precision is one case.
- BlenderParserHelpers.CollisionBounds: the `(int)Math.Floor`/`(int)Math.Ceiling` casts are unbounded integers. A bound outside the 32-bit range, which the C# cast does not keep, is not modelled; sprite sizes stay far below it.
- LDtkFields.GetSingle: reads any JSON number exactly instead of rounding it to the nearest single-precision value.
- LDtkFields.ParseFieldValue and LDtkFields.ParseFieldInstances: a Point value takes the corrected array branch listed under Findings. The code as written is LDtkFields.ParsePointAsWritten, which returns null for a two-number array.
- LDtkFields.ParseTyped covers `JsonElement` values and the C# null. Other boxed values, which go through `Convert.*` or `ToString()`, are not modelled.
- `cos`, `sin`, `sqrt` and vector normalisation are function parameters (ConvexCollider rotation, SAT axis normalisation, mesh generators). No property of the trigonometry is claimed.
- Transform.WorldMatrix is not modelled: neither the matrix product nor its M41/M42 translation. ReadWorldMatrix models only the dirty-flag protocol of the getter. World rotation and scale follow the parent chain up to a depth bound that the caller supplies.
- Transforms.Transform.ReadWorldMatrix: does not state the value of the cached matrix, only the flags, because the matrix arithmetic is left out.
- TrackAnalysis: the spline velocity profile, curvature and distance, and the per-entity statistics in Update depend on the SplineFlower library and on float functions, so they are left out.
- TrackAnalysis.AnalyzeOvertakingOpportunities: requires the two profiles to have equal lengths, which the source's only caller guarantees; the source itself only requires both to be longer than 10.
- TrackAnalysis.AnalyzeOvertakingOpportunities: states the sort order, the short-input case and the bounds every result keeps, but not which straights the scan finds.
- TrackAnalysis.ScanStraights: states what every recorded opportunity satisfies, not which straights it records.
- TrackAnalysis.EndStraight: states that it adds at most one well-formed opportunity, and none unless an open straight starts more than 10 samples before the end. It does not state exactly when that opportunity is produced or what its fields are.
- Opportunities are values. The source's merge mutates the `current` object, which is an element of its input list. That aliasing is not modelled.
- MeshGenerators: indices are unbounded integers, and the 32-bit overflow of index offsets on meshes with over two billion vertices is not modelled.
- MeshGenerators: vertex and index lists are passed in and returned as sequences. The source passes `ref` lists and offsets.
- MeshGenerators: a composite holds the meshes its generators produce, not the generator objects.
- Meshes: the arrays of `MeshData` are never null in the model. The source's default constructor creates empty arrays.
- SatCollision.PolygonCenter: an empty polygon gives `None`. The source divides by zero and gets NaN.
- ComputeAABB of an empty vertex list is the sentinel box from float.MaxValue to float.MinValue. The model computes that box exactly but does not model the float overflow in its size.
- LevelCollision.LevelCollisionGrid.WorldToCell: requires a non-zero cell size. The source divides by it in floating point and casts the result.
- FlexLayout: MeasureSize and PositionChildren are modelled on immutable node values (`Node` → `Measured` → `Layout`). The source writes the LayoutX/LayoutY/LayoutWidth/LayoutHeight fields in place, so the aliasing of shared child nodes is not captured.
- FlexLayout: the default available size of `float.PositiveInfinity` has no real counterpart. CalculateLayout takes the available size as an argument.
- FlexLayout: FlexGrow, FlexShrink, the name and the other plain properties are never read by the layout code, so they are not modelled. Stretch alignment places the child like Start, as the source does.
- FlexLayout.Position: states the node's own placement and child count. The children's offsets are stated by StartPlacesFirstChild and MainPosStep.
- InputReplay: updating the registered input states each frame is a foreign call, and so is logging. `Game.Exit()` is the flag `exitRequested`.
- The ECS iteration of the systems (`AEntitySetSystem.Update` over entities) is one call per entity. DynamicText is a class passed to `Update`.
- Strings.StartsWith and Strings.EndsWith: compare ordinally, character by character. The source calls the one-argument `string.StartsWith`/`EndsWith`, which compare under the current culture and skip ignorable code points such as a soft hyphen (U+00AD). The model therefore differs on such names in BlenderLevelParser.LoadLevel (the "Blender_" prefix), BlenderLevelParser.ColliderChildNames and BlenderParserSystem.ScanColliderChildren (the "-collider" suffix), and LDtkFields.IsTextType (the "Enum(" prefix).
- Strings.Fold: `OrdinalIgnoreCase` is modelled with ASCII case folding on characters. Non-ASCII letters and UTF-16 surrogate pairs are not folded as .NET would fold them.
- Hierarchy: DefaultEcs entities are natural-number ids. `IsAlive` is a set of live ids, and `ChildOf` is a map from child to parent.

## Findings

| source | as written | input that shows it | evidently intended | confidence | as-written member | corrected member |
|---|---|---|---|---|---|---|
| MonoDreams/System/Level/LDtkEntityParserSystem.cs:133-140 | the Point branch calls `TryGetProperty("cx")` first, which throws on a JSON array, so the exception handler returns null and the two-element array branch is never reached | a Point field whose value is `[1.0, 2.0]` | the vector (1, 2) | not executed | LDtkFields.PointArrayDropped | LDtkFields.PointArrayParsed |
