/**
 * The pure helpers of MonoDreams/System/Level/BlenderLevelParserSystem.cs: content paths, source
 * rectangles, typed property reads, collider bounds and the draw-depth resolution rules.
 */
module BlenderParserHelpers {
  import opened Wrappers
  import opened Vectors
  import opened FloatBounds
  import opened Json
  import opened Numerics
  import opened Strings
  import opened DrawLayers
  import opened BlenderLevelData

  // ----- ExtractContentPath -----

  const UnixSeparator: string := "/Content/"
  const WindowsSeparator: string := "\\Content\\"

  /** `pattern` occurs at index i of s, ignoring case, and nowhere before it. */
  predicate FirstMatch(s: string, pattern: string, i: nat) {
    MatchesAt(s, pattern, i) && forall j :: 0 <= j < i ==> !MatchesAt(s, pattern, j)
  }

  /** Where the content folder starts: the first "/Content/", else the first "\Content\", ignoring case. */
  function ContentIndex(fullPath: string): (r: Option<nat>)
    ensures r.Some? ==> r.value + |UnixSeparator| <= |fullPath|
    ensures (exists j :: MatchesAt(fullPath, UnixSeparator, j)) ==> r.Some? && FirstMatch(fullPath, UnixSeparator, r.value)
    ensures (forall j :: !MatchesAt(fullPath, UnixSeparator, j)) ==>
              (r.None? <==> forall j :: !MatchesAt(fullPath, WindowsSeparator, j)) &&
              (r.Some? ==> FirstMatch(fullPath, WindowsSeparator, r.value))
  {
    var unix := IndexOfIgnoreCase(fullPath, UnixSeparator);
    if unix.Some? then unix
    else
      var windows := IndexOfIgnoreCase(fullPath, WindowsSeparator);
      assert windows.None? ==> forall j :: !MatchesAt(fullPath, UnixSeparator, j) && !MatchesAt(fullPath, WindowsSeparator, j);
      windows
  }

  /** Drops the text from the last '.' on, unless that dot is the first character. */
  function StripExtension(relativePath: string): (r: string)
    ensures r <= relativePath
    ensures r != relativePath <==> exists j :: 0 < j < |relativePath| && relativePath[j] == '.'
    ensures r != relativePath ==> relativePath[|r|] == '.' && forall j :: |r| < j < |relativePath| ==> relativePath[j] != '.'
  {
    var dot := LastIndexOf(relativePath, '.');
    if dot.Some? && dot.value > 0 then
      assert relativePath[..dot.value] != relativePath by {
        assert |relativePath[..dot.value]| < |relativePath|;
      }
      relativePath[..dot.value]
    else
      relativePath
  }

  /**
   * ExtractContentPath: null for a null or empty path and for a path without a content folder;
   * otherwise the rest of the path after the separator, without its extension.
   */
  function ExtractContentPath(fullPath: Option<string>): (r: Option<string>)
    ensures IsNullOrEmpty(fullPath) ==> r.None?
    ensures !IsNullOrEmpty(fullPath) ==> (r.None? <==> ContentIndex(fullPath.value).None?)
    ensures r.Some? ==> r.value <= fullPath.value[ContentIndex(fullPath.value).value + |UnixSeparator|..]
  {
    if IsNullOrEmpty(fullPath) then None
    else
      match ContentIndex(fullPath.value)
      case None => None
      case Some(i) => Some(StripExtension(fullPath.value[i + |UnixSeparator|..]))
  }

  /**
   * A texture file under the content folder gives its content name: the path after the separator
   * with the extension removed, whatever dots the name itself holds.
   */
  lemma ContentPathOfFile(fullPath: string, i: nat, name: string, ext: string)
    requires ContentIndex(fullPath) == Some(i)
    requires fullPath[i + |UnixSeparator|..] == name + "." + ext
    requires name != [] && '.' !in ext
    ensures ExtractContentPath(Some(fullPath)) == Some(name)
  {
    StripExtensionOfFile(name, ext);
  }

  lemma StripExtensionOfFile(name: string, ext: string)
    requires name != [] && '.' !in ext
    ensures StripExtension(name + "." + ext) == name
  {
    var rest := name + "." + ext;
    var dot := LastIndexOf(rest, '.');
    assert rest[|name|] == '.';
    assert forall j :: |name| < j < |rest| ==> rest[j] == ext[j - |name| - 1];
    assert dot.value == |name|;
    assert rest[..|name|] == name;
  }

  /** A file without any dot after its first character keeps its whole relative path. */
  lemma ContentPathWithoutExtension(fullPath: string, i: nat)
    requires ContentIndex(fullPath) == Some(i)
    requires forall j :: i + |UnixSeparator| < j < |fullPath| ==> fullPath[j] != '.'
    ensures ExtractContentPath(Some(fullPath)) == Some(fullPath[i + |UnixSeparator|..])
  {
    var rest := fullPath[i + |UnixSeparator|..];
    forall j | 0 < j < |rest| ensures rest[j] != '.' {
      assert rest[j] == fullPath[i + |UnixSeparator| + j];
    }
    KeepsPathWithoutDot(rest);
  }

  lemma KeepsPathWithoutDot(relativePath: string)
    requires forall j :: 0 < j < |relativePath| ==> relativePath[j] != '.'
    ensures StripExtension(relativePath) == relativePath
  {
  }

  // ----- CalculateSourceRect -----

  const EmptyRectangle := Rectangle(0, 0, 0, 0)

  function Us(uvs: seq<UvCoordinate>): (r: seq<real>)
    ensures |r| == |uvs| && forall i :: 0 <= i < |uvs| ==> r[i] == uvs[i].u
  {
    seq(|uvs|, i requires 0 <= i < |uvs| => uvs[i].u)
  }

  function Vs(uvs: seq<UvCoordinate>): (r: seq<real>)
    ensures |r| == |uvs| && forall i :: 0 <= i < |uvs| ==> r[i] == uvs[i].v
  {
    seq(|uvs|, i requires 0 <= i < |uvs| => uvs[i].v)
  }

  /**
   * The rectangle of a UV box [minU, maxU] x [minV, maxV] on a w x h texture: x = minU * w,
   * y = (1 - maxV) * h (UV space starts at the bottom, the texture at the top), width and height
   * the box's extents times w and h, each rounded half to even.
   */
  function RectOfBox(minU: real, maxU: real, minV: real, maxV: real, texture: TextureSize): Rectangle {
    Rectangle(
      RoundHalfEven(minU * texture.width as real),
      RoundHalfEven((1.0 - maxV) * texture.height as real),
      RoundHalfEven((maxU - minU) * texture.width as real),
      RoundHalfEven((maxV - minV) * texture.height as real))
  }

  /**
   * CalculateSourceRect: the pixel rectangle of the UVs' bounding box, V flipped because UV space
   * starts at the bottom and textures at the top; each value rounded half to even.
   */
  function CalculateSourceRect(uvCoords: Option<seq<UvCoordinate>>, texture: TextureSize): (r: Rectangle)
    ensures uvCoords.None? || uvCoords.value == [] ==> r == EmptyRectangle
  {
    if uvCoords.None? || uvCoords.value == [] then EmptyRectangle
    else
      var uvs := uvCoords.value;
      RectOfBox(SeqMin(Us(uvs)), SeqMax(Us(uvs)), SeqMin(Vs(uvs)), SeqMax(Vs(uvs)), texture)
  }

  /** Given the least and greatest U and V the UVs attain, the rectangle is the pixel box between them. */
  lemma SourceRectOfUvBounds(uvs: seq<UvCoordinate>, texture: TextureSize, minU: real, maxU: real, minV: real, maxV: real)
    requires forall i :: 0 <= i < |uvs| ==> minU <= uvs[i].u <= maxU && minV <= uvs[i].v <= maxV
    requires (exists i :: 0 <= i < |uvs| && uvs[i].u == minU) && (exists i :: 0 <= i < |uvs| && uvs[i].u == maxU)
    requires (exists i :: 0 <= i < |uvs| && uvs[i].v == minV) && (exists i :: 0 <= i < |uvs| && uvs[i].v == maxV)
    ensures CalculateSourceRect(Some(uvs), texture) == RectOfBox(minU, maxU, minV, maxV, texture)
  {
    var us, vs := Us(uvs), Vs(uvs);
    AttainedBoundsAreExtremes(us, minU, maxU);
    AttainedBoundsAreExtremes(vs, minV, maxV);
  }

  /** Bounds that a non-empty sequence attains are its minimum and maximum. */
  lemma AttainedBoundsAreExtremes(xs: seq<real>, lo: real, hi: real)
    requires forall i :: 0 <= i < |xs| ==> lo <= xs[i] <= hi
    requires (exists i :: 0 <= i < |xs| && xs[i] == lo) && (exists i :: 0 <= i < |xs| && xs[i] == hi)
    ensures SeqMin(xs) == lo && SeqMax(xs) == hi
  {
  }

  /** On a texture of non-negative size the rectangle never has a negative width or height. */
  lemma SourceRectNonNegative(uvs: seq<UvCoordinate>, texture: TextureSize)
    requires uvs != [] && texture.width >= 0 && texture.height >= 0
    ensures CalculateSourceRect(Some(uvs), texture).width >= 0
    ensures CalculateSourceRect(Some(uvs), texture).height >= 0
  {
    var minU, maxU := SeqMin(Us(uvs)), SeqMax(Us(uvs));
    var minV, maxV := SeqMin(Vs(uvs)), SeqMax(Vs(uvs));
    assert minU <= maxU by { assert minU <= Us(uvs)[0] <= maxU; }
    assert minV <= maxV by { assert minV <= Vs(uvs)[0] <= maxV; }
    BoxSizeNonNegative(minU, maxU, minV, maxV, texture);
  }

  lemma BoxSizeNonNegative(minU: real, maxU: real, minV: real, maxV: real, texture: TextureSize)
    requires minU <= maxU && minV <= maxV && texture.width >= 0 && texture.height >= 0
    ensures RectOfBox(minU, maxU, minV, maxV, texture).width >= 0
    ensures RectOfBox(minU, maxU, minV, maxV, texture).height >= 0
  {
    MulNonNegative(maxU - minU, texture.width as real);
    MulNonNegative(maxV - minV, texture.height as real);
  }

  lemma MulNonNegative(a: real, b: real)
    requires 0.0 <= a && 0.0 <= b
    ensures 0.0 <= a * b
  {
  }

  /** UVs that span the unit square select the whole texture. */
  lemma SourceRectOfWholeTexture(uvs: seq<UvCoordinate>, texture: TextureSize)
    requires forall i :: 0 <= i < |uvs| ==> 0.0 <= uvs[i].u <= 1.0 && 0.0 <= uvs[i].v <= 1.0
    requires exists i :: 0 <= i < |uvs| && uvs[i].u == 0.0 && uvs[i].v == 0.0
    requires exists i :: 0 <= i < |uvs| && uvs[i].u == 1.0 && uvs[i].v == 1.0
    ensures CalculateSourceRect(Some(uvs), texture) == Rectangle(0, 0, texture.width, texture.height)
  {
    var lo :| 0 <= lo < |uvs| && uvs[lo].u == 0.0 && uvs[lo].v == 0.0;
    var hi :| 0 <= hi < |uvs| && uvs[hi].u == 1.0 && uvs[hi].v == 1.0;
    assert SeqMin(Us(uvs)) == 0.0 by { assert Us(uvs)[lo] == 0.0; }
    assert SeqMax(Us(uvs)) == 1.0 by { assert Us(uvs)[hi] == 1.0; }
    assert SeqMin(Vs(uvs)) == 0.0 by { assert Vs(uvs)[lo] == 0.0; }
    assert SeqMax(Vs(uvs)) == 1.0 by { assert Vs(uvs)[hi] == 1.0; }
    UnitBoxIsWholeTexture(texture);
  }

  lemma UnitBoxIsWholeTexture(texture: TextureSize)
    ensures RectOfBox(0.0, 1.0, 0.0, 1.0, texture) == Rectangle(0, 0, texture.width, texture.height)
  {
    RoundOfWhole(0);
    RoundOfWhole(texture.width);
    RoundOfWhole(texture.height);
  }

  lemma RoundOfWhole(n: int)
    ensures RoundHalfEven(n as real) == n
  {
  }

  // ----- GetIntProperty / GetBoolProperty -----

  /**
   * GetIntProperty: the default when the dictionary is null, the key is missing or the value is a
   * JSON null; a number in the int range as is; any other number through the (int) cast; and a
   * string, boolean, array or object throws (TryGetInt32 on an element that is not a number).
   */
  function GetIntProperty(props: Properties, key: string, defaultValue: int): (r: Outcome<int>)
    ensures props.None? || key !in props.value || props.value[key] == JNull ==> r == Returned(defaultValue)
    ensures r.Thrown? <==> props.Some? && key in props.value && !(props.value[key].JNull? || props.value[key].JInt? || props.value[key].JReal?)
    ensures r.Returned? && IsInt32(defaultValue) ==> IsInt32(r.value)
    ensures props.Some? && key in props.value && props.value[key].JInt? && IsInt32(props.value[key].i) ==> r == Returned(props.value[key].i)
  {
    if props.None? || key !in props.value then Returned(defaultValue)
    else
      match props.value[key]
      case JNull => Returned(defaultValue)
      case JInt(n) => Returned(if IsInt32(n) then n else TruncateToInt32(n as real))
      case JReal(x) => Returned(TruncateToInt32(x))
      case _ => Thrown
  }

  /** A fractional layer number is truncated toward zero. */
  lemma GetIntPropertyTruncates(props: map<string, JsonValue>, key: string, x: real, defaultValue: int)
    requires key in props && props[key] == JReal(x)
    requires Int32Min as real <= x <= Int32Max as real
    ensures var r := GetIntProperty(Some(props), key, defaultValue);
            r.Returned? && (x >= 0.0 ==> r.value as real <= x < r.value as real + 1.0)
                        && (x < 0.0 ==> r.value as real - 1.0 < x <= r.value as real)
  {
  }

  /** GetBoolProperty: a JSON true or false as is; the default for anything else, never throwing. */
  function GetBoolProperty(props: Properties, key: string, defaultValue: bool): (r: bool)
    ensures props.None? || key !in props.value ==> r == defaultValue
    ensures props.Some? && key in props.value && props.value[key].JBool? ==> r == props.value[key].b
    ensures props.Some? && key in props.value && !props.value[key].JBool? ==> r == defaultValue
  {
    if props.None? || key !in props.value then defaultValue
    else
      match props.value[key]
      case JBool(b) => b
      case _ => defaultValue
  }

  // ----- ProcessCollections bounds -----

  /** The sprite's origin offset, the centre (0.5, 0.5) when the JSON has none. */
  function OriginOf(originOffset: Option<Vec2>): Vec2 {
    if originOffset.Some? then originOffset.value else Vec2(0.5, 0.5)
  }

  /** Left edge of the drawn sprite relative to the entity position. */
  function VisualLeft(size: Vec2, originOffset: Option<Vec2>): real {
    -size.x * OriginOf(originOffset).x
  }

  /** Top edge of the drawn sprite; the offset's Y counts from the bottom. */
  function VisualTop(size: Vec2, originOffset: Option<Vec2>): real {
    -size.y * (1.0 - OriginOf(originOffset).y)
  }

  /** The whole-pixel rectangle a Rectangle r has in common with the float box it must enclose. */
  predicate Encloses(r: Rectangle, left: real, top: real, size: Vec2) {
    r.x as real <= left && r.y as real <= top &&
    left + size.x <= (r.x + r.width) as real && top + size.y <= (r.y + r.height) as real
  }

  /**
   * The collider bounds of ProcessCollections: left/top floored and right/bottom raised to the next
   * whole pixel, so the rectangle encloses the drawn sprite and no edge moves by a pixel or more.
   */
  function CollisionBounds(size: Vec2, originOffset: Option<Vec2>): (r: Rectangle)
    ensures Encloses(r, VisualLeft(size, originOffset), VisualTop(size, originOffset), size)
    ensures VisualLeft(size, originOffset) < r.x as real + 1.0
    ensures VisualTop(size, originOffset) < r.y as real + 1.0
    ensures (r.x + r.width) as real < VisualLeft(size, originOffset) + size.x + 1.0
    ensures (r.y + r.height) as real < VisualTop(size, originOffset) + size.y + 1.0
  {
    var left := VisualLeft(size, originOffset);
    var top := VisualTop(size, originOffset);
    var intLeft := left.Floor;
    var intTop := top.Floor;
    var intRight := Ceiling(left + size.x);
    var intBottom := Ceiling(top + size.y);
    Rectangle(intLeft, intTop, intRight - intLeft, intBottom - intTop)
  }

  /** Among all whole-pixel rectangles that enclose the sprite, the bounds are the smallest. */
  lemma CollisionBoundsSmallest(size: Vec2, originOffset: Option<Vec2>, other: Rectangle)
    requires Encloses(other, VisualLeft(size, originOffset), VisualTop(size, originOffset), size)
    ensures var r := CollisionBounds(size, originOffset);
            other.x <= r.x && other.y <= r.y &&
            r.x + r.width <= other.x + other.width && r.y + r.height <= other.y + other.height
  {
  }

  // ----- ResolveLayerDepth -----

  const DefaultLayerDepth: real := 0.5

  /**
   * The collection hierarchy maps a collection to its parent. Blender collections form a tree; a
   * rank that drops from child to parent shows that the walk up from any collection ends.
   */
  ghost predicate Ranked(hierarchy: map<string, string>, rank: map<string, nat>) {
    forall c :: c in hierarchy ==>
      c in rank && (hierarchy[c] in hierarchy ==> hierarchy[c] in rank && rank[hierarchy[c]] < rank[c])
  }

  /** The k-th collection up from c (c itself for k = 0), if the hierarchy reaches that far. */
  function AncestorAt(hierarchy: map<string, string>, c: string, k: nat): Option<string>
    decreases k
  {
    if k == 0 then Some(c)
    else if c in hierarchy then AncestorAt(hierarchy, hierarchy[c], k - 1)
    else None
  }

  predicate NamesLayer(layerMap: DrawLayerMap, a: Option<string>) {
    a.Some? && layerMap.TryGetDepth(a.value).0
  }

  /** The inner while loop: from one collection up the hierarchy to the first layer name. */
  function WalkDepth(layerMap: DrawLayerMap, hierarchy: Option<map<string, string>>, ghost rank: map<string, nat>,
                     current: string): (r: Option<real>)
    requires hierarchy.Some? ==> Ranked(hierarchy.value, rank)
    decreases if hierarchy.Some? && current in hierarchy.value then rank[current] + 1 else 0
    ensures r.Some? ==> r.value in layerMap.layers.Values
  {
    var (found, depth) := layerMap.TryGetDepth(current);
    if found then Some(depth)
    else if hierarchy.None? || current !in hierarchy.value then None
    else WalkDepth(layerMap, hierarchy, rank, hierarchy.value[current])
  }

  /** Collection number k up from c names a layer of depth d, and none below it does. */
  predicate NearestLayerAt(layerMap: DrawLayerMap, hierarchy: map<string, string>, c: string, k: nat, d: real) {
    NamesLayer(layerMap, AncestorAt(hierarchy, c, k)) &&
    layerMap.TryGetDepth(AncestorAt(hierarchy, c, k).value).1 == d &&
    forall j :: 0 <= j < k ==> !NamesLayer(layerMap, AncestorAt(hierarchy, c, j))
  }

  /** The walk finds the nearest collection, counting the start, that names a layer; or nothing if none does. */
  lemma {:induction false} WalkDepthIsNearestLayer(layerMap: DrawLayerMap, hierarchy: map<string, string>,
                                                  rank: map<string, nat>, c: string)
    requires Ranked(hierarchy, rank)
    decreases if c in hierarchy then rank[c] + 1 else 0
    ensures WalkDepth(layerMap, Some(hierarchy), rank, c).None? ==>
              forall k: nat :: !NamesLayer(layerMap, AncestorAt(hierarchy, c, k))
    ensures (forall k: nat :: !NamesLayer(layerMap, AncestorAt(hierarchy, c, k))) ==>
              WalkDepth(layerMap, Some(hierarchy), rank, c).None?
    ensures WalkDepth(layerMap, Some(hierarchy), rank, c).Some? ==>
              exists k: nat :: NearestLayerAt(layerMap, hierarchy, c, k, WalkDepth(layerMap, Some(hierarchy), rank, c).value)
  {
    var r := WalkDepth(layerMap, Some(hierarchy), rank, c);
    if layerMap.TryGetDepth(c).0 {
      assert r == Some(layerMap.TryGetDepth(c).1);
      assert AncestorAt(hierarchy, c, 0) == Some(c);
      assert NearestLayerAt(layerMap, hierarchy, c, 0, r.value);
      assert !forall k: nat :: !NamesLayer(layerMap, AncestorAt(hierarchy, c, k)) by {
        assert NamesLayer(layerMap, AncestorAt(hierarchy, c, 0));
      }
    } else if c !in hierarchy {
      assert r.None?;
      forall k: nat ensures !NamesLayer(layerMap, AncestorAt(hierarchy, c, k)) {
        if k > 0 {
          assert AncestorAt(hierarchy, c, k) == None;
        }
      }
    } else {
      var p := hierarchy[c];
      var rp := WalkDepth(layerMap, Some(hierarchy), rank, p);
      WalkDepthIsNearestLayer(layerMap, hierarchy, rank, p);
      assert r == rp;
      assert forall k: nat :: k > 0 ==> AncestorAt(hierarchy, c, k) == AncestorAt(hierarchy, p, k - 1);
      if rp.None? {
        forall k: nat ensures !NamesLayer(layerMap, AncestorAt(hierarchy, c, k)) {
          if k > 0 {
            assert !NamesLayer(layerMap, AncestorAt(hierarchy, p, k - 1));
          }
        }
      } else {
        var k: nat :| NearestLayerAt(layerMap, hierarchy, p, k, rp.value);
        assert AncestorAt(hierarchy, c, k + 1) == AncestorAt(hierarchy, p, k);
        forall j | 0 <= j < k + 1 ensures !NamesLayer(layerMap, AncestorAt(hierarchy, c, j)) {
          if j > 0 {
            assert AncestorAt(hierarchy, c, j) == AncestorAt(hierarchy, p, j - 1);
          }
        }
        assert NearestLayerAt(layerMap, hierarchy, c, k + 1, r.value);
      }
    }
  }

  /** The foreach over the object's collections: the first collection whose walk finds a layer. */
  function CollectionsDepth(layerMap: DrawLayerMap, hierarchy: Option<map<string, string>>, ghost rank: map<string, nat>,
                            collections: seq<string>): (r: Option<real>)
    requires hierarchy.Some? ==> Ranked(hierarchy.value, rank)
    ensures r.None? <==> forall i :: 0 <= i < |collections| ==> WalkDepth(layerMap, hierarchy, rank, collections[i]).None?
    ensures r.Some? ==> exists i :: 0 <= i < |collections| && r == WalkDepth(layerMap, hierarchy, rank, collections[i])
  {
    if collections == [] then None
    else
      var d := WalkDepth(layerMap, hierarchy, rank, collections[0]);
      if d.Some? then d
      else
        var rest := CollectionsDepth(layerMap, hierarchy, rank, collections[1..]);
        assert forall i :: 0 < i < |collections| ==> collections[i] == collections[1..][i - 1];
        rest
  }

  /**
   * The "drawLayer" custom property as a layer name: none when there is no dictionary, no such key
   * or a null value; a JSON string as is; any other JSON value makes GetString throw.
   */
  function DrawLayerName(props: Properties): (r: Outcome<Option<string>>)
    ensures r == Returned(None) <==> props.None? || "drawLayer" !in props.value || props.value["drawLayer"] == JNull
    ensures r.Returned? && r.value.Some? <==> props.Some? && "drawLayer" in props.value && props.value["drawLayer"].JString?
  {
    if props.None? || "drawLayer" !in props.value then Returned(None)
    else
      match props.value["drawLayer"]
      case JNull => Returned(None)
      case JString(s) => Returned(Some(s))
      case _ => Thrown
  }

  /**
   * ResolveLayerDepth: 0.5 without a layer map; otherwise the layer named by the "drawLayer"
   * property, then the first collection whose walk up the hierarchy meets a layer name, then 0.5.
   */
  function LayerDepthOf(layerMap: DrawLayerMap?, obj: BlenderObject, hierarchy: Option<map<string, string>>,
                        ghost rank: map<string, nat>): (r: Outcome<real>)
    requires hierarchy.Some? ==> Ranked(hierarchy.value, rank)
    ensures layerMap == null ==> r == Returned(DefaultLayerDepth)
    ensures r.Thrown? <==> layerMap != null && DrawLayerName(obj.customProperties).Thrown?
    ensures r.Returned? ==> r.value == DefaultLayerDepth || (layerMap != null && r.value in layerMap.layers.Values)
  {
    if layerMap == null then Returned(DefaultLayerDepth)
    else
      match DrawLayerName(obj.customProperties)
      case Thrown => Thrown
      case Returned(name) =>
        if name.Some? && layerMap.TryGetDepth(name.value).0 then Returned(layerMap.TryGetDepth(name.value).1)
        else if obj.collections.Some? && CollectionsDepth(layerMap, hierarchy, rank, obj.collections.value).Some? then
          Returned(CollectionsDepth(layerMap, hierarchy, rank, obj.collections.value).value)
        else Returned(DefaultLayerDepth)
  }

  /** A known "drawLayer" name wins over the collections; an unknown one falls through to them. */
  lemma DrawLayerPropertyFirst(layerMap: DrawLayerMap, obj: BlenderObject, hierarchy: Option<map<string, string>>,
                               rank: map<string, nat>, name: string)
    requires hierarchy.Some? ==> Ranked(hierarchy.value, rank)
    requires obj.customProperties.Some? && "drawLayer" in obj.customProperties.value
    requires obj.customProperties.value["drawLayer"] == JString(name)
    ensures layerMap.TryGetDepth(name).0 ==> LayerDepthOf(layerMap, obj, hierarchy, rank) == layerMap.GetDepth(name)
    ensures !layerMap.TryGetDepth(name).0 ==>
              LayerDepthOf(layerMap, obj, hierarchy, rank) == LayerDepthOf(layerMap, obj.(customProperties := None), hierarchy, rank)
  {
  }

  /** With a map built from enum members, every resolved depth lies in [0, 1]. */
  lemma LayerDepthInUnitRange(layerMap: DrawLayerMap, names: seq<string>, obj: BlenderObject,
                              hierarchy: Option<map<string, string>>, rank: map<string, nat>)
    requires hierarchy.Some? ==> Ranked(hierarchy.value, rank)
    requires layerMap.layers == LayerDepths(names, |names|)
    ensures var r := LayerDepthOf(layerMap, obj, hierarchy, rank);
            r.Returned? ==> 0.0 <= r.value <= 1.0
  {
    var r := LayerDepthOf(layerMap, obj, hierarchy, rank);
    if r.Returned? && r.value != DefaultLayerDepth {
      var key :| key in layerMap.layers && layerMap.layers[key] == r.value;
      LayerDepthsValues(names, |names|, key);
    }
  }
}
