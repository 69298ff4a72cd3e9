/**
 * The convex polygon collider of MonoDreams/Component/Collision/ConvexCollider.cs: local-space
 * model vertices, a world-space copy rewritten in place each frame from the entity transform, and
 * the broad-phase box of the world vertices.
 *
 * MathF.Cos and MathF.Sin are the parameters `cos` and `sin`.
 */
module ConvexColliders {
  import opened Wrappers
  import opened Vectors
  import opened CollisionRects
  import opened SatCollision
  import opened Transforms

  /** The layer set a collider gets when none is given: the single layer -1. */
  const DefaultActiveLayers: set<int> := {-1}

  /** Scale, then rotate by the angle whose cosine and sine are c and s, then translate. */
  function ToWorld(v: Vec2, scale: Vec2, c: real, s: real, position: Vec2): Vec2 {
    var sx, sy := v.x * scale.x, v.y * scale.y;
    Vec2(sx * c - sy * s + position.x, sx * s + sy * c + position.y)
  }

  class ConvexCollider {
    const modelVertices: array<Vec2>
    const worldVertices: array<Vec2>
    var broadPhaseAABB: CollisionRect
    var ignoreTransformRotation: bool
    var activeLayers: set<int>
    var passive: bool
    var enabled: bool

    /** The world array is the collider's own, as long as the model array. */
    predicate Valid()
      reads this
    {
      modelVertices != worldVertices && modelVertices.Length == worldVertices.Length &&
      modelVertices.Length >= 3
    }

    /**
     * The constructor past its argument check: the world vertices start as a copy of the model
     * vertices, the broad-phase box is theirs, and a missing layer set becomes {-1}.
     */
    constructor(modelVertices: array<Vec2>, activeLayers: Option<set<int>>, passive: bool, enabled: bool,
                ignoreTransformRotation: bool)
      requires modelVertices.Length >= 3
      ensures Valid() && fresh(worldVertices)
      ensures this.modelVertices == modelVertices && worldVertices[..] == modelVertices[..]
      ensures broadPhaseAABB == AabbOf(modelVertices[..])
      ensures this.activeLayers == (if activeLayers.Some? then activeLayers.value else DefaultActiveLayers)
      ensures this.passive == passive && this.enabled == enabled
      ensures this.ignoreTransformRotation == ignoreTransformRotation
    {
      this.modelVertices := modelVertices;
      var world := new Vec2[modelVertices.Length];
      forall i | 0 <= i < modelVertices.Length {
        world[i] := modelVertices[i];
      }
      worldVertices := world;
      new;
      broadPhaseAABB := ComputeAABB(worldVertices[..]);
      this.activeLayers := if activeLayers.Some? then activeLayers.value else DefaultActiveLayers;
      this.passive := passive;
      this.enabled := enabled;
      this.ignoreTransformRotation := ignoreTransformRotation;
    }

    /**
     * UpdateWorldVertices: every world vertex is its model vertex scaled, rotated (by 0 when the
     * transform's rotation is ignored) and moved to the transform's position; then the broad-phase
     * box is recomputed. The model vertices are not touched.
     */
    method UpdateWorldVertices(transform: Transform, cos: real -> real, sin: real -> real)
      requires Valid()
      modifies this`broadPhaseAABB, worldVertices
      ensures Valid()
      ensures var rot := if ignoreTransformRotation then 0.0 else transform.rotation;
              forall i :: 0 <= i < worldVertices.Length ==>
                worldVertices[i] == ToWorld(modelVertices[i], transform.scale, cos(rot), sin(rot), transform.position)
      ensures broadPhaseAABB == AabbOf(worldVertices[..])
      ensures modelVertices[..] == old(modelVertices[..])
      ensures ignoreTransformRotation && cos(0.0) == 1.0 && sin(0.0) == 0.0 ==>
                forall i :: 0 <= i < worldVertices.Length ==>
                  worldVertices[i] == modelVertices[i].Times(transform.scale).Plus(transform.position)
    {
      var pos := transform.position;
      var rot := if ignoreTransformRotation then 0.0 else transform.rotation;
      var scale := transform.scale;
      var c, s := cos(rot), sin(rot);
      for i := 0 to modelVertices.Length
        invariant modelVertices[..] == old(modelVertices[..])
        invariant forall j :: 0 <= j < i ==> worldVertices[j] == ToWorld(modelVertices[j], scale, c, s, pos)
      {
        var v := modelVertices[i];
        var sx := v.x * scale.x;
        var sy := v.y * scale.y;
        worldVertices[i] := Vec2(sx * c - sy * s + pos.x, sx * s + sy * c + pos.y);
      }
      broadPhaseAABB := ComputeAABB(worldVertices[..]);
      if ignoreTransformRotation && c == 1.0 && s == 0.0 {
        forall i | 0 <= i < worldVertices.Length
          ensures worldVertices[i] == modelVertices[i].Times(scale).Plus(pos)
        {
          UnrotatedToWorld(modelVertices[i], scale, pos);
        }
      }
    }
  }

  /**
   * `new ConvexCollider(...)`: throws ArgumentException when the vertex array is null or has
   * fewer than three vertices.
   */
  method NewConvexCollider(modelVertices: array?<Vec2>, activeLayers: Option<set<int>>, passive: bool,
                           enabled: bool, ignoreTransformRotation: bool)
    returns (r: Outcome<ConvexCollider>)
    ensures r.Thrown? <==> modelVertices == null || modelVertices.Length < 3
    ensures r.Returned? ==> (fresh(r.value) && r.value.Valid() && r.value.modelVertices == modelVertices &&
      r.value.worldVertices[..] == modelVertices[..] && r.value.broadPhaseAABB == AabbOf(modelVertices[..]))
  {
    if modelVertices == null || modelVertices.Length < 3 {
      return Thrown;
    }
    var collider := new ConvexCollider(modelVertices, activeLayers, passive, enabled, ignoreTransformRotation);
    r := Returned(collider);
  }

  /** With the rotation ignored (cos 0 = 1, sin 0 = 0), a world vertex is the scaled model vertex plus the position. */
  lemma UnrotatedToWorld(v: Vec2, scale: Vec2, position: Vec2)
    ensures ToWorld(v, scale, 1.0, 0.0, position) == v.Times(scale).Plus(position)
  {
  }

  /** With unit scale and no rotation, world vertices are the model polygon moved by the position. */
  lemma IdentityToWorld(model: seq<Vec2>, world: seq<Vec2>, position: Vec2)
    requires |world| == |model|
    requires forall i :: 0 <= i < |model| ==> world[i] == ToWorld(model[i], One, 1.0, 0.0, position)
    ensures world == Translated(model, position)
  {
    forall i | 0 <= i < |model| ensures world[i] == Translated(model, position)[i] {
      UnrotatedToWorld(model[i], One, position);
      assert model[i].Times(One) == model[i];
    }
  }
}
