/**
 * The entity transform of MonoDreams/Component/Transform.cs: local position, rotation, scale and
 * origin, an optional parent transform, the previous frame's position, and a dirty flag that marks
 * the cached world matrix as stale.
 *
 * The parent chain is followed up to a depth bound `n`; ChainWithin(n) says the chain ends within
 * n steps, which is what makes the recursive world values well defined.
 */
module Transforms {
  import opened Wrappers
  import opened Vectors

  /** Every field of a transform, to state "this changed and nothing else" in one equation. */
  datatype Fields = Fields(
    position: Vec2, lastPosition: Vec2, rotation: real, scale: Vec2, origin: Vec2,
    parent: Option<Transform>, hasWorldMatrix: bool, isDirty: bool)

  class Transform {
    var position: Vec2
    var lastPosition: Vec2
    var rotation: real
    var scale: Vec2
    var origin: Vec2
    var parent: Transform?
    /** Whether a world matrix has been cached; the matrix itself is not modelled. */
    var hasWorldMatrix: bool
    var isDirty: bool

    function Snapshot(): Fields
      reads this
    {
      Fields(position, lastPosition, rotation, scale, origin,
             if parent == null then None else Some(parent), hasWorldMatrix, isDirty)
    }

    /** Missing scale and origin default to One and Zero; the new transform is dirty. */
    constructor(position: Vec2, rotation: real, scale: Option<Vec2>, origin: Option<Vec2>)
      ensures this.position == position && lastPosition == position && this.rotation == rotation
      ensures this.scale == (if scale.Some? then scale.value else One)
      ensures this.origin == (if origin.Some? then origin.value else Zero)
      ensures parent == null && !hasWorldMatrix && isDirty
      ensures !HasMoved()
    {
      this.position := position;
      lastPosition := position;
      this.rotation := rotation;
      this.scale := if scale.Some? then scale.value else One;
      this.origin := if origin.Some? then origin.value else Zero;
      parent := null;
      hasWorldMatrix := false;
      isDirty := true;
    }

    predicate HasMoved()
      reads this
    {
      position != lastPosition
    }

    function Delta(): (d: Vec2)
      reads this
      ensures d == Zero <==> !HasMoved()
    {
      position.Minus(lastPosition)
    }

    method SetPosition(value: Vec2)
      modifies this
      ensures Snapshot() == old(Snapshot()).(position := value, isDirty := true)
    {
      position := value;
      isDirty := true;
    }

    /** Setting LastPosition does not mark the transform dirty. */
    method SetLastPosition(value: Vec2)
      modifies this
      ensures Snapshot() == old(Snapshot()).(lastPosition := value)
    {
      lastPosition := value;
    }

    method SetRotation(value: real)
      modifies this
      ensures Snapshot() == old(Snapshot()).(rotation := value, isDirty := true)
    {
      rotation := value;
      isDirty := true;
    }

    method SetScale(value: Vec2)
      modifies this
      ensures Snapshot() == old(Snapshot()).(scale := value, isDirty := true)
    {
      scale := value;
      isDirty := true;
    }

    method SetOrigin(value: Vec2)
      modifies this
      ensures Snapshot() == old(Snapshot()).(origin := value, isDirty := true)
    {
      origin := value;
      isDirty := true;
    }

    method SetParent(value: Transform?)
      modifies this
      ensures Snapshot() == old(Snapshot()).(parent := if value == null then None else Some(value), isDirty := true)
    {
      parent := value;
      isDirty := true;
    }

    method SetDirty()
      modifies this
      ensures Snapshot() == old(Snapshot()).(isDirty := true)
    {
      isDirty := true;
    }

    /** CommitPosition: the end-of-frame bookkeeping; afterwards there is no movement to report. */
    method CommitPosition()
      modifies this
      ensures Snapshot() == old(Snapshot()).(lastPosition := old(position))
      ensures Delta() == Zero && !HasMoved()
    {
      lastPosition := position;
    }

    method SetPositionX(x: real) returns (r: Transform)
      modifies this
      ensures r == this
      ensures Snapshot() == old(Snapshot()).(position := Vec2(x, old(position.y)), isDirty := true)
    {
      position := Vec2(x, position.y);
      isDirty := true;
      r := this;
    }

    method SetPositionY(y: real) returns (r: Transform)
      modifies this
      ensures r == this
      ensures Snapshot() == old(Snapshot()).(position := Vec2(old(position.x), y), isDirty := true)
    {
      position := Vec2(position.x, y);
      isDirty := true;
      r := this;
    }

    /** Translate(delta): the movement since the last commit grows by exactly delta. */
    method Translate(delta: Vec2) returns (r: Transform)
      modifies this
      ensures r == this
      ensures Snapshot() == old(Snapshot()).(position := old(position).Plus(delta), isDirty := true)
      ensures Delta() == old(Delta()).Plus(delta)
    {
      position := position.Plus(delta);
      isDirty := true;
      r := this;
    }

    /** Translate(x, y) */
    method TranslateBy(x: real, y: real) returns (r: Transform)
      modifies this
      ensures r == this
      ensures Snapshot() == old(Snapshot()).(position := Vec2(old(position.x) + x, old(position.y) + y), isDirty := true)
    {
      position := Vec2(position.x + x, position.y + y);
      isDirty := true;
      r := this;
    }

    method TranslateX(delta: real) returns (r: Transform)
      modifies this
      ensures r == this
      ensures Snapshot() == old(Snapshot()).(position := Vec2(old(position.x) + delta, old(position.y)), isDirty := true)
    {
      position := Vec2(position.x + delta, position.y);
      isDirty := true;
      r := this;
    }

    method TranslateY(delta: real) returns (r: Transform)
      modifies this
      ensures r == this
      ensures Snapshot() == old(Snapshot()).(position := Vec2(old(position.x), old(position.y) + delta), isDirty := true)
    {
      position := Vec2(position.x, position.y + delta);
      isDirty := true;
      r := this;
    }

    method Rotate(radians: real) returns (r: Transform)
      modifies this
      ensures r == this
      ensures Snapshot() == old(Snapshot()).(rotation := old(rotation) + radians, isDirty := true)
    {
      rotation := rotation + radians;
      isDirty := true;
      r := this;
    }

    method SetScaleX(x: real) returns (r: Transform)
      modifies this
      ensures r == this
      ensures Snapshot() == old(Snapshot()).(scale := Vec2(x, old(scale.y)), isDirty := true)
    {
      scale := Vec2(x, scale.y);
      isDirty := true;
      r := this;
    }

    method SetScaleY(y: real) returns (r: Transform)
      modifies this
      ensures r == this
      ensures Snapshot() == old(Snapshot()).(scale := Vec2(old(scale.x), y), isDirty := true)
    {
      scale := Vec2(scale.x, y);
      isDirty := true;
      r := this;
    }

    /** SetScale(float uniform) */
    method SetUniformScale(uniform: real) returns (r: Transform)
      modifies this
      ensures r == this
      ensures Snapshot() == old(Snapshot()).(scale := Vec2(uniform, uniform), isDirty := true)
    {
      scale := Vec2(uniform, uniform);
      isDirty := true;
      r := this;
    }

    /** ScaleBy(Vector2 factor): componentwise product. */
    method ScaleBy(factor: Vec2) returns (r: Transform)
      modifies this
      ensures r == this
      ensures Snapshot() == old(Snapshot()).(scale := old(scale).Times(factor), isDirty := true)
    {
      scale := scale.Times(factor);
      isDirty := true;
      r := this;
    }

    /** ScaleBy(float factor) */
    method ScaleByFactor(factor: real) returns (r: Transform)
      modifies this
      ensures r == this
      ensures Snapshot() == old(Snapshot()).(scale := old(scale).Scaled(factor), isDirty := true)
    {
      scale := scale.Scaled(factor);
      isDirty := true;
      r := this;
    }

    method SetOriginX(x: real) returns (r: Transform)
      modifies this
      ensures r == this
      ensures Snapshot() == old(Snapshot()).(origin := Vec2(x, old(origin.y)), isDirty := true)
    {
      origin := Vec2(x, origin.y);
      isDirty := true;
      r := this;
    }

    method SetOriginY(y: real) returns (r: Transform)
      modifies this
      ensures r == this
      ensures Snapshot() == old(Snapshot()).(origin := Vec2(old(origin.x), y), isDirty := true)
    {
      origin := Vec2(origin.x, y);
      isDirty := true;
      r := this;
    }

    /** The parent chain ends within n steps. */
    predicate ChainWithin(n: nat)
      reads *
      decreases n
    {
      parent == null || (n > 0 && parent.ChainWithin(n - 1))
    }

    /** This transform and its ancestors, up to n of them. */
    function Ancestors(n: nat): set<Transform>
      reads *
      decreases n
    {
      if parent == null || n == 0 then {this} else {this} + parent.Ancestors(n - 1)
    }

    /** WorldRotation: the local rotation plus the parent's world rotation. */
    function WorldRotation(n: nat): real
      requires ChainWithin(n)
      reads *
      decreases n
    {
      if parent == null then rotation else rotation + parent.WorldRotation(n - 1)
    }

    /** WorldScale: the local scale times the parent's world scale, componentwise. */
    function WorldScale(n: nat): Vec2
      requires ChainWithin(n)
      reads *
      decreases n
    {
      if parent == null then scale else scale.Times(parent.WorldScale(n - 1))
    }

    /**
     * Reading WorldMatrix: when this transform or its parent is dirty, or nothing is cached, the
     * matrix is rebuilt, reading the parent's WorldMatrix first; afterwards this transform is clean
     * and has a cached matrix. Only the flags of the chain change.
     */
    method ReadWorldMatrix(n: nat)
      requires ChainWithin(n)
      modifies Ancestors(n)
      ensures !isDirty && hasWorldMatrix
      ensures old(isDirty || (parent != null && parent.isDirty) || !hasWorldMatrix) && parent != null ==>
        !parent.isDirty && parent.hasWorldMatrix
      ensures !old(isDirty || (parent != null && parent.isDirty) || !hasWorldMatrix) ==>
        forall t :: old(allocated(t)) && t in old(Ancestors(n)) ==> t.isDirty == old(t.isDirty) && t.hasWorldMatrix == old(t.hasWorldMatrix)
      ensures forall t :: old(allocated(t)) && t in old(Ancestors(n)) ==>
        t.position == old(t.position) && t.lastPosition == old(t.lastPosition) && t.rotation == old(t.rotation) &&
        t.scale == old(t.scale) && t.origin == old(t.origin) && t.parent == old(t.parent)
      decreases n
    {
      var parentDirty := parent != null && parent.isDirty;
      if isDirty || parentDirty || !hasWorldMatrix {
        if parent != null {
          parent.ReadWorldMatrix(n - 1);
        }
        hasWorldMatrix := true;
        isDirty := false;
      }
    }
  }

  /** The world values do not depend on the depth bound, as long as the chain ends within it. */
  lemma {:induction false} WorldValuesIgnoreBound(t: Transform, n: nat, m: nat)
    requires t.ChainWithin(n) && t.ChainWithin(m)
    ensures t.WorldRotation(n) == t.WorldRotation(m)
    ensures t.WorldScale(n) == t.WorldScale(m)
    decreases n
  {
    if t.parent != null {
      WorldValuesIgnoreBound(t.parent, n - 1, m - 1);
    }
  }

  /** A chain that ends within n steps also ends within any larger bound. */
  lemma {:induction false} ChainWithinMonotone(t: Transform, n: nat, m: nat)
    requires t.ChainWithin(n) && n <= m
    ensures t.ChainWithin(m)
    decreases n
  {
    if t.parent != null {
      ChainWithinMonotone(t.parent, n - 1, m - 1);
    }
  }

  /** With positive local scales all the way up, the world scale stays positive on both axes. */
  lemma {:induction false} WorldScalePositive(t: Transform, n: nat)
    requires t.ChainWithin(n)
    requires forall a :: a in t.Ancestors(n) ==> a.scale.x > 0.0 && a.scale.y > 0.0
    ensures t.WorldScale(n).x > 0.0 && t.WorldScale(n).y > 0.0
    decreases n
  {
    if t.parent != null {
      WorldScalePositive(t.parent, n - 1);
      var ps := t.parent.WorldScale(n - 1);
      PositiveTimes(t.scale.x, ps.x);
      PositiveTimes(t.scale.y, ps.y);
    }
  }

  lemma PositiveTimes(a: real, b: real)
    requires a > 0.0 && b > 0.0
    ensures a * b > 0.0
  {
  }

}
