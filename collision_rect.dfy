/**
 * The float-precision axis-aligned box of MonoDreams/Extensions/Monogame/CollisionRect.cs: a
 * position (top-left corner) and a size, with edges derived from them.
 */
module CollisionRects {
  import opened Vectors

  datatype CollisionRect = CollisionRect(position: Vec2, size: Vec2) {
    function Left(): real { position.x }
    function Top(): real { position.y }
    function Right(): real { position.x + size.x }
    function Bottom(): real { position.y + size.y }
    function Width(): real { size.x }
    function Height(): real { size.y }

    /** Position + Size / 2 */
    function Center(): (c: Vec2)
      ensures c.x - Left() == Right() - c.x
      ensures c.y - Top() == Bottom() - c.y
    {
      position.Plus(size.Scaled(0.5))
    }

    /** Strict overlap on both axes: boxes that only share an edge do not intersect. */
    predicate Intersects(other: CollisionRect) {
      Left() < other.Right() && Right() > other.Left() &&
      Top() < other.Bottom() && Bottom() > other.Top()
    }

    /** A point strictly inside the box. */
    predicate HasInside(p: Vec2) {
      Left() < p.x < Right() && Top() < p.y < Bottom()
    }

    predicate HasPositiveSize() {
      size.x > 0.0 && size.y > 0.0
    }
  }

  /** FromBounds: the integer rectangle moved by a float entity position, its size unchanged. */
  function FromBounds(bounds: Rectangle, entityPosition: Vec2): (r: CollisionRect)
    ensures r.Left() == bounds.x as real + entityPosition.x
    ensures r.Top() == bounds.y as real + entityPosition.y
    ensures r.Width() == bounds.width as real && r.Height() == bounds.height as real
    ensures r.Right() == (bounds.x + bounds.width) as real + entityPosition.x
    ensures r.Bottom() == (bounds.y + bounds.height) as real + entityPosition.y
  {
    CollisionRect(Vec2(bounds.x as real, bounds.y as real).Plus(entityPosition),
                  Vec2(bounds.width as real, bounds.height as real))
  }

  lemma IntersectsSymmetric(a: CollisionRect, b: CollisionRect)
    ensures a.Intersects(b) <==> b.Intersects(a)
  {
  }

  /** Boxes that meet along a vertical or horizontal edge are not intersecting. */
  lemma TouchingDoNotIntersect(a: CollisionRect, b: CollisionRect)
    requires a.Right() == b.Left() || a.Bottom() == b.Top()
    ensures !a.Intersects(b)
  {
  }

  /**
   * For boxes of positive size, Intersects is exactly "some point lies strictly inside both":
   * the overlap of the two boxes has a non-empty interior.
   */
  lemma IntersectsIffSharedInterior(a: CollisionRect, b: CollisionRect)
    requires a.HasPositiveSize() && b.HasPositiveSize()
    ensures a.Intersects(b) <==> exists p :: a.HasInside(p) && b.HasInside(p)
  {
    if a.Intersects(b) {
      var lo := Vec2(if a.Left() < b.Left() then b.Left() else a.Left(),
                     if a.Top() < b.Top() then b.Top() else a.Top());
      var hi := Vec2(if a.Right() < b.Right() then a.Right() else b.Right(),
                     if a.Bottom() < b.Bottom() then a.Bottom() else b.Bottom());
      var p := Vec2((lo.x + hi.x) / 2.0, (lo.y + hi.y) / 2.0);
      assert a.HasInside(p) && b.HasInside(p);
    }
    if exists p :: a.HasInside(p) && b.HasInside(p) {
      var p :| a.HasInside(p) && b.HasInside(p);
      assert a.Left() < p.x < b.Right() && b.Left() < p.x < a.Right();
    }
  }

  /** The centre of a box of positive size lies inside it. */
  lemma CenterInside(r: CollisionRect)
    requires r.HasPositiveSize()
    ensures r.HasInside(r.Center())
  {
  }

  /**
   * Moving both bounds by the same entity position does not change whether they intersect, so
   * FromBounds only translates.
   */
  lemma FromBoundsTranslationInvariant(b: Rectangle, c: Rectangle, p: Vec2)
    ensures FromBounds(b, p).Intersects(FromBounds(c, p)) <==> FromBounds(b, Zero).Intersects(FromBounds(c, Zero))
  {
  }
}
