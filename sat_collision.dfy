/**
 * The separating-axis test of MonoDreams/Extensions/Monogame/SATCollision.cs for convex polygons,
 * with its helpers: projection onto an axis, vertex centroid, box-to-polygon conversion and the
 * broad-phase bounding box. Polygons are the read-only spans of the source as sequences.
 *
 * Normalising an axis (`axis / MathF.Sqrt(lengthSq)`) is the parameter `unit`.
 */
module SatCollision {
  import opened Wrappers
  import opened Vectors
  import opened FloatBounds
  import opened CollisionRects

  /** The dot product of every vertex with the axis. */
  function Projections(polygon: seq<Vec2>, axis: Vec2): (ps: seq<real>)
    ensures |ps| == |polygon|
    ensures forall i :: 0 <= i < |polygon| ==> ps[i] == Dot(polygon[i], axis)
  {
    seq(|polygon|, i requires 0 <= i < |polygon| => Dot(polygon[i], axis))
  }

  /** The low and high ends of the polygon's shadow on the axis, as ProjectPolygon computes them. */
  function MinProjection(polygon: seq<Vec2>, axis: Vec2): real {
    MinFrom(FloatMax, Projections(polygon, axis))
  }

  function MaxProjection(polygon: seq<Vec2>, axis: Vec2): real {
    MaxFrom(-FloatMax, Projections(polygon, axis))
  }

  /** ProjectPolygon: the least and greatest projection, starting from the float sentinels. */
  method ProjectPolygon(polygon: seq<Vec2>, axis: Vec2) returns (min: real, max: real)
    ensures min == MinProjection(polygon, axis) && max == MaxProjection(polygon, axis)
    ensures forall i :: 0 <= i < |polygon| ==> min <= Dot(polygon[i], axis) <= max
    ensures |polygon| > 0 ==> min <= max
  {
    ghost var ps := Projections(polygon, axis);
    min := FloatMax;
    max := -FloatMax;
    for i := 0 to |polygon|
      invariant min == MinFrom(FloatMax, ps[..i])
      invariant max == MaxFrom(-FloatMax, ps[..i])
    {
      var projection := Dot(polygon[i], axis);
      assert ps[..i + 1][..i] == ps[..i];
      if projection < min {
        min := projection;
      }
      if projection > max {
        max := projection;
      }
    }
    assert ps[..|polygon|] == ps;
    if |polygon| > 0 {
      assert min <= ps[0] <= max;
    }
  }

  /**
   * PolygonCenter: the sum of the vertices divided by their number. An empty polygon divides
   * zero by zero, a NaN vector, which is None here.
   */
  method PolygonCenter(polygon: seq<Vec2>) returns (center: Option<Vec2>)
    ensures center.Some? <==> |polygon| > 0
    ensures center.Some? ==> center.value == Mean(polygon)
  {
    var sum := Zero;
    for i := 0 to |polygon|
      invariant sum == Sum(polygon[..i])
    {
      assert polygon[..i + 1][..i] == polygon[..i];
      sum := sum.Plus(polygon[i]);
    }
    assert polygon[..|polygon|] == polygon;
    if |polygon| == 0 {
      return None;
    }
    center := Some(Vec2(sum.x / |polygon| as real, sum.y / |polygon| as real));
  }

  /** The arithmetic mean of the vertices. */
  function Mean(polygon: seq<Vec2>): Vec2
    requires |polygon| > 0
  {
    var s := Sum(polygon);
    Vec2(s.x / |polygon| as real, s.y / |polygon| as real)
  }

  /** Every vertex moved by d. */
  function Translated(polygon: seq<Vec2>, d: Vec2): (r: seq<Vec2>)
    ensures |r| == |polygon|
    ensures forall i :: 0 <= i < |polygon| ==> r[i] == polygon[i].Plus(d)
  {
    seq(|polygon|, i requires 0 <= i < |polygon| => polygon[i].Plus(d))
  }

  lemma {:induction false} SumTranslated(polygon: seq<Vec2>, d: Vec2)
    ensures Sum(Translated(polygon, d)) == Sum(polygon).Plus(d.Scaled(|polygon| as real))
  {
    if polygon != [] {
      var n := |polygon|;
      var prefix, t := polygon[..n - 1], Translated(polygon, d);
      assert t[..n - 1] == Translated(prefix, d);
      SumTranslated(prefix, d);
      assert Sum(t) == Sum(prefix).Plus(d.Scaled((n - 1) as real)).Plus(polygon[n - 1].Plus(d));
      ScaledStep(d, (n - 1) as real);
    } else {
      assert Sum(polygon) == Zero;
    }
  }

  lemma ScaledStep(d: Vec2, k: real)
    ensures d.Scaled(k).Plus(d) == d.Scaled(k + 1.0)
  {
  }

  lemma DivideShift(a: real, k: real, n: real)
    requires n > 0.0
    ensures (a + k * n) / n == a / n + k
  {
    var q := a / n;
    assert a == q * n;
    assert a + k * n == (q + k) * n;
  }

  /** Moving a polygon moves its centre by the same amount. */
  lemma MeanTranslated(polygon: seq<Vec2>, d: Vec2)
    requires |polygon| > 0
    ensures Mean(Translated(polygon, d)) == Mean(polygon).Plus(d)
  {
    var n := |polygon| as real;
    SumTranslated(polygon, d);
    var s := Sum(polygon);
    DivideShift(s.x, d.x, n);
    DivideShift(s.y, d.y, n);
  }

  /**
   * BoxToPolygon: the box's bounds moved by the entity position, written clockwise from the
   * top-left corner into the first four slots of `output`.
   */
  method BoxToPolygon(bounds: Rectangle, position: Vec2, output: array<Vec2>)
    requires output.Length >= 4
    modifies output
    ensures output[..4] == BoxCorners(bounds, position)
    ensures output[4..] == old(output[4..])
  {
    var left, top := bounds.x as real, bounds.y as real;
    var right, bottom := (bounds.x + bounds.width) as real, (bounds.y + bounds.height) as real;
    output[0] := Vec2(position.x + left, position.y + top);
    output[1] := Vec2(position.x + right, position.y + top);
    output[2] := Vec2(position.x + right, position.y + bottom);
    output[3] := Vec2(position.x + left, position.y + bottom);
  }

  /** Top-left, top-right, bottom-right and bottom-left corners of the moved box. */
  function BoxCorners(bounds: Rectangle, position: Vec2): (corners: seq<Vec2>)
    ensures |corners| == 4
  {
    var box := FromBounds(bounds, position);
    [Vec2(box.Left(), box.Top()), Vec2(box.Right(), box.Top()),
     Vec2(box.Right(), box.Bottom()), Vec2(box.Left(), box.Bottom())]
  }

  /** The box from the least to the greatest coordinate on each axis, from the float sentinels. */
  function AabbOf(vertices: seq<Vec2>): CollisionRect {
    var minX, minY := MinFrom(FloatMax, Xs(vertices)), MinFrom(FloatMax, Ys(vertices));
    var maxX, maxY := MaxFrom(-FloatMax, Xs(vertices)), MaxFrom(-FloatMax, Ys(vertices));
    CollisionRect(Vec2(minX, minY), Vec2(maxX - minX, maxY - minY))
  }

  /** ComputeAABB: one pass keeping the four extremes. */
  method ComputeAABB(vertices: seq<Vec2>) returns (box: CollisionRect)
    ensures box == AabbOf(vertices)
  {
    ghost var xs, ys := Xs(vertices), Ys(vertices);
    var minX, minY := FloatMax, FloatMax;
    var maxX, maxY := -FloatMax, -FloatMax;
    for i := 0 to |vertices|
      invariant minX == MinFrom(FloatMax, xs[..i]) && minY == MinFrom(FloatMax, ys[..i])
      invariant maxX == MaxFrom(-FloatMax, xs[..i]) && maxY == MaxFrom(-FloatMax, ys[..i])
    {
      assert xs[..i + 1][..i] == xs[..i] && ys[..i + 1][..i] == ys[..i];
      if vertices[i].x < minX { minX := vertices[i].x; }
      if vertices[i].y < minY { minY := vertices[i].y; }
      if vertices[i].x > maxX { maxX := vertices[i].x; }
      if vertices[i].y > maxY { maxY := vertices[i].y; }
    }
    assert xs[..|vertices|] == xs && ys[..|vertices|] == ys;
    box := CollisionRect(Vec2(minX, minY), Vec2(maxX - minX, maxY - minY));
  }

  /** The bounding box contains every vertex, edges included. */
  lemma AabbContains(vertices: seq<Vec2>, i: int)
    requires 0 <= i < |vertices|
    ensures var box := AabbOf(vertices);
            box.Left() <= vertices[i].x <= box.Right() && box.Top() <= vertices[i].y <= box.Bottom()
  {
    assert Xs(vertices)[i] == vertices[i].x && Ys(vertices)[i] == vertices[i].y;
  }

  /** For float-valued vertices the box is tight: a vertex lies on each of its four edges. */
  lemma AabbTight(vertices: seq<Vec2>)
    requires |vertices| > 0
    requires forall i :: 0 <= i < |vertices| ==> InFloatRange(vertices[i].x) && InFloatRange(vertices[i].y)
    ensures var box := AabbOf(vertices);
            (exists i :: 0 <= i < |vertices| && vertices[i].x == box.Left()) &&
            (exists i :: 0 <= i < |vertices| && vertices[i].x == box.Right()) &&
            (exists i :: 0 <= i < |vertices| && vertices[i].y == box.Top()) &&
            (exists i :: 0 <= i < |vertices| && vertices[i].y == box.Bottom()) &&
            box.Width() >= 0.0 && box.Height() >= 0.0
  {
    MinMaxAttained(Xs(vertices));
    MinMaxAttained(Ys(vertices));
  }

  /** The polygon BoxToPolygon writes has the box itself as its bounding box. */
  lemma BoxPolygonAabb(bounds: Rectangle, position: Vec2)
    requires bounds.width >= 0 && bounds.height >= 0
    requires var box := FromBounds(bounds, position);
             InFloatRange(box.Left()) && InFloatRange(box.Right()) &&
             InFloatRange(box.Top()) && InFloatRange(box.Bottom())
    ensures AabbOf(BoxCorners(bounds, position)) == FromBounds(bounds, position)
  {
    var box := FromBounds(bounds, position);
    var corners := BoxCorners(bounds, position);
    var l, r, t, b := box.Left(), box.Right(), box.Top(), box.Bottom();
    assert Xs(corners) == [l, r, r, l] && Ys(corners) == [t, t, b, b];
    ExtremesOfFour([l, r, r, l], l, r);
    ExtremesOfFour([t, t, b, b], t, b);
  }

  /** Four float values between lo and hi that include both: the min/max loops find lo and hi. */
  lemma ExtremesOfFour(xs: seq<real>, lo: real, hi: real)
    requires |xs| == 4 && InFloatRange(lo) && InFloatRange(hi)
    requires forall i :: 0 <= i < 4 ==> lo <= xs[i] <= hi
    requires (xs[0] == lo || xs[1] == lo) && (xs[1] == hi || xs[2] == hi)
    ensures MinFrom(FloatMax, xs) == lo && MaxFrom(-FloatMax, xs) == hi
  {
    var m, M := MinFrom(FloatMax, xs), MaxFrom(-FloatMax, xs);
    assert m <= lo && M >= hi;
  }

  /** Squared axis lengths below this are degenerate edges (`1e-12f`). */
  const DegenerateLengthSquared: real := 0.000000000001

  /** The perpendicular (-edge.Y, edge.X) of the edge from vertex i to the next one, wrapping round. */
  function EdgeNormal(polygon: seq<Vec2>, i: int): Vec2
    requires 0 <= i < |polygon|
  {
    var edge := polygon[(i + 1) % |polygon|].Minus(polygon[i]);
    Vec2(-edge.y, edge.x)
  }

  predicate Degenerate(axis: Vec2) {
    Dot(axis, axis) < DegenerateLengthSquared
  }

  /** The shadows of the two polygons on the axis do not overlap (touching counts as apart). */
  predicate Separates(polyA: seq<Vec2>, polyB: seq<Vec2>, axis: Vec2) {
    MinProjection(polyA, axis) >= MaxProjection(polyB, axis) ||
    MinProjection(polyB, axis) >= MaxProjection(polyA, axis)
  }

  /** How far the two shadows overlap on the axis. */
  function Overlap(polyA: seq<Vec2>, polyB: seq<Vec2>, axis: Vec2): real {
    var a := MaxProjection(polyA, axis) - MinProjection(polyB, axis);
    var b := MaxProjection(polyB, axis) - MinProjection(polyA, axis);
    if a <= b then a else b
  }

  /** The edge i of `source` gives a tested axis (it is not degenerate) that separates A and B. */
  predicate SeparatingEdge(source: seq<Vec2>, i: int, polyA: seq<Vec2>, polyB: seq<Vec2>, unit: Vec2 -> Vec2)
    requires 0 <= i < |source|
  {
    !Degenerate(EdgeNormal(source, i)) && Separates(polyA, polyB, unit(EdgeNormal(source, i)))
  }

  /** Projects both polygons onto one axis: whether it separates them, and by how much they overlap. */
  method TestAxis(polyA: seq<Vec2>, polyB: seq<Vec2>, axis: Vec2) returns (separates: bool, overlap: real)
    ensures separates <==> Separates(polyA, polyB, axis)
    ensures overlap == Overlap(polyA, polyB, axis)
  {
    var minA, maxA := ProjectPolygon(polyA, axis);
    var minB, maxB := ProjectPolygon(polyB, axis);
    separates := minA >= maxB || minB >= maxA;
    overlap := if maxA - minB <= maxB - minA then maxA - minB else maxB - minA;
  }

  /**
   * One of the two axis loops of PolygonVsPolygon: tests the normal of every edge of `source`,
   * stopping at the first separating one; otherwise keeps the axis of least overlap, replacing the
   * incoming (depth, normal) only on a strictly smaller overlap.
   */
  method TestEdgeAxes(source: seq<Vec2>, polyA: seq<Vec2>, polyB: seq<Vec2>, unit: Vec2 -> Vec2,
                      depth0: real, normal0: Vec2)
    returns (separated: bool, depth: real, normal: Vec2)
    ensures separated <==> exists i :: 0 <= i < |source| && SeparatingEdge(source, i, polyA, polyB, unit)
    ensures !separated ==> depth <= depth0
    ensures !separated ==> forall i :: 0 <= i < |source| && !Degenerate(EdgeNormal(source, i)) ==>
      depth <= Overlap(polyA, polyB, unit(EdgeNormal(source, i)))
    ensures !separated ==> ((depth == depth0 && normal == normal0) ||
      exists i :: 0 <= i < |source| && !Degenerate(EdgeNormal(source, i)) &&
        normal == unit(EdgeNormal(source, i)) && depth == Overlap(polyA, polyB, normal))
  {
    depth, normal := depth0, normal0;
    ghost var chosen: int := -1;
    for i := 0 to |source|
      invariant forall j :: 0 <= j < i ==> !SeparatingEdge(source, j, polyA, polyB, unit)
      invariant depth <= depth0
      invariant forall j :: 0 <= j < i && !Degenerate(EdgeNormal(source, j)) ==>
        depth <= Overlap(polyA, polyB, unit(EdgeNormal(source, j)))
      invariant -1 <= chosen < i
      invariant chosen == -1 ==> depth == depth0 && normal == normal0
      invariant chosen >= 0 ==> (!Degenerate(EdgeNormal(source, chosen)) &&
        normal == unit(EdgeNormal(source, chosen)) && depth == Overlap(polyA, polyB, normal))
    {
      var next := (i + 1) % |source|;
      var edge := source[next].Minus(source[i]);
      var axis := Vec2(-edge.y, edge.x);
      assert axis == EdgeNormal(source, i);
      var lengthSq := Dot(axis, axis);
      if lengthSq < DegenerateLengthSquared {
        continue;
      }
      axis := unit(axis);
      var separates, overlap := TestAxis(polyA, polyB, axis);
      if separates {
        assert SeparatingEdge(source, i, polyA, polyB, unit);
        return true, 0.0, normal;
      }
      if overlap < depth {
        depth := overlap;
        normal := axis;
        chosen := i;
      }
    }
    separated := false;
  }

  /**
   * The edge i of `source` is a tested axis whose overlap is `depth`, and `normal` is that axis
   * up to its sign.
   */
  predicate AttainedOn(source: seq<Vec2>, i: int, polyA: seq<Vec2>, polyB: seq<Vec2>, unit: Vec2 -> Vec2, depth: real, normal: Vec2)
    requires 0 <= i < |source|
  {
    !Degenerate(EdgeNormal(source, i)) && depth == Overlap(polyA, polyB, unit(EdgeNormal(source, i))) &&
    (normal == unit(EdgeNormal(source, i)) || normal == unit(EdgeNormal(source, i)).Negated())
  }

  /**
   * The (depth, normal) of a hit come from one tested edge of A or of B, or are the starting
   * (float.MaxValue, zero) when every edge was degenerate.
   */
  predicate FromTestedAxis(polyA: seq<Vec2>, polyB: seq<Vec2>, unit: Vec2 -> Vec2, depth: real, normal: Vec2) {
    (depth == FloatMax && normal == Zero) ||
    (exists i :: 0 <= i < |polyA| && AttainedOn(polyA, i, polyA, polyB, unit, depth, normal)) ||
    (exists i :: 0 <= i < |polyB| && AttainedOn(polyB, i, polyA, polyB, unit, depth, normal))
  }

  /** Turning a normal round keeps it on the same tested axis. */
  lemma FlipKeepsAxis(polyA: seq<Vec2>, polyB: seq<Vec2>, unit: Vec2 -> Vec2, depth: real, normal: Vec2)
    requires FromTestedAxis(polyA, polyB, unit, depth, normal) && normal != Zero
    ensures FromTestedAxis(polyA, polyB, unit, depth, normal.Negated())
  {
    if i :| 0 <= i < |polyA| && AttainedOn(polyA, i, polyA, polyB, unit, depth, normal) {
      AttainedFlip(polyA, i, polyA, polyB, unit, depth, normal);
    } else {
      var i :| 0 <= i < |polyB| && AttainedOn(polyB, i, polyA, polyB, unit, depth, normal);
      AttainedFlip(polyB, i, polyA, polyB, unit, depth, normal);
    }
  }

  lemma AttainedFlip(source: seq<Vec2>, i: int, polyA: seq<Vec2>, polyB: seq<Vec2>, unit: Vec2 -> Vec2, depth: real, normal: Vec2)
    requires 0 <= i < |source| && AttainedOn(source, i, polyA, polyB, unit, depth, normal)
    ensures AttainedOn(source, i, polyA, polyB, unit, depth, normal.Negated())
  {
    var u := unit(EdgeNormal(source, i));
    assert normal == u || normal == u.Negated();
    assert normal.Negated() == u.Negated() || normal.Negated() == u;
  }

  /**
   * PolygonVsPolygon: false with depth 0 as soon as an edge normal of A or of B separates the
   * polygons; otherwise true, with the least overlap among the tested axes as depth and its axis
   * as normal, turned to point from A's centre towards B's.
   */
  method PolygonVsPolygon(polyA: seq<Vec2>, polyB: seq<Vec2>, unit: Vec2 -> Vec2)
    returns (hit: bool, normal: Vec2, depth: real)
    ensures !hit <==>
      (exists i :: 0 <= i < |polyA| && SeparatingEdge(polyA, i, polyA, polyB, unit)) ||
      (exists i :: 0 <= i < |polyB| && SeparatingEdge(polyB, i, polyA, polyB, unit))
    ensures !hit ==> depth == 0.0
    ensures hit ==> depth <= FloatMax
    ensures hit ==> forall i :: 0 <= i < |polyA| && !Degenerate(EdgeNormal(polyA, i)) ==>
      depth <= Overlap(polyA, polyB, unit(EdgeNormal(polyA, i)))
    ensures hit ==> forall i :: 0 <= i < |polyB| && !Degenerate(EdgeNormal(polyB, i)) ==>
      depth <= Overlap(polyA, polyB, unit(EdgeNormal(polyB, i)))
    ensures hit ==> FromTestedAxis(polyA, polyB, unit, depth, normal)
    ensures hit && |polyA| > 0 && |polyB| > 0 ==> Dot(Mean(polyB).Minus(Mean(polyA)), normal) >= 0.0
  {
    var separated;
    separated, depth, normal := TestEdgeAxes(polyA, polyA, polyB, unit, FloatMax, Zero);
    if separated {
      return false, normal, 0.0;
    }
    StartsTestedAxis(polyA, polyB, unit, depth, normal);
    ghost var depthA, normalA := depth, normal;
    separated, depth, normal := TestEdgeAxes(polyB, polyA, polyB, unit, depth, normal);
    if separated {
      return false, normal, 0.0;
    }
    KeepsTestedAxis(polyA, polyB, unit, depthA, normalA, depth, normal);
    var centerA := PolygonCenter(polyA);
    var centerB := PolygonCenter(polyB);
    if centerA.Some? && centerB.Some? {
      var direction := centerB.value.Minus(centerA.value);
      if Dot(direction, normal) < 0.0 {
        FlipTurnsTowards(direction, normal);
        FlipKeepsAxis(polyA, polyB, unit, depth, normal);
        normal := normal.Negated();
      }
    }
    hit := true;
  }

  /** The first axis loop either keeps the (float.MaxValue, zero) start or picks an edge of A. */
  lemma StartsTestedAxis(polyA: seq<Vec2>, polyB: seq<Vec2>, unit: Vec2 -> Vec2, depth: real, normal: Vec2)
    requires (depth == FloatMax && normal == Zero) ||
      exists i :: 0 <= i < |polyA| && !Degenerate(EdgeNormal(polyA, i)) &&
        normal == unit(EdgeNormal(polyA, i)) && depth == Overlap(polyA, polyB, normal)
    ensures FromTestedAxis(polyA, polyB, unit, depth, normal)
  {
    if depth != FloatMax || normal != Zero {
      var i :| 0 <= i < |polyA| && !Degenerate(EdgeNormal(polyA, i)) &&
               normal == unit(EdgeNormal(polyA, i)) && depth == Overlap(polyA, polyB, normal);
      assert AttainedOn(polyA, i, polyA, polyB, unit, depth, normal);
    }
  }

  /** The second axis loop either keeps the first loop's result or replaces it by an edge of B. */
  lemma KeepsTestedAxis(polyA: seq<Vec2>, polyB: seq<Vec2>, unit: Vec2 -> Vec2, depth0: real, normal0: Vec2,
                        depth: real, normal: Vec2)
    requires FromTestedAxis(polyA, polyB, unit, depth0, normal0)
    requires (depth == depth0 && normal == normal0) ||
      exists i :: 0 <= i < |polyB| && !Degenerate(EdgeNormal(polyB, i)) &&
        normal == unit(EdgeNormal(polyB, i)) && depth == Overlap(polyA, polyB, normal)
    ensures FromTestedAxis(polyA, polyB, unit, depth, normal)
  {
    if depth != depth0 || normal != normal0 {
      var i :| 0 <= i < |polyB| && !Degenerate(EdgeNormal(polyB, i)) &&
               normal == unit(EdgeNormal(polyB, i)) && depth == Overlap(polyA, polyB, normal);
      assert AttainedOn(polyB, i, polyA, polyB, unit, depth, normal);
    }
  }

  lemma FlipTurnsTowards(direction: Vec2, normal: Vec2)
    requires Dot(direction, normal) < 0.0
    ensures Dot(direction, normal.Negated()) > 0.0
  {
  }

  /** Negating an axis mirrors both shadows, so the overlap along it is the same. */
  lemma OverlapNegatedAxis(polyA: seq<Vec2>, polyB: seq<Vec2>, axis: Vec2)
    ensures Overlap(polyA, polyB, axis.Negated()) == Overlap(polyA, polyB, axis)
  {
    ProjectionsNegated(polyA, axis);
    ProjectionsNegated(polyB, axis);
  }

  lemma ProjectionsNegated(polygon: seq<Vec2>, axis: Vec2)
    ensures MinProjection(polygon, axis.Negated()) == -MaxProjection(polygon, axis)
    ensures MaxProjection(polygon, axis.Negated()) == -MinProjection(polygon, axis)
  {
    var ps, ns := Projections(polygon, axis), Projections(polygon, axis.Negated());
    assert forall i :: 0 <= i < |ns| ==> ns[i] == -ps[i];
    MinMaxNegated(ps, ns);
  }

  lemma {:induction false} MinMaxNegated(ps: seq<real>, ns: seq<real>)
    requires |ps| == |ns| && forall i :: 0 <= i < |ns| ==> ns[i] == -ps[i]
    ensures MinFrom(FloatMax, ns) == -MaxFrom(-FloatMax, ps)
    ensures MaxFrom(-FloatMax, ns) == -MinFrom(FloatMax, ps)
  {
    if ps != [] {
      MinMaxNegated(ps[..|ps| - 1], ns[..|ns| - 1]);
    }
  }
}
