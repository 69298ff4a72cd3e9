/**
 * The flexbox-like layout of MonoDreams.Examples/Layout/LayoutNode.cs. A node lays its children
 * out along a main axis (its direction) with a gap between them, aligns them on the cross axis,
 * and sizes itself from a fixed size, its content or the space available.
 *
 * The parent/children links that AddChild, RemoveChild and Clear maintain live on the class
 * FlexLayoutNode. The two layout passes are modelled on an immutable tree: Measure computes the
 * sizes bottom-up (MeasureSize) and Position the offsets top-down (PositionChildren), each
 * offset relative to the parent node as LayoutX / LayoutY are.
 */
module FlexLayout {
  import opened Wrappers

  datatype LayoutDirection = Horizontal | Vertical
  datatype MainAxisAlignment = Start | Center | End | SpaceBetween | SpaceAround | SpaceEvenly
  datatype CrossAxisAlignment = CrossStart | CrossCenter | CrossEnd | Stretch

  datatype Edges = Edges(top: real, right: real, bottom: real, left: real)

  /** The layout configuration of a node; a null Width or Height is None. */
  datatype Style = Style(
    direction: LayoutDirection, justifyContent: MainAxisAlignment, alignItems: CrossAxisAlignment,
    gap: real, padding: Edges, margin: Edges,
    width: Option<real>, height: Option<real>, widthAuto: bool, heightAuto: bool)

  datatype Node = Node(style: Style, children: seq<Node>)

  /** A node after MeasureSize: its LayoutWidth and LayoutHeight, and its measured children. */
  datatype Measured = Measured(style: Style, width: real, height: real, children: seq<Measured>)

  /** A node after PositionChildren: LayoutX, LayoutY, LayoutWidth, LayoutHeight. */
  datatype Layout = Layout(x: real, y: real, width: real, height: real, children: seq<Layout>)

  function Max(a: real, b: real): real {
    if a >= b then a else b
  }

  /** A child's width and height including its margins. */
  function OuterWidth(c: Measured): real {
    c.width + c.style.margin.left + c.style.margin.right
  }

  function OuterHeight(c: Measured): real {
    c.height + c.style.margin.top + c.style.margin.bottom
  }

  function MainSize(c: Measured, direction: LayoutDirection): real {
    if direction == Horizontal then OuterWidth(c) else OuterHeight(c)
  }

  function CrossSize(c: Measured, direction: LayoutDirection): real {
    if direction == Horizontal then OuterHeight(c) else OuterWidth(c)
  }

  /** The main-axis sizes of cs[..k], added up. */
  function SumMain(cs: seq<Measured>, direction: LayoutDirection, k: int): real
    requires 0 <= k <= |cs|
  {
    if k == 0 then 0.0 else SumMain(cs, direction, k - 1) + MainSize(cs[k - 1], direction)
  }

  /** The largest cross-axis size of cs[..k], starting from 0. */
  function MaxCross(cs: seq<Measured>, direction: LayoutDirection, k: int): (m: real)
    requires 0 <= k <= |cs|
    ensures m >= 0.0 && forall i :: 0 <= i < k ==> CrossSize(cs[i], direction) <= m
    ensures m == 0.0 || exists i :: 0 <= i < k && m == CrossSize(cs[i], direction)
  {
    if k == 0 then 0.0 else Max(MaxCross(cs, direction, k - 1), CrossSize(cs[k - 1], direction))
  }

  /** The children's extent along the main axis: their sizes plus a gap between neighbours. */
  function MainExtent(cs: seq<Measured>, direction: LayoutDirection, gap: real): real {
    if cs == [] then 0.0 else SumMain(cs, direction, |cs|) + gap * (|cs| - 1) as real
  }

  /** The content size of MeasureSize: main extent along the direction, largest child across it. */
  function ContentSize(cs: seq<Measured>, direction: LayoutDirection, gap: real): (real, real) {
    if direction == Horizontal then (MainExtent(cs, direction, gap), MaxCross(cs, direction, |cs|))
    else (MaxCross(cs, direction, |cs|), MainExtent(cs, direction, gap))
  }

  /**
   * The content-size loop of MeasureSize, over the measured children: a running sum along the main
   * axis with a gap before every child but the first, and a running maximum across it.
   */
  method MeasureContent(children: seq<Measured>, direction: LayoutDirection, gap: real)
    returns (contentWidth: real, contentHeight: real)
    ensures (contentWidth, contentHeight) == ContentSize(children, direction, gap)
  {
    contentWidth, contentHeight := 0.0, 0.0;
    if |children| > 0 {
      if direction == Horizontal {
        for i := 0 to |children|
          invariant contentWidth == Running(children, direction, gap, i)
          invariant contentHeight == MaxCross(children, direction, i)
        {
          RunningStep(children, direction, gap, i);
          var child := children[i];
          contentWidth := contentWidth + (child.width + child.style.margin.left + child.style.margin.right);
          if i > 0 {
            contentWidth := contentWidth + gap;
          }
          contentHeight := Max(contentHeight, child.height + child.style.margin.top + child.style.margin.bottom);
        }
        assert contentWidth == MainExtent(children, direction, gap);
      } else {
        for i := 0 to |children|
          invariant contentWidth == MaxCross(children, direction, i)
          invariant contentHeight == Running(children, direction, gap, i)
        {
          RunningStep(children, direction, gap, i);
          var child := children[i];
          contentWidth := Max(contentWidth, child.width + child.style.margin.left + child.style.margin.right);
          contentHeight := contentHeight + (child.height + child.style.margin.top + child.style.margin.bottom);
          if i > 0 {
            contentHeight := contentHeight + gap;
          }
        }
        assert contentHeight == MainExtent(children, direction, gap);
      }
    }
  }

  /** The main-axis running total after i children: their sizes and a gap before each but the first. */
  function Running(cs: seq<Measured>, direction: LayoutDirection, gap: real, i: int): real
    requires 0 <= i <= |cs|
  {
    if i == 0 then 0.0 else SumMain(cs, direction, i) + gap * (i - 1) as real
  }

  lemma RunningStep(cs: seq<Measured>, direction: LayoutDirection, gap: real, i: int)
    requires 0 <= i < |cs|
    ensures Running(cs, direction, gap, i + 1) ==
            Running(cs, direction, gap, i) + MainSize(cs[i], direction) + (if i > 0 then gap else 0.0)
    ensures i + 1 == |cs| ==> Running(cs, direction, gap, i + 1) == MainExtent(cs, direction, gap)
  {
    if i > 0 {
      assert gap * i as real == gap * (i - 1) as real + gap;
    } else {
      assert gap * 0 as real == 0.0;
      assert SumMain(cs, direction, 1) == SumMain(cs, direction, 0) + MainSize(cs[0], direction);
    }
  }

  /** A fixed size wins; otherwise an auto size is content plus padding; otherwise the space available. */
  function ResolveSize(fixed: Option<real>, auto: bool, contentPlusPadding: real, available: real): real {
    if fixed.Some? then fixed.value else if auto then contentPlusPadding else available
  }

  /**
   * MeasureSize: children are measured against the available space less this node's padding,
   * then this node's size is resolved on each axis.
   */
  function Measure(n: Node, availableWidth: real, availableHeight: real): (m: Measured)
    ensures m.style == n.style && |m.children| == |n.children|
    decreases n
  {
    var p := n.style.padding;
    var innerWidth := availableWidth - p.left - p.right;
    var innerHeight := availableHeight - p.top - p.bottom;
    var cs := seq(|n.children|, i requires 0 <= i < |n.children| => Measure(n.children[i], innerWidth, innerHeight));
    var content := ContentSize(cs, n.style.direction, n.style.gap);
    Measured(n.style,
             ResolveSize(n.style.width, n.style.widthAuto, content.0 + p.left + p.right, availableWidth),
             ResolveSize(n.style.height, n.style.heightAuto, content.1 + p.top + p.bottom, availableHeight),
             cs)
  }

  /** The free main-axis space: the inner size along the direction less the children's extent. */
  function RemainingSpace(m: Measured): real {
    var s := m.style;
    var innerWidth := m.width - s.padding.left - s.padding.right;
    var innerHeight := m.height - s.padding.top - s.padding.bottom;
    var mainAxisSize := if s.direction == Horizontal then innerWidth else innerHeight;
    mainAxisSize - MainExtent(m.children, s.direction, s.gap)
  }

  /** Where JustifyContent puts the first child on the main axis, and the extra space between children. */
  function StartAndSpacing(justify: MainAxisAlignment, remainingSpace: real, count: int): (real, real)
    requires count > 0
  {
    match justify
    case Start => (0.0, 0.0)
    case Center => (remainingSpace / 2.0, 0.0)
    case End => (remainingSpace, 0.0)
    case SpaceBetween => (0.0, if count > 1 then remainingSpace / (count - 1) as real else 0.0)
    case SpaceAround =>
      var spacing := remainingSpace / count as real;
      (spacing / 2.0, spacing)
    case SpaceEvenly =>
      var spacing := remainingSpace / (count + 1) as real;
      (spacing, spacing)
  }

  /** The main-axis position of child i: the start, then every earlier child, gap and spacing. */
  function MainPos(m: Measured, i: int): real
    requires 0 <= i < |m.children|
  {
    var (start, spacing) := StartAndSpacing(m.style.justifyContent, RemainingSpace(m), |m.children|);
    start + SumMain(m.children, m.style.direction, i) + (m.style.gap + spacing) * i as real
  }

  /** The cross-axis position of a child under AlignItems. */
  function CrossPos(m: Measured, c: Measured): real {
    var s := m.style;
    var innerWidth := m.width - s.padding.left - s.padding.right;
    var innerHeight := m.height - s.padding.top - s.padding.bottom;
    var crossAxisSize := if s.direction == Horizontal then innerHeight else innerWidth;
    match s.alignItems
    case CrossStart => 0.0
    case CrossCenter => (crossAxisSize - CrossSize(c, s.direction)) / 2.0
    case CrossEnd => crossAxisSize - CrossSize(c, s.direction)
    case Stretch => 0.0
  }

  /** Child i's offset inside its parent: padding, then main or cross position, then its own leading margin. */
  function ChildOffset(m: Measured, i: int): (real, real)
    requires 0 <= i < |m.children|
  {
    var c := m.children[i];
    var s := m.style;
    if s.direction == Horizontal then
      (s.padding.left + MainPos(m, i) + c.style.margin.left, s.padding.top + CrossPos(m, c) + c.style.margin.top)
    else
      (s.padding.left + CrossPos(m, c) + c.style.margin.left, s.padding.top + MainPos(m, i) + c.style.margin.top)
  }

  /** PositionChildren, applied to a node placed at (x, y). */
  function Position(m: Measured, x: real, y: real): (l: Layout)
    ensures l.x == x && l.y == y && l.width == m.width && l.height == m.height
    ensures |l.children| == |m.children|
    decreases m
  {
    Layout(x, y, m.width, m.height,
           seq(|m.children|, i requires 0 <= i < |m.children| =>
             var offset := ChildOffset(m, i);
             Position(m.children[i], offset.0, offset.1)))
  }

  /** CalculateLayout: measure against the available space, then place the root at (0, 0). */
  function CalculateLayout(root: Node, availableWidth: real, availableHeight: real): (l: Layout)
    ensures l.x == 0.0 && l.y == 0.0
    ensures |l.children| == |root.children|
  {
    Position(Measure(root, availableWidth, availableHeight), 0.0, 0.0)
  }

  /**
   * A fixed size wins over everything; without one an auto-sized node is its content plus its
   * padding; otherwise it takes the space it was offered.
   */
  lemma MeasuredSize(n: Node, availableWidth: real, availableHeight: real)
    ensures var m := Measure(n, availableWidth, availableHeight);
            var content := ContentSize(m.children, n.style.direction, n.style.gap);
            var p := n.style.padding;
            (n.style.width.Some? ==> m.width == n.style.width.value) &&
            (n.style.width.None? && n.style.widthAuto ==> m.width == content.0 + p.left + p.right) &&
            (n.style.width.None? && !n.style.widthAuto ==> m.width == availableWidth) &&
            (n.style.height.Some? ==> m.height == n.style.height.value) &&
            (n.style.height.None? && n.style.heightAuto ==> m.height == content.1 + p.top + p.bottom) &&
            (n.style.height.None? && !n.style.heightAuto ==> m.height == availableHeight)
  {
  }

  /**
   * Horizontal content: the width is every child's outer width plus a gap between neighbours; the
   * height is the tallest child's outer height (0 when none is taller).
   */
  lemma HorizontalContent(cs: seq<Measured>, gap: real)
    requires |cs| > 0
    ensures var (w, h) := ContentSize(cs, Horizontal, gap);
            w == SumMain(cs, Horizontal, |cs|) + gap * (|cs| - 1) as real &&
            (forall i :: 0 <= i < |cs| ==> OuterHeight(cs[i]) <= h) &&
            (h == 0.0 || exists i :: 0 <= i < |cs| && h == OuterHeight(cs[i]))
  {
  }

  /** Vertical content is the mirror image: widest child across, heights plus gaps along. */
  lemma VerticalContent(cs: seq<Measured>, gap: real)
    requires |cs| > 0
    ensures var (w, h) := ContentSize(cs, Vertical, gap);
            h == SumMain(cs, Vertical, |cs|) + gap * (|cs| - 1) as real &&
            (forall i :: 0 <= i < |cs| ==> OuterWidth(cs[i]) <= w) &&
            (w == 0.0 || exists i :: 0 <= i < |cs| && w == OuterWidth(cs[i]))
  {
  }

  /** With Start alignment the first child sits right after the padding and its own leading margin. */
  lemma StartPlacesFirstChild(m: Measured)
    requires |m.children| > 0 && m.style.justifyContent == Start
    ensures var c := m.children[0];
            var offset := ChildOffset(m, 0);
            (m.style.direction == Horizontal ==> offset.0 == m.style.padding.left + c.style.margin.left) &&
            (m.style.direction == Vertical ==> offset.1 == m.style.padding.top + c.style.margin.top)
  {
  }

  /**
   * Consecutive children are spaced by the earlier child's outer main size, the gap and the
   * justification spacing, whatever the alignment.
   */
  lemma MainPosStep(m: Measured, i: int)
    requires 0 <= i < |m.children| - 1
    ensures var (start, spacing) := StartAndSpacing(m.style.justifyContent, RemainingSpace(m), |m.children|);
            MainPos(m, i + 1) == MainPos(m, i) + MainSize(m.children[i], m.style.direction) + m.style.gap + spacing
  {
    var (start, spacing) := StartAndSpacing(m.style.justifyContent, RemainingSpace(m), |m.children|);
    var k := m.style.gap + spacing;
    assert k * (i + 1) as real == k * i as real + k;
  }

  /**
   * A node sized by its content along its direction has no free space on the main axis, so every
   * justification puts the first child at the start.
   */
  lemma AutoSizeLeavesNoSpace(n: Node, availableWidth: real, availableHeight: real)
    requires n.style.direction == Horizontal ==> n.style.width.None? && n.style.widthAuto
    requires n.style.direction == Vertical ==> n.style.height.None? && n.style.heightAuto
    ensures RemainingSpace(Measure(n, availableWidth, availableHeight)) == 0.0
    ensures |n.children| > 0 ==>
      StartAndSpacing(n.style.justifyContent, 0.0, |n.children|) == (0.0, 0.0)
  {
    var m := Measure(n, availableWidth, availableHeight);
    MeasuredSize(n, availableWidth, availableHeight);
    var content := ContentSize(m.children, n.style.direction, n.style.gap);
    if n.style.direction == Horizontal {
      assert content.0 == MainExtent(m.children, Horizontal, n.style.gap);
    } else {
      assert content.1 == MainExtent(m.children, Vertical, n.style.gap);
    }
  }

  /** The parent/child links of a layout node, maintained by AddChild, RemoveChild and Clear. */
  class FlexLayoutNode {
    var parent: FlexLayoutNode?
    var children: seq<FlexLayoutNode>

    constructor()
      ensures parent == null && children == []
    {
      parent := null;
      children := [];
    }

    /** AddChild: the child points back at this node and is appended to the children. */
    method AddChild(child: FlexLayoutNode)
      modifies this, child`parent
      ensures child.parent == this
      ensures children == old(children) + [child]
      ensures child != this ==> parent == old(parent)
    {
      child.parent := this;
      children := children + [child];
    }

    /** RemoveChild: the child loses its parent and its first occurrence leaves the children. */
    method RemoveChild(child: FlexLayoutNode)
      modifies this, child`parent
      ensures child.parent == null
      ensures children == RemoveFirst(old(children), child)
      ensures child != this ==> parent == old(parent)
    {
      child.parent := null;
      children := RemoveFirst(children, child);
    }

    /** Clear: every child loses its parent, then the children list is emptied. */
    method Clear()
      modifies this, (set c | c in children)`parent
      ensures children == []
      ensures forall c :: c in old(children) ==> c.parent == null
      ensures this !in old(children) ==> parent == old(parent)
    {
      for i := 0 to |children|
        invariant children == old(children)
        invariant forall j :: 0 <= j < i ==> children[j].parent == null
        invariant this !in old(children) ==> parent == old(parent)
      {
        children[i].parent := null;
      }
      children := [];
    }
  }

  /** List.Remove: the sequence without the first occurrence of x, unchanged when x is absent. */
  function RemoveFirst<T(==)>(s: seq<T>, x: T): (r: seq<T>)
    ensures x !in s ==> r == s
    ensures x in s ==> |r| == |s| - 1 && multiset(r) == multiset(s) - multiset{x}
  {
    if s == [] then []
    else
      assert s == [s[0]] + s[1..];
      if s[0] == x then s[1..] else [s[0]] + RemoveFirst(s[1..], x)
  }

  /** Removing a child just added (and not there before) restores the children list. */
  lemma {:induction false} AddThenRemove<T>(s: seq<T>, x: T)
    requires x !in s
    ensures RemoveFirst(s + [x], x) == s
  {
    if s != [] {
      assert (s + [x])[1..] == s[1..] + [x];
      AddThenRemove(s[1..], x);
    }
  }
}
