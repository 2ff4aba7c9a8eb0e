/**
  Pure geometry of LUIBaseElement::recompute_position: the per-axis anchor
  resolution, ceiling snapping, the clip rectangle policies and the change
  record. Coordinates are `real`; the source's single-precision rounding is
  not modelled.
 */
module Geometry {

  datatype Option<T> = None | Some(value: T)

  /** LUIBounds: four insets, in the order the source constructs them. */
  datatype Bounds = Bounds(top: real, right: real, bottom: real, left: real)

  const ZeroBounds := Bounds(0.0, 0.0, 0.0, 0.0)

  /** LUIRect: origin and extent. */
  datatype Rect = Rect(x: real, y: real, w: real, h: real)

  /** The clip rectangle of an element that is clipped by nothing. */
  const Unbounded := Rect(0.0, 0.0, 1000000.0, 1000000.0)

  /** The near and far edges of a candidate clip region (bx1, by1, bx2, by2). */
  datatype Edges = Edges(x1: real, y1: real, x2: real, y2: real)

  /** Placement per axis: M_default sticks to the near edge, M_inverse to the
      far edge, and every other mode centres the element. */
  datatype Placement = Default | Inverse | Center

  /** The anchor-resolved relative position of one axis and the margin/padding
      bias that is added after snapping. */
  datatype Axis = Axis(rel: real, bias: real)

  /** Half-open point membership: a rectangle with a non-positive extent
      contains no point. */
  predicate Contains(r: Rect, px: real, py: real) {
    r.x <= px < r.x + r.w && r.y <= py < r.y + r.h
  }

  predicate InEdges(e: Edges, px: real, py: real) {
    e.x1 <= px < e.x2 && e.y1 <= py < e.y2
  }

  /** Every edge of `r` lies within the edges of `outer`. */
  predicate Inside(r: Rect, outer: Rect) {
    outer.x <= r.x && outer.y <= r.y &&
    r.x + r.w <= outer.x + outer.w && r.y + r.h <= outer.y + outer.h
  }

  predicate NonNegative(r: Rect) {
    r.w >= 0.0 && r.h >= 0.0
  }

  function Max(a: real, b: real): real { if a >= b then a else b }

  function Min(a: real, b: real): real { if a <= b then a else b }

  /** C's ceil, defined through Dafny's floor: the least integer not below x. */
  function Ceil(x: real): (n: int)
    ensures x <= n as real < x + 1.0
  {
    -((-x).Floor)
  }

  /** Snapping replaces a value by its ceiling when `snap` holds. */
  function Snap(snap: bool, v: real): (r: real)
    ensures !snap ==> r == v
    ensures snap ==> r == r.Floor as real && v <= r < v + 1.0
  {
    if snap then Ceil(v) as real else v
  }

  /** One axis of recompute_position when the element has a parent: `offset`
      and `size` are the element's, `parentSize` is the parent's extent, and
      the near/far margins and parent paddings are those of this axis
      (top/bottom for y, left/right for x). */
  function PlaceAxis(mode: Placement, offset: real, size: real, parentSize: real,
                     marginNear: real, marginFar: real,
                     paddingNear: real, paddingFar: real): (a: Axis)
    // Start: the element's near edge sits `offset` past the parent's near edge.
    ensures mode == Default ==> a.rel == offset && a.bias == marginNear + paddingNear
    // End: the element's far edge sits `offset` before the parent's far edge.
    ensures mode == Inverse ==>
      a.rel + size + offset == parentSize && a.bias == -(marginFar + paddingFar)
    // Centre: equal gaps on both sides, offset ignored, the full margin and
    // padding imbalance applied as bias.
    ensures mode == Center ==>
      a.rel == parentSize - (a.rel + size) &&
      a.bias == (marginNear - marginFar) + (paddingNear - paddingFar)
  {
    match mode
    case Default => Axis(offset, marginNear + paddingNear)
    case Inverse => Axis(parentSize - offset - size, -marginFar - paddingFar)
    case Center  => Axis((parentSize - size) / 2.0,
                         (marginNear - marginFar) + (paddingNear - paddingFar))
  }

  /** The element rectangle shrunk by its local clip insets, if any. */
  function Candidate(x: real, y: real, w: real, h: real, clip: Option<Bounds>): (e: Edges)
    ensures clip.None? ==> e == Edges(x, y, x + w, y + h)
    ensures clip.Some? ==>
      e.x1 - x == clip.value.left && e.y1 - y == clip.value.top &&
      (x + w) - e.x2 == clip.value.right && (y + h) - e.y2 == clip.value.bottom
  {
    match clip
    case None => Edges(x, y, x + w, y + h)
    case Some(b) => Edges(x + b.left, y + b.top, x + w - b.right, y + h - b.bottom)
  }

  /** Intersection of a candidate region with the parent's clip rectangle. */
  function Intersect(e: Edges, p: Rect): (r: Rect)
    ensures NonNegative(r)
    ensures forall px, py :: Contains(r, px, py) <==> InEdges(e, px, py) && Contains(p, px, py)
    ensures r.w > 0.0 && r.h > 0.0 ==> Inside(r, p)
  {
    var nx := Max(e.x1, p.x);
    var ny := Max(e.y1, p.y);
    var nw := Max(0.0, Min(e.x2, p.x + p.w) - nx);
    var nh := Max(0.0, Min(e.y2, p.y + p.h) - ny);
    Rect(nx, ny, nw, nh)
  }

  /** A candidate region on its own, its extent clamped at zero. */
  function Clamp(e: Edges): (r: Rect)
    ensures NonNegative(r) && r.x == e.x1 && r.y == e.y1
    ensures forall px, py :: Contains(r, px, py) <==> InEdges(e, px, py)
  {
    Rect(e.x1, e.y1, Max(0.0, e.x2 - e.x1), Max(0.0, e.y2 - e.y1))
  }

  /** The absolute clip rectangle. `inherited` is the parent's clip rectangle
      when the element has a parent whose bounds it does not ignore, and None
      otherwise. */
  function ResolveClip(x: real, y: real, w: real, h: real, clip: Option<Bounds>,
                       inherited: Option<Rect>): (r: Rect)
    ensures inherited.Some? && clip.None? ==> r == inherited.value
    ensures inherited.None? && clip.None? ==> r == Unbounded
    ensures clip.Some? ==> NonNegative(r)
    ensures inherited.Some? && NonNegative(inherited.value) ==> NonNegative(r)
    ensures inherited.Some? ==>
      forall px, py :: Contains(r, px, py) ==> Contains(inherited.value, px, py)
    ensures inherited.Some? && clip.Some? ==>
      forall px, py :: Contains(r, px, py) <==>
        InEdges(Candidate(x, y, w, h, clip), px, py) && Contains(inherited.value, px, py)
    ensures inherited.Some? && clip.Some? && r.w > 0.0 && r.h > 0.0 ==>
      Inside(r, inherited.value)
    ensures inherited.None? && clip.Some? ==>
      forall px, py :: Contains(r, px, py) <==> InEdges(Candidate(x, y, w, h, clip), px, py)
  {
    match (inherited, clip)
    case (Some(p), None) => p
    case (Some(p), Some(_)) => Intersect(Candidate(x, y, w, h, clip), p)
    case (None, None) => Unbounded
    case (None, Some(_)) => Clamp(Candidate(x, y, w, h, clip))
  }

  /** Line 208 as written: `_topmost && !_parent->is_topmost()`. The right
      operand dereferences the parent, so the value is undefined (None) for a
      topmost element without a parent. `parentTopmost` is None when there is
      no parent. */
  function IgnoreParentBoundsAsWritten(topmost: bool, parentTopmost: Option<bool>): (r: Option<bool>)
    ensures r.None? <==> topmost && parentTopmost.None?
    ensures r == Some(true) <==> topmost && parentTopmost == Some(false)
  {
    if !topmost then Some(false)
    else match parentTopmost
      case None => None
      case Some(pt) => Some(!pt)
  }

  /** The flag as the model evaluates it: the parent is consulted only when
      there is one. Where the as-written expression is defined, the two agree. */
  function IgnoreParentBounds(topmost: bool, parentTopmost: Option<bool>): (r: bool)
    ensures r ==> parentTopmost.Some?
    ensures IgnoreParentBoundsAsWritten(topmost, parentTopmost).Some? ==>
      IgnoreParentBoundsAsWritten(topmost, parentTopmost) == Some(r)
  {
    topmost && parentTopmost.Some? && !parentTopmost.value
  }

  /** What recompute_position reads of its parent. */
  datatype ParentView = ParentView(absX: real, absY: real, width: real, height: real,
                                   padding: Bounds, clip: Rect, topmost: bool)

  /** The element's own layout inputs. */
  datatype Inputs = Inputs(offsetX: real, offsetY: real,
                           placementX: Placement, placementY: Placement,
                           width: real, height: real, margin: Bounds, snap: bool,
                           clipBounds: Option<Bounds>, topmost: bool)

  /** The fields recompute_position writes (besides the change record). */
  datatype Resolved = Resolved(relX: real, relY: real, posX: real, posY: real, clip: Rect)

  function ParentTopmost(p: Option<ParentView>): Option<bool> {
    match p
    case None => None
    case Some(v) => Some(v.topmost)
  }

  /** The parent clip rectangle the element is subject to, if any. */
  function Inherited(topmost: bool, p: Option<ParentView>): (r: Option<Rect>)
    ensures r.Some? <==> p.Some? && !(topmost && !p.value.topmost)
    ensures r.Some? ==> r.value == p.value.clip
  {
    if p.Some? && !IgnoreParentBounds(topmost, ParentTopmost(p)) then Some(p.value.clip) else None
  }

  function AxisX(e: Inputs, v: ParentView): Axis {
    PlaceAxis(e.placementX, e.offsetX, e.width, v.width,
              e.margin.left, e.margin.right, v.padding.left, v.padding.right)
  }

  function AxisY(e: Inputs, v: ParentView): Axis {
    PlaceAxis(e.placementY, e.offsetY, e.height, v.height,
              e.margin.top, e.margin.bottom, v.padding.top, v.padding.bottom)
  }

  /** recompute_position's geometry: anchor resolution, snapping, absolute
      position and clip rectangle. */
  function Resolve(e: Inputs, p: Option<ParentView>): Resolved {
    var relX := Snap(e.snap, if p.Some? then AxisX(e, p.value).rel else e.offsetX);
    var relY := Snap(e.snap, if p.Some? then AxisY(e, p.value).rel else e.offsetY);
    var posX := if p.Some? then relX + p.value.absX + AxisX(e, p.value).bias else relX;
    var posY := if p.Some? then relY + p.value.absY + AxisY(e, p.value).bias else relY;
    Resolved(relX, relY, posX, posY,
             ResolveClip(posX, posY, e.width, e.height, e.clipBounds, Inherited(e.topmost, p)))
  }

  /** The bounds recorded for change detection. */
  function CurrentBounds(e: Inputs, r: Resolved): Rect {
    Rect(r.posX, r.posY, e.width, e.height)
  }

  // ---------------------------------------------------------------------
  // Properties of the resolution
  // ---------------------------------------------------------------------

  /** Without a parent the relative position is the (snapped) offset, no bias
      and no parent translation are applied, and the clip rectangle is
      unbounded or the element's own clamped region. */
  lemma ResolveWithoutParent(e: Inputs)
    ensures var r := Resolve(e, None);
      r.relX == Snap(e.snap, e.offsetX) && r.relY == Snap(e.snap, e.offsetY) &&
      r.posX == r.relX && r.posY == r.relY &&
      (e.clipBounds.None? ==> r.clip == Unbounded) &&
      (e.clipBounds.Some? ==> r.clip == Clamp(Candidate(r.posX, r.posY, e.width, e.height, e.clipBounds)))
  {
  }

  /** Start placement, no snapping: the element's near edge is offset past the
      parent's near edge plus the margin and the parent's padding. */
  lemma StartPlacement(e: Inputs, v: ParentView)
    requires !e.snap && e.placementX == Default && e.placementY == Default
    ensures var r := Resolve(e, Some(v));
      r.relX == e.offsetX && r.relY == e.offsetY &&
      r.posX == v.absX + v.padding.left + e.margin.left + e.offsetX &&
      r.posY == v.absY + v.padding.top + e.margin.top + e.offsetY
  {
  }

  /** End placement, no snapping: the element's far edge is offset before the
      parent's far edge minus the margin and the parent's padding. */
  lemma EndPlacement(e: Inputs, v: ParentView)
    requires !e.snap && e.placementX == Inverse && e.placementY == Inverse
    ensures var r := Resolve(e, Some(v));
      r.relX == v.width - e.offsetX - e.width && r.relY == v.height - e.offsetY - e.height &&
      r.posX + e.width == v.absX + v.width - v.padding.right - e.margin.right - e.offsetX &&
      r.posY + e.height == v.absY + v.height - v.padding.bottom - e.margin.bottom - e.offsetY
  {
  }

  /** Centre placement, no snapping: the offset plays no part; the element is
      centred in the parent and shifted by the margin and padding imbalance. */
  lemma CenterPlacement(e: Inputs, v: ParentView, offsetX: real, offsetY: real)
    requires !e.snap && e.placementX == Center && e.placementY == Center
    ensures var r := Resolve(e, Some(v));
      r == Resolve(e.(offsetX := offsetX, offsetY := offsetY), Some(v)) &&
      r.posX == v.absX + (v.width - e.width) / 2.0 +
                (e.margin.left - e.margin.right) + (v.padding.left - v.padding.right) &&
      r.posY == v.absY + (v.height - e.height) / 2.0 +
                (e.margin.top - e.margin.bottom) + (v.padding.top - v.padding.bottom)
  {
  }

  /** Snapping rounds the anchor-resolved position up to an integer and the
      bias and parent translation are added afterwards, unrounded. */
  lemma SnapRoundsOnlyTheAnchor(e: Inputs, v: ParentView)
    requires e.snap
    ensures var r := Resolve(e, Some(v));
      r.relX == Ceil(AxisX(e, v).rel) as real && r.relY == Ceil(AxisY(e, v).rel) as real &&
      r.posX - v.absX - AxisX(e, v).bias == r.relX &&
      r.posY - v.absY - AxisY(e, v).bias == r.relY
  {
  }

  /** The two axes are resolved independently: the horizontal result depends
      only on the horizontal inputs. */
  lemma AxesAreIndependent(e: Inputs, f: Inputs, p: Option<ParentView>, q: Option<ParentView>)
    requires e.offsetX == f.offsetX && e.placementX == f.placementX && e.width == f.width
    requires e.margin.left == f.margin.left && e.margin.right == f.margin.right && e.snap == f.snap
    requires p.Some? <==> q.Some?
    requires p.Some? ==> p.value.absX == q.value.absX && p.value.width == q.value.width &&
                         p.value.padding.left == q.value.padding.left &&
                         p.value.padding.right == q.value.padding.right
    ensures Resolve(e, p).relX == Resolve(f, q).relX && Resolve(e, p).posX == Resolve(f, q).posX
  {
  }

  /** The vertical counterpart: the vertical result depends only on the
      vertical inputs. */
  lemma AxesAreIndependentVertically(e: Inputs, f: Inputs, p: Option<ParentView>, q: Option<ParentView>)
    requires e.offsetY == f.offsetY && e.placementY == f.placementY && e.height == f.height
    requires e.margin.top == f.margin.top && e.margin.bottom == f.margin.bottom && e.snap == f.snap
    requires p.Some? <==> q.Some?
    requires p.Some? ==> p.value.absY == q.value.absY && p.value.height == q.value.height &&
                         p.value.padding.top == q.value.padding.top &&
                         p.value.padding.bottom == q.value.padding.bottom
    ensures Resolve(e, p).relY == Resolve(f, q).relY && Resolve(e, p).posY == Resolve(f, q).posY
  {
  }

  /** The clip rectangle never has a negative extent, provided the parent's
      (when it is inherited) does not. */
  lemma ResolvedClipNonNegative(e: Inputs, p: Option<ParentView>)
    requires p.Some? ==> NonNegative(p.value.clip)
    ensures NonNegative(Resolve(e, p).clip)
  {
  }

  // ---------------------------------------------------------------------
  // Nested clipping down a chain of descendants
  // ---------------------------------------------------------------------

  /** A descendant's region: its absolute position, size and local clip
      insets. */
  datatype Layer = Layer(x: real, y: real, w: real, h: real, clip: Option<Bounds>)

  /** The clip rectangle of the last of a chain of descendants, none of them
      topmost, each clipped by the one before it and the first by `outer`. */
  function NestedClip(outer: Rect, layers: seq<Layer>): Rect
    decreases |layers|
  {
    if layers == [] then outer
    else
      var l := layers[0];
      NestedClip(ResolveClip(l.x, l.y, l.w, l.h, l.clip, Some(outer)), layers[1..])
  }

  /** A descendant never shows anything outside an ancestor's clip rectangle. */
  lemma {:induction false} NestedClipInsideOuter(outer: Rect, layers: seq<Layer>, px: real, py: real)
    requires Contains(NestedClip(outer, layers), px, py)
    ensures Contains(outer, px, py)
    decreases |layers|
  {
    if layers != [] {
      var l := layers[0];
      var next := ResolveClip(l.x, l.y, l.w, l.h, l.clip, Some(outer));
      NestedClipInsideOuter(next, layers[1..], px, py);
    }
  }

  /** A non-negative clip rectangle stays non-negative down the chain. */
  lemma {:induction false} NestedClipNonNegative(outer: Rect, layers: seq<Layer>)
    requires NonNegative(outer)
    ensures NonNegative(NestedClip(outer, layers))
    decreases |layers|
  {
    if layers != [] {
      var l := layers[0];
      NestedClipNonNegative(ResolveClip(l.x, l.y, l.w, l.h, l.clip, Some(outer)), layers[1..]);
    }
  }
}
