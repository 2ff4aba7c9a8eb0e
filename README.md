# LUIBaseElement layout, clipping and event registration

A Dafny model of `LUIBaseElement` in the LUI user-interface library (`Source/luiBaseElement.cxx`).
An element sits in a tree. `recompute_position` resolves the element's position one axis at a time against
its parent, using one of three placements (near edge, far edge, centre). It then snaps the anchor-resolved
position to an integer and adds the margin/padding bias. Next it computes the absolute clip rectangle under
one of four policies: inherit, intersect, local only or unbounded. Last, it notifies the parent when the
recorded bounds changed. The element also registers with and unregisters from its root for input events,
re-parents itself through the container capability, dispatches named events to bound handlers, and
delegates focus, render-index allocation and z-order to the root or its parent.

Layout:

- `geometry.dfy`, module `Geometry`: the pure part. It holds the `Bounds`, `Rect` and `Placement` values,
  ceiling snapping, the per-axis placement formula, rectangle intersection and clamping, and the four clip
  policies. `Resolve` composes them into the whole geometry of one `recompute_position` call. The module
  also has the lemmas about placement, snapping, axis independence and nested clipping.
- `element.dfy`, module `Elements`: class `Element` holds the element's fields as the constructor
  initialises them. Its methods update those fields in place. `RecomputePosition` is proved equal to
  `Resolve` of the old state. Class `Root` holds the render-index allocator.
- `scenarios.dfy`, module `Scenarios`: behaviours that span several calls (recomputing twice, registering
  twice, moving between parents) and worked examples.

Calls into code this file does not contain are only logged. These are the virtual hook
`on_bounds_changed`, a handler chain's `do_callback`, `LUIRoot::register_event_object`,
`unregister_event_object` and `request_focus`, `LUIObject::add_child`, `remove_child` and
`change_child_z_offset`, and `do_set_z_offset`. Each such call is appended to the `calls` log of a `Host`
object that the caller passes in. Each such call is assumed to leave every modelled field unchanged. The
contracts say exactly which calls are made, in which order and with which arguments.

Coordinates are `real`. The accessors `get_abs_pos`, `get_size`, `get_padding`, `get_abs_clip_bounds` and
`is_topmost` are taken to return the fields of the same names; their header is not part of this model.

Three points about the code that the model follows:

- `reparent_to` removes the element from its old parent before it checks the new one (lines 302-316).
  A refused re-parent therefore leaves the element detached.
- Nothing in this file sets `_in_update_section`. `recompute_position` only reads it (line 109).
- Centre placement adds the whole margin and padding imbalance as bias (lines 160-162, 178-180).

## Model

| member | source | states |
|---|---|---|
| Geometry.Ceil | Source/luiBaseElement.cxx:184-187 | the result is the least integer not below x (x <= n < x + 1) |
| Geometry.Snap | Source/luiBaseElement.cxx:184-187 | with snapping, the value becomes an integer in [v, v + 1); without, it is unchanged |
| Geometry.PlaceAxis | Source/luiBaseElement.cxx:147-181 | Start: rel = offset, bias = margin-near + padding-near; End: the element's far edge is offset before the parent's far edge, bias = -(margin-far + padding-far); Center: equal gaps on both sides, bias = margin and padding imbalance |
| Geometry.Candidate | Source/luiBaseElement.cxx:196-206 | the candidate region is the element rectangle, shrunk inward by exactly the left/top/right/bottom clip insets when they are set |
| Geometry.Intersect | Source/luiBaseElement.cxx:222-231 | extent never negative; a point lies in the result iff it lies in both the candidate and the parent rectangle; a result with w, h > 0 lies inside the parent rectangle |
| Geometry.Clamp | Source/luiBaseElement.cxx:241-245 | local-only clip keeps the candidate's origin, has non-negative extent and contains exactly the candidate's points |
| Geometry.ResolveClip | Source/luiBaseElement.cxx:210-247 | no clip insets: parent rect verbatim when inherited, else exactly (0,0,1000000,1000000); with insets: the intersection or the clamped candidate, never negative; an inherited result never shows a point outside the parent rect |
| Geometry.IgnoreParentBoundsAsWritten | Source/luiBaseElement.cxx:208 | the expression as written is undefined (null parent dereference) exactly when the element is topmost and has no parent; it is true exactly when topmost under a non-topmost parent |
| Geometry.IgnoreParentBounds | Source/luiBaseElement.cxx:208-210 | the corrected flag holds only when a parent exists, and agrees with the as-written expression wherever that is defined |
| Geometry.Inherited | Source/luiBaseElement.cxx:208-211 | the parent's clip rect applies iff there is a parent and the element is not topmost under a non-topmost parent |
| Geometry.ResolveWithoutParent | Source/luiBaseElement.cxx:117-124 | without a parent, rel = snapped offset, no bias or parent translation, clip unbounded or the element's own clamped region |
| Geometry.StartPlacement | Source/luiBaseElement.cxx:149-151 | Start on both axes: the near edge is offset past the parent's near edge plus padding and margin |
| Geometry.EndPlacement | Source/luiBaseElement.cxx:154-156 | End on both axes: rel = psize - offset - size, and the far edge is offset before the parent's far edge minus padding and margin |
| Geometry.CenterPlacement | Source/luiBaseElement.cxx:158-163 | Center on both axes: the offset has no effect; position = parent position + (psize - size)/2 + margin imbalance + padding imbalance |
| Geometry.SnapRoundsOnlyTheAnchor | Source/luiBaseElement.cxx:184-191 | with snapping, rel is the ceiling of the anchor-resolved position and the bias and parent position are added unrounded |
| Geometry.AxesAreIndependent | Source/luiBaseElement.cxx:147-181 | the horizontal relative and absolute position depend only on the horizontal inputs of the element and its parent |
| Geometry.AxesAreIndependentVertically | Source/luiBaseElement.cxx:147-163 | the vertical relative and absolute position depend only on the vertical inputs of the element and its parent |
| Geometry.ResolvedClipNonNegative | Source/luiBaseElement.cxx:210-247 | the clip rect never has negative extent when an inherited parent clip rect has none |
| Geometry.NestedClipInsideOuter | Source/luiBaseElement.cxx:210-231 | in a chain of non-topmost descendants, the last one's clip rect shows no point outside the first ancestor's |
| Geometry.NestedClipNonNegative | Source/luiBaseElement.cxx:222-231 | a non-negative clip rect stays non-negative down a chain of descendants |
| Elements.Root.AllocateRenderIndex | Source/luiBaseElement.cxx:337 | returns a fresh index, below every later one, and logs the allocation call |
| Elements.Element.constructor | Source/luiBaseElement.cxx:17-48 | every field takes its default: unbounded clip rect, recorded bounds (-1,-1,-1,-1), render index -1, snapping and change events on, zero margin and padding |
| Elements.Element.RecomputePosition | Source/luiBaseElement.cxx:108-268 | guarded: nothing changes and nothing is called; otherwise position and clip equal Resolve of the old state, on_bounds_changed is called once, the parent's on_child_changed at most once (parent present, emitting, bounds changed), and the change record is updated accordingly; clip extent stays non-negative |
| Elements.Element.ResolvePosition | Source/luiBaseElement.cxx:111-191 | relative and absolute position equal those of Resolve of the old state |
| Elements.Element.ResolveClipRect | Source/luiBaseElement.cxx:193-247 | the clip rect is ResolveClip of the new position under the parent's clip rect when it is inherited |
| Elements.Element.NotifyParentOfChange | Source/luiBaseElement.cxx:257-267 | records and notifies exactly when a parent exists, the element emits changed events and the bounds differ from the recorded ones |
| Elements.Element.RegisterEvents | Source/luiBaseElement.cxx:270-283 | registers with the root, once, exactly when root and parent exist, the element is solid and not yet registered; otherwise changes nothing |
| Elements.Element.UnregisterEvents | Source/luiBaseElement.cxx:285-299 | unregisters exactly when a root exists and the element is registered; otherwise changes nothing |
| Elements.Element.ReparentTo | Source/luiBaseElement.cxx:301-319 | removes from the current parent if any, then calls add_child once on a container parent; a non-container or null target gets no add_child and a NotAContainer status |
| Elements.Element.RequestFocus | Source/luiBaseElement.cxx:322-325 | hands the focus to this element through the root and marks it focused |
| Elements.Element.Blur | Source/luiBaseElement.cxx:328-331 | hands the focus to nobody through the root and clears the focused flag |
| Elements.Element.FetchRenderIndex | Source/luiBaseElement.cxx:333-339 | -1 without a root and no call; otherwise the root's next index is taken and the allocator moves past it |
| Elements.Element.TriggerEvent | Source/luiBaseElement.cxx:341-347 | an unbound name calls nothing; a bound name calls its handler once with this element, the name, the message and the point |
| Elements.Element.OnChildChanged | Source/luiBaseElement.cxx:349-353 | the hook synthesises child_changed with an empty message at (0,0) |
| Elements.Element.SetZOffset | Source/luiBaseElement.cxx:356-364 | delegates to the parent container's change_child_z_offset when there is a parent, else applies the offset locally |
| Scenarios.StartExample | Source/luiBaseElement.cxx:147-191 | offset (5,5), size (10,10) in a 100x100 parent at the origin: position (5,5), parent's clip rect inherited |
| Scenarios.EndExample | Source/luiBaseElement.cxx:154-156 | the same element placed at the far edges: position (85,85) |
| Scenarios.CenterExample | Source/luiBaseElement.cxx:158-163 | the same element centred: position (45,45) |
| Scenarios.SnapExample | Source/luiBaseElement.cxx:184-187 | 2.3 and 7.9 snap to 3 and 8 |
| Scenarios.ClipExamples | Source/luiBaseElement.cxx:222-231 | (40,40,30,30) against (0,0,50,50) clips to (40,40,10,10); (60,60,10,10) clips to zero extent |
| Scenarios.TopmostWithoutParentDereferencesNull | Source/luiBaseElement.cxx:208 | the as-written flag is undefined for a topmost parentless element; the corrected flag is false |
| Scenarios.RecomputeTwice | Source/luiBaseElement.cxx:255-267 | two calls in a row give the same geometry; only the first may notify the parent, the second only calls on_bounds_changed |
| Scenarios.RecomputeTwiceNotifiesOnce | Source/luiBaseElement.cxx:257-267 | a fresh child notifies its parent on the first call and not on the second |
| Scenarios.GuardedRecomputeIsSilent | Source/luiBaseElement.cxx:109 | with the guard held, nothing is called and the position is untouched |
| Scenarios.RegisterTwiceRegistersOnce | Source/luiBaseElement.cxx:270-274 | two register_events calls register with the root once |
| Scenarios.UnregisterWithoutRegisterIsNoOp | Source/luiBaseElement.cxx:285-299 | unregistering a never-registered element calls nothing |
| Scenarios.DispatchBoundAndUnbound | Source/luiBaseElement.cxx:341-347 | a bound name is dispatched once with its message and point; an unbound one is not |
| Scenarios.ReparentExamples | Source/luiBaseElement.cxx:301-319 | moving between containers is one remove and one add; moving to a non-container is refused after the remove |

## Left out

- The constructor's reflection over the scripting object's `on_*` methods (lines 50-102). It is a foreign CPython API; only the default-initialised fields are modelled.
- All spam and error logging. It is I/O. The error of `reparent_to` is the returned `NotAContainer` status.
- The bodies of `on_bounds_changed`, `do_callback`, `do_set_z_offset`, the LUIRoot operations and the LUIObject child operations. They are not in this file, so each call is only logged. As a result `ReparentTo` does not change any `parent` field: that is the job of `add_child` and `remove_child`.
- Elements.Root.AllocateRenderIndex: LUIRoot's allocator is not part of this model. A counter that only grows stands in for it.
- Overrides of the virtual `on_child_changed`. Only the default body that this file defines is modelled.
- Elements.Element.ReparentTo: the assertion that the current parent is a container (lines 304-307) becomes a precondition. The same holds for Elements.Element.SetZOffset (lines 358-359).
- Elements.Element.RequestFocus: `_root` is dereferenced without a test (lines 323, 329), so it and Elements.Element.Blur require a root.
- Elements.Element.RecomputePosition: the virtual `on_bounds_changed` (line 255) runs before the current bounds are built (line 257). The model assumes it changes no field, so an override that moves or resizes the element is not captured, and neither is its effect on the recorded bounds or on whether the parent is notified. The same assumption is made for every other logged call.
- Scenarios.RecomputeTwice: "the second call does not notify" rests on the same assumption, that `on_bounds_changed` and the parent's `on_child_changed` leave the element's fields unchanged.
- Single-precision float rounding. Coordinates are `real`, and `ceil` is defined through `Floor`.
- Source/luiNode.h (sprite attachment and rendering hooks, declarations only) and Source/config_lui.cxx (library initialisation) are not part of this model.

## Findings

| source | as written | input that shows it | evidently intended | confidence | as-written member | corrected member |
|---|---|---|---|---|---|---|
| Source/luiBaseElement.cxx:208 | `_topmost && !_parent->is_topmost()` is evaluated before the `_parent != NULL` test on line 210 | a topmost element with no parent dereferences a null parent | consult the parent only when there is one; a parentless element takes the unbounded or local-only branch (line 234) | high, not executed | Geometry.IgnoreParentBoundsAsWritten (with Scenarios.TopmostWithoutParentDereferencesNull) | Geometry.IgnoreParentBounds (used by Geometry.Inherited and Elements.Element.ResolveClipRect) |
