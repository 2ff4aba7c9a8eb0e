/**
  LUIBaseElement: the tree node whose recompute_position resolves layout and
  clipping, and which registers for events, re-parents itself, dispatches
  named events and delegates focus, render order and z-order.

  Every call the element makes into code that is not part of this model (the
  virtual hook on_bounds_changed, a handler chain's do_callback, the LUIRoot
  and LUIObject operations) is appended to the `calls` log of a Host object
  passed in by the caller; each such call is assumed to leave every modelled
  field unchanged.
 */
module Elements {
  import opened Geometry

  /** A bound handler chain (the value side of the element's event map). */
  class Callback {
    constructor () {}
  }

  /** LUIEventData: the sender, the event name, a text payload and a point. */
  datatype EventData = EventData(sender: Element, name: string, message: string, x: real, y: real)

  /** One call from the element into code outside this model. */
  datatype Call =
    | BoundsChanged(element: Element)
    | ChildChanged(element: Element)
    | DoCallback(handler: Callback, data: EventData)
    | RegisterEventObject(root: Root, element: Element)
    | UnregisterEventObject(root: Root, element: Element)
    | RequestFocus(root: Root, focus: Option<Element>)
    | AllocateRenderIndex(root: Root)
    | AddChild(container: Element, child: Element)
    | RemoveChild(container: Element, child: Element)
    | ChangeChildZOffset(container: Element, child: Element, z: int)
    | DoSetZOffset(element: Element, z: int)

  /** The world outside the element: the log of the calls made into it. */
  class Host {
    var calls: seq<Call>

    constructor ()
      ensures calls == []
    {
      calls := [];
    }
  }

  /** The tree-wide context. Only its render-index allocator has state here:
      LUIRoot's own code is not part of this model, and this allocator is a
      monotonic counter standing in for it. */
  class Root {
    var nextRenderIndex: int

    constructor ()
      ensures nextRenderIndex == 0
    {
      nextRenderIndex := 0;
    }

    method AllocateRenderIndex(host: Host) returns (index: int)
      modifies this, host`calls
      ensures index == old(nextRenderIndex) && nextRenderIndex > index
      ensures host.calls == old(host.calls) + [Call.AllocateRenderIndex(this)]
    {
      host.calls := host.calls + [Call.AllocateRenderIndex(this)];
      index := nextRenderIndex;
      nextRenderIndex := nextRenderIndex + 1;
    }
  }

  /** Outcome of reparent_to: attached, or refused because the new parent is
      not a container (the source logs an error and returns). */
  datatype ReparentStatus = Attached | NotAContainer

  const ChildChangedEvent := "child_changed"

  class Element {
    var visible: bool
    var offsetX: real
    var offsetY: real
    var posX: real
    var posY: real
    var relPosX: real
    var relPosY: real
    var placementX: Placement
    var placementY: Placement
    var width: real
    var height: real
    var margin: Bounds
    var padding: Bounds
    var parent: Element?
    var root: Root?
    var zOffset: real
    var eventsRegistered: bool
    var inUpdateSection: bool
    var snapPosition: bool
    var focused: bool
    var clipBounds: Option<Bounds>
    var absClipBounds: Rect
    var lastFrameVisible: int
    var lastRenderIndex: int
    var topmost: bool
    var solid: bool
    var emitsChangedEvent: bool
    var lastRecordedBounds: Rect
    var events: map<string, Callback>
    /** Whether the element's dynamic type is a LUIObject, the container
        capability that DCAST tests for. */
    const isContainer: bool

    /** The default-initialised fields of the constructor. */
    constructor (isContainer: bool)
      ensures this.isContainer == isContainer
      ensures visible && offsetX == 0.0 && offsetY == 0.0
      ensures posX == 0.0 && posY == 0.0 && relPosX == 0.0 && relPosY == 0.0
      ensures placementX == Default && placementY == Default
      ensures width == 0.0 && height == 0.0
      ensures parent == null && root == null && zOffset == 0.0
      ensures !eventsRegistered && !inUpdateSection && snapPosition && !focused
      ensures clipBounds == None && absClipBounds == Unbounded
      ensures lastFrameVisible == -1 && lastRenderIndex == -1
      ensures !topmost && !solid && emitsChangedEvent
      ensures lastRecordedBounds == Rect(-1.0, -1.0, -1.0, -1.0)
      ensures margin == ZeroBounds && padding == ZeroBounds && events == map[]
    {
      this.isContainer := isContainer;
      visible := true;
      offsetX, offsetY := 0.0, 0.0;
      posX, posY, relPosX, relPosY := 0.0, 0.0, 0.0, 0.0;
      placementX, placementY := Default, Default;
      width, height := 0.0, 0.0;
      parent, root := null, null;
      zOffset := 0.0;
      eventsRegistered, inUpdateSection, snapPosition, focused := false, false, true, false;
      clipBounds := None;
      lastFrameVisible, lastRenderIndex := -1, -1;
      topmost, solid, emitsChangedEvent := false, false, true;
      lastRecordedBounds := Rect(-1.0, -1.0, -1.0, -1.0);
      margin, padding := ZeroBounds, ZeroBounds;
      absClipBounds := Unbounded;
      events := map[];
    }

    /** The layout inputs recompute_position reads from the element itself. */
    function Inputs(): Inputs
      reads this
    {
      Geometry.Inputs(offsetX, offsetY, placementX, placementY, width, height,
                      margin, snapPosition, clipBounds, topmost)
    }

    /** What a child's recompute_position reads from this element. */
    function View(): ParentView
      reads this
    {
      ParentView(posX, posY, width, height, padding, absClipBounds, topmost)
    }

    function ParentViewOf(): Option<ParentView>
      reads this, parent
    {
      if parent == null then None else Some(parent.View())
    }

    /** The calls trigger_event makes: one do_callback on the handler bound to
        `name`, if there is one. */
    function TriggerCalls(name: string, message: string, x: real, y: real): seq<Call>
      reads this`events
    {
      if name in events then [DoCallback(events[name], EventData(this, name, message, x, y))] else []
    }

    /** The calls the default on_child_changed makes when invoked. */
    function ChildChangedCalls(): seq<Call>
      reads this`events
    {
      [ChildChanged(this)] + TriggerCalls(ChildChangedEvent, "", 0.0, 0.0)
    }

    predicate ClipNonNegative()
      reads this
    {
      NonNegative(absClipBounds)
    }

    /** recompute_position. A guarded call changes nothing and calls nothing.
        Otherwise the position and clip rectangle are those of Resolve,
        on_bounds_changed is called once, and the parent's on_child_changed
        at most once: only when there is a parent, the element emits changed
        events and its bounds differ from the recorded ones, which are then
        updated. */
    method RecomputePosition(host: Host)
      modifies this`relPosX, this`relPosY, this`posX, this`posY
      modifies this`absClipBounds, this`lastRecordedBounds, host`calls
      ensures old(inUpdateSection) ==> unchanged(this) && host.calls == old(host.calls)
      ensures !old(inUpdateSection) ==>
        var r := Resolve(old(Inputs()), old(ParentViewOf()));
        var current := CurrentBounds(old(Inputs()), r);
        var notify := old(parent) != null && emitsChangedEvent && old(lastRecordedBounds) != current;
        relPosX == r.relX && relPosY == r.relY && posX == r.posX && posY == r.posY &&
        absClipBounds == r.clip &&
        lastRecordedBounds == (if notify then current else old(lastRecordedBounds)) &&
        host.calls == old(host.calls) + [BoundsChanged(this)] +
                      (if notify then old(parent.ChildChangedCalls()) else [])
      ensures !old(inUpdateSection) && (old(parent) != null ==> old(parent.ClipNonNegative())) ==>
        ClipNonNegative()
    {
      if inUpdateSection {
        return;
      }
      ghost var inputs, view := Inputs(), ParentViewOf();

      ResolvePosition();
      ResolveClipRect();
      ghost var r := Resolve(inputs, view);
      assert absClipBounds == r.clip;
      if view.None? || NonNegative(view.value.clip) {
        ResolvedClipNonNegative(inputs, view);
      }

      // on_bounds_changed()
      host.calls := host.calls + [BoundsChanged(this)];

      NotifyParentOfChange(host);
    }

    /** The position half of recompute_position (lines 111-191): the
        anchor-resolved relative position, snapped, plus the parent's absolute
        position and the margin/padding bias. */
    method ResolvePosition()
      modifies this`relPosX, this`relPosY, this`posX, this`posY
      ensures var r := Resolve(old(Inputs()), old(ParentViewOf()));
        relPosX == r.relX && relPosY == r.relY && posX == r.posX && posY == r.posY
    {
      var pposX, pposY := 0.0, 0.0;
      var addX, addY := 0.0, 0.0;

      if parent == null {
        relPosX := offsetX;
        relPosY := offsetY;
      } else {
        pposX, pposY := parent.posX, parent.posY;
        var ppadding := parent.padding;
        var placedY := PlaceAxis(placementY, offsetY, height, parent.height,
                                 margin.top, margin.bottom, ppadding.top, ppadding.bottom);
        var placedX := PlaceAxis(placementX, offsetX, width, parent.width,
                                 margin.left, margin.right, ppadding.left, ppadding.right);
        relPosY, addY := placedY.rel, placedY.bias;
        relPosX, addX := placedX.rel, placedX.bias;
      }

      if snapPosition {
        relPosX := Ceil(relPosX) as real;
        relPosY := Ceil(relPosY) as real;
      }

      posX := relPosX + pposX + addX;
      posY := relPosY + pposY + addY;
    }

    /** The clip half of recompute_position (lines 193-247), from the new
        absolute position. */
    method ResolveClipRect()
      modifies this`absClipBounds
      ensures absClipBounds == ResolveClip(posX, posY, width, height, clipBounds,
                                           Inherited(topmost, old(ParentViewOf())))
    {
      // Candidate clip region, shrunk by the local clip insets.
      var bx1, by1 := posX, posY;
      var bx2, by2 := bx1 + width, by1 + height;
      if clipBounds.Some? {
        bx1 := bx1 + clipBounds.value.left;
        by1 := by1 + clipBounds.value.top;
        bx2 := bx2 - clipBounds.value.right;
        by2 := by2 - clipBounds.value.bottom;
      }
      var candidate := Edges(bx1, by1, bx2, by2);

      // The parent is consulted only when there is one (see IgnoreParentBounds).
      var ignoreParentBounds := IgnoreParentBounds(topmost, if parent == null then None else Some(parent.topmost));

      if parent != null && !ignoreParentBounds {
        var parentBounds := parent.absClipBounds;
        if clipBounds.None? {
          absClipBounds := parentBounds;
        } else {
          absClipBounds := Intersect(candidate, parentBounds);
        }
      } else {
        if clipBounds.None? {
          absClipBounds := Unbounded;
        } else {
          absClipBounds := Clamp(candidate);
        }
      }
    }

    /** The change notification of recompute_position (lines 257-267). */
    method NotifyParentOfChange(host: Host)
      modifies this`lastRecordedBounds, host`calls
      ensures var current := Rect(posX, posY, width, height);
        var notify := parent != null && emitsChangedEvent && old(lastRecordedBounds) != current;
        lastRecordedBounds == (if notify then current else old(lastRecordedBounds)) &&
        host.calls == old(host.calls) + (if notify then old(parent.ChildChangedCalls()) else [])
    {
      var currentBounds := Rect(posX, posY, width, height);
      if parent != null && emitsChangedEvent {
        if lastRecordedBounds != currentBounds {
          lastRecordedBounds := currentBounds;
          parent.OnChildChanged(host);
        }
      }
    }

    /** register_events: registers with the root exactly when there is a root
        and a parent, the element is solid and not yet registered. */
    method RegisterEvents(host: Host) returns (registered: bool)
      modifies this`eventsRegistered, host`calls
      ensures registered == old(root != null && parent != null && !eventsRegistered && solid)
      ensures eventsRegistered == (old(eventsRegistered) || registered)
      ensures host.calls == old(host.calls) + (if registered then [RegisterEventObject(root, this)] else [])
    {
      if root != null && parent != null && !eventsRegistered && solid {
        host.calls := host.calls + [RegisterEventObject(root, this)];
        eventsRegistered := true;
        registered := true;
      } else {
        registered := false;
      }
    }

    /** unregister_events: unregisters from the root exactly when there is a
        root and the element is registered; a no-op otherwise. */
    method UnregisterEvents(host: Host) returns (unregistered: bool)
      modifies this`eventsRegistered, host`calls
      ensures unregistered == old(root != null && eventsRegistered)
      ensures eventsRegistered == (old(eventsRegistered) && !unregistered)
      ensures host.calls == old(host.calls) + (if unregistered then [UnregisterEventObject(root, this)] else [])
    {
      if root != null && eventsRegistered {
        host.calls := host.calls + [UnregisterEventObject(root, this)];
        eventsRegistered := false;
        unregistered := true;
      } else {
        unregistered := false;
      }
    }

    /** reparent_to: always detaches from the current parent first, then
        attaches to the new parent only if it is a container. A refused
        reparent therefore still detaches. */
    method ReparentTo(newParent: Element?, host: Host) returns (status: ReparentStatus)
      requires parent != null ==> parent.isContainer
      modifies host`calls
      ensures status == (if newParent != null && newParent.isContainer then Attached else NotAContainer)
      ensures host.calls == old(host.calls) +
        (if parent != null then [RemoveChild(parent, this)] else []) +
        (if status == Attached then [AddChild(newParent, this)] else [])
    {
      if parent != null {
        host.calls := host.calls + [RemoveChild(parent, this)];
      }
      if newParent == null || !newParent.isContainer {
        return NotAContainer;
      }
      host.calls := host.calls + [AddChild(newParent, this)];
      status := Attached;
    }

    /** request_focus: the root is dereferenced unconditionally. */
    method RequestFocus(host: Host)
      requires root != null
      modifies this`focused, host`calls
      ensures focused
      ensures host.calls == old(host.calls) + [Call.RequestFocus(root, Some(this))]
    {
      host.calls := host.calls + [Call.RequestFocus(root, Some(this))];
      focused := true;
    }

    /** blur: hands the focus to nobody. */
    method Blur(host: Host)
      requires root != null
      modifies this`focused, host`calls
      ensures !focused
      ensures host.calls == old(host.calls) + [Call.RequestFocus(root, None)]
    {
      host.calls := host.calls + [Call.RequestFocus(root, None)];
      focused := false;
    }

    /** fetch_render_index: -1 without a root, else a fresh index from it. */
    method FetchRenderIndex(host: Host)
      modifies this`lastRenderIndex, root, host`calls
      ensures root == null ==> lastRenderIndex == -1 && host.calls == old(host.calls)
      ensures root != null ==>
        lastRenderIndex == old(root.nextRenderIndex) && root.nextRenderIndex > lastRenderIndex &&
        host.calls == old(host.calls) + [Call.AllocateRenderIndex(root)]
    {
      if root == null {
        lastRenderIndex := -1;
      } else {
        lastRenderIndex := root.AllocateRenderIndex(host);
      }
    }

    /** trigger_event: one do_callback, carrying this element, the name, the
        message and the point, if a handler is bound to the name; otherwise
        nothing. */
    method TriggerEvent(name: string, message: string, x: real, y: real, host: Host)
      modifies host`calls
      ensures name !in events ==> host.calls == old(host.calls)
      ensures name in events ==>
        host.calls == old(host.calls) + [DoCallback(events[name], EventData(this, name, message, x, y))]
    {
      if name in events {
        var data := EventData(this, name, message, x, y);
        host.calls := host.calls + [DoCallback(events[name], data)];
      }
    }

    /** on_child_changed (default behaviour): synthesises a child_changed
        event with an empty message at the origin. */
    method OnChildChanged(host: Host)
      modifies host`calls
      ensures host.calls == old(host.calls) + ChildChangedCalls()
    {
      host.calls := host.calls + [ChildChanged(this)];
      TriggerEvent(ChildChangedEvent, "", 0.0, 0.0, host);
    }

    /** set_z_offset: delegated to the parent container when there is a
        parent, applied locally otherwise. */
    method SetZOffset(z: int, host: Host)
      requires parent != null ==> parent.isContainer
      modifies host`calls
      ensures parent != null ==> host.calls == old(host.calls) + [ChangeChildZOffset(parent, this, z)]
      ensures parent == null ==> host.calls == old(host.calls) + [DoSetZOffset(this, z)]
    {
      if parent != null {
        host.calls := host.calls + [ChangeChildZOffset(parent, this, z)];
      } else {
        host.calls := host.calls + [DoSetZOffset(this, z)];
      }
    }
  }
}
