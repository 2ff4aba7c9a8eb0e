/**
  Behaviours of LUIBaseElement that involve more than one call, and the
  worked examples of its layout, clipping, registration and dispatch.
 */
module Scenarios {
  import opened Geometry
  import opened Elements

  // ---------------------------------------------------------------------
  // Layout and clipping examples
  // ---------------------------------------------------------------------

  /** A parent at the origin, 100 by 100, without padding. */
  const Parent100 := ParentView(0.0, 0.0, 100.0, 100.0, ZeroBounds, Rect(0.0, 0.0, 100.0, 100.0), false)

  function Child(mode: Placement, offset: real): Inputs {
    Inputs(offset, offset, mode, mode, 10.0, 10.0, ZeroBounds, true, None, false)
  }

  lemma StartExample()
    ensures Resolve(Child(Default, 5.0), Some(Parent100)) == Resolved(5.0, 5.0, 5.0, 5.0, Parent100.clip)
  {
  }

  lemma EndExample()
    ensures Resolve(Child(Inverse, 5.0), Some(Parent100)) == Resolved(85.0, 85.0, 85.0, 85.0, Parent100.clip)
  {
  }

  lemma CenterExample()
    ensures Resolve(Child(Center, 0.0), Some(Parent100)) == Resolved(45.0, 45.0, 45.0, 45.0, Parent100.clip)
  {
  }

  lemma SnapExample()
    ensures Snap(true, 2.3) == 3.0 && Snap(true, 7.9) == 8.0
  {
  }

  /** A partly overlapping region is cut to the overlap; a region outside
      the parent's clip rectangle collapses to zero extent. */
  lemma ClipExamples()
    ensures ResolveClip(40.0, 40.0, 30.0, 30.0, Some(ZeroBounds), Some(Rect(0.0, 0.0, 50.0, 50.0)))
            == Rect(40.0, 40.0, 10.0, 10.0)
    ensures var r := ResolveClip(60.0, 60.0, 10.0, 10.0, Some(ZeroBounds), Some(Rect(0.0, 0.0, 50.0, 50.0)));
            r.w == 0.0 && r.h == 0.0
  {
  }

  /** Line 208: a topmost element without a parent evaluates is_topmost on a
      null parent. */
  lemma TopmostWithoutParentDereferencesNull()
    ensures IgnoreParentBoundsAsWritten(true, None) == None
    ensures !IgnoreParentBounds(true, None)
  {
  }

  // ---------------------------------------------------------------------
  // Repeated recomputation
  // ---------------------------------------------------------------------

  /** Two recomputations in a row give the same geometry, and only the first
      can notify the parent; the second calls on_bounds_changed alone. */
  method RecomputeTwice(e: Element, host: Host)
    requires e.parent != e && !e.inUpdateSection
    modifies e`relPosX, e`relPosY, e`posX, e`posY, e`absClipBounds, e`lastRecordedBounds, host`calls
    ensures var r := Resolve(old(e.Inputs()), old(e.ParentViewOf()));
      var notify := old(e.parent) != null && e.emitsChangedEvent &&
                    old(e.lastRecordedBounds) != CurrentBounds(old(e.Inputs()), r);
      e.relPosX == r.relX && e.relPosY == r.relY && e.posX == r.posX && e.posY == r.posY &&
      e.absClipBounds == r.clip &&
      host.calls == old(host.calls) + [BoundsChanged(e)] +
                    (if notify then old(e.parent.ChildChangedCalls()) else []) + [BoundsChanged(e)]
  {
    e.RecomputePosition(host);
    e.RecomputePosition(host);
  }

  /** A child of a fresh parent: the first recomputation notifies the
      parent (the recorded bounds start at -1), the second does not. */
  method RecomputeTwiceNotifiesOnce() returns (first: seq<Call>, second: seq<Call>)
    ensures |first| == 2 && first[0].BoundsChanged? && first[1].ChildChanged?
    ensures second == [first[0]]
  {
    var host := new Host();
    var parent := new Element(true);
    var child := new Element(false);
    child.parent := parent;
    child.width, child.height := 10.0, 10.0;
    ghost var inputs, view := child.Inputs(), child.ParentViewOf();
    assert CurrentBounds(inputs, Resolve(inputs, view)).w == 10.0;
    assert parent.ChildChangedCalls() == [ChildChanged(parent)];
    RecomputeTwice(child, host);
    first, second := host.calls[..2], host.calls[2..];
  }

  /** While the update guard is held, recomputation is a silent no-op. */
  method GuardedRecomputeIsSilent() returns (calls: seq<Call>, posX: real)
    ensures calls == [] && posX == 0.0
  {
    var host := new Host();
    var parent := new Element(true);
    var child := new Element(false);
    child.parent := parent;
    child.offsetX := 5.0;
    child.inUpdateSection := true;
    child.RecomputePosition(host);
    calls, posX := host.calls, child.posX;
  }

  // ---------------------------------------------------------------------
  // Registration, dispatch and re-parenting
  // ---------------------------------------------------------------------

  function CountRegistrations(calls: seq<Call>): nat {
    if calls == [] then 0
    else (if calls[0].RegisterEventObject? then 1 else 0) + CountRegistrations(calls[1..])
  }

  /** Registering twice in a row registers with the root once. */
  method RegisterTwiceRegistersOnce() returns (calls: seq<Call>, again: bool)
    ensures CountRegistrations(calls) == 1 && !again
  {
    var host := new Host();
    var root := new Root();
    var parent := new Element(true);
    var e := new Element(false);
    e.parent, e.root, e.solid := parent, root, true;
    var first := e.RegisterEvents(host);
    again := e.RegisterEvents(host);
    calls := host.calls;
  }

  /** Unregistering an element that never registered does nothing. */
  method UnregisterWithoutRegisterIsNoOp() returns (calls: seq<Call>, unregistered: bool)
    ensures calls == [] && !unregistered
  {
    var host := new Host();
    var root := new Root();
    var e := new Element(false);
    e.root := root;
    unregistered := e.UnregisterEvents(host);
    calls := host.calls;
  }

  /** A bound name invokes its handler once with the message and point; an
      unbound name invokes nothing. */
  method DispatchBoundAndUnbound() returns (calls: seq<Call>)
    ensures |calls| == 1 && calls[0].DoCallback?
    ensures calls[0].data.name == "activate" && calls[0].data.message == "msg"
    ensures calls[0].data.x == 1.0 && calls[0].data.y == 2.0
  {
    var host := new Host();
    var e := new Element(false);
    var handler := new Callback();
    e.events := map["activate" := handler];
    e.TriggerEvent("activate", "msg", 1.0, 2.0, host);
    e.TriggerEvent("ghost", "msg", 1.0, 2.0, host);
    calls := host.calls;
  }

  /** Moving between two containers removes from the old one and adds to the
      new one, once each; moving to a non-container still removes. */
  method ReparentExamples() returns (moved: seq<Call>, refused: seq<Call>, status: ReparentStatus)
    ensures |moved| == 2 && moved[0].RemoveChild? && moved[1].AddChild?
    ensures moved[0].child == moved[1].child && moved[0].container != moved[1].container
    ensures status == NotAContainer && |refused| == 1 && refused[0].RemoveChild?
  {
    var host := new Host();
    var a := new Element(true);
    var b := new Element(true);
    var leaf := new Element(false);
    var e := new Element(false);
    e.parent := a;
    var ok := e.ReparentTo(b, host);
    moved := host.calls;
    status := e.ReparentTo(leaf, host);
    refused := host.calls[|moved|..];
  }
}
