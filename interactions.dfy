// The pointer handlers. A click toggles between the flag and the star shell,
// starting a wind gust when it lands on the flag and pushing the pivot when it
// lands on a star; right after a drag it only ends the drag. A press, moves
// and a release rotate the shell. Each handler is first a function on the
// state record, then a method on the store proved to have that effect. The
// ray casts are inputs (`None` for a miss); the mouse and touch handlers are
// the same code and are modelled once, with the touch's first contact as the
// pointer.
module Interactions {
  import opened Vectors
  import opened AppState
  import opened Wrappers

  /** The push a star click gives the pivot, as the click handler defines it locally. */
  const ClickPushStrength: real := 0.015

  /** The gust a click on the flag starts at the hit point. */
  function FlagImpulse(point: Vec3, now: real): WindImpulse {
    WindImpulse(point, 20.0, 25.0, 0.8, now)
  }

  function Abs(x: real): real {
    if x < 0.0 then -x else x
  }

  // ---------------------------------------------------------------------
  // Click

  /**
   * The click handler on the record: after a drag only `hasDragged` is
   * cleared; in shell mode or mid-transition a star hit pushes the pivot away
   * from the star and the transition heads back to the flag; in flag mode a
   * hit on the flag starts a gust and the transition to the shell, and a miss
   * does nothing.
   */
  function Click(s: StoreState, starHit: Option<Vec3>, flagHit: Option<Vec3>, spherePosition: Vec3, now: real): StoreState {
    if s.hasDragged then
      s.(hasDragged := false)
    else if s.isDodecahedron || s.isAnimating then
      var velocity :=
        if starHit.Some? then Add(s.sphereVelocity, Scale(Sub(starHit.value, spherePosition), -ClickPushStrength))
        else s.sphereVelocity;
      s.(sphereVelocity := velocity, isDodecahedron := false, isAnimating := true, autoRotateEnabled := true)
    else if flagHit.None? then
      s
    else
      s.(windImpulses := s.windImpulses + [FlagImpulse(flagHit.value, now)],
         isDodecahedron := true, isAnimating := true, autoRotateEnabled := true)
  }

  /** A click never touches the drag bookkeeping (other than `hasDragged`), the rotation, the progress or the cloth clock. */
  lemma ClickFrame(s: StoreState, starHit: Option<Vec3>, flagHit: Option<Vec3>, spherePosition: Vec3, now: real)
    ensures var r := Click(s, starHit, flagHit, spherePosition, now);
      && r.isDragging == s.isDragging
      && r.previousMouseX == s.previousMouseX && r.previousMouseY == s.previousMouseY
      && r.targetQuaternion == s.targetQuaternion
      && r.animationProgress == s.animationProgress
      && r.lastClothUpdate == s.lastClothUpdate
      && !r.hasDragged
  {
  }

  /**
   * Without a preceding drag, a click while the shell is shown or a
   * transition runs always heads back to the flag, whichever way the
   * transition was going, and starts no gust.
   */
  lemma ClickReturnsToFlag(s: StoreState, starHit: Option<Vec3>, flagHit: Option<Vec3>, spherePosition: Vec3, now: real)
    requires !s.hasDragged && (s.isDodecahedron || s.isAnimating)
    ensures var r := Click(s, starHit, flagHit, spherePosition, now);
      && !r.isDodecahedron && r.isAnimating && r.autoRotateEnabled
      && r.windImpulses == s.windImpulses
      && (starHit.None? ==> r.sphereVelocity == s.sphereVelocity)
  {
  }

  /**
   * A star hit changes the pivot's velocity by a vector pointing from the hit
   * star back through the pivot: its component along pivot-to-star is
   * -0.015 times that distance squared, never positive.
   */
  lemma StarPushPointsAway(s: StoreState, hit: Vec3, flagHit: Option<Vec3>, spherePosition: Vec3, now: real)
    requires !s.hasDragged && (s.isDodecahedron || s.isAnimating)
    ensures var r := Click(s, Some(hit), flagHit, spherePosition, now);
      var d := Sub(hit, spherePosition);
      && Dot(Sub(r.sphereVelocity, s.sphereVelocity), d) == -ClickPushStrength * LengthSq(d)
      && Dot(Sub(r.sphereVelocity, s.sphereVelocity), d) <= 0.0
  {
    var r := Click(s, Some(hit), flagHit, spherePosition, now);
    var d := Sub(hit, spherePosition);
    assert Sub(r.sphereVelocity, s.sphereVelocity) == Scale(d, -ClickPushStrength);
    LengthSqNonNegative(d);
  }

  /**
   * In flag mode a click on the flag appends exactly one gust, the standard
   * one at the hit point, and starts the transition to the shell; a miss
   * changes nothing.
   */
  lemma ClickOnFlag(s: StoreState, starHit: Option<Vec3>, flagHit: Option<Vec3>, spherePosition: Vec3, now: real)
    requires !s.hasDragged && !s.isDodecahedron && !s.isAnimating
    ensures flagHit.None? ==> Click(s, starHit, flagHit, spherePosition, now) == s
    ensures flagHit.Some? ==>
      var r := Click(s, starHit, flagHit, spherePosition, now);
      && |r.windImpulses| == |s.windImpulses| + 1
      && r.windImpulses[..|s.windImpulses|] == s.windImpulses
      && r.windImpulses[|s.windImpulses|] == WindImpulse(flagHit.value, 20.0, 25.0, 0.8, now)
      && r.isDodecahedron && r.isAnimating && r.autoRotateEnabled
      && r.sphereVelocity == s.sphereVelocity
  {
    if flagHit.Some? {
      var r := Click(s, starHit, flagHit, spherePosition, now);
      assert r.windImpulses == s.windImpulses + [FlagImpulse(flagHit.value, now)];
    }
  }

  /** After a drag a click changes nothing but `hasDragged`: no toggle, no gust, no push. */
  lemma ClickAfterDrag(s: StoreState, starHit: Option<Vec3>, flagHit: Option<Vec3>, spherePosition: Vec3, now: real)
    requires s.hasDragged
    ensures Click(s, starHit, flagHit, spherePosition, now).(hasDragged := true) == s
  {
  }

  // ---------------------------------------------------------------------
  // Press, move, release

  /** `mousedown` / `touchstart`: dragging starts afresh at the pointer. */
  function Press(s: StoreState, x: real, y: real): StoreState {
    s.(isDragging := true, hasDragged := false, previousMouseX := x, previousMouseY := y)
  }

  /**
   * `mousemove` / `touchmove`: while dragging, a move of more than one pixel
   * on either axis marks a drag and stops the auto-rotation; every dragging
   * move pre-multiplies the target by `rotation(dx, dy)`, the library's
   * rotation for the pointer deltas, and records the pointer.
   */
  function Move(s: StoreState, x: real, y: real, rotation: (real, real) -> Quat): StoreState {
    if !s.isDragging then s
    else
      var deltaX := x - s.previousMouseX;
      var deltaY := y - s.previousMouseY;
      var marked := if Abs(deltaX) > 1.0 || Abs(deltaY) > 1.0 then s.(hasDragged := true, autoRotateEnabled := false) else s;
      marked.(targetQuaternion := QuatMul(rotation(deltaX, deltaY), s.targetQuaternion),
              previousMouseX := x, previousMouseY := y)
  }

  /** `mouseup` / `touchend`. */
  function Release(s: StoreState): StoreState {
    s.(isDragging := false)
  }

  /** A move touches only the drag bookkeeping, the rotation and the auto-rotation switch. */
  lemma MoveFrame(s: StoreState, x: real, y: real, rotation: (real, real) -> Quat)
    ensures var r := Move(s, x, y, rotation);
      && r.isDodecahedron == s.isDodecahedron && r.isAnimating == s.isAnimating
      && r.animationProgress == s.animationProgress && r.isDragging == s.isDragging
      && r.sphereVelocity == s.sphereVelocity && r.windImpulses == s.windImpulses
      && r.lastClothUpdate == s.lastClothUpdate
      && (s.hasDragged ==> r.hasDragged)
      && (s.isDragging ==> r.previousMouseX == x && r.previousMouseY == y)
      && (!s.isDragging ==> r == s)
  {
  }

  /**
   * A press, a move of more than one pixel and a release form a drag: the
   * click that follows toggles nothing, starts no gust and pushes nothing,
   * and the auto-rotation stays off.
   */
  lemma DragSuppressesClick(s: StoreState, x0: real, y0: real, x1: real, y1: real, rotation: (real, real) -> Quat,
                            starHit: Option<Vec3>, flagHit: Option<Vec3>, spherePosition: Vec3, now: real)
    requires Abs(x1 - x0) > 1.0 || Abs(y1 - y0) > 1.0
    ensures var dragged := Release(Move(Press(s, x0, y0), x1, y1, rotation));
      var r := Click(dragged, starHit, flagHit, spherePosition, now);
      && r.isDodecahedron == s.isDodecahedron && r.isAnimating == s.isAnimating
      && r.windImpulses == s.windImpulses && r.sphereVelocity == s.sphereVelocity
      && !r.autoRotateEnabled && !r.hasDragged && !r.isDragging
      && r.targetQuaternion == QuatMul(rotation(x1 - x0, y1 - y0), s.targetQuaternion)
  {
  }

  /**
   * A press and moves of at most one pixel on each axis are not a drag: the
   * following click acts as if the pointer had not moved.
   */
  lemma SmallMoveKeepsClick(s: StoreState, x0: real, y0: real, x1: real, y1: real, rotation: (real, real) -> Quat,
                            starHit: Option<Vec3>, flagHit: Option<Vec3>, spherePosition: Vec3, now: real)
    requires Abs(x1 - x0) <= 1.0 && Abs(y1 - y0) <= 1.0
    ensures var t := Release(Move(Press(s, x0, y0), x1, y1, rotation));
      && !t.hasDragged && t.autoRotateEnabled == s.autoRotateEnabled
      && Click(t, starHit, flagHit, spherePosition, now)
         == Click(s.(hasDragged := false), starHit, flagHit, spherePosition, now)
              .(isDragging := false, targetQuaternion := t.targetQuaternion, previousMouseX := x1, previousMouseY := y1)
  {
  }

  // ---------------------------------------------------------------------
  // The handlers on the store

  /** The click handler: the record ends as `Click` says. */
  method HandleClick(store: Store, starHit: Option<Vec3>, flagHit: Option<Vec3>, spherePosition: Vec3, now: real)
    modifies store
    ensures store.Snapshot() == Click(old(store.Snapshot()), starHit, flagHit, spherePosition, now)
  {
    var state := store.Snapshot();
    if state.hasDragged {
      store.SetHasDragged(false);
      return;
    }
    if state.isDodecahedron || state.isAnimating {
      if starHit.Some? {
        var worldNormal := Sub(starHit.value, spherePosition);
        // The velocity vector is updated in place, not through a setter.
        store.sphereVelocity := Add(store.sphereVelocity, Scale(worldNormal, -ClickPushStrength));
      }
      store.SetIsDodecahedron(false);
      store.SetIsAnimating(true);
      store.SetAutoRotateEnabled(true);
      return;
    }
    if flagHit.None? {
      return;
    }
    store.AddWindImpulse(FlagImpulse(flagHit.value, now));
    store.SetIsDodecahedron(true);
    store.SetIsAnimating(true);
    store.SetAutoRotateEnabled(true);
  }

  method HandlePress(store: Store, x: real, y: real)
    modifies store
    ensures store.Snapshot() == Press(old(store.Snapshot()), x, y)
  {
    store.SetIsDragging(true);
    store.SetHasDragged(false);
    store.SetPreviousMouse(x, y);
  }

  method HandleMove(store: Store, x: real, y: real, rotation: (real, real) -> Quat)
    modifies store
    ensures store.Snapshot() == Move(old(store.Snapshot()), x, y, rotation)
  {
    var state := store.Snapshot();
    if !state.isDragging {
      return;
    }
    var deltaX := x - state.previousMouseX;
    var deltaY := y - state.previousMouseY;
    if Abs(deltaX) > 1.0 || Abs(deltaY) > 1.0 {
      store.SetHasDragged(true);
      store.SetAutoRotateEnabled(false);
    }
    var newQuat := QuatMul(rotation(deltaX, deltaY), state.targetQuaternion);
    store.SetTargetQuaternion(newQuat);
    store.SetPreviousMouse(x, y);
  }

  method HandleRelease(store: Store)
    modifies store
    ensures store.Snapshot() == Release(old(store.Snapshot()))
  {
    store.SetIsDragging(false);
  }
}
