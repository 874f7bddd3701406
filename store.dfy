// The application's shared state record: the transition flags and progress,
// the drag-rotation bookkeeping, the pivot velocity, the pending wind
// impulses and the time of the last cloth update. Every setter overwrites
// its own field(s) and nothing else.
module AppState {
  import opened Vectors

  /** A wind gust started by a click on the flag. */
  datatype WindImpulse = WindImpulse(position: Vec3, strength: real, radius: real, decay: real, startTime: real)

  /** The whole record as one value. */
  datatype StoreState = StoreState(
    isDodecahedron: bool,
    isAnimating: bool,
    animationProgress: real,
    isDragging: bool,
    hasDragged: bool,
    previousMouseX: real,
    previousMouseY: real,
    targetQuaternion: Quat,
    autoRotateEnabled: bool,
    sphereVelocity: Vec3,
    windImpulses: seq<WindImpulse>,
    lastClothUpdate: real)

  /** The values the record starts with: flag mode, idle, auto-rotation on, nothing pending. */
  const Initial: StoreState := StoreState(
    false, false, 0.0,
    false, false, 0.0, 0.0, IdentityQuat, true,
    Zero, [], 0.0)

  class Store {
    var isDodecahedron: bool
    var isAnimating: bool
    var animationProgress: real
    var isDragging: bool
    var hasDragged: bool
    var previousMouseX: real
    var previousMouseY: real
    var targetQuaternion: Quat
    var autoRotateEnabled: bool
    var sphereVelocity: Vec3
    var windImpulses: seq<WindImpulse>
    var lastClothUpdate: real

    function Snapshot(): StoreState
      reads this
    {
      StoreState(
        isDodecahedron, isAnimating, animationProgress,
        isDragging, hasDragged, previousMouseX, previousMouseY, targetQuaternion, autoRotateEnabled,
        sphereVelocity, windImpulses, lastClothUpdate)
    }

    constructor ()
      ensures Snapshot() == Initial
    {
      isDodecahedron, isAnimating, animationProgress := false, false, 0.0;
      isDragging, hasDragged := false, false;
      previousMouseX, previousMouseY := 0.0, 0.0;
      targetQuaternion := IdentityQuat;
      autoRotateEnabled := true;
      sphereVelocity := Zero;
      windImpulses := [];
      lastClothUpdate := 0.0;
    }

    method SetIsDodecahedron(value: bool)
      modifies this`isDodecahedron
      ensures Snapshot() == old(Snapshot()).(isDodecahedron := value)
    {
      isDodecahedron := value;
    }

    method SetIsAnimating(value: bool)
      modifies this`isAnimating
      ensures Snapshot() == old(Snapshot()).(isAnimating := value)
    {
      isAnimating := value;
    }

    method SetAnimationProgress(value: real)
      modifies this`animationProgress
      ensures Snapshot() == old(Snapshot()).(animationProgress := value)
    {
      animationProgress := value;
    }

    method SetIsDragging(value: bool)
      modifies this`isDragging
      ensures Snapshot() == old(Snapshot()).(isDragging := value)
    {
      isDragging := value;
    }

    method SetHasDragged(value: bool)
      modifies this`hasDragged
      ensures Snapshot() == old(Snapshot()).(hasDragged := value)
    {
      hasDragged := value;
    }

    /** Both pointer coordinates are recorded together. */
    method SetPreviousMouse(x: real, y: real)
      modifies this`previousMouseX, this`previousMouseY
      ensures Snapshot() == old(Snapshot()).(previousMouseX := x, previousMouseY := y)
    {
      previousMouseX, previousMouseY := x, y;
    }

    method SetTargetQuaternion(quat: Quat)
      modifies this`targetQuaternion
      ensures Snapshot() == old(Snapshot()).(targetQuaternion := quat)
    {
      targetQuaternion := quat;
    }

    method SetAutoRotateEnabled(value: bool)
      modifies this`autoRotateEnabled
      ensures Snapshot() == old(Snapshot()).(autoRotateEnabled := value)
    {
      autoRotateEnabled := value;
    }

    /** The list becomes a copy of itself with the new impulse at the end. */
    method AddWindImpulse(impulse: WindImpulse)
      modifies this`windImpulses
      ensures Snapshot() == old(Snapshot()).(windImpulses := old(windImpulses) + [impulse])
    {
      windImpulses := windImpulses + [impulse];
    }

    /** The whole list is replaced. */
    method SetWindImpulses(impulses: seq<WindImpulse>)
      modifies this`windImpulses
      ensures Snapshot() == old(Snapshot()).(windImpulses := impulses)
    {
      windImpulses := impulses;
    }

    method SetLastClothUpdate(time: real)
      modifies this`lastClothUpdate
      ensures Snapshot() == old(Snapshot()).(lastClothUpdate := time)
    {
      lastClothUpdate := time;
    }
  }
}
