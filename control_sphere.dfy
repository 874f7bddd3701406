// The invisible pivot the star shell hangs on: a damped spring pulls it back
// to its rest position, its orientation eases towards the target rotation held
// in the state record, and while the shell is shown the target spins slowly
// about the vertical axis. The rendering library's spherical interpolation and
// its Euler-angle rotation are transcendental and are taken as parameters.
module PivotSpring {
  import opened Vectors
  import opened Constants
  import opened AppState

  /** `sphereRestPosition`: 25 units in front of the flag. */
  const RestPosition: Vec3 := Vec3(0.0, 0.0, SphereRestZ)

  /**
   * One spring step of `updatePhysics`, as the pair (position, velocity): the
   * velocity gains SPRING_STRENGTH times the displacement to rest and is then
   * damped by SPRING_DAMPING; the position moves by the new velocity.
   */
  function SpringStep(position: Vec3, velocity: Vec3): (Vec3, Vec3) {
    var v := Scale(Add(velocity, Scale(Sub(RestPosition, position), SpringStrength)), SpringDamping);
    (Add(position, v), v)
  }

  /** The pivot is left where it is exactly when it sits at rest with no velocity. */
  lemma SpringFixedPoint(position: Vec3, velocity: Vec3)
    ensures SpringStep(position, velocity) == (position, velocity)
        <==> position == RestPosition && velocity == Zero
  {
    var r := SpringStep(position, velocity);
    if r == (position, velocity) {
      assert Add(position, velocity) == position;
      assert velocity == Zero;
      assert Scale(Scale(Sub(RestPosition, position), SpringStrength), SpringDamping) == Zero;
    }
  }

  /**
   * From standstill the pivot moves the fraction SPRING_STRENGTH *
   * SPRING_DAMPING (0.9 %) of the way to its rest position, and its new
   * velocity is that same move.
   */
  lemma SpringFromStandstill(position: Vec3)
    ensures SpringStep(position, Zero).0 == Lerp(position, RestPosition, SpringStrength * SpringDamping)
    ensures SpringStep(position, Zero).1 == Sub(SpringStep(position, Zero).0, position)
  {
  }

  /**
   * The spin of one `updateAutoRotation` call: 0.004 radians per 16 ms frame,
   * so a quarter of a radian per second of elapsed time.
   */
  function AutoRotateAngle(deltaTime: real): (r: real)
    ensures r == deltaTime / 4.0
  {
    0.004 * (deltaTime / 0.016)
  }

  /** Splitting the elapsed time over two calls gives the same total spin. */
  lemma AutoRotateAdditive(d1: real, d2: real)
    ensures AutoRotateAngle(d1 + d2) == AutoRotateAngle(d1) + AutoRotateAngle(d2)
  {
  }

  /** The auto-rotation guard: the shell is shown or in transition, and the user has not grabbed it. */
  predicate AutoRotates(s: StoreState) {
    (s.isDodecahedron || s.isAnimating) && s.autoRotateEnabled
  }

  class ControlSphere {
    var position: Vec3
    var quaternion: Quat

    /** The pivot starts at rest, unrotated, and copies its rotation into the record's target. */
    constructor (store: Store)
      modifies store`targetQuaternion
      ensures position == RestPosition && quaternion == IdentityQuat
      ensures store.Snapshot() == old(store.Snapshot()).(targetQuaternion := IdentityQuat)
    {
      position := RestPosition;
      quaternion := IdentityQuat;
      new;
      store.targetQuaternion := quaternion;
    }

    /**
     * `updatePhysics`: the rotation moves the fraction DAMPING_FACTOR of the
     * way to the target, and position and the record's velocity take one
     * spring step; nothing else in the record changes.
     */
    method UpdatePhysics(store: Store, slerp: (Quat, Quat, real) -> Quat)
      modifies this, store`sphereVelocity
      ensures quaternion == slerp(old(quaternion), store.targetQuaternion, DampingFactor)
      ensures (position, store.sphereVelocity) == SpringStep(old(position), old(store.sphereVelocity))
      ensures store.Snapshot() == old(store.Snapshot()).(sphereVelocity := store.sphereVelocity)
    {
      quaternion := slerp(quaternion, store.targetQuaternion, DampingFactor);
      var displacement := Sub(RestPosition, position);
      var springForce := Scale(displacement, SpringStrength);
      store.sphereVelocity := Add(store.sphereVelocity, springForce);
      store.sphereVelocity := Scale(store.sphereVelocity, SpringDamping);
      position := Add(position, store.sphereVelocity);
    }

    /**
     * `updateAutoRotation`: under the guard the target is pre-multiplied by
     * the spin about the vertical axis (`yaw(angle)` is the library's rotation
     * from Euler angles (0, angle, 0)); otherwise the record is left alone.
     */
    method UpdateAutoRotation(store: Store, deltaTime: real, yaw: real -> Quat)
      modifies store`targetQuaternion
      ensures AutoRotates(old(store.Snapshot())) ==>
        store.Snapshot() == old(store.Snapshot()).(targetQuaternion :=
          QuatMul(yaw(AutoRotateAngle(deltaTime)), old(store.targetQuaternion)))
      ensures !AutoRotates(old(store.Snapshot())) ==> store.Snapshot() == old(store.Snapshot())
    {
      var state := store.Snapshot();
      if (state.isDodecahedron || state.isAnimating) && state.autoRotateEnabled {
        var autoRotateSpeed := 0.004 * (deltaTime / 0.016);
        var autoRotateQuat := yaw(autoRotateSpeed);
        var newQuat := QuatMul(autoRotateQuat, state.targetQuaternion);
        store.SetTargetQuaternion(newQuat);
      }
    }
  }

  /** A spin by angle zero (the identity rotation) leaves the target as it is. */
  lemma ZeroSpinKeepsTarget(target: Quat, yaw: real -> Quat)
    requires yaw(0.0) == IdentityQuat
    ensures QuatMul(yaw(AutoRotateAngle(0.0)), target) == target
  {
    QuatMulIdentity(target);
  }
}
