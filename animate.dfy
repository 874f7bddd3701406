// The per-frame loop of the application: the frame time, the cloth and
// pivot updates, the transition progress between the flag and the star shell,
// and the pose every star is given — blended between its place on the cloth
// and its place on the shell while a transition runs, and taken from one of
// the two otherwise. The rendering library's quaternion interpolation and its
// rotation between two unit vectors are taken as parameters, as are the
// frame clock, the wind field of the frame and the other oracles the parts
// below need.
module Animation {
  import opened Wrappers
  import opened Vectors
  import opened Constants
  import opened Cloth
  import opened AppState
  import opened ClothSimulation
  import opened Easing
  import opened Flag
  import opened PivotSpring
  import opened StarGroup

  /** The stagger delay the transition passes to `calculateStaggeredProgress`. */
  const StaggerDelay: real := 0.6

  /** How far in front of the cloth a star floats. */
  const FlagLift: real := 0.1

  /** The direction a star on the flag faces before it is turned to the cloth normal. */
  const FlagUp: Vec3 := Vec3(0.0, 0.0, 1.0)

  // ---------------------------------------------------------------------
  // Frame time and transition progress

  /**
   * The frame's elapsed time in seconds: 0.016 on the first frame (no
   * previous time yet), the clock difference in seconds afterwards.
   */
  function FrameDelta(lastTime: real, now: real): (dt: real)
    ensures lastTime == 0.0 ==> dt == 0.016
    ensures lastTime != 0.0 ==> dt * 1000.0 == now - lastTime
  {
    if lastTime == 0.0 then 0.016 else (now - lastTime) / 1000.0
  }

  /** The transition's progress after a frame, and whether it is still running. */
  datatype Transition = Transition(progress: real, animating: bool)

  /**
   * One frame of a running transition: towards the shell the progress rises
   * by the frame's share of ANIMATION_DURATION and stops at 1, towards the
   * flag it falls by the same share and stops at 0.
   */
  function Advance(progress: real, isDodecahedron: bool, deltaTime: real): Transition {
    var progressDelta := deltaTime / AnimationDuration;
    if isDodecahedron then
      var p := progress + progressDelta;
      if p >= 1.0 then Transition(1.0, false) else Transition(p, true)
    else
      var p := progress - progressDelta;
      if p <= 0.0 then Transition(0.0, false) else Transition(p, true)
  }

  /** A transition stops exactly when it has arrived: at 1 towards the shell, at 0 towards the flag. */
  lemma AdvanceStopsOnArrival(progress: real, isDodecahedron: bool, deltaTime: real)
    ensures var t := Advance(progress, isDodecahedron, deltaTime);
      !t.animating <==> t.progress == (if isDodecahedron then 1.0 else 0.0)
  {
  }

  /**
   * Progress in [0, 1] stays in [0, 1] and moves only in the transition's
   * direction, by at most the frame's share of the duration.
   */
  lemma AdvanceInRange(progress: real, isDodecahedron: bool, deltaTime: real)
    requires 0.0 <= progress <= 1.0 && 0.0 <= deltaTime
    ensures var t := Advance(progress, isDodecahedron, deltaTime);
      && 0.0 <= t.progress <= 1.0
      && (isDodecahedron ==> progress <= t.progress <= progress + deltaTime / AnimationDuration)
      && (!isDodecahedron ==> progress - deltaTime / AnimationDuration <= t.progress <= progress)
  {
    assert 0.0 <= deltaTime / AnimationDuration;
  }

  /**
   * A whole duration's worth of frame time always finishes a transition,
   * from any progress in [0, 1].
   */
  lemma AdvanceFullDurationArrives(progress: real, isDodecahedron: bool, deltaTime: real)
    requires 0.0 <= progress <= 1.0 && AnimationDuration <= deltaTime
    ensures !Advance(progress, isDodecahedron, deltaTime).animating
  {
    assert deltaTime / AnimationDuration >= 1.0;
  }

  // ---------------------------------------------------------------------
  // Star poses

  /** A star's position and rotation. */
  datatype Pose = Pose(position: Vec3, quaternion: Quat)

  /** The star's place on the shell: its dodecahedron place turned by the pivot and moved to it. */
  function RigidPose(d: StarDatum, pivotQuaternion: Quat, pivotPosition: Vec3): Pose {
    Pose(Add(Rotate(d.dodecahedronPos, pivotQuaternion), pivotPosition), QuatMul(pivotQuaternion, d.dodecahedronRot))
  }

  /**
   * The star's place on the cloth: the cloth sample lifted by 0.1 towards
   * the viewer, turned from facing +z to facing along the cloth normal.
   */
  function FlagPose(sample: Sample, fromUnitVectors: (Vec3, Vec3) -> Quat): Pose {
    var p := sample.position;
    Pose(p.(z := p.z + FlagLift), fromUnitVectors(FlagUp, sample.normal))
  }

  /** How far along its own transition star d is: its staggered progress, eased. */
  function BlendWeight(progress: real, d: StarDatum, count: nat): (t: real)
    requires 0 < count
  {
    EaseInOutQuint(StaggeredProgress(progress, d.staggerIndex as real, count as real, StaggerDelay))
  }

  /**
   * The weight lies in [0, 1], never falls as the overall progress rises,
   * and is never larger for a star further down the stagger order.
   */
  lemma BlendWeightMonotonic(p1: real, p2: real, d: StarDatum, e: StarDatum, count: nat)
    requires 0 < count && p1 <= p2 && d.staggerIndex <= e.staggerIndex
    ensures 0.0 <= BlendWeight(p1, d, count) <= 1.0
    ensures BlendWeight(p1, d, count) <= BlendWeight(p2, d, count)
    ensures BlendWeight(p1, e, count) <= BlendWeight(p1, d, count)
  {
    var n, i, j := count as real, d.staggerIndex as real, e.staggerIndex as real;
    var s1, s2 := StaggeredProgress(p1, i, n, StaggerDelay), StaggeredProgress(p2, i, n, StaggerDelay);
    EaseInRange(s1);
    StaggeredMonotonicInProgress(p1, p2, i, n, StaggerDelay);
    EaseMonotonic(s1, s2);
    var s3 := StaggeredProgress(p1, j, n, StaggerDelay);
    StaggeredAntitoneInIndex(p1, i, j, n, StaggerDelay);
    EaseMonotonic(s3, s1);
  }

  /**
   * A star's pose mid-transition: the linear blend from its flag pose to its
   * shell pose, and the interpolated rotation, both at its blend weight.
   */
  function AnimatedPose(d: StarDatum, sample: Sample, pivotQuaternion: Quat, pivotPosition: Vec3,
                        progress: real, count: nat,
                        slerp: (Quat, Quat, real) -> Quat, fromUnitVectors: (Vec3, Vec3) -> Quat): Pose
    requires 0 < count
  {
    var flag := FlagPose(sample, fromUnitVectors);
    var rigid := RigidPose(d, pivotQuaternion, pivotPosition);
    var t := BlendWeight(progress, d, count);
    Pose(Lerp(flag.position, rigid.position, t), slerp(flag.quaternion, rigid.quaternion, t))
  }

  /** A star's pose with no transition running: on the shell or on the flag. */
  function SteadyPose(d: StarDatum, sample: Sample, pivotQuaternion: Quat, pivotPosition: Vec3,
                      isDodecahedron: bool, fromUnitVectors: (Vec3, Vec3) -> Quat): Pose
  {
    if isDodecahedron then RigidPose(d, pivotQuaternion, pivotPosition) else FlagPose(sample, fromUnitVectors)
  }

  /** What the library's quaternion interpolation promises at its two ends. */
  ghost predicate SlerpEndpoints(slerp: (Quat, Quat, real) -> Quat) {
    forall a, b :: slerp(a, b, 0.0) == a && slerp(a, b, 1.0) == b
  }

  /**
   * The blend meets the steady poses: a transition that has arrived at 1
   * leaves every star exactly in its shell pose, one that has arrived at 0
   * exactly in its flag pose, so the frame after the transition stops draws
   * the same picture.
   */
  lemma AnimatedPoseArrives(d: StarDatum, sample: Sample, pivotQuaternion: Quat, pivotPosition: Vec3, count: nat,
                            slerp: (Quat, Quat, real) -> Quat, fromUnitVectors: (Vec3, Vec3) -> Quat)
    requires 0 < count && d.staggerIndex <= count && SlerpEndpoints(slerp)
    ensures AnimatedPose(d, sample, pivotQuaternion, pivotPosition, 1.0, count, slerp, fromUnitVectors)
         == SteadyPose(d, sample, pivotQuaternion, pivotPosition, true, fromUnitVectors)
    ensures AnimatedPose(d, sample, pivotQuaternion, pivotPosition, 0.0, count, slerp, fromUnitVectors)
         == SteadyPose(d, sample, pivotQuaternion, pivotPosition, false, fromUnitVectors)
  {
    StaggeredEndpoints(d.staggerIndex as real, count as real, StaggerDelay);
    EaseFixedPoints();
  }

  // ---------------------------------------------------------------------
  // The application

  /** The pose arrays as the set-up leaves them: every star at its dodecahedron place. */
  method DodecahedronPoses(data: seq<StarDatum>) returns (ps: array<Vec3>, qs: array<Quat>)
    ensures fresh(ps) && fresh(qs) && ps.Length == qs.Length == |data|
    ensures forall i :: 0 <= i < |data| ==> ps[i] == data[i].dodecahedronPos && qs[i] == data[i].dodecahedronRot
  {
    ps := new Vec3[|data|](i requires 0 <= i < |data| => data[i].dodecahedronPos);
    qs := new Quat[|data|](i requires 0 <= i < |data| => data[i].dodecahedronRot);
  }

  class App {
    /** The previous frame's clock reading, 0 before the first frame. */
    var lastTime: real
    const store: Store
    const flag: FlagMesh
    const sphere: ControlSphere
    const starData: seq<StarDatum>
    /** The stars' positions and rotations, star i at index i. */
    const positions: array<Vec3>
    const quaternions: array<Quat>

    /**
     * A well-formed flag, at least one star, one pose slot per star, and a
     * flag place for every star.
     */
    ghost predicate Valid() {
      flag.Valid() && Posable()
    }

    /** What the pose loops need: a sampled cloth, one pose slot and one flag place per star. */
    ghost predicate Posable() {
      && flag.cloth.Shaped()
      && 0 < |starData| == positions.Length == quaternions.Length
      && forall i :: 0 <= i < |starData| ==> starData[i].flag.Some?
    }

    /** The cloth sample under star i's flag place. */
    function SampleFor(i: nat, sqrt: real -> real): Sample
      requires Posable() && i < |starData|
      reads flag.cloth.particles
    {
      var place := starData[i].flag.value;
      flag.GetPositionAtUV(place.u, place.v, sqrt)
    }

    /**
     * The set-up at the top of the program: the star data over the twelve
     * icosahedron vertices, each star drawn at its dodecahedron place, the
     * pivot, the flag, and no frame seen yet.
     */
    constructor (store: Store, vertices: seq<Vec3>, random: nat -> real, sqrt: real -> real,
                 lookAt: (Vec3, Vec3, Vec3) -> Quat, cos: real -> real, sin: real -> real)
      requires IsRandom(random) && |vertices| == FlagStars
      modifies store`targetQuaternion
      ensures Valid() && lastTime == 0.0 && this.store == store
      ensures |starData| == |vertices|
      ensures forall i :: 0 <= i < |vertices| ==>
        starData[i] == StarDatumAt(vertices, Shuffled(|vertices|, random), i, sqrt, lookAt, cos, sin)
      ensures forall i :: 0 <= i < |vertices| ==>
        positions[i] == vertices[i] && quaternions[i] == Orientation(vertices[i], sqrt, lookAt)
      ensures sphere.position == PivotSpring.RestPosition && sphere.quaternion == IdentityQuat
      ensures flag.cloth.w == YSegs && flag.cloth.h == XSegs && flag.params == Params
      ensures flag.cloth.States() == RestStates(flag.cloth.w, flag.cloth.h, Mass)
      ensures store.Snapshot() == old(store.Snapshot()).(targetQuaternion := IdentityQuat)
      ensures fresh(positions) && fresh(quaternions) && fresh(sphere)
    {
      var data := CreateStarData(vertices, random, sqrt, lookAt, cos, sin);
      var s := new ControlSphere(store);
      var f := new FlagMesh();
      var ps, qs := DodecahedronPoses(data);
      this.store, sphere, flag, starData := store, s, f, data;
      positions, quaternions := ps, qs;
      lastTime := 0.0;
    }

    /**
     * `animate(now)`: the frame time from the previous clock reading, which
     * becomes `now`; the flag update; the pivot's auto-rotation and spring
     * step; then, with the record as it was at the start of the frame, either
     * one step of the running transition and the blended poses, or the
     * steady poses.
     */
    method Animate(now: real, wind: nat -> Vec3, sqrt: real -> real, pow: (real, real) -> real,
                   yaw: real -> Quat, slerp: (Quat, Quat, real) -> Quat, fromUnitVectors: (Vec3, Vec3) -> Quat)
      requires Valid() && IsSqrt(sqrt)
      modifies this`lastTime, sphere, flag.cloth.particles, flag.geometry, flag.geometry.data
      modifies store`lastClothUpdate, store`windImpulses, store`targetQuaternion, store`sphereVelocity
      modifies store`isAnimating, store`animationProgress
      modifies positions, quaternions
      ensures Valid()
      ensures lastTime == now
      ensures store.isDodecahedron == old(store.isDodecahedron)
      ensures (store.isDragging, store.hasDragged, store.previousMouseX, store.previousMouseY, store.autoRotateEnabled)
           == old((store.isDragging, store.hasDragged, store.previousMouseX, store.previousMouseY, store.autoRotateEnabled))
      ensures old(store.isAnimating) ==>
        Transition(store.animationProgress, store.isAnimating)
          == Advance(old(store.animationProgress), old(store.isDodecahedron), FrameDelta(old(lastTime), now))
      ensures !old(store.isAnimating) ==>
        store.animationProgress == old(store.animationProgress) && !store.isAnimating
      ensures forall i :: 0 <= i < |starData| ==>
        Pose(positions[i], quaternions[i])
          == if old(store.isAnimating)
             then AnimatedPose(starData[i], SampleFor(i, sqrt), sphere.quaternion, sphere.position,
                               store.animationProgress, |starData|, slerp, fromUnitVectors)
             else SteadyPose(starData[i], SampleFor(i, sqrt), sphere.quaternion, sphere.position,
                             store.isDodecahedron, fromUnitVectors)
    {
      var state := store.Snapshot();
      var deltaTime := FrameDelta(lastTime, now);
      lastTime := now;
      UpdateScene(now, deltaTime, wind, sqrt, pow, yaw, slerp);
      UpdateStars(state.isDodecahedron, state.isAnimating, state.animationProgress, deltaTime, sqrt, slerp, fromUnitVectors);
    }

    /**
     * The flag update, then the pivot's auto-rotation and spring step: once
     * the update interval has passed the cloth takes one tick, the vertex
     * buffer takes the new particle positions and is flagged for upload, and
     * the record takes the step time and the pruned impulses; otherwise the
     * cloth, the buffer and those fields stay. The target rotation spins
     * under the auto-rotation guard; the pivot takes one spring step and
     * eases towards the (new) target. Nothing else in the record changes.
     */
    method UpdateScene(now: real, deltaTime: real, wind: nat -> Vec3, sqrt: real -> real, pow: (real, real) -> real,
                       yaw: real -> Quat, slerp: (Quat, Quat, real) -> Quat)
      requires flag.Valid() && IsSqrt(sqrt)
      modifies sphere, flag.cloth.particles, flag.geometry, flag.geometry.data
      modifies store`lastClothUpdate, store`windImpulses, store`targetQuaternion, store`sphereVelocity
      ensures now - old(store.lastClothUpdate) >= ClothUpdateInterval ==>
        (flag.cloth.States(), flag.geometry.data[..], flag.geometry.needsUpdate, store.lastClothUpdate, store.windImpulses)
          == (Tick(old(flag.cloth.States()), flag.cloth.constraints, flag.edgeIndices, old(store.windImpulses), wind,
                   flag.params, ElapsedSeconds(now, old(store.lastClothUpdate)), sqrt),
              flag.cloth.Positions(), true, now, Prune(old(store.windImpulses), now, pow))
      ensures now - old(store.lastClothUpdate) < ClothUpdateInterval ==>
        (flag.cloth.States(), flag.geometry.data[..], flag.geometry.needsUpdate, store.lastClothUpdate, store.windImpulses)
          == old((flag.cloth.States(), flag.geometry.data[..], flag.geometry.needsUpdate, store.lastClothUpdate, store.windImpulses))
      ensures store.targetQuaternion
        == if AutoRotates(old(store.Snapshot()))
           then QuatMul(yaw(AutoRotateAngle(deltaTime)), old(store.targetQuaternion))
           else old(store.targetQuaternion)
      ensures (sphere.position, store.sphereVelocity) == SpringStep(old(sphere.position), old(store.sphereVelocity))
      ensures sphere.quaternion == slerp(old(sphere.quaternion), store.targetQuaternion, DampingFactor)
      ensures (store.isDodecahedron, store.isAnimating, store.animationProgress)
           == old((store.isDodecahedron, store.isAnimating, store.animationProgress))
      ensures (store.isDragging, store.hasDragged, store.previousMouseX, store.previousMouseY, store.autoRotateEnabled)
           == old((store.isDragging, store.hasDragged, store.previousMouseX, store.previousMouseY, store.autoRotateEnabled))
    {
      flag.UpdatePhysics(store, now, ClothUpdateInterval, wind, sqrt, pow);
      assert AutoRotates(store.Snapshot()) == AutoRotates(old(store.Snapshot()));
      UpdatePivot(deltaTime, yaw, slerp);
    }

    /**
     * The pivot's part of the frame: the auto-rotation of the target, then
     * the spring step. The flag's cloth, its vertex buffer and the record's
     * cloth fields are left as they were.
     */
    method UpdatePivot(deltaTime: real, yaw: real -> Quat, slerp: (Quat, Quat, real) -> Quat)
      modifies sphere, store`targetQuaternion, store`sphereVelocity
      ensures store.targetQuaternion
        == if AutoRotates(old(store.Snapshot()))
           then QuatMul(yaw(AutoRotateAngle(deltaTime)), old(store.targetQuaternion))
           else old(store.targetQuaternion)
      ensures (sphere.position, store.sphereVelocity) == SpringStep(old(sphere.position), old(store.sphereVelocity))
      ensures sphere.quaternion == slerp(old(sphere.quaternion), store.targetQuaternion, DampingFactor)
      ensures (flag.cloth.States(), flag.geometry.data[..], flag.geometry.needsUpdate)
           == old((flag.cloth.States(), flag.geometry.data[..], flag.geometry.needsUpdate))
    {
      sphere.UpdateAutoRotation(store, deltaTime, yaw);
      sphere.UpdatePhysics(store, slerp);
    }

    /**
     * The transition step and the star poses, for the record's transition
     * flags and progress as they were at the start of the frame.
     */
    method UpdateStars(isDodecahedron: bool, isAnimating: bool, progress: real, deltaTime: real, sqrt: real -> real,
                       slerp: (Quat, Quat, real) -> Quat, fromUnitVectors: (Vec3, Vec3) -> Quat)
      requires Posable() && store.isAnimating == isAnimating
      modifies store`isAnimating, store`animationProgress, positions, quaternions
      ensures store.Snapshot() == old(store.Snapshot()).(isAnimating := store.isAnimating,
                                                         animationProgress := store.animationProgress)
      ensures isAnimating ==>
        Transition(store.animationProgress, store.isAnimating) == Advance(progress, isDodecahedron, deltaTime)
      ensures !isAnimating ==> store.Snapshot() == old(store.Snapshot())
      ensures forall i :: 0 <= i < |starData| ==>
        Pose(positions[i], quaternions[i])
          == if isAnimating
             then AnimatedPose(starData[i], SampleFor(i, sqrt), sphere.quaternion, sphere.position,
                               store.animationProgress, |starData|, slerp, fromUnitVectors)
             else SteadyPose(starData[i], SampleFor(i, sqrt), sphere.quaternion, sphere.position,
                             isDodecahedron, fromUnitVectors)
    {
      if isAnimating {
        var t := StepTransition(isDodecahedron, progress, deltaTime);
        var samples := SampleStars(sqrt);
        PoseAnimated(samples, t.progress, slerp, fromUnitVectors);
      } else {
        var samples := SampleStars(sqrt);
        PoseSteady(samples, isDodecahedron, fromUnitVectors);
      }
    }

    /** One step of a running transition, written back to the record. */
    method StepTransition(isDodecahedron: bool, progress: real, deltaTime: real) returns (t: Transition)
      requires store.isAnimating
      modifies store`isAnimating, store`animationProgress
      ensures t == Advance(progress, isDodecahedron, deltaTime)
      ensures store.Snapshot() == old(store.Snapshot()).(isAnimating := t.animating, animationProgress := t.progress)
    {
      t := Advance(progress, isDodecahedron, deltaTime);
      if !t.animating {
        store.SetIsAnimating(false);
      }
      store.SetAnimationProgress(t.progress);
    }

    /** The cloth samples under every star's flag place. */
    method SampleStars(sqrt: real -> real) returns (samples: seq<Sample>)
      requires Posable()
      ensures |samples| == |starData|
      ensures forall i :: 0 <= i < |starData| ==> samples[i] == SampleFor(i, sqrt)
    {
      samples := [];
      for i := 0 to |starData|
        invariant |samples| == i
        invariant forall k :: 0 <= k < i ==> samples[k] == SampleFor(k, sqrt)
      {
        var place := starData[i].flag.value;
        var clothData := flag.GetPositionAtUV(place.u, place.v, sqrt);
        samples := samples + [clothData];
      }
    }

    /** The transition loop: every star blended at the new progress. */
    method PoseAnimated(samples: seq<Sample>, progress: real, slerp: (Quat, Quat, real) -> Quat,
                        fromUnitVectors: (Vec3, Vec3) -> Quat)
      requires Posable() && |samples| == |starData|
      modifies positions, quaternions
      ensures forall i :: 0 <= i < |starData| ==>
        Pose(positions[i], quaternions[i])
          == AnimatedPose(starData[i], samples[i], sphere.quaternion, sphere.position,
                          progress, |starData|, slerp, fromUnitVectors)
    {
      for i := 0 to |starData|
        invariant forall k :: 0 <= k < i ==>
          Pose(positions[k], quaternions[k])
            == AnimatedPose(starData[k], samples[k], sphere.quaternion, sphere.position,
                            progress, |starData|, slerp, fromUnitVectors)
      {
        var pose := AnimatedPose(starData[i], samples[i], sphere.quaternion, sphere.position,
                                 progress, |starData|, slerp, fromUnitVectors);
        positions[i], quaternions[i] := pose.position, pose.quaternion;
      }
    }

    /** The loop with no transition running: every star on the shell or on the flag. */
    method PoseSteady(samples: seq<Sample>, isDodecahedron: bool, fromUnitVectors: (Vec3, Vec3) -> Quat)
      requires Posable() && |samples| == |starData|
      modifies positions, quaternions
      ensures forall i :: 0 <= i < |starData| ==>
        Pose(positions[i], quaternions[i])
          == SteadyPose(starData[i], samples[i], sphere.quaternion, sphere.position,
                        isDodecahedron, fromUnitVectors)
    {
      for i := 0 to |starData|
        invariant forall k :: 0 <= k < i ==>
          Pose(positions[k], quaternions[k])
            == SteadyPose(starData[k], samples[k], sphere.quaternion, sphere.position,
                          isDodecahedron, fromUnitVectors)
      {
        var pose := SteadyPose(starData[i], samples[i], sphere.quaternion, sphere.position, isDodecahedron, fromUnitVectors);
        positions[i], quaternions[i] := pose.position, pose.quaternion;
      }
    }
  }
}
