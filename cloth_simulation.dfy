// One tick of the flag's cloth simulation, first as a pipeline of pure
// phases over the particles' states (the specification), then as the
// in-place loops over the particle objects that are proved to follow it:
// time step, forces (turbulent wind and click impulses), gravity and Verlet
// integration, constraint relaxation, pull of the border back towards the
// rest shape, and the copy of the positions into the vertex buffer.
module ClothSimulation {
  import opened Vectors
  import opened Constants
  import opened Cloth
  import opened AppState

  /** The simulation parameters handed to every tick. */
  datatype ClothParams = ClothParams(damping: real, mass: real, gravity: real, constraintIterations: nat, cornerForceStrength: real)

  const Params: ClothParams := ClothParams(Damping, Mass, Gravity, ConstraintIterations, CornerForceStrength)

  // ---------------------------------------------------------------------
  // Time step

  /**
   * `Math.min(deltaTime || 0.016, 0.033)`: a zero delta falls back to one
   * frame at 60 fps, and the step is capped at about 30 fps.
   */
  function Timestep(deltaTime: real): (dt: real)
    ensures dt <= 0.033
    ensures 0.0 <= deltaTime ==> 0.0 < dt
    ensures deltaTime == 0.0 ==> dt == 0.016
    ensures deltaTime != 0.0 && deltaTime <= 0.033 ==> dt == deltaTime
    ensures 0.033 <= deltaTime ==> dt == 0.033
  {
    var d := if deltaTime == 0.0 then 0.016 else deltaTime;
    if d <= 0.033 then d else 0.033
  }

  /** `dt * dt`, the factor the Verlet step applies to the acceleration. */
  function TimestepSquared(deltaTime: real): real {
    var dt := Timestep(deltaTime);
    dt * dt
  }

  // ---------------------------------------------------------------------
  // Forces

  /** An impulse's push at `distance` from its centre: into the screen, fading quadratically to the radius. */
  function ImpulseForce(imp: WindImpulse, distance: real): Vec3
    requires imp.radius != 0.0
  {
    var falloff := 1.0 - distance / imp.radius;
    Scale(Vec3(0.0, 0.0, -1.0), imp.strength * falloff * falloff)
  }

  /**
   * Inside the radius the falloff lies in (0, 1], the push has no x or y
   * part, and a non-negative strength never pushes towards the camera.
   */
  lemma ImpulseForceShape(imp: WindImpulse, distance: real)
    requires 0.0 <= distance < imp.radius
    ensures 0.0 < 1.0 - distance / imp.radius <= 1.0
    ensures ImpulseForce(imp, distance).x == 0.0 && ImpulseForce(imp, distance).y == 0.0
    ensures ImpulseForce(imp, distance).z
         == -imp.strength * (1.0 - distance / imp.radius) * (1.0 - distance / imp.radius)
    ensures 0.0 <= imp.strength ==> ImpulseForce(imp, distance).z <= 0.0
  {
    var falloff := 1.0 - distance / imp.radius;
    assert 0.0 <= distance / imp.radius < 1.0 by {
      assert distance / imp.radius * imp.radius == distance;
    }
    if 0.0 <= imp.strength {
      MulNonNegative(imp.strength, falloff * falloff);
      assert imp.strength * falloff * falloff == imp.strength * (falloff * falloff);
    }
  }

  /** The particle's distance to an impulse's centre. */
  function DistanceTo(p: PState, imp: WindImpulse, sqrt: real -> real): real {
    Length(Sub(p.position, imp.position), sqrt)
  }

  /** One impulse acts on a particle only when it lies strictly inside the impulse's radius. */
  function Impulse(p: PState, imp: WindImpulse, sqrt: real -> real): PState
    requires IsSqrt(sqrt)
  {
    var distance := DistanceTo(p, imp, sqrt);
    LengthSquares(Sub(p.position, imp.position), sqrt);
    if distance < imp.radius then p.WithForce(ImpulseForce(imp, distance)) else p
  }

  /** All impulses on one particle, from the last in the list to the first. */
  function ApplyImpulses(p: PState, imps: seq<WindImpulse>, sqrt: real -> real): (r: PState)
    requires IsSqrt(sqrt)
    ensures r == p.(a := r.a)
    decreases |imps|
  {
    if imps == [] then p
    else ApplyImpulses(Impulse(p, imps[|imps| - 1], sqrt), imps[..|imps| - 1], sqrt)
  }

  /** A particle that lies outside every impulse's radius is not affected. */
  lemma {:induction false} ImpulsesOutOfReach(p: PState, imps: seq<WindImpulse>, sqrt: real -> real)
    requires IsSqrt(sqrt)
    requires forall k :: 0 <= k < |imps| ==> imps[k].radius <= DistanceTo(p, imps[k], sqrt)
    ensures ApplyImpulses(p, imps, sqrt) == p
    decreases |imps|
  {
    if imps != [] {
      ImpulsesOutOfReach(p, imps[..|imps| - 1], sqrt);
    }
  }

  /**
   * With non-negative strengths and a non-negative inverse mass, impulses
   * change only the z part of the acceleration, and never increase it.
   */
  lemma {:induction false} ImpulsesPushIntoScreen(p: PState, imps: seq<WindImpulse>, sqrt: real -> real)
    requires IsSqrt(sqrt) && 0.0 <= p.invMass
    requires forall k :: 0 <= k < |imps| ==> 0.0 <= imps[k].strength
    ensures ApplyImpulses(p, imps, sqrt).a.x == p.a.x
    ensures ApplyImpulses(p, imps, sqrt).a.y == p.a.y
    ensures ApplyImpulses(p, imps, sqrt).a.z <= p.a.z
    decreases |imps|
  {
    if imps != [] {
      var imp := imps[|imps| - 1];
      var q := Impulse(p, imp, sqrt);
      var distance := DistanceTo(p, imp, sqrt);
      LengthSquares(Sub(p.position, imp.position), sqrt);
      if distance < imp.radius {
        ImpulseForceShape(imp, distance);
        var f := ImpulseForce(imp, distance);
        MulNonNegative(-f.z, p.invMass);
      }
      assert q.a.x == p.a.x && q.a.y == p.a.y && q.a.z <= p.a.z && q.invMass == p.invMass;
      ImpulsesPushIntoScreen(q, imps[..|imps| - 1], sqrt);
    }
  }

  /** Wind, then the impulses, on every particle; `wind(i)` is the turbulent force on particle i. */
  function ForcePhase(s: seq<PState>, wind: nat -> Vec3, imps: seq<WindImpulse>, sqrt: real -> real): (r: seq<PState>)
    requires IsSqrt(sqrt)
    ensures |r| == |s|
    ensures forall i :: 0 <= i < |s| ==> r[i] == s[i].(a := r[i].a)
  {
    var r := seq(|s|, i requires 0 <= i < |s| => ApplyImpulses(s[i].WithForce(wind(i)), imps, sqrt));
    assert forall i :: 0 <= i < |s| ==> r[i] == ApplyImpulses(s[i].WithForce(wind(i)), imps, sqrt);
    r
  }

  // ---------------------------------------------------------------------
  // Gravity and integration

  /** `(0, -gravity, 0) * mass`. */
  function GravityForce(params: ClothParams): Vec3 {
    Scale(Vec3(0.0, -params.gravity, 0.0), params.mass)
  }

  /**
   * Gravity, then one Verlet step, on every particle: each is integrated
   * once, remembers its old position and ends with no acceleration.
   */
  function IntegratePhase(s: seq<PState>, gravity: Vec3, timesq: real, damping: real): (r: seq<PState>)
    ensures |r| == |s|
    ensures forall i :: 0 <= i < |s| ==>
      && r[i].previous == s[i].position
      && r[i].a == Zero
      && r[i].original == s[i].original
      && r[i].invMass == s[i].invMass
  {
    seq(|s|, i requires 0 <= i < |s| => s[i].WithForce(gravity).Integrated(timesq, damping))
  }

  // ---------------------------------------------------------------------
  // Constraint relaxation

  /** Every constraint joins two particles of a list of n. */
  predicate ConstraintsIn(cs: seq<Constraint>, n: int) {
    forall k :: 0 <= k < |cs| ==> cs[k].p1 < n && cs[k].p2 < n
  }

  /** One constraint applied to the states: the two positions are corrected towards the rest distance. */
  function MovePair(s: seq<PState>, c: Constraint, sqrt: real -> real): (r: seq<PState>)
    requires c.p1 < |s| && c.p2 < |s|
    ensures |r| == |s|
    ensures forall i :: 0 <= i < |s| ==> r[i] == s[i].(position := r[i].position)
    ensures forall i :: 0 <= i < |s| && i != c.p1 && i != c.p2 ==> r[i] == s[i]
  {
    if c.p1 == c.p2 then s
    else
      var x := Satisfy(s[c.p1].position, s[c.p2].position, c.distance, sqrt);
      s[c.p1 := s[c.p1].(position := x.0)][c.p2 := s[c.p2].(position := x.1)]
  }

  /** One relaxation pass: every constraint once, in list order. */
  function RelaxPass(s: seq<PState>, cs: seq<Constraint>, sqrt: real -> real): (r: seq<PState>)
    requires ConstraintsIn(cs, |s|)
    ensures |r| == |s|
    ensures forall i :: 0 <= i < |s| ==> r[i] == s[i].(position := r[i].position)
    decreases |cs|
  {
    if cs == [] then s
    else MovePair(RelaxPass(s, cs[..|cs| - 1], sqrt), cs[|cs| - 1], sqrt)
  }

  /** `iterations` relaxation passes. */
  function Relax(s: seq<PState>, cs: seq<Constraint>, iterations: nat, sqrt: real -> real): (r: seq<PState>)
    requires ConstraintsIn(cs, |s|)
    ensures |r| == |s|
    ensures forall i :: 0 <= i < |s| ==> r[i] == s[i].(position := r[i].position)
  {
    if iterations == 0 then s
    else RelaxPass(Relax(s, cs, iterations - 1, sqrt), cs, sqrt)
  }

  /** The sum of all positions (the cloth's centre of mass, times the particle count). */
  function SumPositions(s: seq<PState>): Vec3 {
    if s == [] then Zero else Add(SumPositions(s[..|s| - 1]), s[|s| - 1].position)
  }

  lemma {:induction false} SumUpdate(s: seq<PState>, i: nat, x: Vec3)
    requires i < |s|
    ensures SumPositions(s[i := s[i].(position := x)]) == Add(Sub(SumPositions(s), s[i].position), x)
    decreases |s|
  {
    var t := s[i := s[i].(position := x)];
    assert t[..|t| - 1] == if i == |s| - 1 then s[..|s| - 1] else s[..|s| - 1][i := s[i].(position := x)];
    if i < |s| - 1 {
      SumUpdate(s[..|s| - 1], i, x);
    }
  }

  /** A correction moves the two particles by equal and opposite amounts, so the sum stays. */
  lemma MovePairKeepsSum(s: seq<PState>, c: Constraint, sqrt: real -> real)
    requires c.p1 < |s| && c.p2 < |s|
    ensures SumPositions(MovePair(s, c, sqrt)) == SumPositions(s)
  {
    if c.p1 != c.p2 {
      var x := Satisfy(s[c.p1].position, s[c.p2].position, c.distance, sqrt);
      var s1 := s[c.p1 := s[c.p1].(position := x.0)];
      SumUpdate(s, c.p1, x.0);
      SumUpdate(s1, c.p2, x.1);
    }
  }

  lemma {:induction false} RelaxPassKeepsSum(s: seq<PState>, cs: seq<Constraint>, sqrt: real -> real)
    requires ConstraintsIn(cs, |s|)
    ensures SumPositions(RelaxPass(s, cs, sqrt)) == SumPositions(s)
    decreases |cs|
  {
    if cs != [] {
      RelaxPassKeepsSum(s, cs[..|cs| - 1], sqrt);
      MovePairKeepsSum(RelaxPass(s, cs[..|cs| - 1], sqrt), cs[|cs| - 1], sqrt);
    }
  }

  /** Relaxation never moves the cloth's centre of mass. */
  lemma {:induction false} RelaxKeepsSum(s: seq<PState>, cs: seq<Constraint>, iterations: nat, sqrt: real -> real)
    requires ConstraintsIn(cs, |s|)
    ensures SumPositions(Relax(s, cs, iterations, sqrt)) == SumPositions(s)
  {
    if iterations != 0 {
      RelaxKeepsSum(s, cs, iterations - 1, sqrt);
      RelaxPassKeepsSum(Relax(s, cs, iterations - 1, sqrt), cs, sqrt);
    }
  }

  // ---------------------------------------------------------------------
  // Edge restoration

  /** Every index names a particle of a list of n. */
  predicate IndicesIn(idx: seq<nat>, n: int) {
    forall j :: 0 <= j < |idx| ==> idx[j] < n
  }

  /** `position += (original - position) * k`. */
  function Pulled(p: PState, k: real): PState {
    p.(position := Lerp(p.position, p.original, k))
  }

  /** A pull with 0 <= k <= 1 never takes a particle further from its rest position. */
  lemma PullNeverMovesAway(p: PState, k: real)
    requires 0.0 <= k <= 1.0
    ensures DistSq(Pulled(p, k).position, p.original) <= DistSq(p.position, p.original)
  {
    var d := Sub(p.position, p.original);
    assert Sub(Pulled(p, k).position, p.original) == Scale(d, 1.0 - k);
    ScaleLengthSq(d, 1.0 - k);
    LengthSqNonNegative(d);
    assert (1.0 - k) * (1.0 - k) <= 1.0 by {
      MulNonNegative(1.0 - k, k);
    }
    assert (1.0 - (1.0 - k) * (1.0 - k)) * LengthSq(d) >= 0.0 by {
      MulNonNegative(1.0 - (1.0 - k) * (1.0 - k), LengthSq(d));
    }
  }

  /** The pull applied at each listed index in turn. */
  function RestoreList(s: seq<PState>, idx: seq<nat>, k: real): (r: seq<PState>)
    requires IndicesIn(idx, |s|)
    ensures |r| == |s|
    ensures forall i :: 0 <= i < |s| ==> r[i] == s[i].(position := r[i].position)
    decreases |idx|
  {
    if idx == [] then s
    else
      var t := RestoreList(s, idx[..|idx| - 1], k);
      var i := idx[|idx| - 1];
      t[i := Pulled(t[i], k)]
  }

  /** Pulling along one list and then another is pulling along the two joined. */
  lemma {:induction false} RestoreListConcat(s: seq<PState>, a: seq<nat>, b: seq<nat>, k: real)
    requires IndicesIn(a, |s|) && IndicesIn(b, |s|)
    ensures IndicesIn(a + b, |s|)
    ensures RestoreList(RestoreList(s, a, k), b, k) == RestoreList(s, a + b, k)
    decreases |b|
  {
    if b == [] {
      assert a + b == a;
    } else {
      var front := b[..|b| - 1];
      RestoreListConcat(s, a, front, k);
      assert (a + b)[..|a + b| - 1] == a + front;
      var i := b[|b| - 1];
      assert (a + b)[|a + b| - 1] == i;
      var t := RestoreList(s, a + front, k);
      assert RestoreList(RestoreList(s, a, k), b, k) == t[i := Pulled(t[i], k)];
      assert RestoreList(s, a + b, k) == t[i := Pulled(t[i], k)];
    }
  }

  /** With no index listed twice, exactly the listed particles are pulled, once each. */
  lemma {:induction false} RestoreListEffect(s: seq<PState>, idx: seq<nat>, k: real)
    requires IndicesIn(idx, |s|)
    requires forall a, b :: 0 <= a < |idx| && 0 <= b < |idx| && a != b ==> idx[a] != idx[b]
    ensures forall i :: 0 <= i < |s| ==>
      RestoreList(s, idx, k)[i] == if i in idx then Pulled(s[i], k) else s[i]
    decreases |idx|
  {
    if idx != [] {
      var front := idx[..|idx| - 1];
      RestoreListEffect(s, front, k);
      assert idx[|idx| - 1] !in front;
      assert forall i :: i in idx <==> i in front || i == idx[|idx| - 1];
    }
  }

  /** The four border lists, top, bottom, left and right, pulled with strength k. */
  function RestorePhase(s: seq<PState>, e: EdgeIndices, k: real): (r: seq<PState>)
    requires IndicesIn(e.All(), |s|)
    ensures |r| == |s|
  {
    RestoreList(s, e.All(), k)
  }

  /** On a cloth's own border lists: border particles are pulled once, the others are not touched. */
  lemma RestoreTouchesBorderOnly(s: seq<PState>, w: nat, h: nat, k: real)
    requires 1 <= w && 1 <= h && |s| == (w + 1) * (h + 1)
    ensures IndicesIn(Edges(w, h).All(), |s|)
    ensures forall i :: 0 <= i < |s| ==>
      RestorePhase(s, Edges(w, h), k)[i] == if IsBoundary(w, h, i) then Pulled(s[i], k) else s[i]
  {
    EdgesCoverBoundary(w, h);
    EdgesDistinct(w, h);
    var all := Edges(w, h).All();
    assert forall j :: 0 <= j < |all| ==> all[j] in all;
    RestoreListEffect(s, all, k);
  }

  // ---------------------------------------------------------------------
  // The whole tick

  /** What one `simulateCloth` call does to the particles' states. */
  function Tick(s: seq<PState>, cs: seq<Constraint>, e: EdgeIndices, imps: seq<WindImpulse>, wind: nat -> Vec3,
                params: ClothParams, deltaTime: real, sqrt: real -> real): (r: seq<PState>)
    requires IsSqrt(sqrt) && ConstraintsIn(cs, |s|) && IndicesIn(e.All(), |s|)
    ensures |r| == |s|
    ensures forall i :: 0 <= i < |s| ==>
      && r[i].original == s[i].original
      && r[i].invMass == s[i].invMass
      && r[i].previous == s[i].position
      && r[i].a == Zero
  {
    var s1 := ForcePhase(s, wind, imps, sqrt);
    var s2 := IntegratePhase(s1, GravityForce(params), TimestepSquared(deltaTime), params.damping);
    var s3 := Relax(s2, cs, params.constraintIterations, sqrt);
    RestorePhase(s3, e, params.cornerForceStrength * 0.01)
  }

  // ---------------------------------------------------------------------
  // The rest shape is an equilibrium

  /** The states a freshly built w x h cloth starts in. */
  function RestStates(w: nat, h: nat, mass: real): (r: seq<PState>)
    requires 1 <= w && 1 <= h && mass != 0.0
    ensures |r| == (w + 1) * (h + 1)
    ensures forall i :: 0 <= i < |r| ==> r[i] == RestState(w, h, mass, i)
  {
    seq((w + 1) * (h + 1), i requires 0 <= i => RestState(w, h, mass, i))
  }

  /** A cloth's constraints only name its own particles. */
  lemma LinksIn(w: nat, h: nat)
    ensures ConstraintsIn(Links(w, h), (w + 1) * (h + 1))
  {
    LinksAreGridLinks(w, h);
    GridLinksIn(w, h, Links(w, h));
  }

  lemma GridLinksIn(w: nat, h: nat, cs: seq<Constraint>)
    requires AllGridLinks(w, h, cs)
    ensures ConstraintsIn(cs, (w + 1) * (h + 1))
  {
  }

  /** A cloth's border lists only name its own particles. */
  lemma EdgesIn(w: nat, h: nat)
    requires 1 <= h
    ensures IndicesIn(Edges(w, h).All(), (w + 1) * (h + 1))
  {
    var all := Edges(w, h).All();
    forall j | 0 <= j < |all|
      ensures all[j] < (w + 1) * (h + 1)
    {
      EdgesAt(w, h, j);
      IndexInRange(w, h, EdgeNode(w, h, j).0, EdgeNode(w, h, j).1);
    }
  }

  /** Every constraint in cs is at its rest distance, a positive one, in s. */
  ghost predicate LinksAtRest(s: seq<PState>, cs: seq<Constraint>) {
    forall k :: 0 <= k < |cs| ==> LinkAtRest(s, cs[k])
  }

  /** The link names two particles of `s`, and they sit exactly its (positive) rest distance apart. */
  ghost predicate LinkAtRest(s: seq<PState>, c: Constraint) {
    && c.p1 < |s| && c.p2 < |s| && 0.0 < c.distance
    && DistSq(s[c.p2].position, s[c.p1].position) == Square(c.distance)
  }

  /** Consecutive grid parameters a / n and (a + 1) / n are 1 / n apart. */
  lemma StepDifference(a: real, n: real)
    requires 0.0 < n
    ensures (a + 1.0) / n - a / n == 1.0 / n
  {
  }

  /** One step of 1/n in v moves the layout ClothWidth / n across; one in u moves it ClothHeight / n down. */
  lemma ClothFuncSteps(u: real, v: real, n: real)
    requires 0.0 < n
    ensures Sub(ClothFunc(u, v + 1.0 / n), ClothFunc(u, v)) == Vec3(ClothWidth / n, 0.0, 0.0)
    ensures Sub(ClothFunc(u + 1.0 / n, v), ClothFunc(u, v)) == Vec3(0.0, -(ClothHeight / n), 0.0)
  {
  }

  /** Rest positions of two nodes one row apart. */
  lemma RowStep(w: nat, h: nat, c: Constraint)
    requires 1 <= w && 1 <= h
    requires Col(w, c.p2) == Col(w, c.p1) && Row(w, c.p2) == Row(w, c.p1) + 1
    ensures Sub(RestPosition(w, h, c.p2), RestPosition(w, h, c.p1)) == Vec3(ClothWidth / h as real, 0.0, 0.0)
  {
    var u1, v1 := Col(w, c.p1) as real / w as real, Row(w, c.p1) as real / h as real;
    var u2, v2 := Col(w, c.p2) as real / w as real, Row(w, c.p2) as real / h as real;
    assert RestPosition(w, h, c.p1) == ClothFunc(u1, v1);
    assert RestPosition(w, h, c.p2) == ClothFunc(u2, v2);
    StepDifference(Row(w, c.p1) as real, h as real);
    assert u2 == u1 && v2 == v1 + 1.0 / h as real;
    ClothFuncSteps(u1, v1, h as real);
  }

  /** Rest positions of two nodes one column apart. */
  lemma ColumnStep(w: nat, h: nat, c: Constraint)
    requires 1 <= w && 1 <= h
    requires Row(w, c.p2) == Row(w, c.p1) && Col(w, c.p2) == Col(w, c.p1) + 1
    ensures Sub(RestPosition(w, h, c.p2), RestPosition(w, h, c.p1)) == Vec3(0.0, -(ClothHeight / w as real), 0.0)
  {
    var u1, v1 := Col(w, c.p1) as real / w as real, Row(w, c.p1) as real / h as real;
    var u2, v2 := Col(w, c.p2) as real / w as real, Row(w, c.p2) as real / h as real;
    assert RestPosition(w, h, c.p1) == ClothFunc(u1, v1);
    assert RestPosition(w, h, c.p2) == ClothFunc(u2, v2);
    StepDifference(Col(w, c.p1) as real, w as real);
    assert v2 == v1 && u2 == u1 + 1.0 / w as real;
    ClothFuncSteps(u1, v1, w as real);
  }

  /**
   * When the layout's spacing matches the rest distances (as it does for the
   * flag: 20 segments down, 15 across), one grid step in the rest layout is
   * exactly the rest distance the link carries.
   */
  lemma GridLinkAtRest(w: nat, h: nat, c: Constraint)
    requires 1 <= w && 1 <= h
    requires ClothHeight / (w as real) == RestDistanceU && ClothWidth / (h as real) == RestDistanceV
    requires IsGridLink(w, h, c)
    ensures 0.0 < c.distance
    ensures DistSq(RestPosition(w, h, c.p2), RestPosition(w, h, c.p1)) == Square(c.distance)
  {
    assert RestDistanceV == 2.0 && RestDistanceU == 2.7;
    if Col(w, c.p2) == Col(w, c.p1) && Row(w, c.p2) == Row(w, c.p1) + 1 && c.distance == RestDistanceV {
      RowStep(w, h, c);
      StepLength(RestPosition(w, h, c.p2), RestPosition(w, h, c.p1), Vec3(RestDistanceV, 0.0, 0.0), c.distance);
    } else {
      ColumnStep(w, h, c);
      StepLength(RestPosition(w, h, c.p2), RestPosition(w, h, c.p1), Vec3(0.0, -RestDistanceU, 0.0), c.distance);
    }
  }

  lemma StepLength(a: Vec3, b: Vec3, step: Vec3, distance: real)
    requires Sub(a, b) == step
    requires step == Vec3(distance, 0.0, 0.0) || step == Vec3(0.0, -distance, 0.0)
    ensures DistSq(a, b) == Square(distance)
  {
  }

  /** In the rest shape of a cloth whose spacing matches the rest distances, a grid link is at rest. */
  lemma GridLinkInRestShape(w: nat, h: nat, mass: real, c: Constraint, s: seq<PState>)
    requires 1 <= w && 1 <= h && mass != 0.0
    requires ClothHeight / (w as real) == RestDistanceU && ClothWidth / (h as real) == RestDistanceV
    requires IsGridLink(w, h, c) && s == RestStates(w, h, mass)
    ensures LinkAtRest(s, c)
  {
    GridLinkAtRest(w, h, c);
  }

  lemma GridLinksInRestShape(w: nat, h: nat, mass: real, cs: seq<Constraint>, s: seq<PState>)
    requires 1 <= w && 1 <= h && mass != 0.0
    requires ClothHeight / (w as real) == RestDistanceU && ClothWidth / (h as real) == RestDistanceV
    requires AllGridLinks(w, h, cs) && s == RestStates(w, h, mass)
    ensures LinksAtRest(s, cs)
  {
    forall k | 0 <= k < |cs|
      ensures LinkAtRest(s, cs[k])
    {
      GridLinkInRestShape(w, h, mass, cs[k], s);
    }
  }

  /** In the rest shape of a cloth whose spacing matches the rest distances, every link is at rest. */
  lemma RestLinksAtRest(w: nat, h: nat, mass: real)
    requires 1 <= w && 1 <= h && mass != 0.0
    requires ClothHeight / (w as real) == RestDistanceU && ClothWidth / (h as real) == RestDistanceV
    ensures LinksAtRest(RestStates(w, h, mass), Links(w, h))
  {
    LinksAreGridLinks(w, h);
    GridLinksInRestShape(w, h, mass, Links(w, h), RestStates(w, h, mass));
  }

  lemma {:induction false} RelaxPassAtRest(s: seq<PState>, cs: seq<Constraint>, sqrt: real -> real)
    requires IsSqrt(sqrt) && LinksAtRest(s, cs)
    ensures ConstraintsIn(cs, |s|) && RelaxPass(s, cs, sqrt) == s
    decreases |cs|
  {
    if cs != [] {
      var init, c := cs[..|cs| - 1], cs[|cs| - 1];
      assert forall k :: 0 <= k < |init| ==> init[k] == cs[k];
      RelaxPassAtRest(s, init, sqrt);
      assert LinkAtRest(s, c);
      SatisfyAtRest(s[c.p1].position, s[c.p2].position, c.distance, sqrt);
    }
  }

  /** Relaxing a cloth whose every link is at its rest distance moves nothing. */
  lemma {:induction false} RelaxAtRest(s: seq<PState>, cs: seq<Constraint>, iterations: nat, sqrt: real -> real)
    requires IsSqrt(sqrt) && LinksAtRest(s, cs)
    ensures ConstraintsIn(cs, |s|) && Relax(s, cs, iterations, sqrt) == s
  {
    RelaxPassAtRest(s, cs, sqrt);
    if iterations != 0 {
      RelaxAtRest(s, cs, iterations - 1, sqrt);
    }
  }

  /** Pulling particles that sit on their rest positions moves nothing. */
  lemma {:induction false} RestoreAtRest(s: seq<PState>, idx: seq<nat>, k: real)
    requires IndicesIn(idx, |s|)
    requires Still(s)
    ensures RestoreList(s, idx, k) == s
    decreases |idx|
  {
    if idx != [] {
      RestoreAtRest(s, idx[..|idx| - 1], k);
    }
  }

  /** Every particle sits on its rest position, with no velocity and no acceleration. */
  ghost predicate Still(s: seq<PState>) {
    forall i :: 0 <= i < |s| ==> s[i].previous == s[i].position && s[i].original == s[i].position && s[i].a == Zero
  }

  lemma RestStatesStill(w: nat, h: nat, mass: real)
    requires 1 <= w && 1 <= h && mass != 0.0
    ensures Still(RestStates(w, h, mass))
  {
  }

  /** Without wind and out of every impulse's reach, a particle gains no force. */
  lemma ForcePhaseAtRest(s: seq<PState>, imps: seq<WindImpulse>, wind: nat -> Vec3, sqrt: real -> real)
    requires IsSqrt(sqrt)
    requires forall i :: 0 <= i < |s| ==> wind(i) == Zero
    requires forall i, k :: 0 <= i < |s| && 0 <= k < |imps| ==> imps[k].radius <= DistanceTo(s[i], imps[k], sqrt)
    ensures ForcePhase(s, wind, imps, sqrt) == s
  {
    var s1 := ForcePhase(s, wind, imps, sqrt);
    forall i | 0 <= i < |s|
      ensures s1[i] == s[i]
    {
      assert s[i].WithForce(wind(i)) == s[i];
      ImpulsesOutOfReach(s[i], imps, sqrt);
    }
  }

  lemma GravityOff()
    ensures GravityForce(Params) == Zero
  {
  }

  /** With no gravity, a still particle stays where it is. */
  lemma IntegratePhaseAtRest(s: seq<PState>, timesq: real, damping: real)
    requires Still(s)
    ensures IntegratePhase(s, GravityForce(Params), timesq, damping) == s
  {
    GravityOff();
    var s2 := IntegratePhase(s, GravityForce(Params), timesq, damping);
    forall i | 0 <= i < |s|
      ensures s2[i] == s[i]
    {
      VerletAtRest(s[i].position, timesq, damping);
    }
  }

  /**
   * A still cloth whose every link is at its rest distance is a fixed point
   * of a tick: with no turbulent wind, no impulse within reach and the
   * configured parameters (no gravity), it stays exactly where it is,
   * whatever the time step.
   */
  lemma TickAtRest(s: seq<PState>, cs: seq<Constraint>, e: EdgeIndices, imps: seq<WindImpulse>, wind: nat -> Vec3,
                   deltaTime: real, sqrt: real -> real)
    requires IsSqrt(sqrt) && IndicesIn(e.All(), |s|)
    requires Still(s) && LinksAtRest(s, cs)
    requires forall i :: 0 <= i < |s| ==> wind(i) == Zero
    requires forall i, k :: 0 <= i < |s| && 0 <= k < |imps| ==> imps[k].radius <= DistanceTo(s[i], imps[k], sqrt)
    ensures ConstraintsIn(cs, |s|)
    ensures Tick(s, cs, e, imps, wind, Params, deltaTime, sqrt) == s
  {
    ForcePhaseAtRest(s, imps, wind, sqrt);
    RelaxAtRest(s, cs, Params.constraintIterations, sqrt);
    StillTick(s, cs, e, imps, wind, deltaTime, sqrt);
  }

  /**
   * The flag's freshly built cloth (20 segments down, 15 across) is such a
   * fixed point: its rest spacing matches the rest distances its links carry.
   */
  lemma FlagAtRestIsEquilibrium(mass: real, imps: seq<WindImpulse>, wind: nat -> Vec3, deltaTime: real, sqrt: real -> real)
    requires mass != 0.0 && IsSqrt(sqrt)
    requires forall i :: wind(i) == Zero
    requires forall i, k :: 0 <= i < |RestStates(YSegs, XSegs, mass)| && 0 <= k < |imps| ==>
      imps[k].radius <= DistanceTo(RestStates(YSegs, XSegs, mass)[i], imps[k], sqrt)
    ensures ConstraintsIn(Links(YSegs, XSegs), (YSegs + 1) * (XSegs + 1))
    ensures IndicesIn(Edges(YSegs, XSegs).All(), (YSegs + 1) * (XSegs + 1))
    ensures Tick(RestStates(YSegs, XSegs, mass), Links(YSegs, XSegs), Edges(YSegs, XSegs), imps, wind, Params, deltaTime, sqrt)
         == RestStates(YSegs, XSegs, mass)
  {
    FlagSpacing();
    EdgesIn(YSegs, XSegs);
    RestStatesStill(YSegs, XSegs, mass);
    RestLinksAtRest(YSegs, XSegs, mass);
    TickAtRest(RestStates(YSegs, XSegs, mass), Links(YSegs, XSegs), Edges(YSegs, XSegs), imps, wind, deltaTime, sqrt);
  }

  /**
   * A still state that the force and relaxation phases leave alone is left
   * alone by the whole tick: integration without gravity and the pull towards
   * the original positions change nothing.
   */
  lemma StillTick(s: seq<PState>, cs: seq<Constraint>, e: EdgeIndices, imps: seq<WindImpulse>, wind: nat -> Vec3,
                  deltaTime: real, sqrt: real -> real)
    requires IsSqrt(sqrt) && ConstraintsIn(cs, |s|) && IndicesIn(e.All(), |s|)
    requires Still(s)
    requires ForcePhase(s, wind, imps, sqrt) == s
    requires Relax(s, cs, Params.constraintIterations, sqrt) == s
    ensures Tick(s, cs, e, imps, wind, Params, deltaTime, sqrt) == s
  {
    IntegratePhaseAtRest(s, TimestepSquared(deltaTime), Params.damping);
    RestoreAtRest(s, e.All(), Params.cornerForceStrength * 0.01);
  }

  /** The flag's own cloth, 20 segments down and 15 across, has the spacing the rest distances assume. */
  lemma FlagSpacing()
    ensures ClothHeight / (YSegs as real) == RestDistanceU && ClothWidth / (XSegs as real) == RestDistanceV
  {
  }

  // ---------------------------------------------------------------------
  // The in-place tick over the particle objects

  /** The geometry's vertex position buffer, one vertex per particle, and its upload flag. */
  class PositionBuffer {
    const data: array<Vec3>
    var needsUpdate: bool

    /** A buffer holding the given vertices, not yet flagged for upload. */
    constructor (vertices: seq<Vec3>)
      ensures data[..] == vertices && fresh(data) && !needsUpdate
    {
      data := new Vec3[|vertices|](i requires 0 <= i < |vertices| => vertices[i]);
      needsUpdate := false;
    }
  }

  /** The body of the impulse loop: a push on the particle when it lies inside the impulse's radius. */
  method ImpulseOnParticle(p: Particle, impulse: WindImpulse, sqrt: real -> real)
    requires IsSqrt(sqrt)
    modifies p`a
    ensures p.State() == Impulse(old(p.State()), impulse, sqrt)
  {
    var distance := Length(Sub(p.position, impulse.position), sqrt);
    LengthSquares(Sub(p.position, impulse.position), sqrt);
    if distance < impulse.radius {
      var falloff := 1.0 - distance / impulse.radius;
      p.AddForce(Scale(Vec3(0.0, 0.0, -1.0), impulse.strength * falloff * falloff));
    }
  }

  /** The wind force, then every impulse from the last to the first, on one particle. */
  method ForceOnParticle(p: Particle, windForce: Vec3, imps: seq<WindImpulse>, sqrt: real -> real)
    requires IsSqrt(sqrt)
    modifies p`a
    ensures p.State() == ApplyImpulses(old(p.State()).WithForce(windForce), imps, sqrt)
  {
    p.AddForce(windForce);
    ghost var goal := ApplyImpulses(p.State(), imps, sqrt);
    var j := |imps|;
    assert imps[..j] == imps;
    while j > 0
      invariant 0 <= j <= |imps|
      invariant ApplyImpulses(p.State(), imps[..j], sqrt) == goal
    {
      j := j - 1;
      assert imps[..j + 1][..j] == imps[..j];
      ImpulseOnParticle(p, imps[j], sqrt);
    }
  }

  /** The force loop of `simulateCloth`: `wind(i)` is the turbulent force on particle i. */
  method ApplyForces(cloth: Cloth, wind: nat -> Vec3, imps: seq<WindImpulse>, sqrt: real -> real)
    requires cloth.Valid() && IsSqrt(sqrt)
    modifies cloth.particles
    ensures cloth.States() == ForcePhase(old(cloth.States()), wind, imps, sqrt)
  {
    ghost var s := cloth.States();
    ghost var r := ForcePhase(s, wind, imps, sqrt);
    var ps := cloth.particles;
    for i := 0 to |ps|
      invariant forall k :: 0 <= k < i ==> ps[k].State() == r[k]
      invariant forall k :: i <= k < |ps| ==> ps[k].State() == s[k]
    {
      assert forall k :: 0 <= k < |ps| && k != i ==> ps[k] != ps[i];
      ForceOnParticle(ps[i], wind(i), imps, sqrt);
    }
  }

  /** The gravity and integration loop: gravity, then one Verlet step, on each particle. */
  method IntegrateAll(cloth: Cloth, gravity: Vec3, timesq: real, damping: real)
    requires cloth.Valid()
    modifies cloth.particles
    ensures cloth.States() == IntegratePhase(old(cloth.States()), gravity, timesq, damping)
  {
    ghost var s := cloth.States();
    ghost var r := IntegratePhase(s, gravity, timesq, damping);
    var ps := cloth.particles;
    for i := 0 to |ps|
      invariant forall k :: 0 <= k < i ==> ps[k].State() == r[k]
      invariant forall k :: i <= k < |ps| ==> ps[k].State() == s[k]
    {
      assert forall k :: 0 <= k < |ps| && k != i ==> ps[k] != ps[i];
      ps[i].AddForce(gravity);
      ps[i].Integrate(timesq, damping);
    }
  }

  /** `satisfyConstraints` on the particles a constraint names. */
  method SatisfyConstraint(cloth: Cloth, c: Constraint, sqrt: real -> real)
    requires Distinct(cloth.particles) && c.p1 < |cloth.particles| && c.p2 < |cloth.particles|
    modifies cloth.particles
    ensures cloth.States() == MovePair(old(cloth.States()), c, sqrt)
  {
    ghost var s := cloth.States();
    var ps := cloth.particles;
    assert c.p1 != c.p2 ==> ps[c.p1] != ps[c.p2];
    assert forall k :: 0 <= k < |ps| && k != c.p1 ==> ps[k] != ps[c.p1];
    assert forall k :: 0 <= k < |ps| && k != c.p2 ==> ps[k] != ps[c.p2];
    SatisfyConstraints(ps[c.p1], ps[c.p2], c.distance, sqrt);
    ghost var r := MovePair(s, c, sqrt);
    assert forall k :: 0 <= k < |ps| ==> ps[k].State() == r[k];
  }

  lemma ConstraintsInPrefix(cs: seq<Constraint>, n: int, i: nat)
    requires ConstraintsIn(cs, n) && i <= |cs|
    ensures ConstraintsIn(cs[..i], n)
  {
  }

  /** The inner relaxation loop: one pass over the constraints, in list order. */
  method RelaxOnce(cloth: Cloth, sqrt: real -> real)
    requires Distinct(cloth.particles) && ConstraintsIn(cloth.constraints, |cloth.particles|)
    modifies cloth.particles
    ensures cloth.States() == RelaxPass(old(cloth.States()), cloth.constraints, sqrt)
  {
    ghost var t := cloth.States();
    var cs := cloth.constraints;
    for i := 0 to |cs|
      invariant ConstraintsIn(cs[..i], |t|)
      invariant cloth.States() == RelaxPass(t, cs[..i], sqrt)
    {
      ConstraintsInPrefix(cs, |t|, i + 1);
      SatisfyConstraint(cloth, cs[i], sqrt);
      assert cs[..i + 1][..i] == cs[..i];
      assert RelaxPass(t, cs[..i + 1], sqrt) == MovePair(RelaxPass(t, cs[..i], sqrt), cs[i], sqrt);
    }
    assert cs[..|cs|] == cs;
  }

  /** The relaxation loops: `iterations` passes over the constraints. */
  method RelaxConstraints(cloth: Cloth, iterations: nat, sqrt: real -> real)
    requires cloth.Valid() && ConstraintsIn(cloth.constraints, |cloth.particles|)
    modifies cloth.particles
    ensures cloth.States() == Relax(old(cloth.States()), cloth.constraints, iterations, sqrt)
  {
    ghost var s := cloth.States();
    for it := 0 to iterations
      invariant cloth.States() == Relax(s, cloth.constraints, it, sqrt)
    {
      RelaxOnce(cloth, sqrt);
    }
  }

  /** One border loop: each listed particle moves the fraction k of the way back to its original position. */
  method RestoreIndices(cloth: Cloth, idx: seq<nat>, k: real)
    requires cloth.Valid() && IndicesIn(idx, |cloth.particles|)
    modifies cloth.particles
    ensures cloth.States() == RestoreList(old(cloth.States()), idx, k)
  {
    ghost var s := cloth.States();
    var ps := cloth.particles;
    for j := 0 to |idx|
      invariant IndicesIn(idx[..j], |s|)
      invariant cloth.States() == RestoreList(s, idx[..j], k)
    {
      ghost var t := cloth.States();
      var particle := ps[idx[j]];
      assert forall m :: 0 <= m < |ps| && m != idx[j] ==> ps[m] != particle;
      var diff := Scale(Sub(particle.original, particle.position), k);
      particle.position := Add(particle.position, diff);
      assert idx[..j + 1][..j] == idx[..j];
      ghost var r := t[idx[j] := Pulled(t[idx[j]], k)];
      assert forall m :: 0 <= m < |ps| ==> ps[m].State() == r[m];
    }
    assert idx[..|idx|] == idx;
  }

  lemma IndicesInParts(e: EdgeIndices, n: int)
    requires IndicesIn(e.All(), n)
    ensures IndicesIn(e.top, n) && IndicesIn(e.bottom, n) && IndicesIn(e.left, n) && IndicesIn(e.right, n)
    ensures IndicesIn(e.top + e.bottom, n) && IndicesIn(e.top + e.bottom + e.left, n)
  {
    var all := e.All();
    assert forall j :: 0 <= j < |e.top| ==> e.top[j] == all[j];
    assert forall j :: 0 <= j < |e.bottom| ==> e.bottom[j] == all[|e.top| + j];
    assert forall j :: 0 <= j < |e.left| ==> e.left[j] == all[|e.top| + |e.bottom| + j];
    assert forall j :: 0 <= j < |e.right| ==> e.right[j] == all[|e.top| + |e.bottom| + |e.left| + j];
  }

  /** The four border loops, top, bottom, left and right, with the same strength k. */
  method RestoreEdges(cloth: Cloth, e: EdgeIndices, k: real)
    requires cloth.Valid() && IndicesIn(e.All(), |cloth.particles|)
    modifies cloth.particles
    ensures cloth.States() == RestoreList(old(cloth.States()), e.All(), k)
  {
    ghost var s := cloth.States();
    IndicesInParts(e, |s|);
    RestoreIndices(cloth, e.top, k);
    RestoreIndices(cloth, e.bottom, k);
    RestoreListConcat(s, e.top, e.bottom, k);
    RestoreIndices(cloth, e.left, k);
    RestoreListConcat(s, e.top + e.bottom, e.left, k);
    RestoreIndices(cloth, e.right, k);
    RestoreListConcat(s, e.top + e.bottom + e.left, e.right, k);
  }

  /** The geometry update loop: every particle position is copied into the buffer, which is flagged for upload. */
  method CommitPositions(cloth: Cloth, buffer: PositionBuffer)
    requires buffer.data.Length == |cloth.particles|
    modifies buffer, buffer.data
    ensures buffer.data[..] == cloth.Positions() && buffer.needsUpdate
  {
    var ps := cloth.particles;
    for i := 0 to |ps|
      invariant forall k :: 0 <= k < i ==> buffer.data[k] == ps[k].position
    {
      buffer.data[i] := ps[i].position;
    }
    buffer.needsUpdate := true;
  }

  /** The tick is its four phases run one after the other. */
  lemma TickStages(s0: seq<PState>, s1: seq<PState>, s2: seq<PState>, s3: seq<PState>, s4: seq<PState>,
                   cs: seq<Constraint>, e: EdgeIndices, imps: seq<WindImpulse>, wind: nat -> Vec3,
                   params: ClothParams, deltaTime: real, sqrt: real -> real)
    requires IsSqrt(sqrt) && ConstraintsIn(cs, |s0|) && IndicesIn(e.All(), |s0|)
    requires s1 == ForcePhase(s0, wind, imps, sqrt)
    requires s2 == IntegratePhase(s1, GravityForce(params), TimestepSquared(deltaTime), params.damping)
    requires s3 == Relax(s2, cs, params.constraintIterations, sqrt)
    requires s4 == RestoreList(s3, e.All(), params.cornerForceStrength * 0.01)
    ensures s4 == Tick(s0, cs, e, imps, wind, params, deltaTime, sqrt)
  {
  }

  /** The force loop, then the gravity and integration loop with the capped time step. */
  method ForceAndIntegrate(cloth: Cloth, imps: seq<WindImpulse>, params: ClothParams, wind: nat -> Vec3,
                           deltaTime: real, sqrt: real -> real)
    requires cloth.Valid() && IsSqrt(sqrt)
    modifies cloth.particles
    ensures cloth.States()
         == IntegratePhase(ForcePhase(old(cloth.States()), wind, imps, sqrt), GravityForce(params), TimestepSquared(deltaTime), params.damping)
  {
    var dtSq := TimestepSquared(deltaTime);
    ApplyForces(cloth, wind, imps, sqrt);
    var gravity := GravityForce(params);
    IntegrateAll(cloth, gravity, dtSq, params.damping);
  }

  /** The relaxation loops, then the four border loops. */
  method RelaxAndRestore(cloth: Cloth, e: EdgeIndices, params: ClothParams, sqrt: real -> real)
    requires cloth.Valid()
    requires ConstraintsIn(cloth.constraints, |cloth.particles|) && IndicesIn(e.All(), |cloth.particles|)
    modifies cloth.particles
    ensures cloth.States()
         == RestoreList(Relax(old(cloth.States()), cloth.constraints, params.constraintIterations, sqrt),
                        e.All(), params.cornerForceStrength * 0.01)
  {
    RelaxConstraints(cloth, params.constraintIterations, sqrt);
    RestoreEdges(cloth, e, params.cornerForceStrength * 0.01);
  }

  /** The particle phases of `simulateCloth`, in place: the particles end in exactly the states `Tick` computes. */
  method StepParticles(cloth: Cloth, e: EdgeIndices, imps: seq<WindImpulse>,
                       params: ClothParams, wind: nat -> Vec3, deltaTime: real, sqrt: real -> real)
    requires cloth.Valid() && IsSqrt(sqrt)
    requires ConstraintsIn(cloth.constraints, |cloth.particles|) && IndicesIn(e.All(), |cloth.particles|)
    modifies cloth.particles
    ensures cloth.States() == Tick(old(cloth.States()), cloth.constraints, e, imps, wind, params, deltaTime, sqrt)
  {
    ghost var s0 := cloth.States();
    ghost var s1 := ForcePhase(s0, wind, imps, sqrt);
    ForceAndIntegrate(cloth, imps, params, wind, deltaTime, sqrt);
    ghost var s2 := cloth.States();
    ghost var s3 := Relax(s2, cloth.constraints, params.constraintIterations, sqrt);
    RelaxAndRestore(cloth, e, params, sqrt);
    TickStages(s0, s1, s2, s3, cloth.States(), cloth.constraints, e, imps, wind, params, deltaTime, sqrt);
  }

  /**
   * `simulateCloth`: one tick, in place, then the copy of the new positions
   * into the vertex buffer, which is flagged for upload.
   */
  method SimulateCloth(cloth: Cloth, buffer: PositionBuffer, e: EdgeIndices, imps: seq<WindImpulse>,
                       params: ClothParams, wind: nat -> Vec3, deltaTime: real, sqrt: real -> real)
    requires cloth.Valid() && IsSqrt(sqrt)
    requires ConstraintsIn(cloth.constraints, |cloth.particles|) && IndicesIn(e.All(), |cloth.particles|)
    requires buffer.data.Length == |cloth.particles|
    modifies cloth.particles, buffer, buffer.data
    ensures cloth.States() == Tick(old(cloth.States()), cloth.constraints, e, imps, wind, params, deltaTime, sqrt)
    ensures buffer.data[..] == cloth.Positions() && buffer.needsUpdate
  {
    StepParticles(cloth, e, imps, params, wind, deltaTime, sqrt);
    CommitPositions(cloth, buffer);
  }
}
