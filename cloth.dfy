// The cloth network behind the flag: a (w+1) x (h+1) grid of Verlet particles
// joined by distance constraints between grid neighbours, the boundary index
// lists the simulation pulls back towards the rest shape, and the bilinear
// sampler the stars use to ride on the cloth.
module Cloth {
  import opened Vectors
  import opened Constants

  /** Rest spacing along u (down the height) and along v (across the width). */
  const RestDistanceU: real := ClothHeight / (YSegs as real)
  const RestDistanceV: real := ClothWidth / (XSegs as real)

  /**
   * The parametric layout: v runs across the width, u runs down the height
   * with the top edge at positive y; the flag lies in the plane z = 0.
   * The unit square covers the whole flag, centred on the origin.
   */
  function ClothFunc(u: real, v: real): (p: Vec3)
    ensures p.z == 0.0
    ensures 0.0 <= u <= 1.0 && 0.0 <= v <= 1.0 ==>
      -ClothWidth / 2.0 <= p.x <= ClothWidth / 2.0 && -ClothHeight / 2.0 <= p.y <= ClothHeight / 2.0
    ensures u == 0.5 && v == 0.5 ==> p == Zero
  {
    Vec3((v - 0.5) * ClothWidth, -(u - 0.5) * ClothHeight, 0.0)
  }

  // ---------------------------------------------------------------------
  // Grid indexing

  /** Position of grid node (u, v) in the particle list: row-major with rows of w + 1. */
  function Index(w: nat, u: nat, v: nat): nat {
    u + v * (w + 1)
  }

  /** The grid column and row a particle index stands for. */
  function Col(w: nat, i: nat): nat {
    i % (w + 1)
  }

  function Row(w: nat, i: nat): nat {
    i / (w + 1)
  }

  lemma MulMonotonic(a: int, b: int, d: int)
    requires a <= b && 0 <= d
    ensures a * d <= b * d
  {
    assert b * d - a * d == (b - a) * d;
  }

  lemma MulCancelLess(a: int, b: int, d: int)
    requires 0 < d && a * d < b * d
    ensures a < b
  {
    if b <= a {
      MulMonotonic(b, a, d);
    }
  }

  /** Quotient and remainder are determined by any decomposition with a remainder in range. */
  lemma DivModUnique(x: int, d: int, q: int, r: int)
    requires 0 < d && 0 <= r < d && x == q * d + r
    ensures x / d == q && x % d == r
  {
    var q', r' := x / d, x % d;
    assert x == q' * d + r';
    assert q' * d < (q + 1) * d;
    MulCancelLess(q', q + 1, d);
    assert q * d < (q' + 1) * d;
    MulCancelLess(q, q' + 1, d);
  }

  /** Decoding an index gives back the node it was made from. */
  lemma IndexCoordinates(w: nat, u: nat, v: nat)
    requires u <= w
    ensures Col(w, Index(w, u, v)) == u && Row(w, Index(w, u, v)) == v
  {
    DivModUnique(Index(w, u, v), w + 1, v, u);
  }

  /** Every index is the index of its decoded node, whose column is at most w. */
  lemma CoordinatesIndex(w: nat, i: nat)
    ensures Col(w, i) <= w
    ensures Index(w, Col(w, i), Row(w, i)) == i
  {
  }

  lemma IndexInRange(w: nat, h: nat, u: nat, v: nat)
    requires u <= w && v <= h
    ensures Index(w, u, v) < (w + 1) * (h + 1)
  {
    MulMonotonic(v, h, w + 1);
    calc {
      Index(w, u, v);
      <= w + v * (w + 1);
      <= w + h * (w + 1);
      < (w + 1) * (h + 1);
    }
  }

  lemma RowInRange(w: nat, h: nat, i: nat)
    requires i < (w + 1) * (h + 1)
    ensures Row(w, i) <= h
  {
    CoordinatesIndex(w, i);
    if Row(w, i) > h {
      MulMonotonic(h + 1, Row(w, i), w + 1);
    }
  }

  /**
   * The index map is a bijection from [0, w] x [0, h] onto [0, (w+1)(h+1)):
   * distinct nodes get distinct indices, every index in range decodes to a
   * node of the grid, and every node's index is in range.
   */
  lemma IndexBijective(w: nat, h: nat)
    ensures forall u1: nat, v1: nat, u2: nat, v2: nat ::
      u1 <= w && u2 <= w && Index(w, u1, v1) == Index(w, u2, v2) ==> u1 == u2 && v1 == v2
    ensures forall u: nat, v: nat :: u <= w && v <= h ==> Index(w, u, v) < (w + 1) * (h + 1)
    ensures forall i: nat :: i < (w + 1) * (h + 1) ==>
      Col(w, i) <= w && Row(w, i) <= h && Index(w, Col(w, i), Row(w, i)) == i
  {
    forall u1: nat, v1: nat, u2: nat, v2: nat | u1 <= w && u2 <= w && Index(w, u1, v1) == Index(w, u2, v2)
      ensures u1 == u2 && v1 == v2
    {
      IndexCoordinates(w, u1, v1);
      IndexCoordinates(w, u2, v2);
    }
    forall u: nat, v: nat | u <= w && v <= h
      ensures Index(w, u, v) < (w + 1) * (h + 1)
    {
      IndexInRange(w, h, u, v);
    }
    forall i: nat | i < (w + 1) * (h + 1)
      ensures Col(w, i) <= w && Row(w, i) <= h && Index(w, Col(w, i), Row(w, i)) == i
    {
      CoordinatesIndex(w, i);
      RowInRange(w, h, i);
    }
  }

  // ---------------------------------------------------------------------
  // Particles

  /** A snapshot of one particle's simulation state. */
  datatype PState = PState(position: Vec3, previous: Vec3, original: Vec3, a: Vec3, invMass: real)
  {
    /** `addForce`: the force, divided by the mass, joins the accumulated acceleration. */
    function WithForce(force: Vec3): PState {
      this.(a := Add(a, Scale(force, invMass)))
    }

    /** `integrate`: one damped Verlet step; the acceleration is used up. */
    function Integrated(timesq: real, damping: real): PState {
      this.(position := Verlet(position, previous, a, timesq, damping), previous := position, a := Zero)
    }
  }

  /** Damped Verlet: the position moves on by its damped last displacement plus a * dt^2. */
  function Verlet(pos: Vec3, prev: Vec3, acc: Vec3, timesq: real, damping: real): Vec3 {
    Add(Add(Scale(Sub(pos, prev), 1.0 - damping), pos), Scale(acc, timesq))
  }

  /** The displacement a Verlet step makes is the damped previous displacement plus acc * timesq. */
  lemma VerletDisplacement(pos: Vec3, prev: Vec3, acc: Vec3, timesq: real, damping: real)
    ensures Sub(Verlet(pos, prev, acc, timesq, damping), pos)
         == Add(Scale(Sub(pos, prev), 1.0 - damping), Scale(acc, timesq))
  {
  }

  /** A particle at rest with no acceleration stays where it is. */
  lemma VerletAtRest(pos: Vec3, timesq: real, damping: real)
    ensures Verlet(pos, pos, Zero, timesq, damping) == pos
  {
  }

  class Particle {
    var position: Vec3
    var previous: Vec3
    const original: Vec3
    var a: Vec3
    const mass: real
    const invMass: real

    /** A particle at parameter (x, y) of the layout, at rest. */
    constructor (x: real, y: real, z: real, mass: real)
      requires mass != 0.0
      ensures position == ClothFunc(x, y) && previous == position && original == position
      ensures a == Zero
      ensures this.mass == mass && invMass == 1.0 / mass
    {
      var p := ClothFunc(x, y);
      position, previous, original := p, p, p;
      a := Zero;
      this.mass := mass;
      invMass := 1.0 / mass;
    }

    function State(): PState
      reads this
    {
      PState(position, previous, original, a, invMass)
    }

    method AddForce(force: Vec3)
      modifies this`a
      ensures State() == old(State()).WithForce(force)
    {
      a := Add(a, Scale(force, invMass));
    }

    method Integrate(timesq: real, damping: real)
      modifies this`position, this`previous, this`a
      ensures State() == old(State()).Integrated(timesq, damping)
    {
      var drag := 1.0 - damping;
      var newPos := Add(Scale(Sub(position, previous), drag), position);
      newPos := Add(newPos, Scale(a, timesq));
      previous := position;
      position := newPos;
      a := Zero;
    }
  }

  // ---------------------------------------------------------------------
  // Distance constraints

  /** A constraint between the particles at two indices, with its rest distance. */
  datatype Constraint = Constraint(p1: nat, p2: nat, distance: real)

  /**
   * `satisfyConstraints` on two positions: each moves half of the way that
   * brings them to `distance` apart, along the line joining them; nothing
   * moves when the two coincide. The moves are equal and opposite, so the
   * midpoint stays where it was.
   */
  function Satisfy(x1: Vec3, x2: Vec3, distance: real, sqrt: real -> real): (r: (Vec3, Vec3))
    ensures Add(r.0, r.1) == Add(x1, x2)
    ensures Sub(r.0, x1) == Sub(x2, r.1)
  {
    var diff := Sub(x2, x1);
    var current := Length(diff, sqrt);
    if current == 0.0 then (x1, x2)
    else
      var half := Scale(Scale(diff, 1.0 - distance / current), 0.5);
      (Add(x1, half), Sub(x2, half))
  }

  /** Two coincident particles are left where they are. */
  lemma SatisfyCoincident(x: Vec3, distance: real, sqrt: real -> real)
    ensures Satisfy(x, x, distance, sqrt) == (x, x)
  {
    var diff := Sub(x, x);
    assert diff == Zero;
    var current := Length(diff, sqrt);
    if current != 0.0 {
      var c := Scale(diff, 1.0 - distance / current);
      assert c == Zero;
      assert Scale(c, 0.5) == Zero;
    }
  }

  /** In exact arithmetic one correction leaves the pair exactly `distance` apart. */
  lemma SatisfyReachesDistance(x1: Vec3, x2: Vec3, distance: real, sqrt: real -> real)
    requires IsSqrt(sqrt)
    requires Length(Sub(x2, x1), sqrt) != 0.0
    ensures var r := Satisfy(x1, x2, distance, sqrt); DistSq(r.1, r.0) == distance * distance
  {
    var diff := Sub(x2, x1);
    var l := Length(diff, sqrt);
    LengthSquares(diff, sqrt);
    var r := Satisfy(x1, x2, distance, sqrt);
    var k := 1.0 - distance / l;
    assert Sub(r.1, r.0) == Scale(diff, distance / l) by {
      assert r.0 == Add(x1, Scale(Scale(diff, k), 0.5));
      assert r.1 == Sub(x2, Scale(Scale(diff, k), 0.5));
      assert diff.x - diff.x * k == diff.x * (distance / l);
      assert diff.y - diff.y * k == diff.y * (distance / l);
      assert diff.z - diff.z * k == diff.z * (distance / l);
    }
    ScaleLengthSq(diff, distance / l);
    calc {
      DistSq(r.1, r.0);
      (distance / l) * (distance / l) * LengthSq(diff);
      (distance / l) * (distance / l) * (l * l);
      distance * distance;
    }
  }

  /** A pair whose separation already equals a non-zero rest distance is left where it is. */
  lemma SatisfyAtLength(x1: Vec3, x2: Vec3, distance: real, sqrt: real -> real)
    requires distance != 0.0 && Length(Sub(x2, x1), sqrt) == distance
    ensures Satisfy(x1, x2, distance, sqrt) == (x1, x2)
  {
    var diff := Sub(x2, x1);
    var current := Length(diff, sqrt);
    assert distance / current == 1.0;
    var k := 1.0 - distance / current;
    assert Scale(diff, k) == Zero;
    assert Scale(Scale(diff, k), 0.5) == Zero;
  }

  /** The same in squared form: a pair at squared distance distance^2 is left where it is. */
  lemma SatisfyAtRest(x1: Vec3, x2: Vec3, distance: real, sqrt: real -> real)
    requires IsSqrt(sqrt)
    requires 0.0 < distance && DistSq(x2, x1) == Square(distance)
    ensures Satisfy(x1, x2, distance, sqrt) == (x1, x2)
  {
    SqrtOfSquare(sqrt, distance);
    SatisfyAtLength(x1, x2, distance, sqrt);
  }

  /** `satisfyConstraints` on two particles, moving them in place. */
  method SatisfyConstraints(p1: Particle, p2: Particle, distance: real, sqrt: real -> real)
    modifies p1`position, p2`position
    ensures p1 != p2 ==> (p1.position, p2.position) == Satisfy(old(p1.position), old(p2.position), distance, sqrt)
    ensures p1 == p2 ==> p1.position == old(p1.position)
  {
    var diff := Sub(p2.position, p1.position);
    var currentDist := Length(diff, sqrt);
    if currentDist == 0.0 {
      return;
    }
    var correction := Scale(diff, 1.0 - distance / currentDist);
    var correctionHalf := Scale(correction, 0.5);
    ghost var x1, x2 := p1.position, p2.position;
    assert p1 == p2 ==> correctionHalf == Zero;
    p1.position := Add(p1.position, correctionHalf);
    p2.position := Sub(p2.position, correctionHalf);
    assert p1 != p2 ==> (p1.position, p2.position) == Satisfy(x1, x2, distance, sqrt);
  }

  // ---------------------------------------------------------------------
  // Constraint generation

  /** The constraint from node (u, v) to the node below it in v, at rest distance V. */
  function VLink(w: nat, u: nat, v: nat): Constraint {
    Constraint(Index(w, u, v), Index(w, u, v + 1), RestDistanceV)
  }

  /** The constraint from node (u, v) to the node after it in u, at rest distance U. */
  function ULink(w: nat, u: nat, v: nat): Constraint {
    Constraint(Index(w, u, v), Index(w, u + 1, v), RestDistanceU)
  }

  /** The links the interior loop emits for the first n cells of row v, two per cell. */
  function RowLinks(w: nat, v: nat, n: nat): (r: seq<Constraint>)
    ensures |r| == 2 * n
  {
    seq(2 * n, k requires 0 <= k => if k % 2 == 0 then VLink(w, k / 2, v) else ULink(w, k / 2, v))
  }

  /** The links the interior loop emits for the first m rows. */
  function GridLinks(w: nat, m: nat): (r: seq<Constraint>)
    ensures |r| == 2 * w * m
  {
    if m == 0 then [] else GridLinks(w, m - 1) + RowLinks(w, m - 1, w)
  }

  /** The vertical links down the last column u = w, for its first n rows. */
  function RightLinks(w: nat, n: nat): (r: seq<Constraint>)
    ensures |r| == n
  {
    seq(n, k requires 0 <= k => VLink(w, w, k))
  }

  /** The horizontal links along the last row v = h, for its first n columns. */
  function BottomLinks(w: nat, h: nat, n: nat): (r: seq<Constraint>)
    ensures |r| == n
  {
    seq(n, k requires 0 <= k => ULink(w, k, h))
  }

  /** All constraints of a w x h cloth, in the order the constructor emits them. */
  function Links(w: nat, h: nat): (r: seq<Constraint>)
    ensures |r| == 2 * w * h + w + h
  {
    GridLinks(w, h) + RightLinks(w, h) + BottomLinks(w, h, w)
  }

  /**
   * c joins two particles of the (w+1) x (h+1) grid that differ by one in
   * exactly one grid coordinate: one step in v at rest distance V, or one
   * step in u at rest distance U.
   */
  ghost predicate IsGridLink(w: nat, h: nat, c: Constraint) {
    && c.p1 < (w + 1) * (h + 1)
    && c.p2 < (w + 1) * (h + 1)
    && ((Col(w, c.p2) == Col(w, c.p1) && Row(w, c.p2) == Row(w, c.p1) + 1 && c.distance == RestDistanceV)
     || (Row(w, c.p2) == Row(w, c.p1) && Col(w, c.p2) == Col(w, c.p1) + 1 && c.distance == RestDistanceU))
  }

  ghost predicate AllGridLinks(w: nat, h: nat, s: seq<Constraint>) {
    forall k :: 0 <= k < |s| ==> IsGridLink(w, h, s[k])
  }

  lemma VLinkIsGridLink(w: nat, h: nat, u: nat, v: nat)
    requires u <= w && v < h
    ensures IsGridLink(w, h, VLink(w, u, v))
  {
    IndexCoordinates(w, u, v);
    IndexCoordinates(w, u, v + 1);
    IndexInRange(w, h, u, v);
    IndexInRange(w, h, u, v + 1);
  }

  lemma ULinkIsGridLink(w: nat, h: nat, u: nat, v: nat)
    requires u < w && v <= h
    ensures IsGridLink(w, h, ULink(w, u, v))
  {
    IndexCoordinates(w, u, v);
    IndexCoordinates(w, u + 1, v);
    IndexInRange(w, h, u, v);
    IndexInRange(w, h, u + 1, v);
  }

  lemma RowLinksAreGridLinks(w: nat, h: nat, v: nat, n: nat)
    requires v < h && n <= w
    ensures AllGridLinks(w, h, RowLinks(w, v, n))
  {
    var r := RowLinks(w, v, n);
    forall k | 0 <= k < |r|
      ensures IsGridLink(w, h, r[k])
    {
      VLinkIsGridLink(w, h, k / 2, v);
      ULinkIsGridLink(w, h, k / 2, v);
    }
  }

  lemma {:induction false} GridLinksAreGridLinks(w: nat, h: nat, m: nat)
    requires m <= h
    ensures AllGridLinks(w, h, GridLinks(w, m))
  {
    if m > 0 {
      GridLinksAreGridLinks(w, h, m - 1);
      RowLinksAreGridLinks(w, h, m - 1, w);
    }
  }

  lemma RightLinksAreGridLinks(w: nat, h: nat, n: nat)
    requires n <= h
    ensures AllGridLinks(w, h, RightLinks(w, n))
  {
    var r := RightLinks(w, n);
    forall k | 0 <= k < |r|
      ensures IsGridLink(w, h, r[k])
    {
      VLinkIsGridLink(w, h, w, k);
    }
  }

  lemma BottomLinksAreGridLinks(w: nat, h: nat, n: nat)
    requires n <= w
    ensures AllGridLinks(w, h, BottomLinks(w, h, n))
  {
    var r := BottomLinks(w, h, n);
    forall k | 0 <= k < |r|
      ensures IsGridLink(w, h, r[k])
    {
      ULinkIsGridLink(w, h, k, h);
    }
  }

  /** Every constraint joins two grid neighbours, with the rest distance of its direction. */
  lemma LinksAreGridLinks(w: nat, h: nat)
    ensures AllGridLinks(w, h, Links(w, h))
  {
    GridLinksAreGridLinks(w, h, h);
    RightLinksAreGridLinks(w, h, h);
    BottomLinksAreGridLinks(w, h, w);
  }

  lemma RowLinksComplete(w: nat, v: nat, n: nat, u: nat)
    requires u < n
    ensures VLink(w, u, v) in RowLinks(w, v, n) && ULink(w, u, v) in RowLinks(w, v, n)
  {
    var r := RowLinks(w, v, n);
    assert r[2 * u] == VLink(w, u, v);
    assert r[2 * u + 1] == ULink(w, u, v);
  }

  lemma {:induction false} GridLinksComplete(w: nat, m: nat, u: nat, v: nat)
    requires u < w && v < m
    ensures VLink(w, u, v) in GridLinks(w, m) && ULink(w, u, v) in GridLinks(w, m)
  {
    if v < m - 1 {
      GridLinksComplete(w, m - 1, u, v);
    } else {
      RowLinksComplete(w, v, w, u);
    }
  }

  lemma RightLinksComplete(w: nat, n: nat, v: nat)
    requires v < n
    ensures VLink(w, w, v) in RightLinks(w, n)
  {
    assert RightLinks(w, n)[v] == VLink(w, w, v);
  }

  lemma BottomLinksComplete(w: nat, h: nat, n: nat, u: nat)
    requires u < n
    ensures ULink(w, u, h) in BottomLinks(w, h, n)
  {
    assert BottomLinks(w, h, n)[u] == ULink(w, u, h);
  }

  /**
   * Every pair of grid neighbours is joined: each (u, v)-(u, v+1) pair by a
   * constraint at rest distance V and each (u, v)-(u+1, v) pair by one at
   * rest distance U.
   */
  lemma LinksComplete(w: nat, h: nat, u: nat, v: nat)
    ensures u <= w && v < h ==> VLink(w, u, v) in Links(w, h)
    ensures u < w && v <= h ==> ULink(w, u, v) in Links(w, h)
  {
    if u < w && v < h {
      GridLinksComplete(w, h, u, v);
    }
    if u == w && v < h {
      RightLinksComplete(w, h, v);
    }
    if u < w && v == h {
      BottomLinksComplete(w, h, w, u);
    }
  }

  /** The constructor's constraint loops. */
  method BuildConstraints(w: nat, h: nat) returns (constraints: seq<Constraint>)
    ensures constraints == Links(w, h)
  {
    constraints := [];
    for v := 0 to h
      invariant constraints == GridLinks(w, v)
    {
      for u := 0 to w
        invariant constraints == GridLinks(w, v) + RowLinks(w, v, u)
      {
        constraints := constraints + [VLink(w, u, v)];
        constraints := constraints + [ULink(w, u, v)];
        assert RowLinks(w, v, u + 1) == RowLinks(w, v, u) + [VLink(w, u, v), ULink(w, u, v)];
      }
    }
    for v := 0 to h
      invariant constraints == GridLinks(w, h) + RightLinks(w, v)
    {
      constraints := constraints + [VLink(w, w, v)];
      assert RightLinks(w, v + 1) == RightLinks(w, v) + [VLink(w, w, v)];
    }
    for u := 0 to w
      invariant constraints == GridLinks(w, h) + RightLinks(w, h) + BottomLinks(w, h, u)
    {
      constraints := constraints + [ULink(w, u, h)];
      assert BottomLinks(w, h, u + 1) == BottomLinks(w, h, u) + [ULink(w, u, h)];
    }
  }

  // ---------------------------------------------------------------------
  // The cloth

  /** Where node i of a w x h cloth sits at rest: the layout at (col / w, row / h). */
  function RestPosition(w: nat, h: nat, i: nat): Vec3
    requires 1 <= w && 1 <= h
  {
    ClothFunc(Col(w, i) as real / w as real, Row(w, i) as real / h as real)
  }

  /** The state every particle starts in: at rest at its layout position, with no acceleration. */
  function RestState(w: nat, h: nat, mass: real, i: nat): PState
    requires 1 <= w && 1 <= h && mass != 0.0
  {
    var p := RestPosition(w, h, i);
    PState(p, p, p, Zero, 1.0 / mass)
  }

  /** No particle object occurs twice. */
  ghost predicate Distinct(ps: seq<Particle>) {
    forall i, j :: 0 <= i < |ps| && 0 <= j < |ps| && i != j ==> ps[i] != ps[j]
  }

  /** Every particle has the given mass and is in its rest state. */
  ghost predicate AtRest(ps: seq<Particle>, w: nat, h: nat, mass: real)
    requires 1 <= w && 1 <= h && mass != 0.0
    reads ps
  {
    forall i :: 0 <= i < |ps| ==> ps[i].mass == mass && ps[i].State() == RestState(w, h, mass, i)
  }

  /** The constructor's particle loops: rows v = 0..h, each of columns u = 0..w. */
  method MakeParticles(w: nat, h: nat, mass: real) returns (particles: seq<Particle>)
    requires 1 <= w && 1 <= h && mass != 0.0
    ensures |particles| == (w + 1) * (h + 1)
    ensures Distinct(particles)
    ensures AtRest(particles, w, h, mass)
    ensures forall i :: 0 <= i < |particles| ==> fresh(particles[i])
  {
    particles := [];
    for v := 0 to h + 1
      invariant |particles| == v * (w + 1)
      invariant Distinct(particles)
      invariant AtRest(particles, w, h, mass)
      invariant forall i :: 0 <= i < |particles| ==> fresh(particles[i])
    {
      particles := AppendRow(particles, w, h, v, mass);
    }
    assert |particles| == (w + 1) * (h + 1);
  }

  /** The inner loop: the particles of row v, columns u = 0..w, appended in order. */
  method AppendRow(init: seq<Particle>, w: nat, h: nat, v: nat, mass: real) returns (particles: seq<Particle>)
    requires 1 <= w && 1 <= h && mass != 0.0
    requires |init| == v * (w + 1)
    requires Distinct(init) && AtRest(init, w, h, mass)
    ensures |particles| == (v + 1) * (w + 1) && particles[..|init|] == init
    ensures Distinct(particles)
    ensures AtRest(particles, w, h, mass)
    ensures forall i :: |init| <= i < |particles| ==> fresh(particles[i])
  {
    particles := init;
    for u := 0 to w + 1
      invariant |particles| == Index(w, u, v) && particles[..|init|] == init
      invariant Distinct(particles)
      invariant AtRest(particles, w, h, mass)
      invariant forall i :: |init| <= i < |particles| ==> fresh(particles[i])
    {
      ghost var n := |particles|;
      var p := new Particle(u as real / w as real, v as real / h as real, 0.0, mass);
      assert forall i :: 0 <= i < |particles| ==> particles[i] != p;
      assert p.State() == RestState(w, h, mass, n) by {
        IndexCoordinates(w, u, v);
      }
      particles := particles + [p];
    }
  }

  class Cloth {
    const w: nat
    const h: nat
    const particles: seq<Particle>
    const constraints: seq<Constraint>

    /** One distinct particle per grid node, and the constraints of the grid. */
    ghost predicate Valid() {
      && 1 <= w && 1 <= h
      && |particles| == (w + 1) * (h + 1)
      && Distinct(particles)
      && constraints == Links(w, h)
    }

    /** One particle per grid node: all the sampler needs. */
    predicate Shaped() {
      |particles| == (w + 1) * (h + 1)
    }

    constructor (w: nat, h: nat, mass: real)
      requires 1 <= w && 1 <= h && mass != 0.0
      ensures Valid() && this.w == w && this.h == h
      ensures forall i :: 0 <= i < |particles| ==> fresh(particles[i])
      ensures AtRest(particles, w, h, mass)
    {
      var ps := MakeParticles(w, h, mass);
      var cs := BuildConstraints(w, h);
      this.w, this.h := w, h;
      particles, constraints := ps, cs;
    }

    /** The particle positions, in index order. */
    function Positions(): (r: seq<Vec3>)
      reads particles
      ensures |r| == |particles|
      ensures forall i :: 0 <= i < |r| ==> r[i] == particles[i].position
    {
      seq(|particles|, i requires 0 <= i < |particles| reads particles => particles[i].position)
    }

    /** The particle states, in index order. */
    function States(): (r: seq<PState>)
      reads particles
      ensures |r| == |particles|
      ensures forall i :: 0 <= i < |r| ==> r[i] == particles[i].State()
    {
      seq(|particles|, i requires 0 <= i < |particles| reads particles => particles[i].State())
    }

    /** `getClothPositionAtUV` on this cloth: a pure read of the current positions. */
    function PositionAtUV(u: real, v: real, sqrt: real -> real): Sample
      requires Shaped()
      reads particles
    {
      SampleAt(Positions(), w, h, u, v, sqrt)
    }
  }

  // ---------------------------------------------------------------------
  // The bilinear sampler

  /** The grid cell a sample falls in: its corner columns and rows and the fractional offsets. */
  datatype Cell = Cell(x0: nat, x1: nat, y0: nat, y1: nat, fx: real, fy: real)

  /** One axis of a cell: the lower and upper grid line and the offset from the lower one. */
  datatype Span = Span(lo: nat, hi: nat, frac: real)

  /**
   * The span of the clamped coordinate t on an axis of n segments: two grid
   * lines at most one apart and both within [0, n], and an offset in [0, 1)
   * that leads from the lower line back to the scaled coordinate.
   */
  function SpanAt(t: real, n: nat): (s: Span)
    ensures s.lo <= s.hi <= n && s.hi <= s.lo + 1
    ensures 0.0 <= s.frac < 1.0
    ensures s.lo as real + s.frac == Clamp01(t) * n as real
  {
    var x := Clamp01(t) * n as real;
    ScaledFloor(Clamp01(t), n);
    var lo := x.Floor;
    Span(lo, if lo + 1 < n then lo + 1 else n, x - lo as real)
  }

  lemma ScaledFloor(t: real, n: nat)
    requires 0.0 <= t <= 1.0
    ensures 0 <= (t * n as real).Floor <= n
    ensures (t * n as real).Floor as real <= t * n as real < (t * n as real).Floor as real + 1.0
  {
    var x := t * n as real;
    assert 0.0 <= x <= n as real by {
      assert (1.0 - t) * n as real >= 0.0;
      assert t * n as real >= 0.0;
    }
    assert x.Floor as real <= x;
    assert 0.0 <= x.Floor as real + 1.0;
  }

  /** The cell of the clamped point (u, v): the span of u across the w columns and of v across the h rows. */
  function CellAt(w: nat, h: nat, u: real, v: real): (c: Cell)
    ensures c.x0 <= c.x1 <= w && c.x1 <= c.x0 + 1
    ensures c.y0 <= c.y1 <= h && c.y1 <= c.y0 + 1
    ensures 0.0 <= c.fx < 1.0 && 0.0 <= c.fy < 1.0
    ensures c.x0 as real + c.fx == Clamp01(u) * w as real
    ensures c.y0 as real + c.fy == Clamp01(v) * h as real
  {
    var x, y := SpanAt(u, w), SpanAt(v, h);
    Cell(x.lo, x.hi, y.lo, y.hi, x.frac, y.frac)
  }

  /** All four corners of the looked-up cell are particles of the cloth. */
  lemma CellInRange(w: nat, h: nat, u: real, v: real)
    ensures var c := CellAt(w, h, u, v);
      && Index(w, c.x0, c.y0) < (w + 1) * (h + 1)
      && Index(w, c.x1, c.y0) < (w + 1) * (h + 1)
      && Index(w, c.x0, c.y1) < (w + 1) * (h + 1)
      && Index(w, c.x1, c.y1) < (w + 1) * (h + 1)
  {
    var c := CellAt(w, h, u, v);
    IndexInRange(w, h, c.x0, c.y0);
    IndexInRange(w, h, c.x1, c.y0);
    IndexInRange(w, h, c.x0, c.y1);
    IndexInRange(w, h, c.x1, c.y1);
  }

  /** The sampled position and the surface normal of its cell. */
  datatype Sample = Sample(position: Vec3, normal: Vec3)

  /**
   * `getClothPositionAtUV` over the positions `ps` of a w x h cloth:
   * bilinear interpolation inside the cell of the clamped (u, v), and the
   * normalised cross product of the cell's two edges from its first corner.
   */
  function SampleAt(ps: seq<Vec3>, w: nat, h: nat, u: real, v: real, sqrt: real -> real): Sample
    requires |ps| == (w + 1) * (h + 1)
  {
    var c := CellAt(w, h, u, v);
    CellInRange(w, h, u, v);
    var p00 := ps[Index(w, c.x0, c.y0)];
    var p10 := ps[Index(w, c.x1, c.y0)];
    var p01 := ps[Index(w, c.x0, c.y1)];
    var p11 := ps[Index(w, c.x1, c.y1)];
    var top := Lerp(p00, p10, c.fx);
    var bottom := Lerp(p01, p11, c.fx);
    Sample(Lerp(top, bottom, c.fy), Normalize(Cross(Sub(p10, p00), Sub(p01, p00)), sqrt))
  }

  /** Sampling outside the unit square is sampling at the clamped point. */
  lemma SampleClamps(ps: seq<Vec3>, w: nat, h: nat, u: real, v: real, sqrt: real -> real)
    requires |ps| == (w + 1) * (h + 1)
    ensures SampleAt(ps, w, h, u, v, sqrt) == SampleAt(ps, w, h, Clamp01(u), Clamp01(v), sqrt)
  {
    SpanClamps(u, w);
    SpanClamps(v, h);
    assert CellAt(w, h, u, v) == CellAt(w, h, Clamp01(u), Clamp01(v));
  }

  /** Clamping a coordinate first does not move its span. */
  lemma SpanClamps(t: real, n: nat)
    ensures SpanAt(Clamp01(t), n) == SpanAt(t, n)
  {
    assert Clamp01(Clamp01(t)) == Clamp01(t);
  }

  /** The sampler passes through the particles: at node (i, j) it returns that particle's position. */
  lemma SampleAtNode(ps: seq<Vec3>, w: nat, h: nat, i: nat, j: nat, sqrt: real -> real)
    requires |ps| == (w + 1) * (h + 1)
    requires 1 <= w && 1 <= h && i <= w && j <= h
    ensures Index(w, i, j) < |ps|
    ensures SampleAt(ps, w, h, i as real / w as real, j as real / h as real, sqrt).position == ps[Index(w, i, j)]
  {
    IndexInRange(w, h, i, j);
    SpanAtNode(i, w);
    SpanAtNode(j, h);
  }

  /** At the parameter of node i of n, the span starts on grid line i with no offset. */
  lemma SpanAtNode(i: nat, n: nat)
    requires 1 <= n && i <= n
    ensures SpanAt(i as real / n as real, n).lo == i
    ensures SpanAt(i as real / n as real, n).frac == 0.0
  {
    var t := i as real / n as real;
    assert 0.0 <= t <= 1.0;
    assert Clamp01(t) * n as real == i as real;
  }

  // ---------------------------------------------------------------------
  // Boundary index lists

  /** The four boundary lists the simulation pulls back to the rest shape. */
  datatype EdgeIndices = EdgeIndices(top: seq<nat>, bottom: seq<nat>, left: seq<nat>, right: seq<nat>)
  {
    /** The four lists one after the other, in the order the simulation visits them. */
    function All(): seq<nat> {
      top + bottom + left + right
    }
  }

  /**
   * `createEdgeIndices`: the whole top row and the whole bottom row, then the
   * first and the last column without their corners.
   */
  function Edges(w: nat, h: nat): (e: EdgeIndices)
    ensures |e.top| == w + 1 && |e.bottom| == w + 1
    ensures |e.left| == |e.right| == if h == 0 then 0 else h - 1
  {
    var sides := if h == 0 then 0 else h - 1;
    EdgeIndices(
      seq(w + 1, i requires 0 <= i => Index(w, i, 0)),
      seq(w + 1, i requires 0 <= i => Index(w, i, h)),
      seq(sides, i requires 0 <= i => Index(w, 0, i + 1)),
      seq(sides, i requires 0 <= i => Index(w, w, i + 1)))
  }

  method CreateEdgeIndices(cloth: Cloth) returns (e: EdgeIndices)
    ensures e == Edges(cloth.w, cloth.h)
  {
    var w, h := cloth.w, cloth.h;
    var top, bottom, left, right := [], [], [], [];
    for i := 0 to w + 1
      invariant top == seq(i, k requires 0 <= k => Index(w, k, 0))
    {
      top := top + [Index(w, i, 0)];
    }
    for i := 0 to w + 1
      invariant bottom == seq(i, k requires 0 <= k => Index(w, k, h))
    {
      bottom := bottom + [Index(w, i, h)];
    }
    for i := 1 to if h == 0 then 1 else h
      invariant left == seq(i - 1, k requires 0 <= k => Index(w, 0, k + 1))
    {
      left := left + [Index(w, 0, i)];
    }
    for i := 1 to if h == 0 then 1 else h
      invariant right == seq(i - 1, k requires 0 <= k => Index(w, w, k + 1))
    {
      right := right + [Index(w, w, i)];
    }
    e := EdgeIndices(top, bottom, left, right);
  }

  /** A particle on the border of the grid: first or last row, or first or last column. */
  ghost predicate IsBoundary(w: nat, h: nat, i: nat) {
    i < (w + 1) * (h + 1) && (Row(w, i) == 0 || Row(w, i) == h || Col(w, i) == 0 || Col(w, i) == w)
  }

  /** The grid node at position k of the concatenated boundary lists. */
  function EdgeNode(w: nat, h: nat, k: nat): (nat, nat)
    requires 1 <= h
  {
    if k <= w then (k, 0)
    else if k < 2 * (w + 1) then (k - (w + 1), h)
    else if k < 2 * (w + 1) + (h - 1) then (0, k - 2 * (w + 1) + 1)
    else (w, k - 2 * (w + 1) - (h - 1) + 1)
  }

  lemma EdgesAt(w: nat, h: nat, k: nat)
    requires 1 <= h && k < |Edges(w, h).All()|
    ensures EdgeNode(w, h, k).0 <= w && EdgeNode(w, h, k).1 <= h
    ensures Edges(w, h).All()[k] == Index(w, EdgeNode(w, h, k).0, EdgeNode(w, h, k).1)
  {
  }

  /** No index occurs twice in the four lists, whether in one list or across two. */
  lemma EdgesDistinct(w: nat, h: nat)
    requires 1 <= w && 1 <= h
    ensures var all := Edges(w, h).All();
      forall a, b :: 0 <= a < |all| && 0 <= b < |all| && a != b ==> all[a] != all[b]
  {
    var all := Edges(w, h).All();
    forall a, b | 0 <= a < |all| && 0 <= b < |all| && a != b
      ensures all[a] != all[b]
    {
      EdgesAt(w, h, a);
      EdgesAt(w, h, b);
      var (ua, va) := EdgeNode(w, h, a);
      var (ub, vb) := EdgeNode(w, h, b);
      IndexCoordinates(w, ua, va);
      IndexCoordinates(w, ub, vb);
    }
  }

  /** An index is in one of the four lists if and only if it is a border particle. */
  lemma EdgesCoverBoundary(w: nat, h: nat)
    requires 1 <= w && 1 <= h
    ensures forall i: nat :: i in Edges(w, h).All() <==> IsBoundary(w, h, i)
  {
    var all := Edges(w, h).All();
    forall i: nat
      ensures i in all <==> IsBoundary(w, h, i)
    {
      if i in all {
        var k :| 0 <= k < |all| && all[k] == i;
        EdgesAt(w, h, k);
        var (u, v) := EdgeNode(w, h, k);
        IndexCoordinates(w, u, v);
        IndexInRange(w, h, u, v);
      }
      if IsBoundary(w, h, i) {
        CoordinatesIndex(w, i);
        RowInRange(w, h, i);
        var u, v := Col(w, i), Row(w, i);
        if v == 0 {
          assert all[u] == i;
        } else if v == h {
          assert all[w + 1 + u] == i;
        } else if u == 0 {
          assert all[2 * (w + 1) + v - 1] == i;
        } else {
          assert all[2 * (w + 1) + (h - 1) + v - 1] == i;
        }
      }
    }
  }

  /** The corners belong to the top and bottom rows and to neither side list. */
  lemma CornersOnlyTopBottom(w: nat, h: nat)
    requires 1 <= w && 1 <= h
    ensures var e := Edges(w, h);
      && Index(w, 0, 0) in e.top && Index(w, w, 0) in e.top
      && Index(w, 0, h) in e.bottom && Index(w, w, h) in e.bottom
      && Index(w, 0, 0) !in e.left + e.right && Index(w, w, 0) !in e.left + e.right
      && Index(w, 0, h) !in e.left + e.right && Index(w, w, h) !in e.left + e.right
  {
    var e := Edges(w, h);
    assert e.top[0] == Index(w, 0, 0) && e.top[w] == Index(w, w, 0);
    assert e.bottom[0] == Index(w, 0, h) && e.bottom[w] == Index(w, w, h);
    forall k | 0 <= k < |e.left + e.right|
      ensures (e.left + e.right)[k] !in {Index(w, 0, 0), Index(w, w, 0), Index(w, 0, h), Index(w, w, h)}
    {
      var u := if k < h - 1 then 0 else w;
      var v := if k < h - 1 then k + 1 else k - (h - 1) + 1;
      assert (e.left + e.right)[k] == Index(w, u, v);
      IndexCoordinates(w, u, v);
      IndexCoordinates(w, 0, 0);
      IndexCoordinates(w, w, 0);
      IndexCoordinates(w, 0, h);
      IndexCoordinates(w, w, h);
    }
  }
}
