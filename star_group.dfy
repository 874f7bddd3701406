// The star layout: one star per icosahedron vertex (a face centre of the
// dodecahedron the stars form), each with its place and orientation on the
// dodecahedron, its rank in a shuffled stagger order, and, for the first
// twelve, a place on a circle on the flag with the cloth parameters of that
// place. `Math.random`, `Math.cos`, `Math.sin`, the square root and the
// rendering library's `lookAt` rotation are taken as parameters.
module StarGroup {
  import opened Wrappers
  import opened Vectors
  import opened Constants
  import opened Cloth

  /** `Math.PI`, as the double the runtime holds. */
  const Pi: real := 3.141592653589793

  /** The number of places on the flag's circle of stars. */
  const FlagStars: nat := 12

  // ---------------------------------------------------------------------
  // Up vectors

  /**
   * `getUpVector`: faces whose normalised centre is within 0.99 of the pole
   * on +x or -x get (0, -1, 0) or (0, 1, 0); the others get the unit vector
   * along x that points towards the other hemisphere ((1, 0, 0) when x is 0).
   * Every answer is a unit vector in the plane z = 0.
   */
  function UpVector(faceCenter: Vec3, sqrt: real -> real): (r: Vec3)
    ensures LengthSq(r) == 1.0 && r.z == 0.0
  {
    var normalized := Normalize(faceCenter, sqrt);
    if normalized.x > 0.99 then Vec3(0.0, -1.0, 0.0)
    else if normalized.x < -0.99 then Vec3(0.0, 1.0, 0.0)
    else if faceCenter.x > 0.0 then Vec3(-1.0, 0.0, 0.0)
    else Vec3(1.0, 0.0, 0.0)
  }

  /** The reflected vector -a. */
  function Neg(a: Vec3): Vec3 {
    Scale(a, -1.0)
  }

  /**
   * Off the plane x = 0 the choice is symmetric: the face opposite through
   * the centre gets the opposite up vector.
   */
  lemma UpVectorMirror(faceCenter: Vec3, sqrt: real -> real)
    requires faceCenter.x != 0.0
    ensures UpVector(Neg(faceCenter), sqrt) == Neg(UpVector(faceCenter, sqrt))
  {
    NormalizeNeg(faceCenter, sqrt);
    assert Neg(faceCenter).x == -faceCenter.x;
  }

  lemma NormalizeNeg(a: Vec3, sqrt: real -> real)
    ensures Normalize(Neg(a), sqrt).x == -Normalize(a, sqrt).x
  {
    assert LengthSq(Neg(a)) == LengthSq(a);
    var k := 1.0 / (if Length(a, sqrt) == 0.0 then 1.0 else Length(a, sqrt));
    assert Normalize(Neg(a), sqrt) == Scale(Neg(a), k);
    assert Normalize(a, sqrt) == Scale(a, k);
    assert (a.x * -1.0) * k == -(a.x * k);
  }

  /**
   * Away from the poles the up vector points across the plane x = 0: its x
   * has the sign opposite to the face centre's; at the poles it has no x part.
   */
  lemma UpVectorAcrossEquator(faceCenter: Vec3, sqrt: real -> real)
    ensures var n := Normalize(faceCenter, sqrt);
      && (-0.99 <= n.x <= 0.99 && faceCenter.x != 0.0 ==> UpVector(faceCenter, sqrt).x * faceCenter.x < 0.0)
      && (n.x > 0.99 || n.x < -0.99 ==> UpVector(faceCenter, sqrt).x == 0.0)
  {
  }

  // ---------------------------------------------------------------------
  // Stagger order

  /** What `Math.random` promises: every draw lies in [0, 1). */
  ghost predicate IsRandom(random: nat -> real) {
    forall k :: 0.0 <= random(k) < 1.0
  }

  /** `Math.floor(x * (i + 1))`: for a draw x in [0, 1), an index in [0, i]. */
  function Draw(x: real, i: nat): (j: int)
    ensures 0.0 <= x < 1.0 ==> 0 <= j <= i
  {
    var y := x * (i + 1) as real;
    assert 0.0 <= x < 1.0 ==> 0.0 <= y < (i + 1) as real by {
      if 0.0 <= x < 1.0 {
        assert (1.0 - x) * (i + 1) as real > 0.0;
      }
    }
    y.Floor
  }

  /** The identity order 0, 1, ..., n - 1 the shuffle starts from. */
  function Iota(n: nat): (s: seq<nat>)
    ensures |s| == n && forall k :: 0 <= k < n ==> s[k] == k
  {
    seq(n, k requires 0 <= k => k)
  }

  /** The destructuring swap of entries i and j. */
  function Swap(s: seq<nat>, i: nat, j: nat): (r: seq<nat>)
    requires i < |s| && j < |s|
    ensures |r| == |s|
  {
    s[i := s[j]][j := s[i]]
  }

  /** A swap only reorders. */
  lemma SwapPermutes(s: seq<nat>, i: nat, j: nat)
    requires i < |s| && j < |s|
    ensures multiset(Swap(s, i, j)) == multiset(s)
  {
  }

  /** Iteration k of the loop picks an index in [0, k]. */
  ghost predicate DrawsInRange(draws: nat -> int) {
    forall k: nat :: 0 <= draws(k) <= k
  }

  /** The index drawn at each iteration k of the loop, from the random number `random(k)` of that iteration. */
  function Draws(random: nat -> real): (draws: nat -> int)
    requires IsRandom(random)
    ensures DrawsInRange(draws)
  {
    (k: nat) => Draw(random(k), k)
  }

  /**
   * The order while the Fisher-Yates loop of n entries stands at i: the
   * identity order after iterations n - 1, n - 2, ..., i + 1, where
   * iteration k swaps entry k with entry `draws(k)`.
   */
  function Shuffling(n: nat, i: nat, draws: nat -> int): (r: seq<nat>)
    requires i < n && DrawsInRange(draws)
    ensures |r| == n
    decreases n - i
  {
    if i == n - 1 then Iota(n)
    else Swap(Shuffling(n, i + 1, draws), i + 1, draws(i + 1))
  }

  /** The stagger order of n stars: the identity order shuffled from the top down to entry 1. */
  function Shuffled(n: nat, random: nat -> real): (r: seq<nat>)
    requires IsRandom(random)
    ensures |r| == n
  {
    if n == 0 then [] else Shuffling(n, 0, Draws(random))
  }

  /** The swaps only reorder: the entries are those of the identity order, each once. */
  lemma {:induction false} ShufflingPermutes(n: nat, i: nat, draws: nat -> int)
    requires i < n && DrawsInRange(draws)
    ensures multiset(Shuffling(n, i, draws)) == multiset(Iota(n))
    decreases n - i
  {
    if i < n - 1 {
      ShufflingPermutes(n, i + 1, draws);
      SwapPermutes(Shuffling(n, i + 1, draws), i + 1, draws(i + 1));
    }
  }

  /** No entry occurs twice. */
  predicate AllDifferent(s: seq<nat>) {
    forall k, l :: 0 <= k < l < |s| ==> s[k] != s[l]
  }

  /** Pairwise different entries stay pairwise different under a swap. */
  lemma SwapKeepsDistinct(s: seq<nat>, i: nat, j: nat)
    requires i < |s| && j < |s| && AllDifferent(s)
    ensures AllDifferent(Swap(s, i, j))
  {
    var t := Swap(s, i, j);
    forall k, l | 0 <= k < l < |t|
      ensures t[k] != t[l]
    {
      var k' := if k == i then j else if k == j then i else k;
      var l' := if l == i then j else if l == j then i else l;
      assert t[k] == s[k'] && t[l] == s[l'];
      assert k' != l';
      if k' < l' {
        assert s[k'] != s[l'];
      } else {
        assert s[l'] != s[k'];
      }
    }
  }

  /** No entry of the order occurs twice at any point of the loop. */
  lemma {:induction false} ShufflingKeepsDistinct(n: nat, i: nat, draws: nat -> int)
    requires i < n && DrawsInRange(draws)
    ensures AllDifferent(Shuffling(n, i, draws))
    decreases n - i
  {
    if i < n - 1 {
      ShufflingKeepsDistinct(n, i + 1, draws);
      SwapKeepsDistinct(Shuffling(n, i + 1, draws), i + 1, draws(i + 1));
    }
  }

  /**
   * The stagger order is a permutation of 0 .. n - 1: every rank in [0, n)
   * occurs, exactly once, and nothing else occurs.
   */
  lemma StaggerOrderIsPermutation(n: nat, random: nat -> real)
    requires IsRandom(random)
    ensures multiset(Shuffled(n, random)) == multiset(Iota(n))
    ensures forall k :: 0 <= k < n ==> Shuffled(n, random)[k] < n
    ensures AllDifferent(Shuffled(n, random))
    ensures forall v :: 0 <= v < n ==> v in Shuffled(n, random)
  {
    var r := Shuffled(n, random);
    if n > 0 {
      ShufflingPermutes(n, 0, Draws(random));
      ShufflingKeepsDistinct(n, 0, Draws(random));
    }
    forall k | 0 <= k < n
      ensures r[k] < n
    {
      assert r[k] in multiset(r);
      assert r[k] in multiset(Iota(n));
    }
    forall v | 0 <= v < n
      ensures v in r
    {
      assert Iota(n)[v] == v;
      assert v in multiset(Iota(n));
    }
  }

  /**
   * The shuffle loop of `createStarGroup`: the array starts as 0 .. n - 1,
   * and for i from n - 1 down to 1 entry i is swapped with a drawn index
   * in [0, i].
   */
  method StaggerOrder(n: nat, random: nat -> real) returns (order: array<nat>)
    requires IsRandom(random)
    ensures fresh(order)
    ensures order[..] == Shuffled(n, random)
  {
    order := new nat[n](k => k);
    if n != 0 {
      assert order[..] == Iota(n);
      ShuffleInPlace(order, Draws(random));
    }
  }

  /** The swaps of the shuffle loop, for i from the top entry down to 1, iteration i swapping with `draws(i)`. */
  method ShuffleInPlace(order: array<nat>, draws: nat -> int)
    requires 0 < order.Length && order[..] == Iota(order.Length) && DrawsInRange(draws)
    modifies order
    ensures order[..] == Shuffling(order.Length, 0, draws)
  {
    for i := order.Length downto 1
      invariant order[..] == Shuffling(order.Length, i - 1, draws)
    {
      var j := draws(i);
      order[i], order[j] := order[j], order[i];
    }
  }

  // ---------------------------------------------------------------------
  // Places on the flag

  /** `(i * Math.PI * 2) / 12 - Math.PI / 2`: twelve angles round the circle, the first at the top. */
  function CircleAngle(i: nat): real {
    (i as real * Pi * 2.0) / 12.0 - Pi / 2.0
  }

  /**
   * The cloth parameters of the flag point (flagX, flagY): u runs down the
   * height and v across the width, as the cloth layout lays them out.
   */
  function FlagUV(flagX: real, flagY: real): (real, real) {
    (-flagY / ClothHeight + 0.5, flagX / ClothWidth + 0.5)
  }

  /** The cloth layout at a point's parameters is that point, in the plane z = 0. */
  lemma FlagUVRoundTrip(flagX: real, flagY: real)
    ensures var uv := FlagUV(flagX, flagY);
      ClothFunc(uv.0, uv.1) == Vec3(flagX, flagY, 0.0)
  {
  }

  /**
   * Points within FLAG_RADIUS of the centre in both coordinates have
   * parameters inside the unit square, which the sampler's clamp leaves alone.
   */
  lemma FlagUVInRange(flagX: real, flagY: real)
    requires -FlagRadius <= flagX <= FlagRadius && -FlagRadius <= flagY <= FlagRadius
    ensures var uv := FlagUV(flagX, flagY);
      && 0.0 <= uv.0 <= 1.0 && 0.0 <= uv.1 <= 1.0
      && Clamp01(uv.0) == uv.0 && Clamp01(uv.1) == uv.1
  {
  }

  /** Where a star sits on the flag, the cloth parameters there, and its upright rotation. */
  datatype FlagPlacement = FlagPlacement(pos: Vec3, u: real, v: real, rot: Quat)

  /** Place i of the circle of radius FLAG_RADIUS, at depth FLAG_Z. */
  function Placement(i: nat, cos: real -> real, sin: real -> real): (p: FlagPlacement)
    ensures (p.u, p.v) == FlagUV(p.pos.x, p.pos.y) && p.pos.z == FlagZ
  {
    var angle := CircleAngle(i);
    var flagX := FlagRadius * cos(angle);
    var flagY := FlagRadius * sin(angle);
    var uv := FlagUV(flagX, flagY);
    FlagPlacement(Vec3(flagX, flagY, FlagZ), uv.0, uv.1, IdentityQuat)
  }

  /**
   * With the cosine and sine in [-1, 1], every place has parameters inside
   * the unit square, and the cloth layout there is the place moved back to
   * the plane of the cloth.
   */
  lemma PlacementOnCloth(i: nat, cos: real -> real, sin: real -> real)
    requires -1.0 <= cos(CircleAngle(i)) <= 1.0 && -1.0 <= sin(CircleAngle(i)) <= 1.0
    ensures var p := Placement(i, cos, sin);
      && 0.0 <= p.u <= 1.0 && 0.0 <= p.v <= 1.0
      && ClothFunc(p.u, p.v) == p.pos.(z := 0.0)
  {
    var p := Placement(i, cos, sin);
    var c, s := cos(CircleAngle(i)), sin(CircleAngle(i));
    assert -FlagRadius <= FlagRadius * c <= FlagRadius by {
      assert FlagRadius * (1.0 - c) >= 0.0 && FlagRadius * (1.0 + c) >= 0.0;
    }
    assert -FlagRadius <= FlagRadius * s <= FlagRadius by {
      assert FlagRadius * (1.0 - s) >= 0.0 && FlagRadius * (1.0 + s) >= 0.0;
    }
    FlagUVInRange(p.pos.x, p.pos.y);
    FlagUVRoundTrip(p.pos.x, p.pos.y);
  }

  // ---------------------------------------------------------------------
  // Star data

  /**
   * One entry of `starData`: the star's place on the dodecahedron (the
   * vertex itself), its rotation there, its rank in the stagger order, and
   * its place on the flag once that has been assigned.
   */
  datatype StarDatum = StarDatum(dodecahedronPos: Vec3, dodecahedronRot: Quat, staggerIndex: nat,
                                 flag: Option<FlagPlacement>)

  /**
   * The star's rotation on the dodecahedron: facing outwards along the
   * normalised centre, with the face's up vector. Only the second `lookAt`
   * counts, since each call replaces the whole rotation.
   */
  function Orientation(faceCenter: Vec3, sqrt: real -> real, lookAt: (Vec3, Vec3, Vec3) -> Quat): Quat {
    lookAt(faceCenter, Add(faceCenter, Normalize(faceCenter, sqrt)), UpVector(faceCenter, sqrt))
  }

  /** Entry i as the first loop pushes it, before the flag places are assigned. */
  function DodecahedronDatum(vertices: seq<Vec3>, order: seq<nat>, i: nat, sqrt: real -> real,
                             lookAt: (Vec3, Vec3, Vec3) -> Quat): StarDatum
    requires i < |vertices| && i < |order|
  {
    StarDatum(vertices[i], Orientation(vertices[i], sqrt, lookAt), order[i], None)
  }

  /** Entry i of the finished list: the first twelve also have their place on the flag. */
  function StarDatumAt(vertices: seq<Vec3>, order: seq<nat>, i: nat, sqrt: real -> real,
                       lookAt: (Vec3, Vec3, Vec3) -> Quat, cos: real -> real, sin: real -> real): StarDatum
    requires i < |vertices| && i < |order|
  {
    var d := DodecahedronDatum(vertices, order, i, sqrt, lookAt);
    if i < FlagStars then d.(flag := Some(Placement(i, cos, sin))) else d
  }

  /**
   * The data half of `createStarGroup`: the stagger order, one entry per
   * vertex in vertex order, then the flag places of the first twelve (the
   * source indexes entries 0 .. 11, so it needs at least twelve vertices).
   */
  method CreateStarData(vertices: seq<Vec3>, random: nat -> real, sqrt: real -> real,
                        lookAt: (Vec3, Vec3, Vec3) -> Quat, cos: real -> real, sin: real -> real)
    returns (starData: seq<StarDatum>)
    requires IsRandom(random) && FlagStars <= |vertices|
    ensures |starData| == |vertices|
    ensures forall i :: 0 <= i < |vertices| ==>
      starData[i] == StarDatumAt(vertices, Shuffled(|vertices|, random), i, sqrt, lookAt, cos, sin)
  {
    var staggerOrder := StaggerOrder(|vertices|, random);
    ghost var order := staggerOrder[..];
    starData := [];
    for i := 0 to |vertices|
      invariant |starData| == i
      invariant forall k :: 0 <= k < i ==> starData[k] == DodecahedronDatum(vertices, order, k, sqrt, lookAt)
    {
      var faceCenter := vertices[i];
      var rot := Orientation(faceCenter, sqrt, lookAt);
      starData := starData + [StarDatum(faceCenter, rot, staggerOrder[i], None)];
    }
    for i := 0 to FlagStars
      invariant |starData| == |vertices|
      invariant forall k :: 0 <= k < i ==> starData[k] == StarDatumAt(vertices, order, k, sqrt, lookAt, cos, sin)
      invariant forall k :: i <= k < |vertices| ==> starData[k] == DodecahedronDatum(vertices, order, k, sqrt, lookAt)
    {
      starData := starData[i := starData[i].(flag := Some(Placement(i, cos, sin)))];
    }
  }

  /**
   * The ranks the stars receive are pairwise different and all below the
   * number of stars, so the stagger delays of `calculateStaggeredProgress`
   * are all different.
   */
  lemma StaggerIndicesDistinct(vertices: seq<Vec3>, random: nat -> real, sqrt: real -> real,
                               lookAt: (Vec3, Vec3, Vec3) -> Quat, cos: real -> real, sin: real -> real)
    requires IsRandom(random)
    ensures var order := Shuffled(|vertices|, random);
      && (forall i :: 0 <= i < |vertices| ==>
            StarDatumAt(vertices, order, i, sqrt, lookAt, cos, sin).staggerIndex < |vertices|)
      && (forall i, j :: 0 <= i < j < |vertices| ==>
            StarDatumAt(vertices, order, i, sqrt, lookAt, cos, sin).staggerIndex
            != StarDatumAt(vertices, order, j, sqrt, lookAt, cos, sin).staggerIndex)
  {
    StaggerOrderIsPermutation(|vertices|, random);
  }
}
