// The flag mesh: a 20 x 15 cloth whose vertex buffer mirrors the particle
// positions, stepped at most once per update interval, and the decay and
// expiry of the wind impulses that clicks on the flag leave in the state
// record. The power function is taken as a parameter.
module Flag {
  import opened Vectors
  import opened Constants
  import opened Cloth
  import opened AppState
  import opened ClothSimulation

  // ---------------------------------------------------------------------
  // Decay and expiry of wind impulses

  /**
   * An impulse `now` milliseconds into the run: its strength is recomputed
   * from its start time alone, 20 * decay^(elapsed / 16.67), one decay
   * factor per 60 Hz frame; nothing else about it changes.
   */
  function Decayed(imp: WindImpulse, now: real, pow: (real, real) -> real): (r: WindImpulse)
    ensures r.(strength := imp.strength) == imp
  {
    imp.(strength := 20.0 * pow(imp.decay, (now - imp.startTime) / 16.67))
  }

  /** An impulse is kept while it is at most a second old and its strength is at least 0.1. */
  predicate Alive(imp: WindImpulse, now: real) {
    now - imp.startTime <= 1000.0 && imp.strength >= 0.1
  }

  /**
   * The filter of `updatePhysics`: every impulse is decayed to `now`, and
   * the decayed impulses that are still alive are kept, in order.
   */
  function Prune(imps: seq<WindImpulse>, now: real, pow: (real, real) -> real): (r: seq<WindImpulse>)
    ensures |r| <= |imps|
    ensures forall k :: 0 <= k < |r| ==> Alive(r[k], now)
    decreases |imps|
  {
    if imps == [] then []
    else
      var d := Decayed(imps[0], now, pow);
      (if Alive(d, now) then [d] else []) + Prune(imps[1..], now, pow)
  }

  /** The indices of the impulses that survive decay to `now`, in increasing order. */
  ghost function KeptIndices(imps: seq<WindImpulse>, now: real, pow: (real, real) -> real): (idx: seq<nat>)
    ensures forall k :: 0 <= k < |idx| ==> idx[k] < |imps| && Alive(Decayed(imps[idx[k]], now, pow), now)
    ensures forall k, l :: 0 <= k < l < |idx| ==> idx[k] < idx[l]
    decreases |imps|
  {
    if imps == [] then []
    else
      var rest := KeptIndices(imps[1..], now, pow);
      var shifted := Shift(rest);
      assert forall k :: 0 <= k < |rest| ==> imps[1..][rest[k]] == imps[shifted[k]];
      if Alive(Decayed(imps[0], now, pow), now) then [0] + shifted else shifted
  }

  /** Indices into the tail of a list, as indices into the whole list. */
  function Shift(idx: seq<nat>): (r: seq<nat>)
    ensures |r| == |idx| && forall k :: 0 <= k < |idx| ==> r[k] == idx[k] + 1
  {
    seq(|idx|, k requires 0 <= k < |idx| => idx[k] + 1)
  }

  /** Every impulse that is still alive once decayed has its index kept. */
  lemma {:induction false} KeptIndicesComplete(imps: seq<WindImpulse>, now: real, pow: (real, real) -> real, j: nat)
    requires j < |imps| && Alive(Decayed(imps[j], now, pow), now)
    ensures j in KeptIndices(imps, now, pow)
    decreases |imps|
  {
    var rest := KeptIndices(imps[1..], now, pow);
    if j != 0 {
      assert imps[1..][j - 1] == imps[j];
      KeptIndicesComplete(imps[1..], now, pow, j - 1);
      ShiftKeeps(rest, j - 1);
    }
  }

  /** An index of the tail, shifted, is an index of the whole list. */
  lemma ShiftKeeps(idx: seq<nat>, x: nat)
    requires x in idx
    ensures x + 1 in Shift(idx)
  {
    var k :| 0 <= k < |idx| && idx[k] == x;
    assert Shift(idx)[k] == x + 1;
  }

  /**
   * The pruned list is exactly the decayed impulses at the kept indices:
   * nothing alive is dropped, nothing is reordered and nothing is duplicated.
   */
  lemma {:induction false} PruneSelects(imps: seq<WindImpulse>, now: real, pow: (real, real) -> real)
    ensures |Prune(imps, now, pow)| == |KeptIndices(imps, now, pow)|
    ensures forall k :: 0 <= k < |Prune(imps, now, pow)| ==>
      Prune(imps, now, pow)[k] == Decayed(imps[KeptIndices(imps, now, pow)[k]], now, pow)
    decreases |imps|
  {
    if imps != [] {
      PruneSelects(imps[1..], now, pow);
      var d := Decayed(imps[0], now, pow);
      var r, rest := Prune(imps[1..], now, pow), KeptIndices(imps[1..], now, pow);
      forall k | 0 <= k < |r|
        ensures r[k] == Decayed(imps[Shift(rest)[k]], now, pow)
      {
        assert imps[1..][rest[k]] == imps[rest[k] + 1];
      }
      if Alive(d, now) {
        assert Prune(imps, now, pow) == [d] + r;
        assert KeptIndices(imps, now, pow) == [0] + Shift(rest);
      } else {
        assert Prune(imps, now, pow) == r;
        assert KeptIndices(imps, now, pow) == Shift(rest);
      }
    }
  }

  /**
   * The strength an impulse had before does not matter: two lists that
   * differ only in strengths prune to the same list.
   */
  lemma {:induction false} PruneIgnoresOldStrength(a: seq<WindImpulse>, b: seq<WindImpulse>, now: real, pow: (real, real) -> real)
    requires |a| == |b|
    requires forall k :: 0 <= k < |a| ==> a[k].(strength := 0.0) == b[k].(strength := 0.0)
    ensures Prune(a, now, pow) == Prune(b, now, pow)
    decreases |a|
  {
    if a != [] {
      assert Decayed(a[0], now, pow) == Decayed(b[0], now, pow) by {
        assert a[0].(strength := 0.0) == b[0].(strength := 0.0);
      }
      PruneIgnoresOldStrength(a[1..], b[1..], now, pow);
    }
  }

  /** Pruning a second time at the same moment changes nothing. */
  lemma {:induction false} PruneIdempotent(imps: seq<WindImpulse>, now: real, pow: (real, real) -> real)
    ensures Prune(Prune(imps, now, pow), now, pow) == Prune(imps, now, pow)
    decreases |imps|
  {
    if imps != [] {
      var d := Decayed(imps[0], now, pow);
      var rest := Prune(imps[1..], now, pow);
      PruneIdempotent(imps[1..], now, pow);
      if Alive(d, now) {
        var r := [d] + rest;
        assert Prune(imps, now, pow) == r;
        assert r[1..] == rest;
        assert Decayed(r[0], now, pow) == d;
      } else {
        assert Prune(imps, now, pow) == rest;
      }
    }
  }

  /** Impulses more than a second old are always gone. */
  lemma PruneDropsExpired(imps: seq<WindImpulse>, now: real, pow: (real, real) -> real)
    requires forall k :: 0 <= k < |imps| ==> now - imps[k].startTime > 1000.0
    ensures Prune(imps, now, pow) == []
  {
    var r := Prune(imps, now, pow);
    if r != [] {
      PruneSelects(imps, now, pow);
      assert false;
    }
  }

  // ---------------------------------------------------------------------
  // The mesh

  /** The time since the last step, from the frame clock's milliseconds to seconds. */
  function ElapsedSeconds(now: real, last: real): (r: real)
    ensures r * 1000.0 == now - last
  {
    (now - last) / 1000.0
  }

  /**
   * The vertices of the parametric geometry over the cloth layout with
   * `slices` segments along u and `stacks` along v: vertex j + i * (slices + 1)
   * is the layout at (j / slices, i / stacks).
   */
  function GeometryVertices(slices: nat, stacks: nat): (r: seq<Vec3>)
    requires 1 <= slices && 1 <= stacks
    ensures |r| == (slices + 1) * (stacks + 1)
    ensures forall i, j :: 0 <= i <= stacks && 0 <= j <= slices ==>
      Index(slices, j, i) < |r| && r[Index(slices, j, i)] == ClothFunc(j as real / slices as real, i as real / stacks as real)
    ensures forall k :: 0 <= k < |r| ==> r[k] == RestPosition(slices, stacks, k)
  {
    var r := seq((slices + 1) * (stacks + 1), k requires 0 <= k => RestPosition(slices, stacks, k));
    forall i, j | 0 <= i <= stacks && 0 <= j <= slices
      ensures Index(slices, j, i) < |r| && r[Index(slices, j, i)] == ClothFunc(j as real / slices as real, i as real / stacks as real)
    {
      IndexInRange(slices, stacks, j, i);
      IndexCoordinates(slices, j, i);
    }
    r
  }

  /** A cloth whose particles are all at rest has the rest states, in index order. */
  lemma AtRestStates(cloth: Cloth, mass: real)
    requires cloth.Valid() && mass != 0.0 && AtRest(cloth.particles, cloth.w, cloth.h, mass)
    ensures cloth.States() == RestStates(cloth.w, cloth.h, mass)
  {
  }

  /**
   * The constructor's cloth: a 20 x 15 cloth at rest, whose links and border
   * lists only name its own particles.
   */
  method NewFlagCloth() returns (cloth: Cloth, edges: EdgeIndices)
    ensures cloth.Valid() && cloth.w == YSegs && cloth.h == XSegs
    ensures edges == Edges(cloth.w, cloth.h)
    ensures ConstraintsIn(cloth.constraints, |cloth.particles|) && IndicesIn(edges.All(), |cloth.particles|)
    ensures cloth.States() == RestStates(cloth.w, cloth.h, Mass)
    ensures forall i :: 0 <= i < |cloth.particles| ==> fresh(cloth.particles[i])
  {
    cloth := new Cloth(YSegs, XSegs, Mass);
    edges := CreateEdgeIndices(cloth);
    LinksIn(cloth.w, cloth.h);
    EdgesIn(cloth.w, cloth.h);
    AtRestStates(cloth, Mass);
  }

  /**
   * The parametric geometry over a cloth at rest: its vertices are exactly
   * the particle positions.
   */
  method NewGeometry(cloth: Cloth) returns (geometry: PositionBuffer)
    requires cloth.Valid() && cloth.States() == RestStates(cloth.w, cloth.h, Mass)
    ensures geometry.data[..] == GeometryVertices(cloth.w, cloth.h) == cloth.Positions()
    ensures !geometry.needsUpdate && fresh(geometry) && fresh(geometry.data)
  {
    var vertices := GeometryVertices(cloth.w, cloth.h);
    forall i | 0 <= i < |cloth.particles|
      ensures cloth.Positions()[i] == vertices[i]
    {
      assert cloth.Positions()[i] == cloth.States()[i].position;
    }
    geometry := new PositionBuffer(vertices);
  }

  class FlagMesh {
    const cloth: Cloth
    const geometry: PositionBuffer
    const edgeIndices: EdgeIndices
    /** The simulation parameters the mesh steps with; the constructor sets them to `Params`. */
    const params: ClothParams

    /**
     * A well-formed cloth, its border lists (which, like its links, only name
     * its own particles), and a vertex buffer with one vertex per particle.
     */
    ghost predicate Valid() {
      && cloth.Valid() && cloth.w == YSegs && cloth.h == XSegs
      && edgeIndices == Edges(cloth.w, cloth.h)
      && ConstraintsIn(cloth.constraints, |cloth.particles|)
      && IndicesIn(edgeIndices.All(), |cloth.particles|)
      && geometry.data.Length == |cloth.particles|
    }

    /**
     * The mesh starts with a 20 x 15 cloth at rest and its vertex buffer
     * holding exactly the particle positions.
     */
    constructor ()
      ensures Valid() && cloth.w == YSegs && cloth.h == XSegs && params == Params
      ensures cloth.States() == RestStates(cloth.w, cloth.h, Mass)
      ensures geometry.data[..] == cloth.Positions() && !geometry.needsUpdate
      ensures fresh(geometry) && fresh(geometry.data)
      ensures forall i :: 0 <= i < |cloth.particles| ==> fresh(cloth.particles[i])
    {
      var c, e := NewFlagCloth();
      var g := NewGeometry(c);
      cloth, edgeIndices, geometry, params := c, e, g, Params;
    }

    /**
     * `updatePhysics`: before the update interval has passed since the last
     * step nothing happens; otherwise one `Advance`.
     */
    method UpdatePhysics(store: Store, now: real, interval: real, wind: nat -> Vec3,
                         sqrt: real -> real, pow: (real, real) -> real)
      requires Valid() && IsSqrt(sqrt)
      modifies cloth.particles, geometry, geometry.data, store`lastClothUpdate, store`windImpulses
      ensures now - old(store.lastClothUpdate) < interval ==>
        (cloth.States(), geometry.data[..], geometry.needsUpdate, store.lastClothUpdate, store.windImpulses)
          == old((cloth.States(), geometry.data[..], geometry.needsUpdate, store.lastClothUpdate, store.windImpulses))
      ensures now - old(store.lastClothUpdate) >= interval ==>
        (cloth.States(), geometry.data[..], geometry.needsUpdate, store.lastClothUpdate, store.windImpulses)
          == (Tick(old(cloth.States()), cloth.constraints, edgeIndices, old(store.windImpulses), wind,
                   params, ElapsedSeconds(now, old(store.lastClothUpdate)), sqrt),
              cloth.Positions(), true, now, Prune(old(store.windImpulses), now, pow))
    {
      var state := store.Snapshot();
      if now - state.lastClothUpdate >= interval {
        Advance(store, now, wind, sqrt, pow);
      }
    }

    /**
     * The body of `updatePhysics` once the interval has passed: the cloth
     * takes one tick over the impulses as they were, with the elapsed time
     * in seconds, the vertex buffer is refreshed, the record's last-update
     * time becomes `now`, and its impulses are replaced by the pruned list.
     */
    method Advance(store: Store, now: real, wind: nat -> Vec3, sqrt: real -> real, pow: (real, real) -> real)
      requires Valid() && IsSqrt(sqrt)
      modifies cloth.particles, geometry, geometry.data, store`lastClothUpdate, store`windImpulses
      ensures cloth.States() == Tick(old(cloth.States()), cloth.constraints, edgeIndices, old(store.windImpulses), wind,
                                     params, ElapsedSeconds(now, old(store.lastClothUpdate)), sqrt)
      ensures geometry.data[..] == cloth.Positions() && geometry.needsUpdate
      ensures store.lastClothUpdate == now && store.windImpulses == Prune(old(store.windImpulses), now, pow)
    {
      var impulses, last := store.windImpulses, store.lastClothUpdate;
      Step(store, impulses, wind, ElapsedSeconds(now, last), sqrt);
      RecordUpdate(store, now, impulses, pow);
    }

    /**
     * The `simulateCloth` call: one tick of the cloth, then the buffer
     * refresh; the state record is not touched.
     */
    method Step(store: Store, imps: seq<WindImpulse>, wind: nat -> Vec3, deltaTime: real, sqrt: real -> real)
      requires Valid() && IsSqrt(sqrt)
      modifies cloth.particles, geometry, geometry.data
      ensures cloth.States() == Tick(old(cloth.States()), cloth.constraints, edgeIndices, imps, wind, params, deltaTime, sqrt)
      ensures geometry.data[..] == cloth.Positions() && geometry.needsUpdate
      ensures store.Snapshot() == old(store.Snapshot())
    {
      SimulateCloth(cloth, geometry, edgeIndices, imps, params, wind, deltaTime, sqrt);
    }

    /** `getPositionAtUV`: the cloth's sampler at (u, v). */
    function GetPositionAtUV(u: real, v: real, sqrt: real -> real): Sample
      requires cloth.Shaped()
      reads cloth.particles
    {
      cloth.PositionAtUV(u, v, sqrt)
    }
  }

  /**
   * A mesh as the constructor leaves it does not move on its next update when
   * there is no wind and every impulse is out of reach of every particle.
   */
  lemma RestMeshStaysPut(m: FlagMesh, imps: seq<WindImpulse>, wind: nat -> Vec3, deltaTime: real, sqrt: real -> real)
    requires m.Valid() && m.cloth.w == YSegs && m.cloth.h == XSegs && m.params == Params
    requires m.cloth.States() == RestStates(m.cloth.w, m.cloth.h, Mass)
    requires IsSqrt(sqrt) && forall i :: wind(i) == Zero
    requires forall i, k :: 0 <= i < |m.cloth.particles| && 0 <= k < |imps| ==>
      imps[k].radius <= DistanceTo(m.cloth.States()[i], imps[k], sqrt)
    ensures Tick(m.cloth.States(), m.cloth.constraints, m.edgeIndices, imps, wind, m.params, deltaTime, sqrt)
         == m.cloth.States()
  {
    FlagAtRestIsEquilibrium(Mass, imps, wind, deltaTime, sqrt);
  }

  /**
   * On a mesh at rest, `getPositionAtUV` at the parameters of grid node
   * (i, j) returns the cloth layout at that node, the same point as the
   * geometry's vertex there.
   */
  lemma RestMeshSamplesLayout(m: FlagMesh, i: nat, j: nat, sqrt: real -> real)
    requires m.Valid() && m.cloth.States() == RestStates(m.cloth.w, m.cloth.h, Mass)
    requires i <= m.cloth.w && j <= m.cloth.h
    ensures m.GetPositionAtUV(i as real / m.cloth.w as real, j as real / m.cloth.h as real, sqrt).position
         == ClothFunc(i as real / m.cloth.w as real, j as real / m.cloth.h as real)
  {
    var w, h := m.cloth.w, m.cloth.h;
    var ps := m.cloth.Positions();
    SampleAtNode(ps, w, h, i, j, sqrt);
    IndexCoordinates(w, i, j);
    assert ps[Index(w, i, j)] == m.cloth.States()[Index(w, i, j)].position;
  }

  /** The two record updates after a step: the step time, then the pruned impulses. */
  method RecordUpdate(store: Store, now: real, imps: seq<WindImpulse>, pow: (real, real) -> real)
    modifies store`lastClothUpdate, store`windImpulses
    ensures store.Snapshot() == old(store.Snapshot()).(lastClothUpdate := now, windImpulses := Prune(imps, now, pow))
  {
    store.SetLastClothUpdate(now);
    var updatedImpulses := Prune(imps, now, pow);
    store.SetWindImpulses(updatedImpulses);
  }
}
