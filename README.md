# starsalign — a Dafny model of the flag-to-dodecahedron scene

starsalign draws a cloth flag with twelve stars laid out in a circle on it.
Clicking the flag sends a wind impulse into the cloth. The stars then fly,
one after another in a random order, to the faces of a dodecahedron that
spins around a pivot sphere. Clicking again sends them back to the flag.
Dragging rotates the dodecahedron.

This project models the core of that program and proves properties of it:

- the per-frame loop (`animate` in `main.js`), as the class `Animation.App`;
- the Verlet cloth (`src/physics/Cloth.js`): particles, distance constraints,
  the edge index lists and the bilinear sampler;
- one simulation tick (`src/physics/clothSimulation.js`): forces, integration,
  constraint relaxation, the soft pull of the border, and copying positions to
  the geometry buffer;
- the flag mesh (`src/mesh/flag.js`): it throttles the tick and decays and
  prunes wind impulses;
- the pivot sphere (`src/mesh/controlSphere.js`): spring, slerp damping and
  auto-rotation;
- the star layout (`src/scene/starGroup.js`): the Fisher–Yates stagger order,
  the up vectors and the flag circle;
- the pointer handlers (`src/events/interactions.js`);
- the state store (`src/store.js`) and the two easing helpers (`src/utils.js`);
- the constants of `src/config/constants.js`.

Objects that the program changes in place are Dafny classes:

- `Store`, with one field per store entry;
- `Particle` and `Cloth`;
- `PositionBuffer`, with an `array` for the geometry positions;
- `FlagMesh`, `ControlSphere` and `App`.

Their methods are proved against specification functions on values, which
the lemmas reason about. Some examples:

- `ClothSimulation.Tick` is the state-level tick;
- `Flag.Prune` is the impulse filter;
- `StarGroup.Shuffling` is the shuffle;
- `Interactions.Click` and `Interactions.Move` are the handlers;
- `Animation.Advance` is the transition step;
- `Animation.AnimatedPose` and `Animation.SteadyPose` are the star poses.

Real numbers stand in for JavaScript doubles. three.js operations whose
results are transcendental are parameters of the model:

- the square root (`sqrt`; the predicate `IsSqrt` is the only fact assumed
  about it);
- `Math.pow`, `Math.cos` and `Math.sin`;
- the random source;
- slerp, `lookAt` and `setFromUnitVectors`;
- the Euler-to-quaternion conversions (`yaw`, `rotation`).

Vector addition, scaling, cross products, quaternion products and rotating a
vector by a quaternion are written out.

## Model

| member | source | states |
|---|---|---|
| Easing.EaseFixedPoints | src/utils.js:3-7 | The quintic ease maps 0, 0.5 and 1 to themselves. |
| Easing.EaseInRange | src/utils.js:3-7 | For t in [0, 1] the eased value stays in [0, 1]. |
| Easing.EaseMonotonic | src/utils.js:3-7 | The ease is monotone on [0, 1], so the two halves join without a backward step. |
| Easing.EaseSymmetric | src/utils.js:3-7 | ease(1 - t) = 1 - ease(t): the ease-out half mirrors the ease-in half. |
| Easing.StaggeredProgress | src/utils.js:16-19 | The staggered progress is always clamped into [0, 1]. |
| Easing.StaggeredMonotonicInProgress | src/utils.js:16-19 | With a stagger delay below 1, more global progress never gives less local progress. |
| Easing.StaggeredAntitoneInIndex | src/utils.js:16-19 | A star with a larger stagger index is never further along than one with a smaller index. |
| Easing.DelayMonotonic | src/utils.js:17 | The start delay of a star grows with its index. |
| Easing.StaggeredEndpoints | src/utils.js:16-19 | Global progress 0 puts every star at 0 and progress 1 puts every star at 1, for indices 0..total. |
| Vectors.Lerp | main.js:145 | Linear interpolation returns the start at t = 0, the end at t = 1, and the common point when both ends agree. |
| Vectors.Clamp01 | src/physics/Cloth.js:101-102 | max(0, min(1, t)) lies in [0, 1], is t inside the interval, and is the nearer bound outside it. |
| Vectors.ClampMonotonic | src/utils.js:18 | Clamping preserves order. |
| Vectors.SqrtOfSquare | src/physics/Cloth.js:52 | The length of a positive distance squared is that distance. |
| Vectors.LengthSquares | src/physics/Cloth.js:52 | Vector length is non-negative and squares to the squared length. |
| Vectors.NormalizeIsUnit | src/physics/Cloth.js:132 | Normalising a vector of non-zero length gives a unit vector. |
| Vectors.QuatMulIdentity | main.js:137 | The identity quaternion is a two-sided unit of the quaternion product. |
| Vectors.RotateIdentity | main.js:135 | Rotating by the identity quaternion leaves a vector unchanged. |
| AppState.Store.constructor | src/store.js:4-38 | The new store holds the initial values: not on the dodecahedron, not animating, progress 0, not dragging, identity target, auto-rotation on, zero velocity, no impulses, last update 0. |
| AppState.Store.SetIsDodecahedron | src/store.js:9 | Only isDodecahedron changes, to the given value. |
| AppState.Store.SetIsAnimating | src/store.js:10 | Only isAnimating changes. |
| AppState.Store.SetAnimationProgress | src/store.js:11 | Only animationProgress changes. |
| AppState.Store.SetIsDragging | src/store.js:20 | Only isDragging changes. |
| AppState.Store.SetHasDragged | src/store.js:21 | Only hasDragged changes. |
| AppState.Store.SetPreviousMouse | src/store.js:22 | Both pointer coordinates are replaced together and nothing else changes. |
| AppState.Store.SetTargetQuaternion | src/store.js:23 | Only the target quaternion changes. |
| AppState.Store.SetAutoRotateEnabled | src/store.js:24 | Only autoRotateEnabled changes. |
| AppState.Store.AddWindImpulse | src/store.js:29-31 | The impulse list becomes the old list with the new impulse appended; the rest of the store is unchanged. |
| AppState.Store.SetWindImpulses | src/store.js:32 | The impulse list is replaced and nothing else changes. |
| AppState.Store.SetLastClothUpdate | src/store.js:37 | Only lastClothUpdate changes. |
| Cloth.ClothFunc | src/physics/Cloth.js:9-14 | The layout is flat (z = 0), maps the unit square into the width × height rectangle, and puts (0.5, 0.5) at the origin. |
| Cloth.IndexCoordinates | src/physics/Cloth.js:72 | index(u, v) decodes back to column u and row v for every u ≤ w. |
| Cloth.CoordinatesIndex | src/physics/Cloth.js:72 | Every particle number is index(column, row) of its own column and row. |
| Cloth.IndexInRange | src/physics/Cloth.js:72 | Every grid node's index lies inside the particle list. |
| Cloth.RowInRange | src/physics/Cloth.js:72 | Every particle of the list lies in a row between 0 and h. |
| Cloth.IndexBijective | src/physics/Cloth.js:66-72 | index is a bijection between the (w+1) × (h+1) grid and the particle list. |
| Cloth.VerletDisplacement | src/physics/Cloth.js:35-46 | The step moves the particle by its damped previous velocity plus acceleration times timestep squared. |
| Cloth.VerletAtRest | src/physics/Cloth.js:35-46 | A particle with no velocity and no acceleration stays where it is. |
| Cloth.Particle.constructor | src/physics/Cloth.js:16-29 | position, previous and original all equal clothFunc(x, y); acceleration is zero; invMass is 1 / mass. |
| Cloth.Particle.AddForce | src/physics/Cloth.js:31-33 | The acceleration gains force × invMass; nothing else changes. |
| Cloth.Particle.Integrate | src/physics/Cloth.js:35-46 | The new position is the Verlet step, the old position becomes previous, and the acceleration is reset. |
| Cloth.Satisfy | src/physics/Cloth.js:50-58 | Both ends move by opposite halves of one correction, so their sum (midpoint) is unchanged. |
| Cloth.SatisfyCoincident | src/physics/Cloth.js:53 | Coincident particles are left untouched. |
| Cloth.SatisfyReachesDistance | src/physics/Cloth.js:50-58 | For distinct particles, one correction puts them exactly the rest distance apart. |
| Cloth.SatisfyAtLength | src/physics/Cloth.js:50-58 | A pair already at the rest length does not move. |
| Cloth.SatisfyAtRest | src/physics/Cloth.js:50-58 | Same, stated with the squared distance. |
| Cloth.SatisfyConstraints | src/physics/Cloth.js:50-58 | Moves the two particles in place as Satisfy says; a constraint between one particle and itself changes nothing. |
| Cloth.RowLinks | src/physics/Cloth.js:75-80 | One grid row yields two constraints per column. |
| Cloth.GridLinks | src/physics/Cloth.js:74-81 | The interior loops yield 2 · w · h constraints. |
| Cloth.RightLinks | src/physics/Cloth.js:83-85 | The right-edge loop yields h constraints. |
| Cloth.BottomLinks | src/physics/Cloth.js:87-89 | The bottom-edge loop yields w constraints. |
| Cloth.Links | src/physics/Cloth.js:74-89 | The cloth has 2wh + w + h constraints. |
| Cloth.VLinkIsGridLink | src/physics/Cloth.js:77 | A vertical link joins a node to the one below it at restDistanceV. |
| Cloth.ULinkIsGridLink | src/physics/Cloth.js:79 | A horizontal link joins a node to its right neighbour at restDistanceU. |
| Cloth.RowLinksAreGridLinks | src/physics/Cloth.js:75-80 | Every constraint of a row joins grid neighbours. |
| Cloth.GridLinksAreGridLinks | src/physics/Cloth.js:74-81 | Every interior constraint joins grid neighbours. |
| Cloth.RightLinksAreGridLinks | src/physics/Cloth.js:83-85 | Every right-edge constraint joins grid neighbours. |
| Cloth.BottomLinksAreGridLinks | src/physics/Cloth.js:87-89 | Every bottom-edge constraint joins grid neighbours. |
| Cloth.LinksAreGridLinks | src/physics/Cloth.js:74-89 | Soundness: every constraint joins two grid neighbours at the matching rest distance. |
| Cloth.RowLinksComplete | src/physics/Cloth.js:75-80 | Each column of a row contributes both its links. |
| Cloth.GridLinksComplete | src/physics/Cloth.js:74-81 | Every interior vertical and horizontal link is present. |
| Cloth.RightLinksComplete | src/physics/Cloth.js:83-85 | Every vertical link of the right column is present. |
| Cloth.BottomLinksComplete | src/physics/Cloth.js:87-89 | Every horizontal link of the bottom row is present. |
| Cloth.LinksComplete | src/physics/Cloth.js:74-89 | Completeness: every pair of grid neighbours is constrained. |
| Cloth.BuildConstraints | src/physics/Cloth.js:74-89 | The loops build exactly the constraint list Links(w, h), in source order. |
| Cloth.MakeParticles | src/physics/Cloth.js:66-70 | Creates (w+1)(h+1) distinct fresh particles, each at rest at its clothFunc(u/w, v/h) position. |
| Cloth.AppendRow | src/physics/Cloth.js:67-69 | One pass of the inner loop appends a fresh row of particles at rest and keeps the rows before it. |
| Cloth.Cloth.constructor | src/physics/Cloth.js:60-94 | The cloth has its grid of distinct particles at rest and the constraint list Links(w, h). |
| Cloth.SpanAt | src/physics/Cloth.js:101-115 | Floor, neighbour and fraction satisfy lo ≤ hi ≤ min(lo + 1, n), 0 ≤ frac < 1, and lo + frac = clamp(t) · n. |
| Cloth.CellAt | src/physics/Cloth.js:105-115 | The cell's corners lie inside the grid and its fractions reconstruct the clamped coordinates. |
| Cloth.CellInRange | src/physics/Cloth.js:118-121 | All four corner indices read inside the particle list. |
| Cloth.SampleClamps | src/physics/Cloth.js:101-102 | Sampling at (u, v) equals sampling at the clamped (u, v). |
| Cloth.SpanClamps | src/physics/Cloth.js:101-110 | Clamping before locating the cell changes nothing. |
| Cloth.SampleAtNode | src/physics/Cloth.js:97-135 | Sampling exactly at the coordinates of a grid node returns that node's position. |
| Cloth.SpanAtNode | src/physics/Cloth.js:105-115 | At a node coordinate i/n the floor is i and the fraction is 0. |
| Cloth.Edges | src/physics/Cloth.js:138-165 | Top and bottom lists have w + 1 entries; left and right have h − 1. |
| Cloth.CreateEdgeIndices | src/physics/Cloth.js:138-165 | The four loops build exactly Edges(w, h). |
| Cloth.EdgesAt | src/physics/Cloth.js:138-165 | Each entry of the edge lists is the index of a named grid node. |
| Cloth.EdgesDistinct | src/physics/Cloth.js:154-162 | No particle is listed twice, so the corners are not pulled twice. |
| Cloth.EdgesCoverBoundary | src/physics/Cloth.js:138-165 | A particle is in the edge lists if and only if it lies on the border of the grid. |
| Cloth.CornersOnlyTopBottom | src/physics/Cloth.js:154-162 | The four corners appear in the top and bottom lists and in neither side list. |
| ClothSimulation.Timestep | src/physics/clothSimulation.js:16 | The step is capped at 0.033, is 0.016 when the elapsed time is 0, and otherwise equals the elapsed time up to the cap. |
| ClothSimulation.ImpulseForceShape | src/physics/clothSimulation.js:51-56 | Inside the radius the impulse pushes along −z only, with strength × falloff² where falloff lies in (0, 1]. |
| ClothSimulation.ApplyImpulses | src/physics/clothSimulation.js:46-58 | Impulses change only a particle's acceleration. |
| ClothSimulation.ImpulsesOutOfReach | src/physics/clothSimulation.js:51 | A particle outside every impulse radius is unaffected. |
| ClothSimulation.ImpulsesPushIntoScreen | src/physics/clothSimulation.js:54-56 | Non-negative impulses never change x or y acceleration and never increase z acceleration. |
| ClothSimulation.ForcePhase | src/physics/clothSimulation.js:23-59 | The force loop changes only accelerations. |
| ClothSimulation.IntegratePhase | src/physics/clothSimulation.js:62-66 | After integration each particle's previous is its old position, its acceleration is zero, and its original and mass are kept. |
| ClothSimulation.MovePair | src/physics/clothSimulation.js:72 | Satisfying one constraint moves only its two particles, and only their positions. |
| ClothSimulation.RelaxPass | src/physics/clothSimulation.js:70-73 | A pass over the constraints changes only positions. |
| ClothSimulation.Relax | src/physics/clothSimulation.js:69-74 | Repeated passes change only positions. |
| ClothSimulation.SumUpdate | src/physics/clothSimulation.js:72 | Changing one position changes the sum of positions by the difference. |
| ClothSimulation.MovePairKeepsSum | src/physics/clothSimulation.js:72 | One constraint keeps the sum of all positions, so the cloth's centre of mass is kept. |
| ClothSimulation.RelaxPassKeepsSum | src/physics/clothSimulation.js:70-73 | A full pass keeps the centre of mass. |
| ClothSimulation.RelaxKeepsSum | src/physics/clothSimulation.js:69-74 | Relaxation with any iteration count keeps the centre of mass. |
| ClothSimulation.PullNeverMovesAway | src/physics/clothSimulation.js:83-84 | The soft edge pull never moves a particle further from its original position. |
| ClothSimulation.RestoreList | src/physics/clothSimulation.js:81-85 | Pulling listed particles changes only positions. |
| ClothSimulation.RestoreListConcat | src/physics/clothSimulation.js:80-106 | Pulling list a and then list b equals pulling a + b. |
| ClothSimulation.RestoreListEffect | src/physics/clothSimulation.js:81-85 | With distinct indices, exactly the listed particles are pulled once and the rest are untouched. |
| ClothSimulation.RestorePhase | src/physics/clothSimulation.js:76-106 | The edge phase keeps the number of particles. |
| ClothSimulation.RestoreTouchesBorderOnly | src/physics/clothSimulation.js:76-106 | The edge phase pulls every border particle exactly once and leaves every interior particle alone. |
| ClothSimulation.Tick | src/physics/clothSimulation.js:11-107 | After a tick every particle keeps its original position and mass, its previous is its pre-tick position, and its acceleration is zero. Its last stage is RestorePhase, so RestoreTouchesBorderOnly applies to it by name. |
| ClothSimulation.RestStates | src/physics/Cloth.js:66-70 | The rest shape has one state per grid node, each at rest at its layout position. |
| ClothSimulation.LinksIn | src/physics/Cloth.js:74-89 | Every constraint refers to particles inside the list. |
| ClothSimulation.EdgesIn | src/physics/Cloth.js:138-165 | Every edge index refers to a particle inside the list. |
| ClothSimulation.ClothFuncSteps | src/physics/Cloth.js:9-14 | One step in v moves width/n along x; one step in u moves height/n down y. |
| ClothSimulation.RowStep | src/physics/Cloth.js:68 | Vertically linked rest nodes are width/h apart along x. |
| ClothSimulation.ColumnStep | src/physics/Cloth.js:68 | Horizontally linked rest nodes are height/w apart along −y. |
| ClothSimulation.GridLinkAtRest | src/physics/Cloth.js:5-6 | In the rest shape each grid link is exactly at its rest distance. |
| ClothSimulation.StepLength | src/physics/Cloth.js:5-6 | An axis-aligned step of length d has squared length d². |
| ClothSimulation.GridLinkInRestShape | src/physics/Cloth.js:74-89 | A grid link holds at rest in the rest shape. |
| ClothSimulation.GridLinksInRestShape | src/physics/Cloth.js:74-89 | Every grid link holds at rest in the rest shape. |
| ClothSimulation.RestLinksAtRest | src/physics/Cloth.js:5-6 | When restDistanceU/V match the grid spacing, every constraint of the cloth is at rest in the rest shape. |
| ClothSimulation.RelaxPassAtRest | src/physics/clothSimulation.js:70-73 | A pass over constraints that are all at rest changes nothing. |
| ClothSimulation.RelaxAtRest | src/physics/clothSimulation.js:69-74 | Relaxing constraints that are all at rest changes nothing. |
| ClothSimulation.RestoreAtRest | src/physics/clothSimulation.js:80-106 | Particles sitting at their original positions are not moved by the edge pull. |
| ClothSimulation.RestStatesStill | src/physics/Cloth.js:16-29 | The rest shape has no velocity, no acceleration, and every particle at its original position. |
| ClothSimulation.ForcePhaseAtRest | src/physics/clothSimulation.js:23-59 | With no wind and every particle out of reach of every impulse, the force loop changes nothing. |
| ClothSimulation.GravityOff | src/config/constants.js:34 | With GRAVITY 0 the gravity force is zero. |
| ClothSimulation.IntegratePhaseAtRest | src/physics/clothSimulation.js:62-66 | Integrating a still cloth with the configured parameters changes nothing. |
| ClothSimulation.TickAtRest | src/physics/clothSimulation.js:11-107 | A still cloth with every constraint at rest, no wind and no impulse in reach is a fixed point of the tick. |
| ClothSimulation.FlagAtRestIsEquilibrium | src/mesh/flag.js:24-25 | The flag's initial 20 × 15 cloth is a fixed point of the tick when there is no wind and no impulse in reach. |
| ClothSimulation.StillTick | src/physics/clothSimulation.js:11-107 | A still cloth left unchanged by forces and relaxation is left unchanged by the whole tick. |
| ClothSimulation.PositionBuffer.constructor | src/mesh/flag.js:12 | The buffer holds the given vertices in a fresh array and is not marked for upload. |
| ClothSimulation.ImpulseOnParticle | src/physics/clothSimulation.js:47-57 | One impulse is applied to one particle in place, as the state-level Impulse function says. |
| ClothSimulation.ForceOnParticle | src/physics/clothSimulation.js:41-58 | The wind force and then every impulse are applied to one particle. |
| ClothSimulation.ApplyForces | src/physics/clothSimulation.js:23-59 | The in-place force loop produces ForcePhase of the old states. |
| ClothSimulation.IntegrateAll | src/physics/clothSimulation.js:62-66 | The in-place integration loop produces IntegratePhase of the old states. |
| ClothSimulation.SatisfyConstraint | src/physics/clothSimulation.js:71-72 | Satisfying one constraint in place produces MovePair of the old states. |
| ClothSimulation.RelaxOnce | src/physics/clothSimulation.js:70-73 | One in-place pass produces RelaxPass of the old states. |
| ClothSimulation.RelaxConstraints | src/physics/clothSimulation.js:69-74 | The iteration loop produces Relax of the old states. |
| ClothSimulation.RestoreIndices | src/physics/clothSimulation.js:81-85 | One edge loop produces RestoreList of the old states. |
| ClothSimulation.RestoreEdges | src/physics/clothSimulation.js:76-106 | The four edge loops together pull top, bottom, left and right in that order. |
| ClothSimulation.CommitPositions | src/physics/clothSimulation.js:108-113 | The geometry buffer then holds every particle's position and is marked for upload. |
| ClothSimulation.ForceAndIntegrate | src/physics/clothSimulation.js:23-66 | The force and integration loops yield IntegratePhase of ForcePhase. |
| ClothSimulation.RelaxAndRestore | src/physics/clothSimulation.js:69-106 | Relaxation then edge pull yields RestoreList of Relax. |
| ClothSimulation.StepParticles | src/physics/clothSimulation.js:11-107 | The in-place tick leaves the particles in the states Tick computes. |
| ClothSimulation.SimulateCloth | src/physics/clothSimulation.js:11-113 | simulateCloth leaves the particles in Tick's states and the geometry holding their positions, marked for upload. |
| PivotSpring.SpringFixedPoint | src/mesh/controlSphere.js:39-48 | The spring step leaves the sphere where it is if and only if it is at rest at (0, 0, 25). |
| PivotSpring.SpringFromStandstill | src/mesh/controlSphere.js:44-48 | From standstill the sphere moves 0.009 of the way to rest, and the new velocity is that move. |
| PivotSpring.AutoRotateAngle | src/mesh/controlSphere.js:56 | 0.004 · (deltaTime / 0.016) is deltaTime / 4. |
| PivotSpring.AutoRotateAdditive | src/mesh/controlSphere.js:56 | The auto-rotation angle of two frames is the sum of their angles. |
| PivotSpring.ZeroSpinKeepsTarget | src/mesh/controlSphere.js:56-60 | A frame of zero duration does not turn the target. |
| PivotSpring.ControlSphere.constructor | src/mesh/controlSphere.js:6-29 | The sphere starts at (0, 0, 25) with the identity rotation and copies that rotation into the store's target. |
| PivotSpring.ControlSphere.UpdatePhysics | src/mesh/controlSphere.js:32-49 | Rotation slerps 0.13 of the way to the target; position and velocity take one damped spring step; only the velocity changes in the store. |
| PivotSpring.ControlSphere.UpdateAutoRotation | src/mesh/controlSphere.js:52-62 | In dodecahedron or animating mode with auto-rotation on, the target is pre-multiplied by a yaw of deltaTime / 4; otherwise the store is unchanged. |
| Flag.Decayed | src/mesh/flag.js:47 | Decay replaces only the strength of an impulse. |
| Flag.Prune | src/mesh/flag.js:45-49 | The pruned list is no longer than the old one and all its impulses are live (age ≤ 1000 ms, strength ≥ 0.1). |
| Flag.KeptIndices | src/mesh/flag.js:45-49 | The kept positions are increasing and name impulses that are live once decayed. |
| Flag.KeptIndicesComplete | src/mesh/flag.js:45-49 | Every impulse that is live once decayed is kept. |
| Flag.PruneSelects | src/mesh/flag.js:45-49 | The filter returns exactly the decayed live impulses, in their original order. |
| Flag.PruneIgnoresOldStrength | src/mesh/flag.js:47 | The result does not depend on the strengths before the call, because the filter overwrites them. |
| Flag.PruneIdempotent | src/mesh/flag.js:45-49 | Pruning twice at the same time equals pruning once. |
| Flag.PruneDropsExpired | src/mesh/flag.js:46-48 | Impulses older than one second are all dropped. |
| Flag.ElapsedSeconds | src/mesh/flag.js:40 | The elapsed time in seconds times 1000 is the milliseconds since the last update. |
| Flag.GeometryVertices | src/mesh/flag.js:12 | The parametric geometry has (slices+1)(stacks+1) vertices, with node (j, i) at clothFunc(j/slices, i/stacks), which is the cloth's rest layout. |
| Flag.AtRestStates | src/physics/Cloth.js:66-70 | A freshly built cloth's states are the rest shape. |
| Flag.NewFlagCloth | src/mesh/flag.js:24-25 | The flag's cloth is 20 × 15, at rest, with in-range constraints and the edge lists Edges(20, 15). |
| Flag.NewGeometry | src/mesh/flag.js:12 | The geometry's positions are the parametric vertices, which coincide with the cloth's particle positions. |
| Flag.FlagMesh.constructor | src/mesh/flag.js:10-26 | The mesh owns a 20 × 15 cloth at rest, its edge lists, the configured parameters, and geometry that matches the particles. |
| Flag.FlagMesh.UpdatePhysics | src/mesh/flag.js:29-52 | Less than the interval since the last update: nothing changes. Otherwise the cloth takes one Tick over the elapsed seconds, the geometry shows the new positions, lastClothUpdate becomes now, and the impulses are pruned. |
| Flag.FlagMesh.Advance | src/mesh/flag.js:33-50 | The branch taken when the interval has elapsed: tick, copy to geometry, record the time, prune. |
| Flag.FlagMesh.Step | src/mesh/flag.js:33-41 | simulateCloth on the mesh's own cloth, geometry and edges; the store is unchanged. |
| Flag.RestMeshStaysPut | src/mesh/flag.js:33-41 | A flag mesh still at rest stays put when there is no wind and no impulse in reach. |
| Flag.RestMeshSamplesLayout | src/mesh/flag.js:55-57 | Sampling a resting flag at a grid node returns that node's layout position. |
| Flag.RecordUpdate | src/mesh/flag.js:42-50 | The store records the update time and the pruned impulse list, and nothing else. |
| Interactions.ClickFrame | src/events/interactions.js:5-63 | A click never touches dragging, the pointer, the target rotation, the progress or the update time, and always leaves hasDragged false. |
| Interactions.ClickReturnsToFlag | src/events/interactions.js:23-38 | In dodecahedron or animating mode a click starts the animation back to the flag and re-enables auto-rotation, adds no impulse, and keeps the velocity when no star is hit. |
| Interactions.StarPushPointsAway | src/events/interactions.js:26-31 | Hitting a star changes the sphere's velocity by −0.015 times the vector from the sphere to the hit, so the push points away from the hit. |
| Interactions.ClickOnFlag | src/events/interactions.js:40-62 | In flag mode a miss changes nothing; a hit appends one impulse (strength 20, radius 25, decay 0.8) at the hit and starts the animation to the dodecahedron. |
| Interactions.ClickAfterDrag | src/events/interactions.js:9-12 | The click that ends a drag only clears hasDragged. |
| Interactions.MoveFrame | src/events/interactions.js:73-104 | A move changes only hasDragged, auto-rotation, the target and the pointer, records the pointer while dragging, does nothing otherwise, and never clears hasDragged. |
| Interactions.DragSuppressesClick | src/events/interactions.js:67-108 | Press, a move of more than 1 px, release, then click: the mode and impulses are unchanged, the target is rotated, and auto-rotation is off. |
| Interactions.SmallMoveKeepsClick | src/events/interactions.js:67-108 | Press, a move of at most 1 px, release, then click: the click acts as a normal click. |
| Interactions.HandleClick | src/events/interactions.js:5-63 | The click handler updates the store as Click says. |
| Interactions.HandlePress | src/events/interactions.js:67-71 | The mousedown handler updates the store as Press says. |
| Interactions.HandleMove | src/events/interactions.js:73-104 | The mousemove handler updates the store as Move says. |
| Interactions.HandleRelease | src/events/interactions.js:106-108 | The mouseup handler updates the store as Release says. |
| StarGroup.UpVector | src/scene/starGroup.js:8-30 | The up vector is always a unit vector in the xy plane. |
| StarGroup.UpVectorMirror | src/scene/starGroup.js:8-30 | Mirroring the face centre through the origin mirrors its up vector. |
| StarGroup.UpVectorAcrossEquator | src/scene/starGroup.js:15-29 | Away from the poles the up vector points across the equator toward the other hemisphere; at the poles it has no x component. |
| StarGroup.Draw | src/scene/starGroup.js:42 | floor(random · (i + 1)) lies in 0..i. |
| StarGroup.Iota | src/scene/starGroup.js:39 | The initial order is 0, 1, …, n − 1. |
| StarGroup.SwapPermutes | src/scene/starGroup.js:43 | A swap permutes the order. |
| StarGroup.Draws | src/scene/starGroup.js:42 | Every draw of the shuffle lies in 0..i. |
| StarGroup.ShufflingPermutes | src/scene/starGroup.js:41-44 | The shuffle from any point on is a permutation of 0..n − 1. |
| StarGroup.SwapKeepsDistinct | src/scene/starGroup.js:43 | Swapping keeps all entries distinct. |
| StarGroup.ShufflingKeepsDistinct | src/scene/starGroup.js:41-44 | The shuffled order has no repeats. |
| StarGroup.StaggerOrderIsPermutation | src/scene/starGroup.js:39-44 | The stagger order is a permutation of 0..n − 1: in range, distinct, and containing every index. |
| StarGroup.StaggerOrder | src/scene/starGroup.js:39-44 | The in-place Fisher–Yates loop over an array yields Shuffled(n). |
| StarGroup.ShuffleInPlace | src/scene/starGroup.js:41-44 | The downward swap loop leaves the array holding Shuffling(n, 0). |
| StarGroup.FlagUVRoundTrip | src/scene/starGroup.js:87-88 | Mapping (flagX, flagY) to UV and back through clothFunc returns (flagX, flagY, 0). |
| StarGroup.FlagUVInRange | src/scene/starGroup.js:83-88 | Points within FLAG_RADIUS have UV in [0, 1], so the sampler's clamp leaves them alone. |
| StarGroup.Placement | src/scene/starGroup.js:80-97 | Each flag star's UV is the UV of its flag position, and that position sits at FLAG_Z. |
| StarGroup.PlacementOnCloth | src/scene/starGroup.js:80-91 | Each circle star's UV lies on the cloth and the cloth's layout puts it at the star's flag position. |
| StarGroup.CreateStarData | src/scene/starGroup.js:32-100 | One datum per vertex: face centre, lookAt orientation with the chosen up vector, stagger index from the shuffled order, and for the first twelve their flag placement. |
| StarGroup.StaggerIndicesDistinct | src/scene/starGroup.js:71-76 | No two stars share a stagger index, and every index is below the star count. |
| Animation.FrameDelta | main.js:89 | The first frame uses 0.016 s; later frames use the milliseconds since the last frame divided by 1000. |
| Animation.AdvanceStopsOnArrival | main.js:104-121 | The transition stops if and only if progress has reached the end it was heading for (1 toward the dodecahedron, 0 toward the flag). |
| Animation.AdvanceInRange | main.js:104-121 | Progress stays in [0, 1] and moves toward its target by at most deltaTime / ANIMATION_DURATION. |
| Animation.AdvanceFullDurationArrives | main.js:104-121 | A frame at least ANIMATION_DURATION long always finishes the transition. |
| Animation.BlendWeightMonotonic | main.js:140-143 | The eased, staggered blend weight lies in [0, 1], grows with progress, and shrinks with stagger index. |
| Animation.AnimatedPoseArrives | main.js:124-167 | At progress 1 the animated pose is the steady dodecahedron pose; at progress 0 it is the steady flag pose. |
| Animation.DodecahedronPoses | src/scene/starGroup.js:54-64 | The stars start at their face centres with their lookAt orientations. |
| Animation.App.constructor | main.js:32-40 | Builds star data from the shuffled order, places the stars on the dodecahedron, puts the sphere at rest, builds the flag cloth at rest, and sets the store's target to the identity. |
| Animation.App.Animate | main.js:81-168 | One frame records the time, advances the transition (or leaves it idle), poses every star (animated when the frame began animating, steady otherwise), and leaves the mode, the drag state, the pointer and the auto-rotation switch as they were. |
| Animation.App.UpdateScene | main.js:96-101 | Once the update interval has passed, the cloth takes one tick, the vertex buffer holds the new particle positions and is flagged for upload, and the impulses are pruned. Before that, the cloth, the buffer and the record's cloth fields are unchanged. The target auto-rotates, and the sphere takes its spring and slerp step. The transition, drag, pointer and auto-rotation fields are untouched. |
| Animation.App.UpdatePivot | main.js:99-100 | Auto-rotation and then the sphere's physics, as ControlSphere states them; the flag's cloth, its vertex buffer and the record's cloth fields are left as they were. |
| Animation.App.UpdateStars | main.js:103-168 | While animating, the transition advances and the stars take animated poses; otherwise the store is unchanged and the stars take steady poses. |
| Animation.App.StepTransition | main.js:104-121 | Writes Advance's progress and animating flag to the store and nothing else. |
| Animation.App.SampleStars | main.js:128 | Each star samples the cloth at its flag UV. |
| Animation.App.PoseAnimated | main.js:124-147 | Each star takes the blend of its flag pose and its rigid dodecahedron pose. |
| Animation.App.PoseSteady | main.js:149-167 | Each star takes the rigid dodecahedron pose or the flag pose, by mode. |

## Left out

- Rendering, lighting, bloom, the environment map, the HUD, window resizing and `calculateVerticalFOV` (`src/utils.js:10-13`) produce pixels or camera settings, not state.
- `requestAnimationFrame` and `performance.now()` are not modelled. The frame time `now` is a parameter of `Animate` and of `HandleClick`, and the fallback `now || performance.now()` (`main.js:84`) is not modelled.
- The turbulent wind formula (`src/physics/clothSimulation.js:28-43`) is built from cosines, sines and the vertex normals, so the per-particle wind force is a parameter `wind`. `computeVertexNormals` and the normal buffer are not modelled.
- The icosahedron vertex coordinates come from `src/geometry/icosahedron.js`, which is not part of this model; the vertices are an input of `CreateStarData` and of the `App` constructor.
- Raycasting is not modelled; a click receives the star hit and the flag hit as `Option` values.
- Touch handlers (`src/events/interactions.js:111-152`) repeat the mouse handlers on the first touch point; they are covered by `HandlePress`, `HandleMove` and `HandleRelease`.
- The trackball rotation of a drag (Euler to quaternion, divided by the window size) is the parameter `rotation`. Auto-rotation's Euler yaw is the parameter `yaw`.
- IEEE double rounding and `NaN` are not modelled; all arithmetic is on reals.
- `clothFunc` writes into a target vector in the source; the model returns the point.
- The scratch vectors `tmp` and `tmp2` and their swap in `Particle.integrate` are aliasing details. They do not change any position, so they are not modelled.
- The first `lookAt` in `createStarGroup` (`src/scene/starGroup.js:57`) is overwritten by the second one, so only the second is modelled. `flagPos` and `flagRot` are computed but are not read anywhere in the core; they are kept in `FlagPlacement` without further use.
- The UV2 attribute, the material and the mesh offset `z = -0.5` of the flag are rendering details.
- `Animation.App.Animate`: its contract states the frame time, the transition, the star poses and that the drag and auto-rotation fields of the store are untouched. The cloth tick and the pivot step are stated on `Animation.App.UpdateScene`, which it calls.
- The click handler pushes with its own constant 0.015 (`src/events/interactions.js:29`), not `SPRING_CONSTANTS.PUSH_STRENGTH` (0.01); the model follows the handler, so neither `PUSH_STRENGTH` nor `TIMESTEP`, which the core never reads, is modelled.
- The star placement loop writes flag data for the first twelve stars only. The `App` constructor therefore requires exactly twelve vertices, which is what the icosahedron supplies.
