# Boids flocking simulator: a verified Dafny model

This project models the flocking simulator of the `boids` TypeScript library and the demo page that drives it.

The simulator (`src/boids.ts`) has these parts:
- It keeps an ordered list of boids. Each boid is a record `[x, y, vx, vy, ax, ay]`.
- It holds an ordered list of attractors by reference. Each attractor is a record `[x, y, radius, force]`.
- Its configuration is fixed when it is constructed. Distances and limits are stored squared.
- One `tick` is a two-phase update done in place:
  - Phase 1 visits the boids in order. Attractors in range nudge the visited boid's velocity. The other boids are classified by strict squared-distance thresholds into separation, cohesion and alignment sums. The normalised, weighted sums are added to the acceleration.
  - Phase 2 clamps the acceleration, adds it to the velocity, clamps the speed, moves each boid and resets its acceleration.
  - Finally it emits `tick` to its listeners.
- Lengths use the "dog-leg" approximation `hypot`.

The demo (`src/demo.ts`) adds three behaviours: a mouse-driven attractor, wrap-around at the canvas edges, and a population rule driven by the frame rate.

Numbers are modelled as `real`, so every formula holds exactly. The JavaScript guard `(num / len) || 0` becomes `OrZero`: 0 for a zero length, the quotient otherwise. A zero length happens only at the origin, where the numerator is zero as well.

Files:
- `Wrappers.dfy`: the `Option` type.
- `Numerics.dfy`: vectors; `Hypot`, proved positively homogeneous; the guarded normalisation; the limit clamp.
- `Types.dfy`: the boid, attractor and configuration records, and the initial boids.
- `Events.dfy`: the listener registry.
- `Steering.dfy`: the specification of one tick, as functions on values, with its lemmas.
- `Simulator.dfy`: the `Boids` class.
  - `Tick` is imperative code over the boid list. It is proved equal to the specification `TickSpec`.
  - The model splits the body of `tick` into the blocks the source marks with comments: the attractor loop, the pair loop, the force application, and the per-boid phase-2 update. The two identical clamp blocks share one method, `Limit`.
- `Demo.dfy`: the demo class.

## Model

| member | source | states |
|---|---|---|
| Numerics.Hypot | src/boids.ts:17-23 | the dog-leg approximation: with lo and hi the smaller and larger of \|a\| and \|b\|, hi + 3·lo/32 + max(0, 2·lo − hi)/8 + max(0, 4·lo − hi)/16; the lemmas below state its bounds, symmetries and scaling |
| Numerics.HypotBounds | src/boids.ts:17-23 | hypot(a,b) is at least \|a\| and at least \|b\|, and at most 45/32 of the larger of the two; it is 0 exactly at the origin |
| Numerics.HypotAtOrigin | src/boids.ts:17-23 | hypot(0,0) = 0 |
| Numerics.HypotOnAxis | src/boids.ts:17-23 | hypot(a,0) = hypot(0,a) = \|a\| |
| Numerics.HypotSymmetric | src/boids.ts:17-23 | hypot does not change when its arguments are swapped or when either sign is flipped |
| Numerics.HypotScale | src/boids.ts:17-23 | positive homogeneity: hypot(a·k, b·k) = \|k\|·hypot(a,b) |
| Numerics.OrZero | src/boids.ts:153-154 | the guarded quotient (also used at src/boids.ts:186-197) `(num / len) \|\| 0`: 0 for a zero length, the quotient otherwise; `OrZeroGuard` states what the result means |
| Numerics.OrZeroGuard | src/boids.ts:153-154 | the `\|\| 0` guard gives 0 for a zero length; otherwise the result times the length gives back the numerator |
| Numerics.Normalized | src/boids.ts:185-197 | a zero sum gives the zero vector; any other sum gives a vector of hypot length \|weight\|, along the sum for a positive weight and against it for a negative one |
| Numerics.Clamp | src/boids.ts:204-210 | above the squared limit, the result has hypot length exactly \|root\|, along v for root > 0 and against it for root < 0; at or below the limit, v is unchanged |
| Types.ConsistentLimits | src/boids.ts:91-92 | squared limits are non-negative |
| Types.InitialBoids | src/boids.ts:103-109 | boid i takes draws 4i..4i+3 through `*400-200` and `-0.5`, so x,y ∈ [-200,200), vx,vy ∈ [-0.5,0.5), and its acceleration is zero; the count is the requested one |
| Events.Deliveries | src/boids.ts:39-45 | one call per listener, in registration order, each with the same arguments |
| Events.EventEmitter.constructor | src/boids.ts:29 | a new registry has no listeners and has made no calls |
| Events.EventEmitter.On | src/boids.ts:31-37 | appends the listener and leaves the call trace as it was |
| Events.EventEmitter.Emit | src/boids.ts:39-45 | returns whether any listener exists; calls every listener once, in order, with the arguments; the listener list is unchanged |
| Events.DeliveriesCount | src/boids.ts:43 | an emission reaches each listener as many times as it was registered |
| Steering.InRange | src/boids.ts:151 | an attractor reaches a boid when the squared distance is strictly below the squared radius |
| Steering.Nudge | src/boids.ts:147-155 | out of range (d² ≥ radius², strict test) nothing; a boid exactly on the attractor gets nothing; otherwise the nudge has hypot length \|force\|, along the offset from the attractor for force > 0 and against it for force < 0 |
| Steering.Pull | src/boids.ts:151-155 | the nudge is subtracted straight from the velocity; position and acceleration are untouched; an attractor out of range changes nothing |
| Steering.PullAll | src/boids.ts:145-156 | the attractors, applied in list order, leave position and acceleration unchanged |
| Steering.PullAllOutOfRange | src/boids.ts:151 | a boid that no attractor reaches keeps its velocity |
| Steering.NudgeByPosition | src/boids.ts:147-148 | the nudge depends only on the boid's position |
| Steering.Classify | src/boids.ts:162-181 | one pair step of the neighbour loop: a neighbour below the separation distance adds its offset to separation only; else below the cohesion distance it adds its offset to cohesion, and below the alignment distance its velocity to alignment |
| Steering.Neighbours | src/boids.ts:159-182 | the neighbour loop over the live list, skipping the visited boid; `NeighboursSplit` proves it equals three filtered sums |
| Steering.NeighboursSplit | src/boids.ts:159-182 | the one-pass classification equals three separately filtered sums: offsets with d² < sepDist; offsets with d² ≥ sepDist and d² < cohDist; velocities with d² ≥ sepDist and d² < aliDist; the boid itself is excluded from all three |
| Steering.NeighboursIgnoreSelf | src/boids.ts:160 | whatever the visited boid holds never enters its own sums |
| Steering.SeparationBoundary | src/boids.ts:166-181 | at d² exactly sepDist the neighbour does not separate and falls through to cohesion and alignment |
| Steering.Steer | src/boids.ts:184-197 | force application changes only the acceleration |
| Steering.SteerNoSums | src/boids.ts:185-197 | zero sums contribute nothing |
| Steering.SteerSeparationOnly | src/boids.ts:185-187 | with only a separation sum, the acceleration changes by a vector of hypot length \|sepForce\|, along the sum for a positive force |
| Steering.SteerCohesionOnly | src/boids.ts:189-192 | with only a cohesion sum, the acceleration changes by a vector of hypot length \|cohForce\|, against the sum of offsets (towards the neighbours) for a positive force |
| Steering.SteerAlignmentOnly | src/boids.ts:194-197 | with only an alignment sum, the acceleration changes by a vector of hypot length \|aliForce\|, against the sum of velocities for a positive force |
| Steering.Visit | src/boids.ts:142-197 | the visit of one boid: attractors first, written back, then its sums over the updated list, then the forces; `VisitChanges` states what it changes |
| Steering.VisitChanges | src/boids.ts:138-198 | visiting boid i changes only boid i, and only its velocity (to the attractor-nudged one) and its acceleration |
| Steering.Phase1 | src/boids.ts:138-198 | phase 1 keeps the number of boids |
| Steering.Phase1State | src/boids.ts:138-198 | after k visits, positions are unchanged, boids before k carry their nudged velocities, and boids from k on are untouched; so alignment reads nudged velocities before the visited boid and original ones after it |
| Steering.Limited | src/boids.ts:203-211 | a zero squared limit disables the clamp, and a vector within the limit is unchanged; above a non-zero limit the result has hypot length \|root\|, along the vector for a positive root |
| Steering.Integrate | src/boids.ts:201-235 | afterwards the acceleration is zero, the velocity is the limited (velocity + limited acceleration), and the position has moved by exactly the new velocity; with a speed limit, the new velocity is within it or has hypot length \|speedLimitRoot\| |
| Steering.TickSpec | src/boids.ts:121-235 | a step keeps the number of boids |
| Steering.TickPostState | src/boids.ts:201-235 | after a step boid i is still boid i, every acceleration is zero, every position has moved by the new velocity, and every speed is within the limit or at \|speedLimitRoot\| |
| Steering.IntegrateAtRest | src/boids.ts:201-235 | a boid without acceleration moves by its speed-limited velocity |
| Steering.LoneBoid | src/boids.ts:121-235 | a lone boid without acceleration or attractors ends the step at position + limited velocity, with zero acceleration |
| Simulator.AttractorList.constructor | src/boids.ts:57 | a shared attractor list holds the given attractors |
| Simulator.OrDefault | src/boids.ts:89-98 | an absent option and an option of 0 both take the default; any other value is kept |
| Simulator.ResolveConfig | src/boids.ts:89-98 | the stored configuration is consistent; each distance and limit is the default-resolved value squared; the forces are default-resolved |
| Simulator.DefaultConfig | src/boids.ts:89-98 | the defaults are: no speed limit, acceleration limit 1, distances 60, 180 and 180 (squared), forces 0.15, 0.1 and 0.25 |
| Simulator.ZeroAccelerationLimitTakesDefault | src/boids.ts:90 | `accelerationLimit: 0` becomes 1 |
| Simulator.BoidCount | src/boids.ts:102-103 | 50 when the option is absent; otherwise the value itself, so 0 gives no boids; a negative count gives none |
| Simulator.Removed | src/boids.ts:256-260 | a valid index removes exactly that element and keeps the rest in order; any other index changes nothing |
| Simulator.RemovedInverse | src/boids.ts:256-260 | re-inserting the removed element at its index restores the list |
| Simulator.Boids.constructor | src/boids.ts:85-115 | the configuration is the resolved one; the boids are the initial boids for the resolved count; the given attractor list is shared, not copied (otherwise a fresh empty list is used); the callback, if any, is the only listener |
| Simulator.Boids.On | src/boids.ts:31-37 | appends a `tick` listener |
| Simulator.Boids.AddBoid | src/boids.ts:248-250 | appends (x, y, vx, vy, 0, 0); the velocity defaults to 0 |
| Simulator.Boids.RemoveBoid | src/boids.ts:256-260 | the boid list becomes `Removed(old list, index)` |
| Simulator.Boids.AddAttractor | src/boids.ts:269-271 | appends (x, y, radius, force) to the shared list |
| Simulator.Boids.RemoveAttractor | src/boids.ts:277-281 | the attractor list becomes `Removed(old list, index)` |
| Simulator.Boids.ClearBoids | src/boids.ts:286-288 | empties the boid list and nothing else |
| Simulator.Boids.ClearAttractors | src/boids.ts:293-295 | empties the attractor list and nothing else |
| Simulator.Boids.PullCurrent | src/boids.ts:144-156 | the in-place attractor loop leaves boid `current` equal to `PullAll` of itself; the other boids are unchanged |
| Simulator.Boids.NeighbourSums | src/boids.ts:139-182 | the six accumulators of the pair loop equal `Neighbours` over the live list |
| Simulator.Boids.ApplyForces | src/boids.ts:184-197 | boid `current` becomes `Steer` of itself with those sums |
| Simulator.Boids.Limit | src/boids.ts:203-211 | the clamp block computes `Limited` |
| Simulator.Boids.IntegrateBoid | src/boids.ts:202-234 | the phase-2 body computes `Integrate` |
| Simulator.Boids.Tick | src/boids.ts:121-239 | the in-place step leaves the list equal to `TickSpec` of the old list; the attractors are unchanged; each listener is called once, in order, with the new list |
| Demo.Wrap | src/demo.ts:153-154 | past +half goes to -half; past -half goes to +half; inside, unchanged; for half ≥ 0 the result lies in [-half, half] |
| Demo.WrapIdempotent | src/demo.ts:153-154 | wrapping twice is the same as wrapping once |
| Demo.WrapBoid | src/demo.ts:150-154 | only the position is wrapped; velocity and acceleration are untouched |
| Demo.WrapBoidOnCanvas | src/demo.ts:153-154 | a wrapped boid is on the canvas; a boid already on it does not move |
| Demo.Adjust | src/demo.ts:122-131 | the count changes by at most one; a count in [10, 500] stays in [10, 500]; for 56 < fps < 60 nothing changes |
| Demo.AdjustDropsLast | src/demo.ts:125-127 | fps ≤ 56 with more than 10 boids removes exactly the last boid |
| Demo.AdjustAppends | src/demo.ts:128-130 | otherwise fps ≥ 60 with fewer than 500 boids appends one boid at (0,0) with the given velocity and zero acceleration, keeping the others |
| Demo.Round | src/demo.ts:109 | `Math.round` returns the integer within half of x, rounding halves up |
| Demo.DemoOptions | src/demo.ts:28-39 | the demo's options: 300 boids, speed limit 1.2, acceleration limit 0.1, distances 80, 250 and 220, forces 0.12, 0.08 and 0.45, and its own attractor list |
| Demo.DemoConfig | src/demo.ts:28-39 | the demo's resolved configuration, with every distance and limit squared |
| Demo.BoidsDemo.constructor | src/demo.ts:15-45 | one attractor (radius 200, force 0.1) in a list shared with the simulator; 300 initial boids from the demo options; no listener; the frame clock starts at the given time |
| Demo.BoidsDemo.MoveAttractor | src/demo.ts:59-65 | the first attractor moves to the pointer in canvas-centred coordinates, and the simulator sees the new position |
| Demo.BoidsDemo.Resize | src/demo.ts:69-75 | the canvas takes the new size; the frame counters are kept |
| Demo.BoidsDemo.AdjustBoidCount | src/demo.ts:122-136 | the flock becomes `Adjust(fps, old flock, draw·6−3, draw·6−3)` |
| Demo.BoidsDemo.UpdateFPS | src/demo.ts:105-120 | once a second or more has passed: fps is the rounded rate, the count restarts at 0, the window restarts at the current time, and the flock is adjusted once; otherwise the count goes up by one and everything else is kept |
| Demo.BoidsDemo.Render | src/demo.ts:138-160 | every boid is replaced by its wrapped self, in place |
| Demo.BoidsDemo.Animate | src/demo.ts:162-168 | one frame is adjust-if-due, then `TickSpec`, then wrap; afterwards every boid is on the canvas; each listener is called once, in order, with the stepped list; the frame counters follow `UpdateFPS`'s two branches; the canvas size is kept |

## Left out

- Floating point: NaN, infinities and rounding are not modelled. All numbers are `real`, and `Math.pow(x, 2)` is `x * x`. A NaN option would also take its default through `||`; this is not modelled.
- The demo's initial attractor at `Infinity` cannot be represented. `Demo.BoidsDemo.constructor` takes a caller-chosen point (`farX`, `farY`) instead. A finite point within radius 200 of a boid nudges that boid before the first mouse move; the source's point at infinity never does.
- Randomness: the draws of `Math.random` are parameters, each assumed in [0, 1). The initial boids take a sequence of draws; `AdjustBoidCount` takes two.
- The accuracy of `hypot` against the Euclidean norm needs square roots. The source does not state it.
- Listener generality: the model has a single event (`tick`), listeners are opaque identifiers, and an emission is recorded as a trace of calls. What a callback does when called is not modelled. `on` returning `this` for chaining is not modelled.
- Inheritance: `Boids extends EventEmitter` becomes a `Boids` that holds its own `EventEmitter` in a field.
- `Simulator.BoidCount`: does not model a fractional boid count, which the source's loop rounds up. Counts are integers in the model.
- `Simulator.Boids.RemoveBoid` and `Simulator.Boids.RemoveAttractor`: the index is an integer. A fractional index is not modelled.
- The attractor field is never reassigned in the source, so it is a constant reference in the model.
- `Demo.BoidsDemo.MoveAttractor`: requires a non-empty attractor list. The source would throw on an empty one.
- Negative limits: the clamp lemmas are stated with `|root|`. A negative limit root gives a reversed direction, as the source computes; the source never guards against it.
- The DOM, the canvas and timing in the demo are not modelled: `setupCanvas`, `setupUI`, drawing with `arc` and `fillRect`, the text of the FPS and count elements, `requestAnimationFrame`, `cancelAnimationFrame`, `performance.now`, the resize debounce timer and `destroy`. The clock, the window size and the pointer position are parameters.
- `createBoids` (src/boids.ts:299-301) is a trivial factory and is not modelled.
- `example.js` is a console-logging driver and is not part of this model.
- `vite.config.ts` is build configuration and is not part of this model.
