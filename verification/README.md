# Particle system model

A Dafny model of the particle simulation in `src/data/particle_system.js`.
The simulation animates map effects such as clouds. It has three layers:

- **The registry** (`ParticleSystem`, module `Simulation`). It holds the list
  of emitters. It throttles the global update to at most one tick per 10 ms.
  Its attach operation (`addEmitter`) deduplicates emitters by their exact
  mercator point.
- **The emitter** (`Emitter`, module `Emitters`). An emitter is a spawn
  point. It fixes its population cap from the paint: 100 for the `cloud`
  emitter type, 250 otherwise. Each update tops the population up to the cap,
  advances every particle by one tick and drops the dead ones.
- **The particle** (`Particle`, module `Particles`). A particle samples its
  birth parameters from the paint. Each tick it does four things:
  - It computes a life position from the clock and its time-to-live.
  - It dies for good once that position reaches 1.
  - It sets its opacity from a piecewise-linear envelope.
  - It moves by one constant step.

Every entity is an immutable datatype. Every operation is a pure function
that returns the new state. Three things the program takes from its
environment are parameters here:

- **The clock.** It is a `now: real` argument, one reading per tick.
- **`Math.random()`.** A birth consumes a `BirthDraws` record. An emitter
  update draws its births from a stream `rng: nat -> BirthDraws`, starting at
  a position `k`.
- **The paint lookups.** They are an immutable `Style.Paint` record. A
  property that evaluated to a constant is `Some(v)`. Otherwise it is `None`,
  and the reader substitutes its own default (`constantOr`).

The module-level `globalSystem` is an ordinary `Simulation.ParticleSystem`
value.

Birth sampling keeps the program's literal behaviour. The upper ends of the
elevation and velocity ranges are read from the `-min` properties
(`src/data/particle_system.js:112` and `:124`). So every particle starts at
elevation `particle-emitter-elevation-min` and moves at speed
`particle-emitter-velocity-min`, whatever the draws.
`Particles.BirthIgnoresMaxKeys` proves that the `-max` properties have no
effect on a birth.

Files: `wrappers.dfy` (Option), `geometry.dfy` (points, vectors, colours,
interpolation), `style.dfy` (paint record, cap constants), `particle.dfy`,
`emitter.dfy`, `simulation.dfy`.

## Model

| member | source | states |
|---|---|---|
| `Geometry.Lerp` | src/data/particle_system.js:140 | interpolation gives the start value at 0 and the end value at 1; for a bias in [0,1] it lies between the two; below 1 it equals the end only when start and end agree |
| `Particles.Sample` | src/data/particle_system.js:131 | the `draw * (max - min) + min` pattern stays in the (possibly reversed) range for a draw in [0,1); a zero draw or an empty range gives the minimum |
| `Particles.BirthRadius` | src/data/particle_system.js:107-109 | for a radial draw in [0,1) the disc radius lies between the minimum and maximum offsets |
| `Particles.ColourBias` | src/data/particle_system.js:141 | the squared colour draw stays in [0,1) and never exceeds the draw itself |
| `Particles.Birth` | src/data/particle_system.js:100-146 | a newborn is alive with opacity 1, born at `now`, with the paint's direction; scale range [10,30] for cloud and [0.5,3] otherwise, and scale inside it; time-to-live inside its range (default -1 for both ends); elevation and speed equal the `-min` values; each colour channel between start and end, equal to the start when the bias is 0 |
| `Particles.BirthOffsetOnCircle` | src/data/particle_system.js:109-116 | the planar birth offset lies on the circle whose radius is the sampled radius |
| `Particles.BirthIgnoresMaxKeys` | src/data/particle_system.js:111-125 | changing the elevation-max or velocity-max property never changes a birth |
| `Particles.BirthNeverReachesEndColour` | src/data/particle_system.js:138-146 | with draws in [0,1) a channel equals the end colour exactly when start and end agree |
| `Particles.LifePosition` | src/data/particle_system.js:152-154 | with a positive time-to-live the life position times the time-to-live is the elapsed time; otherwise it is 0.5 |
| `Particles.Envelope` | src/data/particle_system.js:159-165 | opacity never exceeds 1, and it is at least 0 for a life position in [0,1] |
| `Particles.EnvelopeIsCappedDistanceToEnds` | src/data/particle_system.js:159-165 | the three-branch envelope equals min(lp, 1-lp, 0.2)/0.2 |
| `Particles.EnvelopeSymmetric` | src/data/particle_system.js:159-165 | the fade-out mirrors the fade-in: Envelope(lp) == Envelope(1-lp) |
| `Particles.EnvelopeAtSamplePoints` | src/data/particle_system.js:159-165 | opacity is 0, 0.5, 1, 0.5 and 0 at life positions 0, 0.1, 0.5, 0.9 and 1 |
| `Particles.Update` | src/data/particle_system.js:151-169 | a tick keeps every birth parameter; it leaves the particle alive exactly when it was alive and the life position is below 1, and never revives it; it sets the opacity from the envelope and moves the offset by direction times velocity |
| `Particles.DiesWhenTimeToLiveElapses` | src/data/particle_system.js:153-157 | with a positive time-to-live a tick keeps the particle alive exactly when it was alive and less than its time-to-live has elapsed since birth |
| `Particles.NewbornSurvivesFirstTick` | src/data/particle_system.js:136-165 | a particle ticked at its own birth time stays alive, with opacity 0 (positive time-to-live) or 1 (no time-to-live) |
| `Particles.Run` | src/data/particle_system.js:151-169 | any sequence of ticks keeps the birth parameters and never revives a dead particle |
| `Particles.RunAliveIff` | src/data/particle_system.js:154-157 | after a sequence of ticks a particle is alive exactly when it was alive before and no tick's life position reached 1 |
| `Particles.DeadStaysDead` | src/data/particle_system.js:155-157 | a dead particle stays dead whatever ticks follow |
| `Particles.ImmortalWithoutTimeToLive` | src/data/particle_system.js:154-157 | without a positive time-to-live no sequence of ticks changes the alive flag |
| `Particles.RunDrift` | src/data/particle_system.js:166-168 | after n ticks the offset has moved by n times direction times velocity, whatever the clock readings |
| `Particles.RunOpacity` | src/data/particle_system.js:159-165 | after a non-empty sequence of ticks the opacity is the envelope of the life position at the last tick |
| `Emitters.Create` | src/data/particle_system.js:57-68 | a new emitter has no particles and the given location, tile, mercator point and paint; its cap is 100 exactly for the cloud type and 250 otherwise, so it satisfies the emitter invariant |
| `Emitters.TopUp` | src/data/particle_system.js:71-73 | the top-up loop leaves max(cap, current count) particles, and the existing ones stay in front, unchanged |
| `Emitters.TopUpNewborns` | src/data/particle_system.js:71-73 | the j-th particle the top-up loop appends is born from the j-th draw of the stream, at the tick's clock reading |
| `Emitters.AdvanceAll` | src/data/particle_system.js:75-77 | the per-particle loop keeps the count and leaves at each position the one-tick update of the particle that was there |
| `Emitters.Survivors` | src/data/particle_system.js:78 | the filter keeps every copy of each alive particle and no copy of a dead one (multiset count); it shortens the list unless every particle is alive |
| `Emitters.SurvivorsIsFilter` | src/data/particle_system.js:78 | the survivors are exactly the order-keeping filter of the list by liveness |
| `Emitters.FilterAppend` | src/data/particle_system.js:78 | the order-keeping filter of a concatenation is the concatenation of the filtered parts |
| `Emitters.SurvivorsInOrder` | src/data/particle_system.js:78 | the survivors of a concatenation are those of the first part followed by those of the second, so the filter keeps the original order |
| `Emitters.Update` | src/data/particle_system.js:70-79 | an update changes only the particles; every retained particle is alive; the count stays within the cap when it was within the cap before; the emitter invariant is preserved |
| `Emitters.FullIffNoDeaths` | src/data/particle_system.js:70-79 | after an update the population equals the cap exactly when no topped-up particle died in the tick |
| `Emitters.KeepsLiveParticles` | src/data/particle_system.js:75-78 | an existing particle that survives its tick is kept, in its advanced state |
| `Emitters.Origin` | src/data/particle_system.js:70-79 | every particle left after an update is the one-tick update of some particle of the topped-up population |
| `Emitters.FirstUpdateFills` | src/data/particle_system.js:70-79 | the first update of a new emitter fills it to the paint's cap |
| `Particles.CloudNewbornScale` | src/data/particle_system.js:129-131 | a cloud particle born from draws in [0,1) has scale in [10,30] after its first tick |
| `Emitters.FirstCloudScales` | src/data/particle_system.js:70-79 | after the first update of a new cloud emitter every particle has scale in [10,30] |
| `Emitters.FirstCloudUpdate` | src/data/particle_system.js:63-79 | a new cloud emitter holds exactly 100 particles after its first update, each with scale in [10,30] |
| `Simulation.ThreadInOrder` | src/data/particle_system.js:24-26 | the in-order loop steps element i at the stream position left by the elements before it |
| `Simulation.ThreadAt` | src/data/particle_system.js:24-26 | when the step at element i, started where the elements before it stopped, yields v, the in-order loop's element i is v |
| `Simulation.UpdateEach` | src/data/particle_system.js:24-26 | updating every emitter keeps the same emitters in the same order, changes only their particles, and keeps every emitter within its cap; emitter i receives exactly one emitter update, drawing after the births of the emitters before it |
| `Simulation.Update` | src/data/particle_system.js:17-26 | a tick less than 10 ms after the last accepted one changes nothing; otherwise it records `now`, changes only the emitters' particles (adding, removing and reordering no emitter) and gives emitter i exactly one emitter update, drawing after the births of the emitters before it; the registry invariant is kept |
| `Simulation.ThrottleAbsorbsCloseTick` | src/data/particle_system.js:17-23 | a tick less than 10 ms after an accepted tick leaves the state as that tick left it |
| `Simulation.Create` | src/data/particle_system.js:10-15 | a new registry has no emitters; its last update stays the creation time exactly when the constructor's own update comes less than 10 ms after creation, and is that update's time otherwise; it satisfies the invariant |
| `Simulation.FindEmitter` | src/data/particle_system.js:34-40 | the scan returns the first emitter whose mercator point equals the given one in both coordinates, and returns none exactly when no emitter has that point |
| `Simulation.AddEmitter` | src/data/particle_system.js:30-42 | without a tile nothing changes; if an emitter has the point, the count is unchanged and only the first match gets the new location and tile; otherwise exactly one new emitter is appended |
| `Simulation.AddEmitterKeepsPointsDistinct` | src/data/particle_system.js:34-41 | if the emitters' mercator points are pairwise distinct before an attach, they stay pairwise distinct after it |
| `Simulation.AddEmitterKeepsValid` | src/data/particle_system.js:30-42 | attaching keeps the registry invariant: distinct points, every emitter within its cap |
| `Simulation.AddEmitterIdempotent` | src/data/particle_system.js:30-42 | attaching the same arguments twice gives the same registry as attaching them once |
| `Simulation.ReattachKeepsParticles` | src/data/particle_system.js:34-39 | re-attaching at a known point keeps the emitter count and every particle; emitters at other points are untouched |

## Left out

- The clock: `particle_system.js` reads `new Date().getTime()` separately in `ParticleSystem.update`, in each particle constructor and in each particle update. The model uses one reading `now` for the whole tick. So a particle created by a top-up has life position exactly 0 (or 0.5) on its first update and always survives it. In the program, its first update can see a slightly later time.
- `Math.random()`: replaced by the `BirthDraws` records of the stream `rng`. That draws lie in [0,1) is a hypothesis (`ValidDraws`) of the lemmas that need it.
- Square root, cosine and sine in the radial offset (`src/data/particle_system.js:109-116`): not modelled. `BirthDraws` carries the square root of the first draw and the cosine and sine of its angle. `ValidDraws` assumes that cos² + sin² = 1 and that the square root lies in [0,1), as the square root of a draw in [0,1) does.
- IEEE-754 rounding, NaN and signed zero: JavaScript numbers are exact reals.
- Fields that nothing reads: `Particle.paint` (assigned at `src/data/particle_system.js:102` but never read) and `Particle.elevation` (never assigned); `Emitter.feature`, `Emitter.elevation`, `Emitter.zoom` and `Emitter.featureId`; `ParticleSystem.zoomLevel`. The `feature` argument of `addEmitter` is dropped because it only fills `Emitter.feature`.
- The commented-out `setTimeout` rescheduling (`src/data/particle_system.js:27`).
- Falsy tile ids: `!tileId` is modelled as a missing tile (`Option.None`). A tile-id object is always truthy.
- `particle-emitter-direction` is read without a `constantOr` fallback. The model takes it as an evaluated 3-vector.
- Rendering of particles and any removal of emitters: `particle_system.js` has neither.
