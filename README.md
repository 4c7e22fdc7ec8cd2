# Particle clock — a Dafny model

This project models the core of a Compose Multiplatform particle clock: an
analog clock face made of about 1200 animated particles, a smooth
second-hand dot and 60 minute ticks.

What the model covers:

- **The particle state machine** (`Particles.dfy`). Each frame, a particle takes one
  speed-scaled step along its heading. Its opacity then follows a three-way
  rule. A particle that would leave its type's containment circle is
  respawned instead, with alpha forced to 0. Respawn anchors the heading to
  the wall clock: Hour particles use the hour anchor, Minute particles the
  minute angle, and Background particles the hour anchor plus a random
  offset. The spawn point lies in a per-type annulus around a jittered
  centre, and the colour is chosen by type.
  Each operation exists twice. `Spawn` and `Advance` are functions on
  values, and the lemmas are about them. `ParticleObject.Randomize` and
  `ParticleObject.Animate` are methods on the mutable particle, proved to
  produce exactly those values. `HeartBeat` is one render slot. On its first
  frame it creates the particle lazily; every frame it draws the particle
  and then animates it with `1 - progress`. When the clock radius is at
  least 10, the first frame respawns the placeholder (`FirstFrameSpawns`),
  and every later frame keeps the particle spawned (`AdvancePreservesSpawned`).
- **The clock face** (`Clock.dfy`): the 60-tick loop, the second-hand angle and
  dot, the border ring, and the layer order of `ComposeClock`.
- **The tuning tables** (`Models.dfy`): the particle types, the palette, the
  default configuration and the placeholder animation state. The
  invariants the step relies on are contracts on the table's accessors: for
  example `0 < minLengthModifier < maxLengthModifier < 1` and a non-empty
  list of main colours.
- **Shared helpers** (`Numerics.dfy`, `Drawing.dfy`): PI, min/max,
  `coerceIn`/`coerceAtLeast`, the trigonometric oracle, and draw-command
  records.

Floats are `real`. `cos`, `sin` and `hypot` come in as a `Trig` value holding
three function values. A member assumes something about them only when it
says so: `HypotNonNegative` for the step, `Pythagorean` for statements about
distances. Random draws and clock readings are parameters. The ranges of the random
draws are preconditions (`DrawsInRange`). The clock readings (hour, minute,
second, epoch milliseconds) carry no precondition on `Spawn`, `Advance` or
`HeartBeat.Frame`; their ranges appear only in the requires of the lemmas that
need them (`HourAnchorStaysInHourSector`, `SecondHandBetweenTicks`) or as the
antecedents of ensures clauses (`MinuteAngle`, `MinuteOffset`, `HourMinuteAngle`).

Three observations about the code, each backed by a lemma:

- The fade-out case of the opacity rule is reachable. It applies when
  distance/containment lies in [maxLengthModifier, 1), and such a particle is
  still inside the field, so its position is committed.
  `FadeOutBranchIsLive` gives a concrete case, and `FadeOutIsLinear` shows
  the clamp never changes the value there.
- The hour anchor's minute offset is quadratic in the minutes:
  `(m/60 · 2π/12) · (m/60)`. At half past, the anchor is only a quarter of the
  way through the hour sector (`HourAnchorAtHalfPast`). It does stay inside
  the sector and never passes the next hour (`HourAnchorStaysInHourSector`).
- The second hand takes its second and its milliseconds from two separate
  clock readings. When both come from one instant, the angle is linear in
  time (`SecondHandLinearInTime`, `SecondHandContinuous`). When the second
  ticks over between the two readings, the dot leads by almost a whole
  second (`SeparateReadingsCanLeadBySecond`).

## Model

| member | source | states |
|---|---|---|
| `Numerics.CoerceIn` | shared/src/commonMain/kotlin/clock/Particles.kt:114-117 | result lies in [lo, hi]; a value already inside is unchanged; values below or above go to the nearer bound |
| `Numerics.CoerceAtLeast` | shared/src/commonMain/kotlin/clock/Particles.kt:186 | result is at least the bound; it is the input when the input is at least the bound, and the bound when the input is below it |
| `Drawing.CanvasRadius` | shared/src/commonMain/kotlin/clock/Particles.kt:87-89 | the clock radius is the smaller of the two half-extents of the canvas |
| `Models.ColorPalette.MainColors` | shared/src/commonMain/kotlin/clock/Models.kt:24-29 | the Adrift main-colour list is non-empty, so a Background respawn can always pick from it |
| `Models.DefaultClockConfig` | shared/src/commonMain/kotlin/clock/Models.kt:8-14 | default configuration: palette Adrift, maxCount 100, hourCount 50, minuteCount 100 |
| `Models.ParticleType.EndAngleOffsetRadians` | shared/src/commonMain/kotlin/clock/Models.kt:53-85 | for every type the angle-offset range is not inverted (start ≤ end) |
| `Models.ParticleType.MaxLengthModifier` | shared/src/commonMain/kotlin/clock/Models.kt:53-85 | for every type minLengthModifier < maxLengthModifier < 1, so `1 - maxLengthModifier` is never 0 |
| `Models.ParticleType.MinLengthModifier` | shared/src/commonMain/kotlin/clock/Models.kt:53-85 | for every type minLengthModifier > 0 |
| `Models.ParticleType.MinSize` | shared/src/commonMain/kotlin/clock/Models.kt:53-85 | for every type the minimum size is positive |
| `Models.ParticleType.MaxSize` | shared/src/commonMain/kotlin/clock/Models.kt:53-85 | for every type minSize ≤ maxSize |
| `Models.AnchoredTypesHaveNoSpread` | shared/src/commonMain/kotlin/clock/Models.kt:69-84 | Hour and Minute have a zero-width offset range [0, 0] |
| `Models.DefaultAnimationParams` | shared/src/commonMain/kotlin/clock/Models.kt:42-51 | the placeholder state: location (-1,-1), alpha -1, not filled, colour 0, size 0, heading 1, speed modifier 1 |
| `Particles.MinuteAngle` | shared/src/commonMain/kotlin/clock/Particles.kt:159-160 | for minutes 0..59 the minute angle lies in [-π/2, -π/2 + 2π): one full turn per hour, starting at the top |
| `Particles.MinuteOffset` | shared/src/commonMain/kotlin/clock/Particles.kt:159-164 | the quadratic minute offset `oneHourRadian * currentMinute` lies in [0, 2π/12) for minutes 0..59 |
| `Particles.HourMinuteAngle` | shared/src/commonMain/kotlin/clock/Particles.kt:157-164 | for minutes 0..59 the hour anchor lies in the sector [hour angle, hour angle + 2π/12) of the hour `hour % 24` |
| `Particles.HourAnchorStaysInHourSector` | shared/src/commonMain/kotlin/clock/Particles.kt:157-164 | within an hour the hour anchor does not decrease as the minutes grow, and stays below the next hour's angle |
| `Particles.HourAnchorAtHalfPast` | shared/src/commonMain/kotlin/clock/Particles.kt:158-164 | at minute 30 the anchor has advanced a quarter of the hour sector, because the offset is quadratic |
| `Particles.SpeedScale` | shared/src/commonMain/kotlin/clock/Particles.kt:91 | the step scale is at least 0.8, at most 4 for progress ≤ 1, exactly 0.8 for progress ≤ 0.2, and 4·progress once progress ≥ 0.2 |
| `Particles.NextAlpha` | shared/src/commonMain/kotlin/clock/Particles.kt:101-119 | given a fresh draw in [0,1], the new opacity always lies in [0,1], whatever the old one was |
| `Particles.FadeOutIsLinear` | shared/src/commonMain/kotlin/clock/Particles.kt:111-117 | in the outer band [maxLengthModifier, 1] the opacity is (1-d)/(1-maxLengthModifier) unclamped; it decreases outwards, from 1 at the threshold to 0 at the circle |
| `Particles.SpawnHeadingByType` | shared/src/commonMain/kotlin/clock/Particles.kt:157-171 | the respawn heading is the hour anchor for Hour and the minute angle for Minute, whatever was drawn; for Background it is the hour anchor plus an offset in [start, end] |
| `Particles.Spawn` | shared/src/commonMain/kotlin/clock/Particles.kt:150-194 | the state a respawn installs is Spawned (size, speed, opacity and colour by type) and heads at the angle its type prescribes |
| `Particles.SpawnInAnnulus` | shared/src/commonMain/kotlin/clock/Particles.kt:172-178 | the spawn point lies exactly at the drawn length from the jittered centre; that length is in [minLM·r, maxLM·r]; the centre is within 10 of the canvas centre on each axis |
| `Particles.SpawnIsSpawned` | shared/src/commonMain/kotlin/clock/Particles.kt:179-193 | after a respawn: size in [minSize, maxSize], speed modifier in [1,2], alpha in [0,1), filled iff the fill draw is below 0.7; colour is the handle colour for Hour/Minute and one of the main colours for Background |
| `Particles.Advance` | shared/src/commonMain/kotlin/clock/Particles.kt:82-127 | on exit: alpha 0 and the heading its type prescribes; when it stays inside: heading, size, colour, fill mode and speed modifier unchanged; alpha in [0,1] whenever the fresh draw is |
| `Particles.RespawnOnExit` | shared/src/commonMain/kotlin/clock/Particles.kt:97-122 | for any oracle with non-negative `hypot` and any canvas: a particle whose step leaves the containment circle is respawned in the same frame, with alpha exactly 0, the heading set by type, and the Spawned invariant |
| `Particles.RespawnLandsInAnnulus` | shared/src/commonMain/kotlin/clock/Particles.kt:120-122 | on a canvas with a non-negative spawn radius, the respawned particle lies at the drawn length from the jittered centre, inside its annulus |
| `Particles.EmptyCanvasAlwaysRespawns` | shared/src/commonMain/kotlin/clock/Particles.kt:97-99 | on a 0×0 canvas no step stays inside the containment circle, so every frame respawns |
| `Particles.StepInsideMoves` | shared/src/commonMain/kotlin/clock/Particles.kt:91-126 | a particle that stays inside moves to old + step; heading, size, colour, fill mode and speed modifier are unchanged |
| `Particles.StepInsideAlpha` | shared/src/commonMain/kotlin/clock/Particles.kt:97-119 | for a particle that stays inside, with d in [0,1): alpha is 0 for d ≤ minLM; else a fresh draw if the old alpha was 0; else the clamped old alpha for d < maxLM; else the fade-out value |
| `Particles.AlphaInUnitInterval` | shared/src/commonMain/kotlin/clock/Particles.kt:101-122 | after any frame, from any state (including the placeholder alpha -1), alpha lies in [0,1] |
| `Particles.AdvancePreservesSpawned` | shared/src/commonMain/kotlin/clock/Particles.kt:82-126 | a frame keeps a spawned particle spawned (size range, speed range, alpha in [0,1], colour by type), whether it moves or respawns |
| `Particles.FirstFrameSpawns` | shared/src/commonMain/kotlin/clock/Particles.kt:64-76 | base case of the Spawned invariant: when the clock radius is at least 10, the placeholder (-1,-1) steps outside its containment circle, so the slot's first frame respawns it into a Spawned state |
| `Particles.PlaceholderStepsOutside` | shared/src/commonMain/kotlin/clock/Particles.kt:91-99 | when the clock radius is at least 10 and progress is in [0,1], one step from the placeholder (-1,-1) with heading 1 lands outside the containment circle of every type |
| `Particles.FadeOutBranchIsLive` | shared/src/commonMain/kotlin/clock/Particles.kt:97-117 | on a 200×200 canvas, a Background particle 76 units from the centre stays inside and its alpha 1 fades to (1-76/85)/0.15 |
| `Particles.ParticleCircle` | shared/src/commonMain/kotlin/clock/Particles.kt:129-147 | a particle is drawn as a circle at its location, with radius half its size and its colour, filled iff `isFilled` and otherwise a hairline ring |
| `Particles.SpawnedParticleCircle` | shared/src/commonMain/kotlin/clock/Particles.kt:129-147 | a spawned particle is drawn with radius in [minSize/2, maxSize/2]; filled iff isFilled; alpha does not affect the drawing |
| `Particles.ParticleObject.constructor` | shared/src/commonMain/kotlin/clock/Models.kt:37-51 | a new particle has its type and configuration, and the placeholder animation state |
| `Particles.ParticleObject.Randomize` | shared/src/commonMain/kotlin/clock/Particles.kt:150-194 | the particle's new state is exactly `Spawn` of the type, canvas, clock reading and draws |
| `Particles.ParticleObject.Animate` | shared/src/commonMain/kotlin/clock/Particles.kt:82-127 | the particle's new state is exactly `Advance` of its old state |
| `Particles.HeartBeat.constructor` | shared/src/commonMain/kotlin/clock/Particles.kt:41 | a new slot holds no particle yet |
| `Particles.HeartBeat.Frame` | shared/src/commonMain/kotlin/clock/Particles.kt:64-76 | a missing particle is created on the slot's first frame and kept afterwards; the returned circle is the state before the move (the placeholder on the first frame); the new state is `Advance` with progress `1 - progress` |
| `Clock.MillisOfSecond` | shared/src/commonMain/kotlin/clock/Clock.kt:104 | Kotlin's remainder by 1000: magnitude below 1000, sign of the dividend, and it differs from the dividend by a multiple of 1000 |
| `Clock.TickAngle` | shared/src/commonMain/kotlin/clock/Clock.kt:133-136 | for minutes 0..59 the tick angle lies in [-π/2, -π/2 + 2π); every 15 minutes it is a further quarter turn from -π/2 |
| `Clock.SecondHandAngle` | shared/src/commonMain/kotlin/clock/Clock.kt:102-109 | for a reading after the epoch the angle lies from the tick of its second up to, but not reaching, the next tick; before the epoch it lies after the previous tick, up to and including this one |
| `Clock.SecondHandBetweenTicks` | shared/src/commonMain/kotlin/clock/Clock.kt:102-109 | for epoch millis ≥ 0 the second-hand angle is at least the tick of its second and strictly below the next one; it equals the tick iff the millis are a whole second |
| `Clock.SecondHandLinearInTime` | shared/src/commonMain/kotlin/clock/Clock.kt:104-109 | with second and millis from one instant t, the angle is -π/2 + (t mod 60000)/1000 · π/30 |
| `Clock.SecondHandContinuous` | shared/src/commonMain/kotlin/clock/Clock.kt:104-109 | within one minute, the angle advances by exactly dt/1000 · π/30 over dt milliseconds, also across second boundaries |
| `Clock.SeparateReadingsCanLeadBySecond` | shared/src/commonMain/kotlin/clock/Clock.kt:104-108 | millis read at 999 and the second read at 1000 give the tick-1 angle plus 0.999·π/30, where one reading gives the tick-1 angle |
| `Clock.MinuteParticlesAimAtTick` | shared/src/commonMain/kotlin/clock/Particles.kt:159-160 | the minute angle of a Minute particle's respawn equals the angle of that minute's tick |
| `Clock.BackgroundRect` | shared/src/commonMain/kotlin/clock/Clock.kt:67-77 | the background is one rectangle the size of the canvas, in the palette's background colour |
| `Clock.BorderRing` | shared/src/commonMain/kotlin/clock/Clock.kt:156-168 | the border is a ring centred on the canvas, radius 0.9·min(w/2, h/2), in the border colour, stroke width 10 |
| `Clock.BackgroundCoversBorder` | shared/src/commonMain/kotlin/clock/Clock.kt:67-77 | on a canvas of non-negative size, the border ring's circle lies within the background rectangle |
| `Clock.SecondHandDot` | shared/src/commonMain/kotlin/clock/Clock.kt:94-122 | the second hand is a filled circle of radius 8 in the handle colour, centred at the canvas centre plus 0.9·min(w/2, h/2) times (cos, sin) of `SecondHandAngle` |
| `Clock.SecondHandOnBorder` | shared/src/commonMain/kotlin/clock/Clock.kt:94-120 | the second-hand dot is filled, radius 8, handle colour, and lies exactly on the border ring (radius 0.9·min(w/2, h/2), stroke width 10) |
| `Clock.MinuteTick` | shared/src/commonMain/kotlin/clock/Clock.kt:134-150 | tick m is a circle in the handle colour, filled iff m % 5 == 0, with radius 12 on the hour and 6 otherwise, centred at the canvas centre plus 0.95·min(w/2, h/2) times (cos, sin) of `TickAngle(m)` |
| `Clock.MinuteTickShape` | shared/src/commonMain/kotlin/clock/Clock.kt:129-150 | tick m is filled iff m % 5 == 0; filled ticks have radius 12, the others are hairline rings of radius 6; every tick lies on the circle of radius 0.95·min(w/2, h/2) |
| `Clock.MinuteCircles` | shared/src/commonMain/kotlin/clock/Clock.kt:126-153 | exactly 60 ticks, for minutes 0..59 in order, of which exactly 12 are filled |
| `Clock.TwelveHourMarkers` | shared/src/commonMain/kotlin/clock/Clock.kt:134-149 | among the 60 ticks of the loop exactly 12 are filled |
| `Clock.TicksOutsideParticlesInside` | shared/src/commonMain/kotlin/clock/Clock.kt:129-166 | when a step keeps a particle inside, the canvas has positive size; the tick circle lies outside the border ring, and the particle lies strictly inside the ring |
| `Clock.ComposeClock` | shared/src/commonMain/kotlin/clock/Clock.kt:36-62 | layer order: background, 1000 Background slots, 100 Hour slots, 100 Minute slots, then border, ticks and second hand |

## Left out

- Compose plumbing is not modelled: `Canvas`, `Paint`, `Modifier`, `Box`, `remember`/`mutableStateOf`, and the infinite transition with its cubic-bezier easing. The eased progress is an input in [0,1], and drawing produces command records.
- `Clock.System.now()` and the time-zone conversion are foreign calls. The hour, minute, second and epoch milliseconds they yield are parameters. `Clock.SecondOfMinute` takes the local second as `(t / 1000) % 60`: that assumes a time-zone offset of whole minutes and no leap seconds.
- `kotlin.random.Random` is foreign. Every draw is a parameter, with its range stated in `DrawsInRange`. The order in which draws consume the random stream is not modelled. An example is the opacity draw that the source takes in the second case of the opacity rule even when the particle then respawns.
- `randomFloat` is a helper defined outside Particles.kt and is not modelled; each of its draws is taken to lie between its two bounds, in either order.
- Floating-point rounding and the `Float`/`Double` conversions are not modelled; the model uses reals. On a canvas of size 0, the source divides by zero in the opacity rule before respawning; NaN and infinity are not modelled. The model evaluates the rule only when the particle stays inside. On a respawn the source overwrites that value anyway, so the resulting state is the same.
- `cos`, `sin` and `hypot` are an oracle. Facts about them are stated as preconditions, only where a lemma needs them.
- Colours and `Dp` values are opaque tokens. `DividerColor` is never drawn.
- The animation state is a separate mutable object in the source. Here it is a value held in the particle's field, since nothing else refers to that object.
- A whole frame over all 1200 slots is not modelled. `ComposeClock` gives the layer order and `HeartBeat.Frame` gives one slot's frame; running the slots side by side as separate objects is not part of the model.
- The background rectangle fills the whole box; the other layers are drawn inside a box padded by 16 units. That layout is not modelled.
- `maxCount`, `hourCount` and `minuteCount` of the configuration are not used by the source; the populations are the literal `repeat` counts 1000, 100 and 100.
- The source uses `hour % 24` with Kotlin's truncating remainder. For the hours 0..23 that the clock yields, this agrees with Dafny's `%`.
- Particles.SpawnInAnnulus: stated only for a non-negative spawn radius, which means a canvas of at least about 20 units per side. On smaller canvases the annulus bounds swap places.
- Particles.RespawnLandsInAnnulus: the annulus part of a respawn is stated under the same non-negative spawn radius. The rest of the respawn (alpha 0, heading, Spawned) is in `Particles.RespawnOnExit`, for every canvas.
- Particles.FirstFrameSpawns: stated only for a clock radius of at least 10. On a very small canvas the stepped placeholder can stay inside its containment circle and keep its size 0 for more frames.
- shared/src/commonMain/kotlin/App.kt (theming and a platform hook) and the web build configuration are not part of this model.
