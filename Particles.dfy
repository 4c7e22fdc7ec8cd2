/**
 * The per-particle animation state machine of the particle clock
 * (shared/.../clock/Particles.kt): every frame a particle takes one step
 * along its heading, its opacity follows a three-way rule, and a particle
 * that leaves its containment circle is respawned at a time-anchored angle.
 *
 * Each operation is given twice: as a function on values (Spawn, Advance),
 * about which the lemmas speak, and as a method on the mutable particle
 * (ParticleObject.Randomize, ParticleObject.Animate) proved to agree with it.
 * The random source and the wall clock are parameters: `SpawnDraws` holds
 * the values already drawn, `hour`/`minute` the clock reading.
 */
module Particles {

  import opened Numerics
  import opened Drawing
  import opened Models

  // ---------------------------------------------------------------------
  // Time-anchored angles (randomize)
  // ---------------------------------------------------------------------

  /** The minute-hand angle: -PI/2 at minute 0, one full turn per hour. */
  function MinuteAngle(minute: int): (r: real)
    ensures 0 <= minute < 60 ==> -PI / 2.0 <= r < -PI / 2.0 + 2.0 * PI
  {
    (PI / -2.0) + (minute as real / 60.0) * 2.0 * PI
  }

  /**
   * The hour anchor as the source composes it: the hour angle plus
   * (minute/60 * 2PI/12) * (minute/60), an offset quadratic in the minutes.
   */
  function HourMinuteAngle(hour: int, minute: int): (r: real)
    ensures var hourAngle := (PI / -2.0) + ((hour % 24) as real / 12.0) * 2.0 * PI;
      0 <= minute < 60 ==> hourAngle <= r < hourAngle + 2.0 * PI / 12.0
  {
    var currentHour := (hour % 24) as real / 12.0;
    var currentHourRadians := (PI / -2.0) + currentHour * 2.0 * PI;
    MinuteOffset(minute) + currentHourRadians
  }

  /**
   * `oneHourRadian * currentMinute`: the share of one hour sector
   * (2PI/12) given by the minute fraction, multiplied once more by that
   * fraction. Within an hour it stays inside the sector.
   */
  function MinuteOffset(minute: int): (r: real)
    ensures 0 <= minute < 60 ==> 0.0 <= r < 2.0 * PI / 12.0
  {
    var currentMinute := minute as real / 60.0;
    var oneHourRadian := (currentMinute * 2.0 * PI) / 12.0;
    MinuteOffsetInSector(currentMinute, oneHourRadian, oneHourRadian * currentMinute);
    oneHourRadian * currentMinute
  }

  lemma MinuteOffsetInSector(f: real, share: real, offset: real)
    requires share == (f * 2.0 * PI) / 12.0 && offset == share * f
    ensures 0.0 <= f < 1.0 ==> 0.0 <= offset < 2.0 * PI / 12.0
  {
    if 0.0 <= f < 1.0 {
      var square := f * f;
      SquareMonotone(0.0, f);
      SquareStrictlyMonotone(f, 1.0);
      assert 0.0 <= square < 1.0;
      assert offset == square * (2.0 * PI / 12.0);
    }
  }

  /**
   * Within an hour the anchor moves forward with the minutes and never
   * reaches the next hour's position.
   */
  lemma HourAnchorStaysInHourSector(hour: int, m1: int, m2: int)
    requires 0 <= hour < 24 && 0 <= m1 <= m2 < 60
    ensures HourMinuteAngle(hour, 0) <= HourMinuteAngle(hour, m1) <= HourMinuteAngle(hour, m2)
    ensures HourMinuteAngle(hour, m2) < HourMinuteAngle(hour, 0) + 2.0 * PI / 12.0
    ensures hour < 23 ==> HourMinuteAngle(hour, m2) < HourMinuteAngle(hour + 1, 0)
  {
    var f1, f2 := m1 as real / 60.0, m2 as real / 60.0;
    assert 0.0 <= f1 <= f2 < 1.0;
    SquareMonotone(f1, f2);
    assert f2 * f2 < 1.0 by {
      assert f2 * f2 <= f2 * 1.0;
    }
    assert HourMinuteAngle(hour, m1) == HourMinuteAngle(hour, 0) + f1 * f1 * (2.0 * PI / 12.0);
    assert HourMinuteAngle(hour, m2) == HourMinuteAngle(hour, 0) + f2 * f2 * (2.0 * PI / 12.0);
  }

  /** Because the offset is quadratic, at half past the anchor is a quarter into the hour sector. */
  lemma HourAnchorAtHalfPast(hour: int)
    requires 0 <= hour < 24
    ensures HourMinuteAngle(hour, 30) == HourMinuteAngle(hour, 0) + (2.0 * PI / 12.0) / 4.0
  {
  }

  // ---------------------------------------------------------------------
  // Speed and opacity (animate)
  // ---------------------------------------------------------------------

  /** `max(0.2, progress) * 4`: the length of one step. */
  function SpeedScale(progress: real): (r: real)
    ensures 0.8 <= r
    ensures progress <= 1.0 ==> r <= 4.0
    ensures 0.2 <= progress ==> r == 4.0 * progress
    ensures progress <= 0.2 ==> r == 0.8
  {
    Max(0.2, progress) * 4.0
  }

  /**
   * The opacity rule. `lengthByRadius` is the distance from the centre
   * divided by the containment radius; `freshAlpha` is the value
   * `random.nextFloat()` yields if the second case needs one.
   */
  function NextAlpha(kind: ParticleType, lengthByRadius: real, alpha: real, freshAlpha: real): (r: real)
    ensures 0.0 <= freshAlpha <= 1.0 ==> 0.0 <= r <= 1.0
  {
    if lengthByRadius - kind.MinLengthModifier() <= 0.0 then 0.0
    else if alpha == 0.0 then freshAlpha
    else
      var fadeOutRange := kind.MaxLengthModifier();
      CoerceIn(if lengthByRadius < fadeOutRange then alpha else (1.0 - lengthByRadius) / (1.0 - fadeOutRange), 0.0, 1.0)
  }

  /**
   * Between the fade-out threshold and the containment circle the opacity
   * falls linearly from 1 to 0: the clamp never bites there, and the value
   * decreases as the particle moves outwards.
   */
  lemma FadeOutIsLinear(kind: ParticleType, n1: real, n2: real, alpha: real, freshAlpha: real)
    requires alpha != 0.0
    requires kind.MaxLengthModifier() <= n1 <= n2 <= 1.0
    ensures NextAlpha(kind, n1, alpha, freshAlpha) == (1.0 - n1) / (1.0 - kind.MaxLengthModifier())
    ensures NextAlpha(kind, n2, alpha, freshAlpha) <= NextAlpha(kind, n1, alpha, freshAlpha)
    ensures NextAlpha(kind, kind.MaxLengthModifier(), alpha, freshAlpha) == 1.0
    ensures NextAlpha(kind, 1.0, alpha, freshAlpha) == 0.0
  {
    var k := 1.0 - kind.MaxLengthModifier();
    assert 0.0 < k;
    FadeValueInUnitInterval(n1, k);
    FadeValueInUnitInterval(n2, k);
    assert (1.0 - n2) / k <= (1.0 - n1) / k by {
      DivideMonotone(1.0 - n2, 1.0 - n1, k);
    }
  }

  lemma FadeValueInUnitInterval(n: real, k: real)
    requires 0.0 < k && 1.0 - k <= n <= 1.0
    ensures 0.0 <= (1.0 - n) / k <= 1.0
  {
    DivideMonotone(0.0, 1.0 - n, k);
    DivideMonotone(1.0 - n, k, k);
  }

  lemma DivideMonotone(a: real, b: real, k: real)
    requires 0.0 < k && a <= b
    ensures a / k <= b / k
  {
    assert b / k - a / k == (b - a) / k;
  }

  // ---------------------------------------------------------------------
  // Respawn (randomize)
  // ---------------------------------------------------------------------

  /**
   * The values one respawn draws from the random source, in the order the
   * source draws them: the angle offset, the two centre jitters, the spawn
   * length, the colour index (Background only), the fill draw, the opacity,
   * the size and the speed modifier.
   */
  datatype SpawnDraws = SpawnDraws(
    angleOffset: real,
    jitterX: real,
    jitterY: real,
    length: real,
    colorIndex: int,
    fillDraw: real,
    alpha: real,
    size: real,
    speed: real)

  /** The jittered spawn centre and the radius measured from it. */
  function SpawnCenterX(width: real, d: SpawnDraws): real { width / 2.0 + d.jitterX }

  function SpawnCenterY(height: real, d: SpawnDraws): real { height / 2.0 + d.jitterY }

  function SpawnRadius(width: real, height: real, d: SpawnDraws): real {
    Min(SpawnCenterX(width, d), SpawnCenterY(height, d))
  }

  /**
   * What the random source guarantees of each draw: `randomFloat(lo, hi)`
   * lies between its bounds (for the spawn length the bounds swap on a
   * canvas too small for the jitter), `nextFloat()` lies in [0, 1), and
   * `mainColors.random()` picks an index of the list.
   */
  predicate DrawsInRange(kind: ParticleType, config: ClockConfig, width: real, height: real, d: SpawnDraws) {
    && kind.StartAngleOffsetRadians() <= d.angleOffset <= kind.EndAngleOffsetRadians()
    && -10.0 <= d.jitterX <= 10.0
    && -10.0 <= d.jitterY <= 10.0
    && Between(d.length, kind.MinLengthModifier() * SpawnRadius(width, height, d),
               kind.MaxLengthModifier() * SpawnRadius(width, height, d))
    && (kind == Background ==> 0 <= d.colorIndex < |config.colorPalette.MainColors()|)
    && 0.0 <= d.fillDraw < 1.0
    && 0.0 <= d.alpha < 1.0
    && kind.MinSize() <= d.size <= kind.MaxSize()
    && 1.0 <= d.speed <= 2.0
  }

  /** The heading a respawned particle takes, by type. */
  function SpawnAngle(kind: ParticleType, hour: int, minute: int, angleOffset: real): real {
    match kind
    case Hour => HourMinuteAngle(hour, minute)
    case Minute => MinuteAngle(minute)
    case Background => HourMinuteAngle(hour, minute) + angleOffset
  }

  /** The colour a respawned particle takes, by type. */
  function SpawnColor(kind: ParticleType, config: ClockConfig, colorIndex: int): Color
    requires kind == Background ==> 0 <= colorIndex < |config.colorPalette.MainColors()|
  {
    match kind
    case Background => config.colorPalette.MainColors()[colorIndex]
    case Hour => config.colorPalette.HandleColor()
    case Minute => config.colorPalette.HandleColor()
  }

  /** The whole new animation state `randomize` installs. */
  function Spawn(kind: ParticleType, config: ClockConfig, width: real, height: real,
                 hour: int, minute: int, d: SpawnDraws, m: Trig): (r: AnimationParams)
    requires DrawsInRange(kind, config, width, height, d)
    ensures Spawned(kind, config, r)
    ensures r.currentAngle == SpawnAngle(kind, hour, minute, d.angleOffset)
  {
    var angle := SpawnAngle(kind, hour, minute, d.angleOffset);
    AnimationParams(
      locationX := SpawnCenterX(width, d) + d.length * m.cos(angle),
      locationY := SpawnCenterY(height, d) + d.length * m.sin(angle),
      alpha := CoerceAtLeast(d.alpha, 0.0),
      isFilled := d.fillDraw < 0.7,
      currentColor := SpawnColor(kind, config, d.colorIndex),
      particleSize := d.size,
      currentAngle := angle,
      progressModifier := d.speed)
  }

  /**
   * Hour particles point at the hour anchor and Minute particles at the
   * minute angle, whatever was drawn; Background particles point at the
   * hour anchor turned by an offset inside the type's offset range.
   */
  lemma SpawnHeadingByType(kind: ParticleType, config: ClockConfig, width: real, height: real,
                           hour: int, minute: int, d: SpawnDraws, m: Trig)
    requires DrawsInRange(kind, config, width, height, d)
    ensures var a := Spawn(kind, config, width, height, hour, minute, d, m).currentAngle;
      && (kind == Hour ==> a == HourMinuteAngle(hour, minute))
      && (kind == Minute ==> a == MinuteAngle(minute))
      && (kind == Background ==>
            HourMinuteAngle(hour, minute) + Background.StartAngleOffsetRadians() <= a
            <= HourMinuteAngle(hour, minute) + Background.EndAngleOffsetRadians())
  {
  }

  /**
   * A respawned particle sits at the drawn length from the jittered centre,
   * inside the type's annulus, and that centre is within 10 units of the
   * canvas centre on each axis.
   */
  lemma SpawnInAnnulus(kind: ParticleType, config: ClockConfig, width: real, height: real,
                       hour: int, minute: int, d: SpawnDraws, m: Trig)
    requires Pythagorean(m)
    requires DrawsInRange(kind, config, width, height, d)
    requires SpawnRadius(width, height, d) >= 0.0
    ensures var p := Spawn(kind, config, width, height, hour, minute, d, m);
      var r := SpawnRadius(width, height, d);
      && m.hypot(p.locationY - SpawnCenterY(height, d), p.locationX - SpawnCenterX(width, d)) == d.length
      && kind.MinLengthModifier() * r <= d.length <= kind.MaxLengthModifier() * r
    ensures -10.0 <= SpawnCenterX(width, d) - width / 2.0 <= 10.0
    ensures -10.0 <= SpawnCenterY(height, d) - height / 2.0 <= 10.0
  {
    var p := Spawn(kind, config, width, height, hour, minute, d, m);
    var r := SpawnRadius(width, height, d);
    var angle := SpawnAngle(kind, hour, minute, d.angleOffset);
    assert kind.MinLengthModifier() * r <= kind.MaxLengthModifier() * r;
    assert d.length >= 0.0 by {
      assert 0.0 <= kind.MinLengthModifier() * r;
    }
    var dx, dy := p.locationX - SpawnCenterX(width, d), p.locationY - SpawnCenterY(height, d);
    assert dx == d.length * m.cos(angle) && dy == d.length * m.sin(angle);
    assert m.cos(angle) * m.cos(angle) + m.sin(angle) * m.sin(angle) == 1.0;
    HypotSquared(m, dy, dx);
    LengthOfScaledUnit(m.cos(angle), m.sin(angle), d.length, m.hypot(dy, dx));
  }

  /** A point at `len` times a unit vector has distance `len` from the origin. */
  lemma LengthOfScaledUnit(c: real, s: real, len: real, h: real)
    requires c * c + s * s == 1.0 && 0.0 <= len && 0.0 <= h
    requires h * h == (len * s) * (len * s) + (len * c) * (len * c)
    ensures h == len
  {
    ScaledUnitVector(s, c, len);
    SquareRootUnique(h, len);
  }

  lemma SquareRootUnique(a: real, b: real)
    requires 0.0 <= a && 0.0 <= b && a * a == b * b
    ensures a == b
  {
    if a < b {
      SquareStrictlyMonotone(a, b);
    } else if b < a {
      SquareStrictlyMonotone(b, a);
    }
  }

  lemma SquareStrictlyMonotone(a: real, b: real)
    requires 0.0 <= a < b
    ensures a * a < b * b
  {
    var lower, middle, upper := a * a, a * b, b * b;
    assert lower <= middle;
    assert middle < upper;
  }

  /**
   * The facts a spawned particle keeps until its next respawn: a size in the
   * type's range, the speed modifier in [1, 2], the opacity in [0, 1], and
   * the colour its type prescribes.
   */
  predicate Spawned(kind: ParticleType, config: ClockConfig, p: AnimationParams) {
    && kind.MinSize() <= p.particleSize <= kind.MaxSize()
    && 1.0 <= p.progressModifier <= 2.0
    && 0.0 <= p.alpha <= 1.0
    && (kind == Background ==> p.currentColor in config.colorPalette.MainColors())
    && (kind != Background ==> p.currentColor == config.colorPalette.HandleColor())
  }

  /** Every respawn produces a Spawned state, with the opacity below 1 and a 70% fill threshold. */
  lemma SpawnIsSpawned(kind: ParticleType, config: ClockConfig, width: real, height: real,
                       hour: int, minute: int, d: SpawnDraws, m: Trig)
    requires DrawsInRange(kind, config, width, height, d)
    ensures var p := Spawn(kind, config, width, height, hour, minute, d, m);
      && Spawned(kind, config, p)
      && p.alpha < 1.0
      && (p.isFilled <==> d.fillDraw < 0.7)
  {
  }

  // ---------------------------------------------------------------------
  // One frame (animate)
  // ---------------------------------------------------------------------

  /** The position after one step along the heading. */
  function SteppedX(p: AnimationParams, progress: real, m: Trig): real {
    p.locationX + SpeedScale(progress) * m.cos(p.currentAngle)
  }

  function SteppedY(p: AnimationParams, progress: real, m: Trig): real {
    p.locationY + SpeedScale(progress) * m.sin(p.currentAngle)
  }

  /** The stepped position's distance from the canvas centre. */
  function SteppedDistance(p: AnimationParams, progress: real, width: real, height: real, m: Trig): real {
    m.hypot(SteppedY(p, progress, m) - height / 2.0, SteppedX(p, progress, m) - width / 2.0)
  }

  /** The circle a particle of this type must stay strictly inside. */
  function ContainmentRadius(kind: ParticleType, width: real, height: real): real {
    CanvasRadius(width, height) * kind.MaxLengthModifier()
  }

  predicate StaysInside(p: AnimationParams, kind: ParticleType, progress: real, width: real, height: real, m: Trig) {
    SteppedDistance(p, progress, width, height, m) < ContainmentRadius(kind, width, height)
  }

  /**
   * The state after one frame. The source evaluates the opacity rule before
   * the containment test and then, on a respawn, overwrites it; here the
   * rule is evaluated only where its result survives.
   */
  function Advance(p: AnimationParams, kind: ParticleType, config: ClockConfig, progress: real,
                   width: real, height: real, hour: int, minute: int,
                   freshAlpha: real, d: SpawnDraws, m: Trig): (r: AnimationParams)
    requires HypotNonNegative(m)
    requires DrawsInRange(kind, config, width, height, d)
    ensures !StaysInside(p, kind, progress, width, height, m) ==>
      r.alpha == 0.0 && r.currentAngle == SpawnAngle(kind, hour, minute, d.angleOffset)
    ensures StaysInside(p, kind, progress, width, height, m) ==>
      r.(locationX := p.locationX, locationY := p.locationY, alpha := p.alpha) == p
    ensures 0.0 <= freshAlpha <= 1.0 ==> 0.0 <= r.alpha <= 1.0
  {
    if !StaysInside(p, kind, progress, width, height, m) then
      Spawn(kind, config, width, height, hour, minute, d, m).(alpha := 0.0)
    else
      var limit := ContainmentRadius(kind, width, height);
      assert SteppedDistance(p, progress, width, height, m) >= 0.0;
      p.(locationX := SteppedX(p, progress, m),
         locationY := SteppedY(p, progress, m),
         alpha := NextAlpha(kind, SteppedDistance(p, progress, width, height, m) / limit, p.alpha, freshAlpha))
  }

  /**
   * A particle whose step would leave the containment circle is respawned in
   * the same frame: it is invisible (alpha exactly 0), heads the way its type
   * prescribes and is spawned again.
   */
  lemma RespawnOnExit(p: AnimationParams, kind: ParticleType, config: ClockConfig, progress: real,
                      width: real, height: real, hour: int, minute: int,
                      freshAlpha: real, d: SpawnDraws, m: Trig)
    requires HypotNonNegative(m)
    requires DrawsInRange(kind, config, width, height, d)
    requires !StaysInside(p, kind, progress, width, height, m)
    ensures var q := Advance(p, kind, config, progress, width, height, hour, minute, freshAlpha, d, m);
      && q.alpha == 0.0
      && q.currentAngle == SpawnAngle(kind, hour, minute, d.angleOffset)
      && Spawned(kind, config, q)
  {
  }

  /** On a canvas large enough for the jitter, the respawned particle lands in its annulus. */
  lemma RespawnLandsInAnnulus(p: AnimationParams, kind: ParticleType, config: ClockConfig, progress: real,
                              width: real, height: real, hour: int, minute: int,
                              freshAlpha: real, d: SpawnDraws, m: Trig)
    requires Pythagorean(m)
    requires DrawsInRange(kind, config, width, height, d)
    requires SpawnRadius(width, height, d) >= 0.0
    requires !StaysInside(p, kind, progress, width, height, m)
    ensures var q := Advance(p, kind, config, progress, width, height, hour, minute, freshAlpha, d, m);
      var r := SpawnRadius(width, height, d);
      && m.hypot(q.locationY - SpawnCenterY(height, d), q.locationX - SpawnCenterX(width, d)) == d.length
      && kind.MinLengthModifier() * r <= d.length <= kind.MaxLengthModifier() * r
  {
    SpawnInAnnulus(kind, config, width, height, hour, minute, d, m);
  }

  /** On a canvas of size 0 no step stays inside: every frame respawns. */
  lemma EmptyCanvasAlwaysRespawns(p: AnimationParams, kind: ParticleType, progress: real, m: Trig)
    requires HypotNonNegative(m)
    ensures !StaysInside(p, kind, progress, 0.0, 0.0, m)
  {
  }

  /**
   * A particle whose step stays inside moves by exactly one step along its
   * heading and keeps its heading, size, colour, fill mode and speed modifier.
   */
  lemma StepInsideMoves(p: AnimationParams, kind: ParticleType, config: ClockConfig, progress: real,
                        width: real, height: real, hour: int, minute: int,
                        freshAlpha: real, d: SpawnDraws, m: Trig)
    requires HypotNonNegative(m)
    requires DrawsInRange(kind, config, width, height, d)
    requires StaysInside(p, kind, progress, width, height, m)
    ensures var q := Advance(p, kind, config, progress, width, height, hour, minute, freshAlpha, d, m);
      && q.locationX == p.locationX + SpeedScale(progress) * m.cos(p.currentAngle)
      && q.locationY == p.locationY + SpeedScale(progress) * m.sin(p.currentAngle)
      && q.(locationX := p.locationX, locationY := p.locationY, alpha := p.alpha) == p
  {
  }

  /** A distance strictly inside a circle, divided by its radius, lies in [0, 1). */
  lemma InsideRatio(dist: real, limit: real)
    requires 0.0 <= dist < limit
    ensures 0.0 < limit && 0.0 <= dist / limit < 1.0
  {
    var n := dist / limit;
    assert n * limit == dist;
  }

  /**
   * The new opacity of a particle whose step stays inside: 0 near the
   * centre, a fresh draw if it was invisible, its old opacity (clamped) in
   * the middle band, and the unclamped linear fade-out value in the outer
   * band, which lies below the containment circle.
   */
  lemma StepInsideAlpha(p: AnimationParams, kind: ParticleType, config: ClockConfig, progress: real,
                        width: real, height: real, hour: int, minute: int,
                        freshAlpha: real, d: SpawnDraws, m: Trig)
    requires HypotNonNegative(m)
    requires DrawsInRange(kind, config, width, height, d)
    requires StaysInside(p, kind, progress, width, height, m)
    ensures ContainmentRadius(kind, width, height) > 0.0
    ensures var a := Advance(p, kind, config, progress, width, height, hour, minute, freshAlpha, d, m).alpha;
      var n := SteppedDistance(p, progress, width, height, m) / ContainmentRadius(kind, width, height);
      && 0.0 <= n < 1.0
      && (n <= kind.MinLengthModifier() ==> a == 0.0)
      && (kind.MinLengthModifier() < n && p.alpha == 0.0 ==> a == freshAlpha)
      && (kind.MinLengthModifier() < n < kind.MaxLengthModifier() && p.alpha != 0.0 ==>
            a == CoerceIn(p.alpha, 0.0, 1.0))
      && (kind.MaxLengthModifier() <= n && p.alpha != 0.0 ==>
            a == (1.0 - n) / (1.0 - kind.MaxLengthModifier()))
  {
    var dist := SteppedDistance(p, progress, width, height, m);
    var limit := ContainmentRadius(kind, width, height);
    assert dist >= 0.0;
    InsideRatio(dist, limit);
    var n := dist / limit;
    assert Advance(p, kind, config, progress, width, height, hour, minute, freshAlpha, d, m).alpha
        == NextAlpha(kind, n, p.alpha, freshAlpha);
    if kind.MaxLengthModifier() <= n && p.alpha != 0.0 {
      FadeOutIsLinear(kind, n, n, p.alpha, freshAlpha);
    }
  }

  /** After any frame the opacity is in [0, 1], even from the placeholder -1. */
  lemma AlphaInUnitInterval(p: AnimationParams, kind: ParticleType, config: ClockConfig, progress: real,
                            width: real, height: real, hour: int, minute: int,
                            freshAlpha: real, d: SpawnDraws, m: Trig)
    requires HypotNonNegative(m)
    requires DrawsInRange(kind, config, width, height, d)
    requires 0.0 <= freshAlpha < 1.0
    ensures 0.0 <= Advance(p, kind, config, progress, width, height, hour, minute, freshAlpha, d, m).alpha <= 1.0
  {
  }

  /** A frame keeps a spawned particle spawned, whether it moves or respawns. */
  lemma AdvancePreservesSpawned(p: AnimationParams, kind: ParticleType, config: ClockConfig, progress: real,
                                width: real, height: real, hour: int, minute: int,
                                freshAlpha: real, d: SpawnDraws, m: Trig)
    requires HypotNonNegative(m)
    requires DrawsInRange(kind, config, width, height, d)
    requires 0.0 <= freshAlpha < 1.0
    requires Spawned(kind, config, p)
    ensures Spawned(kind, config, Advance(p, kind, config, progress, width, height, hour, minute, freshAlpha, d, m))
  {
    SpawnIsSpawned(kind, config, width, height, hour, minute, d, m);
    AlphaInUnitInterval(p, kind, config, progress, width, height, hour, minute, freshAlpha, d, m);
  }

  /**
   * The base case of the Spawned invariant: on a canvas whose clock radius is
   * at least 10 the placeholder at (-1, -1) steps at most 4 units, stays
   * outside its containment circle, and so the slot's first frame respawns it.
   */
  lemma FirstFrameSpawns(kind: ParticleType, config: ClockConfig, progress: real,
                         width: real, height: real, hour: int, minute: int,
                         freshAlpha: real, d: SpawnDraws, m: Trig)
    requires Pythagorean(m)
    requires DrawsInRange(kind, config, width, height, d)
    requires 0.0 <= progress <= 1.0
    requires CanvasRadius(width, height) >= 10.0
    ensures !StaysInside(DefaultAnimationParams(), kind, progress, width, height, m)
    ensures Spawned(kind, config, Advance(DefaultAnimationParams(), kind, config, progress, width, height,
                                          hour, minute, freshAlpha, d, m))
  {
    PlaceholderStepsOutside(kind, progress, width, height, m);
    SpawnIsSpawned(kind, config, width, height, hour, minute, d, m);
  }

  lemma PlaceholderStepsOutside(kind: ParticleType, progress: real, width: real, height: real, m: Trig)
    requires Pythagorean(m)
    requires 0.0 <= progress <= 1.0
    requires CanvasRadius(width, height) >= 10.0
    ensures !StaysInside(DefaultAnimationParams(), kind, progress, width, height, m)
  {
    var p := DefaultAnimationParams();
    PlaceholderStepBound(progress, m);
    var x, y := SteppedX(p, progress, m), SteppedY(p, progress, m);
    var radius := CanvasRadius(width, height);
    HypotSquared(m, y - height / 2.0, x - width / 2.0);
    FarPoint(x, y, width / 2.0, height / 2.0, radius, SteppedDistance(p, progress, width, height, m));
    ContainmentBelow(kind, width, height);
  }

  /**
   * A point with both coordinates at most 3 lies beyond 0.85 r of a centre
   * that is at least r >= 10 away along each axis.
   */
  lemma FarPoint(x: real, y: real, cx: real, cy: real, r: real, dist: real)
    requires x <= 3.0 && y <= 3.0 && r <= cx && r <= cy && r >= 10.0
    requires 0.0 <= dist && dist * dist == (y - cy) * (y - cy) + (x - cx) * (x - cx)
    ensures 0.85 * r < dist
  {
    FarFromCentre(x, y, cx, cy, r);
    OutsideByDistance(dist, 0.85 * r, r);
  }

  /** One step from the placeholder position (-1, -1) is at most 4 long, so it ends with both coordinates at most 3. */
  lemma PlaceholderStepBound(progress: real, m: Trig)
    requires Pythagorean(m)
    requires 0.0 <= progress <= 1.0
    ensures SteppedX(DefaultAnimationParams(), progress, m) <= 3.0
    ensures SteppedY(DefaultAnimationParams(), progress, m) <= 3.0
  {
    var step := SpeedScale(progress);
    var c, sn := m.cos(1.0), m.sin(1.0);
    assert c * c + sn * sn == 1.0;
    ShortStep(step, c, sn);
  }

  /** `hypot` from a Pythagorean oracle is the non-negative square root of the sum of squares. */
  lemma HypotSquared(m: Trig, a: real, b: real)
    requires Pythagorean(m)
    ensures m.hypot(a, b) >= 0.0 && m.hypot(a, b) * m.hypot(a, b) == a * a + b * b
  {
  }

  /** The containment radius is at most 0.85 of a non-negative clock radius. */
  lemma ContainmentBelow(kind: ParticleType, width: real, height: real)
    requires CanvasRadius(width, height) >= 0.0
    ensures 0.0 <= ContainmentRadius(kind, width, height) <= 0.85 * CanvasRadius(width, height)
  {
    var r := CanvasRadius(width, height);
    assert kind.MaxLengthModifier() <= 0.85;
    assert r * kind.MaxLengthModifier() <= r * 0.85;
  }

  /** A point with both coordinates at most 3 is far from a centre at least r >= 10 along each axis. */
  lemma FarFromCentre(x: real, y: real, cx: real, cy: real, r: real)
    requires x <= 3.0 && y <= 3.0 && r <= cx && r <= cy && r >= 10.0
    ensures (y - cy) * (y - cy) + (x - cx) * (x - cx) >= 2.0 * ((r - 3.0) * (r - 3.0))
  {
    SquareMonotone(r - 3.0, cx - x);
    SquareMonotone(r - 3.0, cy - y);
    assert (x - cx) * (x - cx) == (cx - x) * (cx - x);
    assert (y - cy) * (y - cy) == (cy - y) * (cy - y);
  }

  /** A distance whose square is at least 2 (r - 3)^2 is beyond any limit up to 0.85 r. */
  lemma OutsideByDistance(dist: real, limit: real, r: real)
    requires 0.0 <= dist && 0.0 <= limit <= 0.85 * r && r >= 10.0
    requires dist * dist >= 2.0 * ((r - 3.0) * (r - 3.0))
    ensures limit < dist
  {
    SquareMonotone(limit, 0.85 * r);
    LargeRadiusGap(r);
    SquareOrder(limit, dist);
  }

  /** A step of length at most 4 from (-1, -1) ends with both coordinates at most 3. */
  lemma ShortStep(step: real, c: real, s: real)
    requires 0.0 <= step <= 4.0 && c * c + s * s == 1.0
    ensures -1.0 + step * c <= 3.0 && -1.0 + step * s <= 3.0
  {
    UnitComponentBound(c, s);
    UnitComponentBound(s, c);
    ScaleBelow(step, c);
    ScaleBelow(step, s);
  }

  /** A component of a unit vector is at most 1. */
  lemma UnitComponentBound(c: real, s: real)
    requires c * c + s * s == 1.0
    ensures c <= 1.0
  {
    if 0.0 <= s {
      SquareMonotone(0.0, s);
    } else {
      SquareMonotone(0.0, -s);
    }
    if 1.0 < c {
      SquareStrictlyMonotone(1.0, c);
    }
  }

  /** Scaling by a non-negative factor does not push a value at most 1 above the factor. */
  lemma ScaleBelow(k: real, c: real)
    requires 0.0 <= k && c <= 1.0
    ensures k * c <= k
  {
    var slack := 1.0 - c;
    assert 0.0 <= k * slack;
  }

  /** For a radius of at least 10, (0.85 r)^2 < 2 (r - 3)^2. */
  lemma LargeRadiusGap(r: real)
    requires r >= 10.0
    ensures (0.85 * r) * (0.85 * r) < 2.0 * ((r - 3.0) * (r - 3.0))
  {
    var t := 1.2775 * r - 12.0;
    assert 0.0 <= r * t;
  }

  /** Squares order the non-negative reals. */
  lemma SquareOrder(a: real, b: real)
    requires 0.0 <= a && 0.0 <= b && a * a < b * b
    ensures a < b
  {
    if b <= a {
      SquareMonotone(b, a);
    }
  }

  /**
   * The fade-out case is reached by particles that stay inside: on a
   * 200x200 canvas a Background particle 76 units from the centre is inside
   * its 85-unit containment circle but beyond 0.85 of it, so an opacity of 1
   * drops to (1 - 76/85) / 0.15.
   */
  lemma FadeOutBranchIsLive()
    ensures var m := Trig(a => 1.0, a => 0.0, (y, x) => Max(y, -y) + Max(x, -x));
      var p := AnimationParams(172.0, 100.0, 1.0, true, Color(0xFF99B898), 4.0, 0.0, 1.0);
      var d := SpawnDraws(PI / 24.0, 0.0, 0.0, 50.0, 0, 0.5, 0.5, 4.0, 1.0);
      && HypotNonNegative(m)
      && DrawsInRange(Background, DefaultClockConfig(), 200.0, 200.0, d)
      && StaysInside(p, Background, 1.0, 200.0, 200.0, m)
      && Advance(p, Background, DefaultClockConfig(), 1.0, 200.0, 200.0, 10, 15, 0.5, d, m).alpha
         == (1.0 - 76.0 / 85.0) / 0.15
      && (1.0 - 76.0 / 85.0) / 0.15 < 1.0
  {
    var m := Trig(a => 1.0, a => 0.0, (y, x) => Max(y, -y) + Max(x, -x));
    var p := AnimationParams(172.0, 100.0, 1.0, true, Color(0xFF99B898), 4.0, 0.0, 1.0);
    assert SteppedX(p, 1.0, m) == 176.0;
    assert SteppedY(p, 1.0, m) == 100.0;
    assert SteppedDistance(p, 1.0, 200.0, 200.0, m) == 76.0;
    assert ContainmentRadius(Background, 200.0, 200.0) == 85.0;
  }

  // ---------------------------------------------------------------------
  // Drawing one particle (drawOnCanvas)
  // ---------------------------------------------------------------------

  /** A particle is drawn as a circle of half its size; opacity is not applied. */
  function ParticleCircle(p: AnimationParams): (c: DrawCmd)
    ensures c.Circle? && c.centerX == p.locationX && c.centerY == p.locationY
    ensures c.radius == p.particleSize / 2.0 && c.color == p.currentColor
    ensures c.style == Fill <==> p.isFilled
    ensures c.style != Fill ==> c.style == Stroke(0.0)
  {
    Circle(p.locationX, p.locationY, p.particleSize / 2.0, p.currentColor,
           if p.isFilled then Fill else Stroke(0.0))
  }

  /** The drawn circle of a spawned particle has a radius in half the type's size range, and ignores alpha. */
  lemma SpawnedParticleCircle(kind: ParticleType, config: ClockConfig, p: AnimationParams, a: real)
    requires Spawned(kind, config, p)
    ensures kind.MinSize() / 2.0 <= ParticleCircle(p).radius <= kind.MaxSize() / 2.0
    ensures ParticleCircle(p.(alpha := a)) == ParticleCircle(p)
    ensures ParticleCircle(p).style == Fill <==> p.isFilled
  {
  }

  // ---------------------------------------------------------------------
  // The mutable particle and its render slot
  // ---------------------------------------------------------------------

  /** ParticleObject: a particle of fixed type whose animation state changes every frame. */
  class ParticleObject {
    const kind: ParticleType
    const clockConfig: ClockConfig
    var animationParams: AnimationParams

    constructor (kind: ParticleType, clockConfig: ClockConfig)
      ensures this.kind == kind && this.clockConfig == clockConfig
      ensures animationParams == DefaultAnimationParams()
    {
      this.kind := kind;
      this.clockConfig := clockConfig;
      animationParams := DefaultAnimationParams();
    }

    /** `randomize`: installs a fresh state anchored to the clock reading. */
    method Randomize(width: real, height: real, hour: int, minute: int, d: SpawnDraws, m: Trig)
      requires DrawsInRange(kind, clockConfig, width, height, d)
      modifies this
      ensures animationParams == Spawn(kind, clockConfig, width, height, hour, minute, d, m)
    {
      var currentMinuteRadians := MinuteAngle(minute);
      var currentHourMinuteRadians := HourMinuteAngle(hour, minute);
      var randomAngleOffset := d.angleOffset;
      var randomizedAngle;
      match kind {
        case Hour => randomizedAngle := currentHourMinuteRadians;
        case Minute => randomizedAngle := currentMinuteRadians;
        case Background => randomizedAngle := currentHourMinuteRadians + randomAngleOffset;
      }
      assert randomizedAngle == SpawnAngle(kind, hour, minute, d.angleOffset);
      var centerX := width / 2.0 + d.jitterX;
      var centerY := height / 2.0 + d.jitterY;
      var randomLength := d.length;
      var x := randomLength * m.cos(randomizedAngle);
      var y := randomLength * m.sin(randomizedAngle);
      var color;
      match kind {
        case Background => color := clockConfig.colorPalette.MainColors()[d.colorIndex];
        case Hour => color := clockConfig.colorPalette.HandleColor();
        case Minute => color := clockConfig.colorPalette.HandleColor();
      }
      assert color == SpawnColor(kind, clockConfig, d.colorIndex);
      animationParams := AnimationParams(
        isFilled := d.fillDraw < 0.7,
        alpha := if d.alpha < 0.0 then 0.0 else d.alpha,
        locationX := centerX + x,
        locationY := centerY + y,
        particleSize := d.size,
        currentAngle := randomizedAngle,
        progressModifier := d.speed,
        currentColor := color);
    }

    /** `animate`: one frame of movement, opacity update and, on exit, respawn. */
    method Animate(progress: real, width: real, height: real, hour: int, minute: int,
                   freshAlpha: real, d: SpawnDraws, m: Trig)
      requires HypotNonNegative(m)
      requires DrawsInRange(kind, clockConfig, width, height, d)
      modifies this
      ensures animationParams == Advance(old(animationParams), kind, clockConfig, progress, width, height,
                                         hour, minute, freshAlpha, d, m)
    {
      var centerX := width / 2.0;
      var centerY := height / 2.0;
      var radius := Min(centerX, centerY);
      var modifier := Max(0.2, progress) * 4.0;
      var xUpdate := modifier * m.cos(animationParams.currentAngle);
      var yUpdate := modifier * m.sin(animationParams.currentAngle);
      var newX := animationParams.locationX + xUpdate;
      var newY := animationParams.locationY + yUpdate;
      var positionInsideCircle := m.hypot(newY - centerY, newX - centerX);
      var currentPositionIsInsideCircle := positionInsideCircle < radius * kind.MaxLengthModifier();
      assert newX == SteppedX(animationParams, progress, m) && newY == SteppedY(animationParams, progress, m);
      assert positionInsideCircle == SteppedDistance(animationParams, progress, width, height, m);
      assert currentPositionIsInsideCircle == StaysInside(animationParams, kind, progress, width, height, m);
      ghost var before := animationParams;
      if !currentPositionIsInsideCircle {
        Randomize(width, height, hour, minute, d, m);
        animationParams := animationParams.(alpha := 0.0);
      } else {
        assert positionInsideCircle >= 0.0;
        var currentLengthByRadius := positionInsideCircle / (radius * kind.MaxLengthModifier());
        var alpha;
        if currentLengthByRadius - kind.MinLengthModifier() <= 0.0 {
          alpha := 0.0;
        } else if animationParams.alpha == 0.0 {
          alpha := freshAlpha;
        } else {
          var fadeOutRange := kind.MaxLengthModifier();
          var target := if currentLengthByRadius < fadeOutRange then animationParams.alpha
                        else (1.0 - currentLengthByRadius) / (1.0 - fadeOutRange);
          alpha := CoerceIn(target, 0.0, 1.0);
        }
        animationParams := animationParams.(alpha := alpha, locationX := newX, locationY := newY);
      }
    }
  }

  /**
   * ParticleHeartBeat: one render slot. The particle is created on the slot's
   * first frame; every frame then draws it and afterwards animates it with
   * `1 - progress`.
   */
  class HeartBeat {
    const kind: ParticleType
    const clockConfig: ClockConfig
    var particle: ParticleObject?

    ghost predicate Valid()
      reads this
    {
      particle != null ==> particle.kind == kind && particle.clockConfig == clockConfig
    }

    constructor (kind: ParticleType, clockConfig: ClockConfig)
      ensures Valid() && this.kind == kind && this.clockConfig == clockConfig && particle == null
    {
      this.kind := kind;
      this.clockConfig := clockConfig;
      particle := null;
    }

    /**
     * One frame. `cmd` is the circle drawn before the particle moves: on the
     * first frame that is the placeholder state, which is never spawned.
     */
    method Frame(progress: real, width: real, height: real, hour: int, minute: int,
                 freshAlpha: real, d: SpawnDraws, m: Trig) returns (cmd: DrawCmd)
      requires Valid()
      requires HypotNonNegative(m)
      requires DrawsInRange(kind, clockConfig, width, height, d)
      modifies this, particle
      ensures Valid() && particle != null
      ensures old(particle) != null ==> particle == old(particle)
      ensures old(particle) == null ==> fresh(particle)
      ensures var before := if old(particle) == null then DefaultAnimationParams() else old(particle.animationParams);
        && cmd == ParticleCircle(before)
        && particle.animationParams == Advance(before, kind, clockConfig, 1.0 - progress, width, height,
                                               hour, minute, freshAlpha, d, m)
    {
      if particle == null {
        particle := new ParticleObject(kind, clockConfig);
      }
      var p := particle;
      cmd := ParticleCircle(p.animationParams);
      var progressValue := 1.0 - progress;
      p.Animate(progressValue, width, height, hour, minute, freshAlpha, d, m);
    }
  }
}
