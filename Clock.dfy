/**
 * The clock face (shared/.../clock/Clock.kt): the background, the border
 * ring, the 60 minute ticks, the smooth second hand, and the order in which
 * ComposeClock stacks these layers with the particle slots.
 *
 * The wall clock is a parameter: `second` is the second of the minute of one
 * reading and `epochMillis` the epoch milliseconds of another (the source
 * reads the clock twice).
 */
module Clock {

  import opened Numerics
  import opened Drawing
  import opened Models
  import Particles

  // ---------------------------------------------------------------------
  // Angles
  // ---------------------------------------------------------------------

  /** Kotlin's `epochMillis % 1000`, whose sign follows the dividend. */
  function MillisOfSecond(epochMillis: int): (r: int)
    ensures -1000 < r < 1000
    ensures epochMillis >= 0 ==> 0 <= r
    ensures epochMillis < 0 ==> r <= 0
    ensures (epochMillis - r) % 1000 == 0
  {
    if epochMillis >= 0 then epochMillis % 1000 else -((-epochMillis) % 1000)
  }

  /** The angle of minute tick `minute`: -PI/2 at 0, PI/30 per minute. */
  function TickAngle(minute: int): (r: real)
    ensures 0 <= minute < 60 ==> -PI / 2.0 <= r < -PI / 2.0 + 2.0 * PI
    ensures minute % 15 == 0 ==> r == -PI / 2.0 + ((minute / 15) as real) * (PI / 2.0)
  {
    -PI / 2.0 + (minute as real) * (PI / 30.0)
  }

  /** The second-hand angle: the whole second plus the elapsed fraction of it. */
  function SecondHandAngle(second: int, epochMillis: int): (r: real)
    ensures epochMillis >= 0 ==> TickAngle(second) <= r < TickAngle(second + 1)
    ensures epochMillis < 0 ==> TickAngle(second - 1) < r <= TickAngle(second)
  {
    var progression := MillisOfSecond(epochMillis) as real / 1000.0;
    var animatedSecond := second as real + progression;
    -PI / 2.0 + animatedSecond * (PI / 30.0)
  }

  /**
   * For a reading after the epoch the second hand lies from the tick of its
   * second up to, but not reaching, the next one; on a whole second it
   * points exactly at that tick.
   */
  lemma SecondHandBetweenTicks(second: int, epochMillis: int)
    requires epochMillis >= 0
    ensures TickAngle(second) <= SecondHandAngle(second, epochMillis) < TickAngle(second + 1)
    ensures MillisOfSecond(epochMillis) == 0 <==> SecondHandAngle(second, epochMillis) == TickAngle(second)
  {
    var f := MillisOfSecond(epochMillis) as real / 1000.0;
    assert 0.0 <= f < 1.0;
    assert SecondHandAngle(second, epochMillis) == TickAngle(second) + f * (PI / 30.0);
    assert TickAngle(second + 1) == TickAngle(second) + PI / 30.0;
  }

  /** The second of the minute that a reading at `t` epoch milliseconds shows. */
  function SecondOfMinute(t: int): (s: int)
    requires t >= 0
    ensures 0 <= s < 60
  {
    (t / 1000) % 60
  }

  lemma MillisWithinMinute(t: int)
    requires t >= 0
    ensures t % 60000 == SecondOfMinute(t) * 1000 + MillisOfSecond(t)
  {
    var q, r := t / 1000, t % 1000;
    assert t == 1000 * q + r;
    var s := q % 60;
    assert q == 60 * (q / 60) + s;
    assert t == 60000 * (q / 60) + (1000 * s + r);
    assert 0 <= 1000 * s + r < 60000;
    ModOfDecomposition(t, q / 60, 1000 * s + r);
  }

  lemma ModOfDecomposition(t: int, k: int, rest: int)
    requires t == 60000 * k + rest && 0 <= rest < 60000
    ensures t % 60000 == rest
  {
  }

  /**
   * When a single reading supplies both the second and the milliseconds,
   * the second-hand angle is a linear function of the time within the minute.
   */
  lemma SecondHandLinearInTime(t: int)
    requires t >= 0
    ensures SecondHandAngle(SecondOfMinute(t), t) == -PI / 2.0 + ((t % 60000) as real / 1000.0) * (PI / 30.0)
  {
    MillisWithinMinute(t);
    var s, r := SecondOfMinute(t), MillisOfSecond(t);
    assert (t % 60000) as real / 1000.0 == s as real + r as real / 1000.0;
  }

  /**
   * So the hand moves smoothly: within one minute, the angle changes by
   * exactly the elapsed time times PI/30 per second, across second
   * boundaries included.
   */
  lemma SecondHandContinuous(t: int, dt: int)
    requires t >= 0 && dt >= 0
    requires t % 60000 + dt < 60000
    ensures SecondHandAngle(SecondOfMinute(t + dt), t + dt) - SecondHandAngle(SecondOfMinute(t), t)
            == (dt as real / 1000.0) * (PI / 30.0)
  {
    SecondHandLinearInTime(t);
    SecondHandLinearInTime(t + dt);
    ModOfDecomposition(t + dt, t / 60000, t % 60000 + dt);
  }

  /**
   * The source takes the milliseconds and the second from two readings.
   * If the second ticks over between them (milliseconds read at 999, second
   * read 1 ms later), the hand shows almost a whole second ahead.
   */
  lemma SeparateReadingsCanLeadBySecond()
    ensures SecondOfMinute(1000) == 1
    ensures SecondHandAngle(SecondOfMinute(1000), 1000) == TickAngle(1)
    ensures SecondHandAngle(SecondOfMinute(1000), 999) == TickAngle(1) + 0.999 * (PI / 30.0)
  {
  }

  /** Minute particles spawn along the tick of the current minute. */
  lemma MinuteParticlesAimAtTick(minute: int)
    ensures Particles.MinuteAngle(minute) == TickAngle(minute)
  {
  }

  // ---------------------------------------------------------------------
  // The layers that are drawn
  // ---------------------------------------------------------------------

  /** ClockBackground: the whole canvas in the background colour. */
  function BackgroundRect(width: real, height: real, config: ClockConfig): (c: DrawCmd)
    ensures c.Rect? && c.width == width && c.height == height
    ensures c.color == config.colorPalette.BackgroundColor()
  {
    Rect(width, height, config.colorPalette.BackgroundColor())
  }

  /** ClockBackgroundBorder: a ring of width 10 at 0.9 of the clock radius. */
  function BorderRing(width: real, height: real, config: ClockConfig): (c: DrawCmd)
    ensures c.Circle? && c.centerX == width / 2.0 && c.centerY == height / 2.0
    ensures c.radius == 0.9 * CanvasRadius(width, height)
    ensures c.color == config.colorPalette.BorderColor() && c.style == Stroke(10.0)
  {
    Circle(width / 2.0, height / 2.0, CanvasRadius(width, height) * 0.9,
           config.colorPalette.BorderColor(), Stroke(10.0))
  }

  /** ClockSecondHand: a filled dot of radius 8 at 0.9 of the clock radius. */
  function SecondHandDot(width: real, height: real, second: int, epochMillis: int,
                         config: ClockConfig, m: Trig): (c: DrawCmd)
    ensures c.Circle? && c.radius == 8.0 && c.style == Fill
    ensures c.color == config.colorPalette.HandleColor()
    ensures c.centerX == width / 2.0 + m.cos(SecondHandAngle(second, epochMillis)) * (0.9 * CanvasRadius(width, height))
    ensures c.centerY == height / 2.0 + m.sin(SecondHandAngle(second, epochMillis)) * (0.9 * CanvasRadius(width, height))
  {
    var clockRadius := 0.9 * CanvasRadius(width, height);
    var degree := SecondHandAngle(second, epochMillis);
    Circle(width / 2.0 + m.cos(degree) * clockRadius, height / 2.0 + m.sin(degree) * clockRadius,
           8.0, config.colorPalette.HandleColor(), Fill)
  }

  /**
   * The background rectangle covers the whole canvas, so on a canvas of
   * non-negative size the border ring's circle lies within it.
   */
  lemma BackgroundCoversBorder(width: real, height: real, config: ClockConfig)
    requires 0.0 <= width && 0.0 <= height
    ensures var bg := BackgroundRect(width, height, config);
      var ring := BorderRing(width, height, config);
      && 0.0 <= ring.centerX - ring.radius && ring.centerX + ring.radius <= bg.width
      && 0.0 <= ring.centerY - ring.radius && ring.centerY + ring.radius <= bg.height
  {
  }

  /** The second-hand dot always rides on the border ring. */
  lemma SecondHandOnBorder(width: real, height: real, second: int, epochMillis: int,
                           config: ClockConfig, m: Trig)
    requires Pythagorean(m)
    ensures var dot := SecondHandDot(width, height, second, epochMillis, config, m);
      var ring := BorderRing(width, height, config);
      && dot.style == Fill && dot.radius == 8.0 && dot.color == config.colorPalette.HandleColor()
      && ring.style == Stroke(10.0)
      && (dot.centerX - ring.centerX) * (dot.centerX - ring.centerX)
         + (dot.centerY - ring.centerY) * (dot.centerY - ring.centerY) == ring.radius * ring.radius
  {
    var degree := SecondHandAngle(second, epochMillis);
    var clockRadius := 0.9 * CanvasRadius(width, height);
    assert m.cos(degree) * m.cos(degree) + m.sin(degree) * m.sin(degree) == 1.0;
    ScaledUnitVector(m.cos(degree), m.sin(degree), clockRadius);
  }

  /** One minute tick: a filled disc of radius 12 on the hour, else a hairline ring of radius 6. */
  function MinuteTick(minute: int, width: real, height: real, config: ClockConfig, m: Trig): (c: DrawCmd)
    ensures c.Circle? && c.color == config.colorPalette.HandleColor()
    ensures c.style == Fill <==> minute % 5 == 0
    ensures c.radius == (if minute % 5 == 0 then 12.0 else 6.0)
    ensures c.centerX == width / 2.0 + m.cos(TickAngle(minute)) * (0.95 * CanvasRadius(width, height))
    ensures c.centerY == height / 2.0 + m.sin(TickAngle(minute)) * (0.95 * CanvasRadius(width, height))
  {
    var clockRadius := 0.95 * CanvasRadius(width, height);
    var isHour := minute % 5 == 0;
    var degree := TickAngle(minute);
    Circle(width / 2.0 + m.cos(degree) * clockRadius, height / 2.0 + m.sin(degree) * clockRadius,
           if isHour then 12.0 else 6.0, config.colorPalette.HandleColor(),
           if isHour then Fill else Stroke(0.0))
  }

  /**
   * A tick is filled exactly on the hour, its radius is 12 if filled and 6
   * if not, and it sits on the circle of 0.95 times the clock radius.
   */
  lemma MinuteTickShape(minute: int, width: real, height: real, config: ClockConfig, m: Trig)
    requires Pythagorean(m)
    ensures var t := MinuteTick(minute, width, height, config, m);
      var r := 0.95 * CanvasRadius(width, height);
      && (t.style == Fill <==> minute % 5 == 0)
      && (t.style != Fill ==> t.style == Stroke(0.0))
      && t.radius == (if t.style == Fill then 12.0 else 6.0)
      && (t.centerX - width / 2.0) * (t.centerX - width / 2.0)
         + (t.centerY - height / 2.0) * (t.centerY - height / 2.0) == r * r
  {
    var degree := TickAngle(minute);
    assert m.cos(degree) * m.cos(degree) + m.sin(degree) * m.sin(degree) == 1.0;
    ScaledUnitVector(m.cos(degree), m.sin(degree), 0.95 * CanvasRadius(width, height));
  }

  /** ClockMinuteCircles: the 60 ticks, for minutes 0 to 59 in order. */
  method MinuteCircles(width: real, height: real, config: ClockConfig, m: Trig) returns (ticks: seq<DrawCmd>)
    ensures |ticks| == 60
    ensures forall minute :: 0 <= minute < 60 ==> ticks[minute] == MinuteTick(minute, width, height, config, m)
    ensures FilledCount(ticks) == 12
  {
    var clockRadius := 0.95 * CanvasRadius(width, height);
    var centerX := width / 2.0;
    var centerY := height / 2.0;
    var oneMinuteRadians := PI / 30.0;
    ticks := [];
    var minute := 0;
    while minute <= 59
      invariant 0 <= minute <= 60
      invariant |ticks| == minute
      invariant forall i :: 0 <= i < minute ==> ticks[i] == MinuteTick(i, width, height, config, m)
    {
      var isHour := minute % 5 == 0;
      var degree := -PI / 2.0 + (minute as real) * oneMinuteRadians;
      var x := centerX + m.cos(degree) * clockRadius;
      var y := centerY + m.sin(degree) * clockRadius;
      var radius: real;
      if isHour {
        radius := 12.0;
      } else {
        radius := 6.0;
      }
      assert degree == TickAngle(minute);
      ticks := ticks + [Circle(x, y, radius, config.colorPalette.HandleColor(), if isHour then Fill else Stroke(0.0))];
      assert ticks[minute] == MinuteTick(minute, width, height, config, m);
      minute := minute + 1;
    }
    TwelveHourMarkers(ticks, width, height, config, m);
  }

  /** Of the 60 ticks, exactly the 12 on the hour are filled. */
  lemma TwelveHourMarkers(ticks: seq<DrawCmd>, width: real, height: real, config: ClockConfig, m: Trig)
    requires |ticks| == 60
    requires forall minute :: 0 <= minute < 60 ==> ticks[minute] == MinuteTick(minute, width, height, config, m)
    ensures FilledCount(ticks) == 12
  {
    HourMarkersInPrefix(ticks, 60, width, height, config, m);
    assert ticks[..60] == ticks;
  }

  lemma {:induction false} HourMarkersInPrefix(ticks: seq<DrawCmd>, k: nat, width: real, height: real,
                                               config: ClockConfig, m: Trig)
    requires k <= |ticks|
    requires forall minute :: 0 <= minute < k ==> ticks[minute] == MinuteTick(minute, width, height, config, m)
    ensures FilledCount(ticks[..k]) == (k + 4) / 5
  {
    if k > 0 {
      HourMarkersInPrefix(ticks, k - 1, width, height, config, m);
      assert ticks[..k][..k - 1] == ticks[..k - 1];
      var t := MinuteTick(k - 1, width, height, config, m);
      assert ticks[..k][k - 1] == t;
      assert FilledCount(ticks[..k]) == FilledCount(ticks[..k - 1]) + (if t.style == Fill then 1 else 0);
      HourStep(k);
    }
  }

  /** Ticks 0..k-1 hold one more hour marker than ticks 0..k-2 exactly when k - 1 is on the hour. */
  lemma HourStep(k: int)
    requires k > 0
    ensures (k + 4) / 5 == (k + 3) / 5 + (if (k - 1) % 5 == 0 then 1 else 0)
  {
    var q, r := (k - 1) / 5, (k - 1) % 5;
    assert k - 1 == 5 * q + r && 0 <= r < 5;
    assert k + 4 == 5 * (q + 1) + r;
    assert k + 3 == 5 * q + (r + 4);
  }

  /**
   * On a canvas of positive size the tick circle lies outside the border
   * ring, and any particle that completes a step lies strictly inside it.
   */
  lemma TicksOutsideParticlesInside(p: AnimationParams, kind: ParticleType, progress: real,
                                    width: real, height: real, config: ClockConfig, m: Trig)
    requires HypotNonNegative(m)
    requires Particles.StaysInside(p, kind, progress, width, height, m)
    ensures CanvasRadius(width, height) > 0.0
    ensures BorderRing(width, height, config).radius < 0.95 * CanvasRadius(width, height)
    ensures Particles.SteppedDistance(p, progress, width, height, m) < BorderRing(width, height, config).radius
  {
    var dist := Particles.SteppedDistance(p, progress, width, height, m);
    assert dist >= 0.0;
    var r := CanvasRadius(width, height);
    assert kind.MaxLengthModifier() <= 0.85;
    assert 0.0 < r by {
      assert 0.0 < r * kind.MaxLengthModifier();
    }
    assert r * kind.MaxLengthModifier() <= r * 0.85;
  }

  // ---------------------------------------------------------------------
  // ComposeClock
  // ---------------------------------------------------------------------

  /** One layer of the clock, bottom first. */
  datatype Layer = BackgroundLayer | ParticleSlot(kind: ParticleType) | BorderLayer | MinuteTicksLayer | SecondHandLayer

  /**
   * ComposeClock: the background, then 1000 Background, 100 Hour and 100
   * Minute particle slots (one `repeat` each), then the border ring, the
   * ticks and the second hand, each drawn over the ones before.
   */
  method ComposeClock() returns (layers: seq<Layer>)
    ensures |layers| == 1204
    ensures layers[0] == BackgroundLayer
    ensures forall i :: 1 <= i < 1001 ==> layers[i] == ParticleSlot(Background)
    ensures forall i :: 1001 <= i < 1101 ==> layers[i] == ParticleSlot(Hour)
    ensures forall i :: 1101 <= i < 1201 ==> layers[i] == ParticleSlot(Minute)
    ensures layers[1201..] == [BorderLayer, MinuteTicksLayer, SecondHandLayer]
  {
    layers := [BackgroundLayer];
    var n := 0;
    while n < 1000
      invariant 0 <= n <= 1000 && |layers| == 1 + n
      invariant layers[0] == BackgroundLayer
      invariant forall i :: 1 <= i < 1 + n ==> layers[i] == ParticleSlot(Background)
    {
      layers := layers + [ParticleSlot(Background)];
      n := n + 1;
    }
    n := 0;
    while n < 100
      invariant 0 <= n <= 100 && |layers| == 1001 + n
      invariant layers[0] == BackgroundLayer
      invariant forall i :: 1 <= i < 1001 ==> layers[i] == ParticleSlot(Background)
      invariant forall i :: 1001 <= i < 1001 + n ==> layers[i] == ParticleSlot(Hour)
    {
      layers := layers + [ParticleSlot(Hour)];
      n := n + 1;
    }
    n := 0;
    while n < 100
      invariant 0 <= n <= 100 && |layers| == 1101 + n
      invariant layers[0] == BackgroundLayer
      invariant forall i :: 1 <= i < 1001 ==> layers[i] == ParticleSlot(Background)
      invariant forall i :: 1001 <= i < 1101 ==> layers[i] == ParticleSlot(Hour)
      invariant forall i :: 1101 <= i < 1101 + n ==> layers[i] == ParticleSlot(Minute)
    {
      layers := layers + [ParticleSlot(Minute)];
      n := n + 1;
    }
    layers := layers + [BorderLayer, MinuteTicksLayer, SecondHandLayer];
  }
}
