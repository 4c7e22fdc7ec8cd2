/**
 * The constant tables of the particle clock (shared/.../clock/Models.kt):
 * the colour palette, the clock configuration, the per-type tuning of the
 * particles and the initial animation parameters of a particle.
 */
module Models {

  import opened Numerics
  import opened Drawing

  /** The palette enumeration; Adrift is its only value. */
  datatype ColorPalette = Adrift {

    /** The decorative colours a Background particle picks from. */
    function MainColors(): (cs: seq<Color>)
      ensures |cs| > 0
    {
      [Color(0xFF99B898), Color(0xFFFECEA8), Color(0xFFFF847C)]
    }

    function HandleColor(): Color { Color(0xFFE84A5F) }

    function DividerColor(): Color { Color(0x39E84A5F) }

    function BorderColor(): Color { Color(0x41E84A5F) }

    function BackgroundColor(): Color { Color(0xFF2A363B) }
  }

  /**
   * The clock configuration. The random source it carries is not part of
   * this model: every draw is an explicit parameter of the operation that
   * makes it.
   */
  datatype ClockConfig = ClockConfig(colorPalette: ColorPalette, maxCount: int, hourCount: int, minuteCount: int)

  /** `ClockConfig(random)` with every other field left at its default. */
  function DefaultClockConfig(): (c: ClockConfig)
    ensures c.colorPalette == Adrift
    ensures c.maxCount == 100 && c.hourCount == 50 && c.minuteCount == 100
  {
    ClockConfig(Adrift, 100, 50, 100)
  }

  /**
   * The three particle kinds and their tuning constants. The ensures clauses
   * are the facts the particle step relies on: a non-empty annulus strictly
   * inside the unit radius (so `1 - maxLengthModifier` is never 0), a size
   * range and an angle-offset range that are not inverted.
   */
  datatype ParticleType = Background | Hour | Minute {

    function StartAngleOffsetRadians(): real {
      match this
      case Background => PI * (0.5 / 12.0)
      case Hour => 0.0
      case Minute => 0.0
    }

    function EndAngleOffsetRadians(): (r: real)
      ensures StartAngleOffsetRadians() <= r
    {
      match this
      case Background => 2.0 * PI - PI * (0.5 / 12.0)
      case Hour => 0.0
      case Minute => 0.0
    }

    function MaxLengthModifier(): (r: real)
      ensures MinLengthModifier() < r < 1.0
    {
      match this
      case Background => 0.85
      case Hour => 0.6
      case Minute => 0.75
    }

    function MinLengthModifier(): (r: real)
      ensures 0.0 < r
    {
      match this
      case Background => 0.2
      case Hour => 0.01
      case Minute => 0.01
    }

    function MinSize(): (r: real)
      ensures 0.0 < r
    {
      match this
      case Background => 4.0
      case Hour => 8.0
      case Minute => 8.0
    }

    function MaxSize(): (r: real)
      ensures MinSize() <= r
    {
      match this
      case Background => 12.0
      case Hour => 32.0
      case Minute => 32.0
    }
  }

  /** Hour and Minute particles spawn without any angular spread. */
  lemma AnchoredTypesHaveNoSpread(t: ParticleType)
    requires t != Background
    ensures t.StartAngleOffsetRadians() == t.EndAngleOffsetRadians() == 0.0
  {
  }

  /**
   * The per-particle animation state. The source keeps it in a separate
   * object with mutable fields; here it is a value held in a mutable field
   * of the particle (see Particles.ParticleObject).
   */
  datatype AnimationParams = AnimationParams(
    locationX: real,
    locationY: real,
    alpha: real,
    isFilled: bool,
    currentColor: Color,
    particleSize: real,
    currentAngle: real,
    progressModifier: real)

  /** `AnimationParams()`: the placeholder state of a particle never spawned. */
  function DefaultAnimationParams(): (p: AnimationParams)
    ensures p.locationX == -1.0 && p.locationY == -1.0
    ensures p.alpha == -1.0 && !p.isFilled
    ensures p.currentColor == Color(0) && p.particleSize == 0.0
    ensures p.currentAngle == 1.0 && p.progressModifier == 1.0
  {
    AnimationParams(-1.0, -1.0, -1.0, false, Color(0), 0.0, 1.0, 1.0)
  }
}
