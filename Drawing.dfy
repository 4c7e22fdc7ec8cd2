/**
 * What the clock hands to the canvas: draw commands, instead of calls on a
 * Compose canvas. Colours are opaque ARGB tokens.
 */
module Drawing {

  import opened Numerics

  /** A Compose Color, kept as its ARGB literal. */
  datatype Color = Color(argb: int)

  /** Filled disc, or a stroked outline of the given width (0 = hairline). */
  datatype Style = Fill | Stroke(width: real)

  datatype DrawCmd =
    | Rect(width: real, height: real, color: Color)
    | Circle(centerX: real, centerY: real, radius: real, color: Color, style: Style)

  /** The radius of the clock field: the smaller half-extent of the canvas. */
  function CanvasRadius(width: real, height: real): (r: real)
    ensures r <= width / 2.0 && r <= height / 2.0
    ensures r == width / 2.0 || r == height / 2.0
  {
    Min(width / 2.0, height / 2.0)
  }

  /** Number of filled circles in a command list. */
  function FilledCount(cmds: seq<DrawCmd>): (n: nat)
    ensures n <= |cmds|
  {
    if cmds == [] then 0
    else FilledCount(cmds[..|cmds| - 1]) + (if cmds[|cmds| - 1].Circle? && cmds[|cmds| - 1].style == Fill then 1 else 0)
  }
}
