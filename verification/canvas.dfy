/**
 * The drawing vocabulary the widgets emit: rectangles over real pixel coordinates,
 * the layout direction, and the draw commands of a draw scope. Density conversion
 * is assumed already applied; every length here is in pixels.
 */
module Canvas {
  import opened ColorModel

  datatype LayoutDirection = Ltr | Rtl

  datatype Size = Size(width: real, height: real)

  /** Compose's `Size.isEmpty()`: no area in at least one dimension. */
  predicate IsEmpty(s: Size) {
    s.width <= 0.0 || s.height <= 0.0
  }

  /** A rectangle given by its top-left offset and its size. */
  datatype Bounds = Bounds(x: real, y: real, width: real, height: real)

  /** `Offset.Zero` with `Size.Zero`. */
  const ZeroBounds: Bounds := Bounds(0.0, 0.0, 0.0, 0.0)

  function Right(b: Bounds): real { b.x + b.width }

  function Bottom(b: Bounds): real { b.y + b.height }

  function SizeOf(b: Bounds): Size { Size(b.width, b.height) }

  /** The whole draw area, as `drawRect(size = size)` covers it. */
  function FullBounds(s: Size): Bounds { Bounds(0.0, 0.0, s.width, s.height) }

  /** Reflection of `b` about the vertical line x = trackWidth / 2. */
  function MirrorX(b: Bounds, trackWidth: real): (m: Bounds)
    ensures m.x + Right(b) == trackWidth && Right(m) + b.x == trackWidth
    ensures m.y == b.y && m.width == b.width && m.height == b.height
  {
    Bounds(trackWidth - Right(b), b.y, b.width, b.height)
  }

  /** What a draw scope is asked to do, in order. */
  datatype DrawOp =
    | DrawContent
    | FillRect(color: Color, bounds: Bounds)
    | FillRoundRect(color: Color, bounds: Bounds, cornerRadius: real)
    | StrokeRect(color: Color, bounds: Bounds, strokeWidth: real)

  /** Kotlin's `check(...)`: either the widget draws, or it fails with the check's message. */
  datatype Checked<T> = Drawn(value: T) | CheckFailed(message: string)

  /** Vertical insets applied by `Modifier.padding(top = .., bottom = ..)`. */
  datatype Padding = Padding(top: real, bottom: real)

  function PaddingSum(p: Padding): real { p.top + p.bottom }

  /** Insets on all four sides, as an unnamed `Modifier.padding(all)` followed by directional paddings gives. */
  datatype Insets = Insets(start: real, top: real, end: real, bottom: real)
}
