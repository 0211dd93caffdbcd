/**
 * Canvases as values: a canvas is described by its size and by how it was
 * produced (a crop by Cropper.js, or the circular composition), never by its
 * pixels. The circular composition keeps its full geometry and its
 * background decision so that both can be stated exactly.
 */
module Drawing {
  import opened Sizes

  /** A circle for `ctx.arc(cx, cy, radius, 0, 2 * Math.PI)`. */
  datatype Circle = Circle(cx: real, cy: real, radius: real)

  /**
   * The drawing of a circular canvas: its side, whether it is first filled
   * white, the clipping circle, and where the source is drawn (its top left
   * corner at `(dx, dy)`).
   */
  datatype CircularLayout = CircularLayout(size: nat, whiteFill: bool, clip: Circle, dx: real, dy: real)

  datatype Canvas =
    | Cropped(dims: Dims)                              // what `getCroppedCanvas` returns
    | Circular(layout: CircularLayout, source: Canvas) // what `createCircularCanvas` returns

  function Size(c: Canvas): Dims {
    match c
    case Cropped(d) => d
    case Circular(l, _) => Dims(l.size, l.size)
  }

  /** A white background is painted for every format except PNG (GIF included). */
  predicate PaintsWhite(format: string) {
    format != "png"
  }

  /**
   * The layout `createCircularCanvas` uses for a `w` by `h` source: a square
   * of the smaller side, the source centred on it, and a clipping circle
   * inscribed in the square, which the source covers entirely.
   */
  function CircularLayoutFor(source: Dims, format: string): (l: CircularLayout)
    ensures l.size == Min(source.width, source.height)
    ensures l.whiteFill <==> PaintsWhite(format)
    // the source is drawn centred, overhanging on at most one axis
    ensures l.dx <= 0.0 && l.dy <= 0.0 && (l.dx == 0.0 || l.dy == 0.0)
    ensures l.dx + source.width as real / 2.0 == l.size as real / 2.0
    ensures l.dy + source.height as real / 2.0 == l.size as real / 2.0
    // the circle touches all four sides of the square canvas
    ensures l.clip.cx - l.clip.radius == 0.0 && l.clip.cx + l.clip.radius == l.size as real
    ensures l.clip.cy - l.clip.radius == 0.0 && l.clip.cy + l.clip.radius == l.size as real
    // every point of the circle lies on the drawn source
    ensures l.dx <= l.clip.cx - l.clip.radius && l.clip.cx + l.clip.radius <= l.dx + source.width as real
    ensures l.dy <= l.clip.cy - l.clip.radius && l.clip.cy + l.clip.radius <= l.dy + source.height as real
  {
    var size := Min(source.width, source.height);
    var half := size as real / 2.0;
    CircularLayout(size, PaintsWhite(format), Circle(half, half, half),
                   (size - source.width) as real / 2.0, (size - source.height) as real / 2.0)
  }

  /** `createCircularCanvas(source)` with the format selected at that moment. */
  function CreateCircularCanvas(source: Canvas, format: string): (c: Canvas)
    ensures Size(c).width == Size(c).height == Min(Size(source).width, Size(source).height)
    ensures c.Circular? && c.source == source
    ensures c.layout.whiteFill <==> PaintsWhite(format)
  {
    Circular(CircularLayoutFor(Size(source), format), source)
  }

  /** The three texts `updateFormatHint` can show. */
  datatype FormatHint = NoHint | KeepsTransparency | AddsWhiteBackground

  function HintFor(circular: bool, format: string): (h: FormatHint)
    ensures h == KeepsTransparency <==> circular && format == "png"
    ensures h == AddsWhiteBackground <==> circular && format != "png"
    ensures h == NoHint <==> !circular
  {
    if circular && format == "png" then KeepsTransparency
    else if circular && format != "png" then AddsWhiteBackground
    else NoHint
  }

  /** For one format, the hint announces exactly the background the circular canvas gets. */
  lemma HintAgreesWithFill(source: Canvas, format: string)
    ensures HintFor(true, format) ==
            if CreateCircularCanvas(source, format).layout.whiteFill then AddsWhiteBackground else KeepsTransparency
  {
  }
}
