/** Plane geometry in screen coordinates (origin top-left, y growing downward),
    standing in for the host's rectangle and edge-inset value types.

    A Rect stores its origin and size exactly as given, possibly with a negative
    size. Its accessors Width, Height, MinX, MaxX, MinY and MaxY answer for the
    standardized rectangle, the one with the same corners and a non-negative
    size, as the host's rectangle accessors do. */
module Geometry {

  datatype Option<T> = None | Some(value: T)

  /** The smaller of two values; the host's `min(x, y)` is `y < x ? y : x`. */
  function Min(a: real, b: real): (r: real)
    ensures r <= a && r <= b
    ensures r == a || r == b
  {
    if b < a then b else a
  }

  function Abs(a: real): (r: real)
    ensures r >= 0.0
    ensures r == a || r == -a
  {
    if a < 0.0 then -a else a
  }

  /** Inward padding from each edge of a container. */
  datatype Insets = Insets(top: real, left: real, bottom: real, right: real)

  const ZeroInsets := Insets(0.0, 0.0, 0.0, 0.0)

  /** Absent insets are the zero insets (`edgeInsets ?? .zero`). */
  function InsetsOrZero(insets: Option<Insets>): (r: Insets)
    ensures insets.Some? ==> r == insets.value
    ensures insets.None? ==> r.top == r.left == r.bottom == r.right == 0.0
  {
    match insets
    case Some(i) => i
    case None => ZeroInsets
  }

  /** A rectangle as constructed from an origin and a size. */
  datatype Rect = Rect(originX: real, originY: real, sizeWidth: real, sizeHeight: real)
  {
    /** The width of the standardized rectangle. */
    function Width(): (r: real)
      ensures r >= 0.0
      ensures r == sizeWidth || r == -sizeWidth
    {
      Abs(sizeWidth)
    }

    /** The height of the standardized rectangle. */
    function Height(): (r: real)
      ensures r >= 0.0
      ensures r == sizeHeight || r == -sizeHeight
    {
      Abs(sizeHeight)
    }

    /** The left edge: whichever of the two vertical edges lies further left. */
    function MinX(): (r: real)
      ensures r <= originX && r <= originX + sizeWidth
      ensures r == originX || r == originX + sizeWidth
      ensures sizeWidth >= 0.0 ==> r == originX
    {
      Min(originX, originX + sizeWidth)
    }

    /** The right edge, one standardized width to the right of the left edge. */
    function MaxX(): (r: real)
      ensures r >= originX && r >= originX + sizeWidth
      ensures r == originX || r == originX + sizeWidth
      ensures r - MinX() == Width()
    {
      MinX() + Width()
    }

    /** The top edge. */
    function MinY(): (r: real)
      ensures r <= originY && r <= originY + sizeHeight
      ensures r == originY || r == originY + sizeHeight
      ensures sizeHeight >= 0.0 ==> r == originY
    {
      Min(originY, originY + sizeHeight)
    }

    /** The bottom edge, one standardized height below the top edge. */
    function MaxY(): (r: real)
      ensures r >= originY && r >= originY + sizeHeight
      ensures r == originY || r == originY + sizeHeight
      ensures r - MinY() == Height()
    {
      MinY() + Height()
    }

    /** The same set of points, described with a non-negative size. */
    function Standardized(): (r: Rect)
      ensures r.sizeWidth >= 0.0 && r.sizeHeight >= 0.0
      ensures r.MinX() == MinX() && r.MaxX() == MaxX()
      ensures r.MinY() == MinY() && r.MaxY() == MaxY()
    {
      Rect(MinX(), MinY(), Width(), Height())
    }

    /** The rectangle moved by (dx, dy), its size unchanged. */
    function Offset(dx: real, dy: real): (r: Rect)
      ensures r.MinX() == MinX() + dx && r.MaxX() == MaxX() + dx
      ensures r.MinY() == MinY() + dy && r.MaxY() == MaxY() + dy
      ensures r.Width() == Width() && r.Height() == Height()
    {
      Rect(originX + dx, originY + dy, sizeWidth, sizeHeight)
    }
  }
}
