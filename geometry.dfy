/** Points and rectangles as CoreGraphics has them, with exact real coordinates. */
module Geometry {

  datatype Point = Point(x: real, y: real)

  /** A CGRect: origin (x, y) and size (width, height), stored as given. */
  datatype Rect = Rect(x: real, y: real, width: real, height: real)

  /** CGRect.zero. */
  const ZeroRect := Rect(0.0, 0.0, 0.0, 0.0)

  function Min(a: real, b: real): (m: real)
    ensures m <= a && m <= b
    ensures m == a || m == b
  {
    if a <= b then a else b
  }

  function Abs(a: real): (r: real)
    ensures r >= 0.0
    ensures r == a || r == -a
  {
    if a < 0.0 then -a else a
  }

  /** Swift's `Int(_:)` on a floating-point value: the integer part, truncated toward zero. */
  function Truncate(v: real): (n: int)
    ensures 0.0 <= v ==> n >= 0 && n as real <= v < n as real + 1.0
    ensures v < 0.0 ==> n <= 0 && n as real - 1.0 < v <= n as real
  {
    if v >= 0.0 then v.Floor else -((-v).Floor)
  }

  /** The point lies inside or on the border of the rectangle (a rectangle of non-negative size). */
  predicate Contains(r: Rect, p: Point)
  {
    r.x <= p.x <= r.x + r.width && r.y <= p.y <= r.y + r.height
  }

  /** Every point of `inner` lies inside `outer`. */
  predicate Encloses(outer: Rect, inner: Rect)
  {
    outer.x <= inner.x && inner.x + inner.width <= outer.x + outer.width &&
    outer.y <= inner.y && inner.y + inner.height <= outer.y + outer.height
  }
}
