/** Positions on the pixel-space campus image and the distance between two of them. */
module Geometry {

  /** A clicked position `[lat, lng]`. On the image map's simple coordinate system `lat`
      is the pixel row (sent to the server as `y`) and `lng` the pixel column (`x`). */
  datatype Point = Point(y: int, x: int)

  /** The square of the Euclidean pixel distance from `a` to `b`. The browser
      (`calculateDistance`) and the server both take its square root in floating point;
      the root and its formatting are not part of this model. */
  function SquaredDistance(a: Point, b: Point): (d: int)
    ensures d >= 0
    ensures d == 0 <==> a == b
  {
    var dy := b.y - a.y;
    var dx := b.x - a.x;
    SquaresNonNegative(dx, dy);
    dx * dx + dy * dy
  }

  /** A sum of two squares is never negative and is zero only when both roots are. */
  lemma SquaresNonNegative(dx: int, dy: int)
    ensures dx * dx >= 0 && dy * dy >= 0
    ensures dx * dx + dy * dy == 0 <==> dx == 0 && dy == 0
  {
  }

  /** The distance from `a` to `b` is the distance from `b` to `a`. */
  lemma SquaredDistanceSymmetric(a: Point, b: Point)
    ensures SquaredDistance(a, b) == SquaredDistance(b, a)
  {
  }
}
