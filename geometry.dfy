/** The parts of Go's image.Point and image.Rectangle that the layout uses. */
module Geometry {

  datatype Point = Point(x: int, y: int) {

    function Add(q: Point): Point {
      Point(x + q.x, y + q.y)
    }

    function Sub(q: Point): Point {
      Point(x - q.x, y - q.y)
    }
  }

  /** image.Pt */
  function Pt(x: int, y: int): Point {
    Point(x, y)
  }

  /** A rectangle from Min (inclusive) to Max (exclusive); Dx and Dy may be negative. */
  datatype Rectangle = Rectangle(min: Point, max: Point) {

    function Dx(): int {
      max.x - min.x
    }

    function Dy(): int {
      max.y - min.y
    }
  }

  function Min(a: int, b: int): int {
    if a <= b then a else b
  }

  function Max(a: int, b: int): int {
    if a <= b then b else a
  }

  /** image.Rect: the rectangle with the given corners, swapped into order when needed. */
  function Rect(x0: int, y0: int, x1: int, y1: int): (r: Rectangle)
    ensures r.Dx() >= 0 && r.Dy() >= 0
    ensures x0 <= x1 && y0 <= y1 ==> r == Rectangle(Point(x0, y0), Point(x1, y1))
  {
    Rectangle(Point(Min(x0, x1), Min(y0, y1)), Point(Max(x0, x1), Max(y0, y1)))
  }

  /** `inner` lies within `outer`. */
  predicate Within(inner: Rectangle, outer: Rectangle) {
    outer.min.x <= inner.min.x <= inner.max.x <= outer.max.x &&
    outer.min.y <= inner.min.y <= inner.max.y <= outer.max.y
  }
}
