/** The usual optional-value wrapper. */
module Wrappers {
  datatype Option<+T> = None | Some(value: T)
}

/**
 * Plane geometry used by the game: rectangles with pygame's FRect
 * conventions and exact real coordinates ((x, y) is the top-left corner and
 * y grows downward),
 * rectangle overlap as `colliderect` decides it, and integer unit steps.
 */
module Geometry {

  /** A width or a height: never negative. */
  type Size = r: real | 0.0 <= r witness 0.0

  datatype Point = Point(x: real, y: real)

  /** A direction on the integer grid. */
  datatype Dir = Dir(x: int, y: int)

  /** A direction whose components are each -1, 0 or 1: one of the eight
      king moves, or no move at all. */
  predicate IsUnitStep(d: Dir) {
    -1 <= d.x <= 1 && -1 <= d.y <= 1
  }

  datatype Rect = Rect(x: real, y: real, w: Size, h: Size) {
    function Left(): real { x }
    function Right(): real { x + w }
    function Top(): real { y }
    function Bottom(): real { y + h }
    function Center(): Point { Point(x + w / 2.0, y + h / 2.0) }

    /** Assigning an edge or the centre moves the rectangle and keeps its size. */
    function WithLeft(v: real): (r: Rect)
      ensures r.Left() == v && r.y == y && r.w == w && r.h == h
    {
      this.(x := v)
    }

    function WithRight(v: real): (r: Rect)
      ensures r.Right() == v && r.y == y && r.w == w && r.h == h
    {
      this.(x := v - w)
    }

    function WithTop(v: real): (r: Rect)
      ensures r.Top() == v && r.x == x && r.w == w && r.h == h
    {
      this.(y := v)
    }

    function WithBottom(v: real): (r: Rect)
      ensures r.Bottom() == v && r.x == x && r.w == w && r.h == h
    {
      this.(y := v - h)
    }

    function WithCenter(c: Point): (r: Rect)
      ensures r.Center() == c && r.w == w && r.h == h
    {
      this.(x := c.x - w / 2.0, y := c.y - h / 2.0)
    }

    /** `inflate(dw, dh)`: grows (or, for negative amounts, shrinks) the
        rectangle by dw and dh around the same centre. */
    function Inflate(dw: real, dh: real): (r: Rect)
      requires 0.0 <= w + dw && 0.0 <= h + dh
      ensures r.Center() == Center() && r.w == w + dw && r.h == h + dh
    {
      Rect(x - dw / 2.0, y - dh / 2.0, w + dw, h + dh)
    }
  }

  /** `colliderect`: a rectangle with a zero side collides with nothing;
      otherwise the two must overlap strictly, so rectangles that only share
      an edge do not collide. */
  predicate Colliding(a: Rect, b: Rect) {
    a.w != 0.0 && a.h != 0.0 && b.w != 0.0 && b.h != 0.0 &&
    a.Left() < b.Right() && a.Top() < b.Bottom() &&
    a.Right() > b.Left() && a.Bottom() > b.Top()
  }
}
