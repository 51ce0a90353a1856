/**
 * The part of pygame's `Rect` that pong.py relies on. pygame is not part of this
 * model; what follows is the assumed behaviour of the library for integer rectangles:
 * `top`, `bottom`, `left` and `right` are derived from the corner and the size, and
 * `colliderect` is strict overlap of the two rectangles on both axes.
 */
module Rects {

  /** A rectangle with integer top-left corner (x, y), width w and height h. */
  datatype Rect = Rect(x: int, y: int, w: int, h: int)
  {
    function Top(): int { y }
    function Bottom(): int { y + h }
    function Left(): int { x }
    function Right(): int { x + w }

    /** The pixel (px, py) lies inside the rectangle. */
    predicate Covers(px: int, py: int) {
      x <= px < x + w && y <= py < y + h
    }
  }

  /** `a.colliderect(b)`: the open intervals of the two rectangles overlap on both axes. */
  predicate CollideRect(a: Rect, b: Rect) {
    a.Left() < b.Right() && b.Left() < a.Right() &&
    a.Top() < b.Bottom() && b.Top() < a.Bottom()
  }

  /** For rectangles of positive size, two rectangles collide exactly when they share a pixel. */
  lemma CollideRectIffSharedPixel(a: Rect, b: Rect)
    requires a.w > 0 && a.h > 0 && b.w > 0 && b.h > 0
    ensures CollideRect(a, b) <==> exists px, py :: a.Covers(px, py) && b.Covers(px, py)
  {
    if CollideRect(a, b) {
      var px := if a.x <= b.x then b.x else a.x;
      var py := if a.y <= b.y then b.y else a.y;
      assert a.Covers(px, py) && b.Covers(px, py);
    }
  }
}
