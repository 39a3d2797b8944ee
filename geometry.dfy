/**
 * Screen constants and integer axis-aligned rectangles with pygame's
 * `collide_rect` overlap test (game.py, constants at the top of the file).
 */
module Geometry {
  const WIDTH := 960
  const HEIGHT := 600
  const GROUND_Y := HEIGHT - 100

  function Max(a: int, b: int): int { if a >= b then a else b }
  function Min(a: int, b: int): int { if a <= b then a else b }

  /** A box whose top-left corner is (x, y), as a pygame.Rect. */
  datatype Rect = Rect(x: int, y: int, w: int, h: int) {
    /** pygame's `center`: the corner plus half the size, rounded down. */
    function Center(): (int, int) { (x + w / 2, y + h / 2) }

    predicate NonEmpty() { w > 0 && h > 0 }

    /** The pixel (px, py) lies in the half-open box [x, x+w) x [y, y+h). */
    predicate Contains(px: int, py: int) { x <= px < x + w && y <= py < y + h }
  }

  /** pygame.sprite.collide_rect: the boxes overlap strictly; boxes that only touch do not collide. */
  predicate CollideRect(a: Rect, b: Rect) {
    a.x < b.x + b.w && b.x < a.x + a.w && a.y < b.y + b.h && b.y < a.y + a.h
  }

  /** Two non-empty boxes collide exactly when some pixel lies in both. */
  lemma CollideRectIffSharedPixel(a: Rect, b: Rect)
    requires a.NonEmpty() && b.NonEmpty()
    ensures CollideRect(a, b) <==> exists px, py :: a.Contains(px, py) && b.Contains(px, py)
  {
    if CollideRect(a, b) {
      var px, py := Max(a.x, b.x), Max(a.y, b.y);
      assert a.Contains(px, py) && b.Contains(px, py);
    }
  }
}
