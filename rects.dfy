/** The part of pygame's Rect that the game relies on: overlap and centring. */
module Rects {
  /** A rectangle by its top-left corner and its size. */
  datatype Rect = Rect(x: int, y: int, w: int, h: int)

  /** Whether the pixel (px, py) lies within r (right and bottom edges excluded). */
  predicate Contains(r: Rect, px: int, py: int) {
    r.x <= px < r.x + r.w && r.y <= py < r.y + r.h
  }

  /** Rect.colliderect: the two half-open boxes share an area. A rect with no
      width or no height collides with nothing. */
  function Colliderect(a: Rect, b: Rect): (r: bool)
    ensures r ==> var px, py := Max(a.x, b.x), Max(a.y, b.y); Contains(a, px, py) && Contains(b, px, py)
    ensures !r ==> forall px, py :: Contains(a, px, py) ==> !Contains(b, px, py)
  {
    && a.w > 0 && a.h > 0 && b.w > 0 && b.h > 0
    && a.x < b.x + b.w && b.x < a.x + a.w
    && a.y < b.y + b.h && b.y < a.y + a.h
  }

  function Max(i: int, j: int): int {
    if i < j then j else i
  }

  /** The interval test agrees with the set-of-pixels view of overlap. */
  lemma ColliderectSharesPixel(a: Rect, b: Rect)
    ensures Colliderect(a, b) <==> exists px, py :: Contains(a, px, py) && Contains(b, px, py)
  {
    if Colliderect(a, b) {
      var px := if a.x < b.x then b.x else a.x;
      var py := if a.y < b.y then b.y else a.y;
      assert Contains(a, px, py) && Contains(b, px, py);
    }
  }

  /** Rect.center: the corner plus half the size, rounded down as pygame does. */
  function Center(r: Rect): (c: (int, int))
    requires r.w >= 0 && r.h >= 0
    ensures 0 <= 2 * (c.0 - r.x) <= r.w < 2 * (c.0 - r.x) + 2
    ensures 0 <= 2 * (c.1 - r.y) <= r.h < 2 * (c.1 - r.y) + 2
    ensures r.w > 0 && r.h > 0 ==> Contains(r, c.0, c.1)
  {
    (r.x + r.w / 2, r.y + r.h / 2)
  }

  /** The rect of size (w, h) that assigning `rect.center = (cx, cy)` produces. */
  function CenteredAt(cx: int, cy: int, w: int, h: int): (r: Rect)
    requires w >= 0 && h >= 0
    ensures r.w == w && r.h == h
    ensures Center(r) == (cx, cy)
  {
    Rect(cx - w / 2, cy - h / 2, w, h)
  }
}
