/**
 * The two pieces of plane geometry in the game: the catch test between a
 * falling item and the basket (script.js:179-180) and the clamp that keeps the
 * basket inside the playfield while the mouse moves (script.js:103-104).
 */
module Geometry {

  /** A bounding rectangle in page coordinates, as `getBoundingClientRect` reports it. */
  datatype Rect = Rect(left: real, top: real, right: real, bottom: real)

  predicate WellFormed(a: Rect)
  {
    a.left < a.right && a.top < a.bottom
  }

  /** The collision poll's test: the horizontal and the vertical ranges both intersect. */
  predicate Overlaps(item: Rect, basket: Rect)
  {
    item.left < basket.right && item.right > basket.left &&
    item.bottom > basket.top && item.top < basket.bottom
  }

  /** Point (x, y) lies strictly inside `a`. */
  predicate Inside(a: Rect, x: real, y: real)
  {
    a.left < x < a.right && a.top < y < a.bottom
  }

  function Max(a: real, b: real): real { if a < b then b else a }
  function Min(a: real, b: real): real { if a < b then a else b }

  /**
   * For rectangles of positive size the test means exactly that the two
   * rectangles share an interior point.
   */
  lemma OverlapsIffSharedPoint(item: Rect, basket: Rect)
    requires WellFormed(item) && WellFormed(basket)
    ensures Overlaps(item, basket) <==> exists x, y :: Inside(item, x, y) && Inside(basket, x, y)
  {
    if Overlaps(item, basket) {
      var x := (Max(item.left, basket.left) + Min(item.right, basket.right)) / 2.0;
      var y := (Max(item.top, basket.top) + Min(item.bottom, basket.bottom)) / 2.0;
      assert Inside(item, x, y) && Inside(basket, x, y);
    }
  }

  /** `Math.max(0, Math.min(x, hi))` */
  function Clamp(x: real, hi: real): (r: real)
    ensures 0.0 <= r
    ensures 0.0 <= hi ==> r <= hi
    ensures 0.0 <= x <= hi ==> r == x
    ensures r == x || r == 0.0 || r == hi
  {
    Max(0.0, Min(x, hi))
  }

  /**
   * Where the basket's left edge goes when the mouse is at `clientX`: centred
   * under the mouse, then clamped so that it stays within the panel.
   */
  function BasketLeft(clientX: real, panelLeft: real, panelWidth: real, basketWidth: real): (r: real)
    ensures 0.0 <= r
    ensures basketWidth <= panelWidth ==> r + basketWidth <= panelWidth
    ensures 0.0 <= clientX - panelLeft - basketWidth / 2.0 <= panelWidth - basketWidth ==>
      r + basketWidth / 2.0 == clientX - panelLeft
  {
    Clamp(clientX - panelLeft - basketWidth / 2.0, panelWidth - basketWidth)
  }
}
