/** The drawing vocabulary the overlay's painters share: pixel rectangles and brushes. */
module Graphics {

  /** A pixel rectangle: left edge, top edge, width, height. */
  datatype Rect = Rect(x: int, y: int, w: int, h: int)

  /** Two rectangles share no pixel. */
  predicate Disjoint(a: Rect, b: Rect) {
    a.x + a.w <= b.x || b.x + b.w <= a.x || a.y + a.h <= b.y || b.y + b.h <= a.y
  }

  /** The solid brushes text is drawn with. */
  datatype Brush = White | Gray | Red | DarkRed | Yellow | Green | LawnGreen | Purple | Violet | Gold | Goldenrod
}
