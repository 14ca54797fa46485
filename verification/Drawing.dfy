/** Rectangles and the widths of measured text. Coordinates are exact; rounding for output is not modelled. */
module Drawing {
  /** A measured width of text. */
  type Width = w: real | w >= 0.0

  datatype Rect = Rect(x: real, y: real, w: real, h: real)

  /** At least `gap` lies between the two, side by side or one above the other. */
  predicate Apart(a: Rect, b: Rect, gap: real) {
    a.x + a.w + gap <= b.x || b.x + b.w + gap <= a.x || a.y + a.h + gap <= b.y || b.y + b.h + gap <= a.y
  }

  /** `r` keeps `pad` away from every edge of `frame`. */
  predicate Inside(r: Rect, frame: Rect, pad: real) {
    && frame.x + pad <= r.x && r.x + r.w + pad <= frame.x + frame.w
    && frame.y + pad <= r.y && r.y + r.h + pad <= frame.y + frame.h
  }

  function Max(a: real, b: real): (m: real)
    ensures m >= a && m >= b && (m == a || m == b)
  {
    if a < b then b else a
  }
}
