/** Integer rectangles as the game's graphics library provides them, and the
    float-to-int truncation that rectangle coordinates undergo. */
module Geometry {

  /** An axis-aligned rectangle: top-left corner (x, y), width w, height h.
      The y axis grows downwards, so `Top() < Bottom()` for a non-empty rect. */
  datatype Rect = Rect(x: int, y: int, w: nat, h: nat) {
    function Left(): int { x }
    function Right(): int { x + w }
    function Top(): int { y }
    function Bottom(): int { y + h }
    function CenterX(): int { x + w / 2 }
    function CenterY(): int { y + h / 2 }

    /** The rectangle translated by (dx, dy); size is kept. */
    function Move(dx: int, dy: int): Rect { Rect(x + dx, y + dy, w, h) }

    function WithX(nx: int): Rect { Rect(nx, y, w, h) }
    function WithY(ny: int): Rect { Rect(x, ny, w, h) }
    /** Assigning `right` moves the rectangle so that its right edge is `r`. */
    function WithRight(r: int): Rect { Rect(r - w, y, w, h) }
    /** Assigning `bottom` moves the rectangle so that its bottom edge is `b`. */
    function WithBottom(b: int): Rect { Rect(x, b - h, w, h) }
  }

  /** Rectangle intersection as the graphics library's `colliderect` decides it:
      both rectangles are non-empty and their open intervals overlap on both axes. */
  predicate Overlaps(a: Rect, b: Rect) {
    && a.w > 0 && a.h > 0 && b.w > 0 && b.h > 0
    && a.Left() < b.Right() && b.Left() < a.Right()
    && a.Top() < b.Bottom() && b.Top() < a.Bottom()
  }

  /** Some rectangle of `ps` overlaps `r`. */
  predicate AnyOverlap(r: Rect, ps: seq<Rect>) {
    exists i :: 0 <= i < |ps| && Overlaps(r, ps[i])
  }

  /** Point containment as `collidepoint` decides it: left and top edges inclusive,
      right and bottom edges exclusive. */
  predicate ContainsPoint(r: Rect, px: int, py: int) {
    r.Left() <= px < r.Right() && r.Top() <= py < r.Bottom()
  }

  /** Conversion of a float to an int, rounding toward zero (Python's `int()` and the
      graphics library's coordinate setters). */
  function Trunc(v: real): (r: int)
    ensures v >= 0.0 ==> 0.0 <= r as real <= v < r as real + 1.0
    ensures v < 0.0 ==> r as real - 1.0 < v <= r as real <= 0.0
  {
    if v >= 0.0 then v.Floor else -((-v).Floor)
  }

  /** Truncation of an int is the identity, even after adding an integral real. */
  lemma TruncOfInt(n: int)
    ensures Trunc(n as real) == n
  {
  }

  function Abs(v: real): (r: real)
    ensures r >= 0.0 && (r == v || r == -v)
  {
    if v < 0.0 then -v else v
  }

  function IntAbs(v: int): (r: nat)
    ensures r == v || r == -v
  {
    if v < 0 then -v else v
  }

  function MaxR(a: real, b: real): (r: real)
    ensures r >= a && r >= b && (r == a || r == b)
  {
    if a >= b then a else b
  }

  function MinR(a: real, b: real): (r: real)
    ensures r <= a && r <= b && (r == a || r == b)
  {
    if a <= b then a else b
  }

  // Rectangle coordinates are ints and Dafny does not coerce them to real, so the
  // clamps used on positions and offsets need their own int versions.
  function MaxI(a: int, b: int): (r: int)
    ensures r >= a && r >= b && (r == a || r == b)
  {
    if a >= b then a else b
  }

  function MinI(a: int, b: int): (r: int)
    ensures r <= a && r <= b && (r == a || r == b)
  {
    if a <= b then a else b
  }
}
