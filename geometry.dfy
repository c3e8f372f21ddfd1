// The platformer's tuning constants, the sprite record shared by every
// entity, and the axis-aligned overlap test behind every collision.
module Geometry {
  const CanvasWidth: real := 800.0
  const CanvasHeight: real := 400.0
  /** Ground level: y grows downwards and the player never rests below this line. */
  const GroundY: real := CanvasHeight - 50.0
  const Gravity: real := 0.6
  /** Vertical impulse of a jump (negative is upwards). */
  const JumpStrength: real := -12.0
  const MoveSpeed: real := 2.0

  /** A box with its top-left corner at (x, y) and a velocity. */
  datatype Sprite = Sprite(x: real, y: real, width: real, height: real, vx: real, vy: real)

  predicate WellFormed(s: Sprite)
  {
    s.width > 0.0 && s.height > 0.0
  }

  /** Strict overlap: on both axes each box starts strictly before the other ends. */
  predicate RectIntersect(a: Sprite, b: Sprite)
  {
    a.x < b.x + b.width &&
    a.x + a.width > b.x &&
    a.y < b.y + b.height &&
    a.y + a.height > b.y
  }

  /** The point (px, py) lies strictly inside the box of s. */
  predicate InsideOpen(s: Sprite, px: real, py: real)
  {
    s.x < px < s.x + s.width && s.y < py < s.y + s.height
  }

  function Max(a: real, b: real): real { if a < b then b else a }

  function Min(a: real, b: real): real { if a < b then a else b }

  lemma RectIntersectSymmetric(a: Sprite, b: Sprite)
    ensures RectIntersect(a, b) <==> RectIntersect(b, a)
  {
  }

  /** Boxes that only share an edge do not intersect. */
  lemma TouchingEdgesDoNotIntersect(a: Sprite, b: Sprite)
    requires a.x + a.width == b.x || a.y + a.height == b.y
    ensures !RectIntersect(a, b) && !RectIntersect(b, a)
  {
  }

  /** For boxes of positive size, the test holds exactly when the open boxes share a point. */
  lemma RectIntersectIffCommonPoint(a: Sprite, b: Sprite)
    requires WellFormed(a) && WellFormed(b)
    ensures RectIntersect(a, b) <==>
            exists px: real, py: real :: InsideOpen(a, px, py) && InsideOpen(b, px, py)
  {
    if RectIntersect(a, b) {
      var px := (Max(a.x, b.x) + Min(a.x + a.width, b.x + b.width)) / 2.0;
      var py := (Max(a.y, b.y) + Min(a.y + a.height, b.y + b.height)) / 2.0;
      assert InsideOpen(a, px, py) && InsideOpen(b, px, py);
    }
  }
}
