/** The raylib value types the game works with (Vector2, Rectangle, Color)
    and raylib's rectangle overlap test. Float fields are modelled as `real`. */
module Raylib {

  /** An `unsigned char` colour channel. */
  newtype byte = x: int | 0 <= x < 256

  datatype Vec2 = Vec2(x: real, y: real)

  /** A rectangle by its top-left corner and its size (y grows downwards). */
  datatype Rect = Rect(x: real, y: real, width: real, height: real)

  datatype Color = Color(r: byte, g: byte, b: byte, a: byte)

  const WHITE: Color := Color(255, 255, 255, 255)
  const GRAY: Color := Color(130, 130, 130, 255)

  /** CheckCollisionRecs: the two rectangles overlap with positive area on
      both axes (strict comparisons: rectangles that only touch do not collide).
      raylib's own body is not part of this model; this is its documented behaviour. */
  predicate CheckCollisionRecs(a: Rect, b: Rect) {
    && a.x < b.x + b.width && a.x + a.width > b.x
    && a.y < b.y + b.height && a.y + a.height > b.y
  }

  function Min(a: real, b: real): real {
    if a <= b then a else b
  }

  function Abs(a: real): real {
    if a < 0.0 then -a else a
  }
}
