/** Value types shared by the renderer: vectors, colours, rectangles, the C
    float-to-int cast, and the Option/Result wrappers used for error paths.
    math/vector.hpp, math/rect.hpp and video/color.hpp are not part of this
    model; the shapes below are the ones the drawing code relies on. */
module Geometry {

  datatype Option<T> = None | Some(value: T)

  datatype Result<T, E> = Ok(value: T) | Err(error: E)

  datatype Vector = Vector(x: real, y: real) {
    function Plus(other: Vector): Vector { Vector(x + other.x, y + other.y) }
    function Minus(other: Vector): Vector { Vector(x - other.x, y - other.y) }
  }

  const Origin := Vector(0.0, 0.0)

  /** A colour with float channels; the three-argument C++ constructor
      leaves alpha at 1. */
  datatype Color = Color(red: real, green: real, blue: real, alpha: real)

  const White := Color(1.0, 1.0, 1.0, 1.0)

  /** The ambient-colour test of the drawing context: alpha is not looked at. */
  predicate IsWhite(c: Color) {
    c.red == 1.0 && c.green == 1.0 && c.blue == 1.0
  }

  /** A rectangle given by its top-left and bottom-right corners. */
  datatype Rect = Rect(p1: Vector, p2: Vector) {
    function Width(): real { p2.x - p1.x }
    function Height(): real { p2.y - p1.y }
  }

  /** C's float-to-int conversion, which truncates toward zero. */
  function Trunc(r: real): (n: int)
    ensures 0.0 <= r ==> n as real <= r < n as real + 1.0
    ensures r < 0.0 ==> n as real - 1.0 < r <= n as real
  {
    if r >= 0.0 then r.Floor else -((-r).Floor)
  }

  /** The logical screen size (SCREEN_WIDTH, SCREEN_HEIGHT); main.hpp is
      not part of this model, the values are the game's 800x600. */
  const ScreenWidth: nat := 800
  const ScreenHeight: nat := 600

  function Min(a: int, b: int): int { if a <= b then a else b }
  function Max(a: int, b: int): int { if a >= b then a else b }
}
