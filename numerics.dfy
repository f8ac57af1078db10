/** Vectors and the floating-point primitives the game calls but this model does not interpret. */
module Numerics {

  /** A position, velocity or acceleration in canvas pixels. */
  datatype Vec = Vec(x: real, y: real)

  /**
   * The primitives of the host's `Math` object that the core uses: `sqrt`, `atan2`, `cos` and
   * `sin`, all uninterpreted. Their IEEE behaviour is left out, so every operation that needs
   * them takes a `Math` value as a parameter.
   */
  datatype Math = Math(sqrt: real -> real, atan2: (real, real) -> real, cos: real -> real, sin: real -> real)

  /**
   * `Math.sqrt(v)`. The square root is uninterpreted, so its magnitude is taken; for a square
   * root that is never negative, as the host's is, this is the square root itself.
   */
  function Sqrt(m: Math, v: real): (r: real)
    ensures r >= 0.0
  {
    var s := m.sqrt(v);
    if s >= 0.0 then s else -s
  }

  /** `Math.hypot(dx, dy)`: the length sqrt(dx * dx + dy * dy), never negative. */
  function Hypot(m: Math, dx: real, dy: real): (r: real)
    ensures r >= 0.0
  {
    Sqrt(m, dx * dx + dy * dy)
  }

  /** `Math.atan2(dy, dx)`. */
  function Atan2(m: Math, dy: real, dx: real): real
  {
    m.atan2(dy, dx)
  }

  /** `Math.cos(a)`. */
  function Cos(m: Math, a: real): real
  {
    m.cos(a)
  }

  /** `Math.sin(a)`. */
  function Sin(m: Math, a: real): real
  {
    m.sin(a)
  }

  /** The square of a real. */
  function Sq(x: real): (r: real)
    ensures r >= 0.0
  {
    x * x
  }

  /** `Math.min` on two reals. */
  function Min(a: real, b: real): (r: real)
    ensures r <= a && r <= b
    ensures r == a || r == b
  {
    if a <= b then a else b
  }
}
