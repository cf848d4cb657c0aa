/** Exact-real stand-ins for the f32 values and operations the camera controller uses.
    Every f32 is modelled as the real it denotes; rounding of the operations is not modelled. */
module Numerics {

  /** A `[f32, ..3]` triple: the controller's direction and the camera's position. */
  type Vec3 = s: seq<real> | |s| == 3 witness [0.0, 0.0, 0.0]

  /** std::f32::consts::SQRT2: the f32 nearest to the square root of two (bits 0x3FB504F3). */
  const SQRT2: real := 1.41421353816986083984375

  /** std::f32::consts::PI: the f32 nearest to pi (bits 0x40490FDB). */
  const PI: real := 3.1415927410125732421875

  /** The controller's `sgn` closure: zero stays zero, any other value becomes its signum. */
  function Sgn(x: real): (r: real)
    ensures r == 0.0 <==> x == 0.0
    ensures r == 1.0 <==> x > 0.0
    ensures r == -1.0 <==> x < 0.0
  {
    if x == 0.0 then 0.0 else if x > 0.0 then 1.0 else -1.0
  }

  /** Rounds toward zero: the quotient Rust's float `%` works with. */
  function Trunc(x: real): (n: int)
    ensures 0.0 <= x ==> n as real <= x < n as real + 1.0
    ensures x < 0.0 ==> n as real - 1.0 < x <= n as real
  {
    if x >= 0.0 then x.Floor else -((-x).Floor)
  }

  /** `2.0 * PI`, the modulus yaw is reduced by (doubling an f32 is exact). */
  const TWO_PI: real := 2.0 * PI

  /** Rust's float `a % (2.0 * PI)`: the remainder of a truncating division, which keeps the
      sign of the dividend, so the result lies strictly between -2pi and 2pi. */
  function RemTwoPi(a: real): (r: real)
    ensures -TWO_PI < r < TWO_PI
    ensures a >= 0.0 ==> r >= 0.0
    ensures a <= 0.0 ==> r <= 0.0
    ensures -TWO_PI < a < TWO_PI ==> r == a
    ensures ((a - r) / TWO_PI).Floor as real == (a - r) / TWO_PI
  {
    a - TWO_PI * (Trunc(a / TWO_PI) as real)
  }

  /** f32::min on non-NaN operands. */
  function Min(x: real, y: real): (r: real)
    ensures r <= x && r <= y
    ensures r == x || r == y
  {
    if x < y then x else y
  }

  /** f32::max on non-NaN operands. */
  function Max(x: real, y: real): (r: real)
    ensures r >= x && r >= y
    ensures r == x || r == y
  {
    if x > y then x else y
  }
}
