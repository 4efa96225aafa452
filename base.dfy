/** Types and conversions shared by the SDL glue modules: C's fixed-width
    integers, an optional value (a possibly-NULL pointer), and C's conversion
    of a floating-point value to an integer. */
module Base {

  datatype Option<T> = None | Some(value: T)

  /** An unsigned 8-bit C value (`Uint8`, `nk_byte`, a `char` byte). */
  type Byte = b: int | 0 <= b < 0x100

  /** An unsigned 32-bit C value (`Uint32`). */
  type Uint32 = n: int | 0 <= n < 0x1_0000_0000

  function Min(a: int, b: int): int { if a <= b then a else b }

  function Max(a: int, b: int): int { if a >= b then a else b }

  /** `r` is `v` with its fraction dropped toward zero: within one of `v`,
      on the same side of zero, and no farther from zero than `v`. */
  predicate TowardZero(v: real, r: int)
  {
    && (0.0 <= v ==> 0 <= r && r as real <= v < r as real + 1.0)
    && (v < 0.0 ==> r <= 0 && r as real - 1.0 < v <= r as real)
  }

  /** The C conversion `(int)v` of a floating-point value: the fraction is
      discarded, rounding toward zero (not toward minus infinity). */
  function Trunc(v: real): (r: int)
    ensures TowardZero(v, r)
  {
    if v >= 0.0 then v.Floor else -((-v).Floor)
  }
}
