/**
 * The C integer semantics the control loop relies on, for the MSP430 target:
 * `int` and `unsigned int` are 16 bits wide, a conversion between them keeps
 * the bit pattern (modulo 2^16), and `/` on `int` truncates toward zero.
 */
module CInt {

  /** The values of a 16-bit C `int`. */
  type Int16 = i: int | -0x8000 <= i < 0x8000

  /** The values of a 16-bit C `unsigned int`, and of a 16-bit data register. */
  type Word = w: int | 0 <= w < 0x10000

  /** Conversion of a 16-bit `unsigned int` (or register) to `int`. */
  function ToSigned(u: Word): (i: Int16)
    ensures u < 0x8000 ==> i == u
    ensures 0x8000 <= u ==> i < 0
    ensures ToUnsigned(i) == u
  {
    if u < 0x8000 then u else u - 0x10000
  }

  /** Conversion of an `int` to a 16-bit `unsigned int` or register: modulo 2^16. */
  function ToUnsigned(i: Int16): (u: Word)
    ensures 0 <= i ==> u == i
    ensures i < 0 ==> u == i + 0x10000
  {
    i % 0x10000
  }

  /** C's `a / b` for a positive divisor: the quotient rounded toward zero. */
  function Div(a: int, b: int): (q: int)
    requires 0 < b
    ensures 0 <= a ==> 0 <= q && q * b <= a < q * b + b
    ensures a < 0 ==> q <= 0 && q * b - b < a <= q * b
  {
    if 0 <= a then a / b else -((-a) / b)
  }

  /** A 16-bit `int` survives the round trip through `unsigned int`. */
  lemma SignedRoundTrip(i: Int16)
    ensures ToSigned(ToUnsigned(i)) == i
  {
  }
}
