/** Integer operations of the C target (a 32-bit ARM) that differ from Dafny's unbounded,
    Euclidean arithmetic: division that truncates toward zero, the conversion of an `int`
    to `int16_t`, and `unsigned long` arithmetic modulo 2^32. */
module CArith {

  const TwoTo16: int := 0x1_0000
  const TwoTo32: int := 0x1_0000_0000

  /** C's `a / b` for a positive divisor: the quotient truncated toward zero. */
  function CDiv(a: int, b: int): (q: int)
    requires b > 0
    ensures a >= 0 ==> 0 <= a - b * q < b
    ensures a < 0 ==> -b < a - b * q <= 0
  {
    if a >= 0 then a / b else -((-a) / b)
  }

  /** Conversion of an `int` to `int16_t` (two's complement, keeping the low 16 bits). */
  function Int16(v: int): (r: int)
    ensures -0x8000 <= r < 0x8000
    ensures (v - r) % TwoTo16 == 0
    ensures -0x8000 <= v < 0x8000 ==> r == v
  {
    var m := v % TwoTo16;
    if m < 0x8000 then m else m - TwoTo16
  }

  /** `unsigned long` arithmetic: the value kept modulo 2^32. */
  function Wrap32(v: int): (r: int)
    ensures 0 <= r < TwoTo32
    ensures (v - r) % TwoTo32 == 0
    ensures 0 <= v < TwoTo32 ==> r == v
  {
    v % TwoTo32
  }
}
