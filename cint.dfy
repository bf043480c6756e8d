/**
 * The C integer types of the library and the conversions between them.
 * Dafny integers are unbounded, so every cast and every wrap-around the C
 * code performs is written out here.
 */
module CInt {

  const TWO_31: int := 0x8000_0000
  const TWO_32: int := 0x1_0000_0000
  const TWO_64: int := 0x1_0000_0000_0000_0000

  /** One mebibyte: the `1024 * 1024` every backend divides byte counts by. */
  const MIB: nat := 1024 * 1024

  type Int32 = x: int | -TWO_31 <= x < TWO_31
  type UInt32 = x: int | 0 <= x < TWO_32
  type UInt64 = x: int | 0 <= x < TWO_64

  /** Conversion of any integer to `uint32_t`: reduction modulo 2^32. */
  function ToU32(x: int): (r: UInt32)
    ensures (r - x) % TWO_32 == 0
    ensures 0 <= x < TWO_32 ==> r == x
  {
    x % TWO_32
  }

  /** Conversion of any integer to `uint64_t`: reduction modulo 2^64. */
  function ToU64(x: int): (r: UInt64)
    ensures (r - x) % TWO_64 == 0
    ensures 0 <= x < TWO_64 ==> r == x
  {
    x % TWO_64
  }

  /**
   * Conversion to `int32_t` as the compilers the library targets perform it
   * (two's complement wrap-around), also used for signed overflow.
   */
  function ToI32(x: int): (r: Int32)
    ensures (r - x) % TWO_32 == 0
    ensures -TWO_31 <= x < TWO_31 ==> r == x
  {
    var u := x % TWO_32;
    if u < TWO_31 then u else u - TWO_32
  }

  /** C's `/` on signed operands: the quotient is truncated toward zero. */
  function TruncDiv(a: int, b: int): (q: int)
    requires b > 0
    ensures 0 <= a ==> 0 <= q && q * b <= a < q * b + b
    ensures a < 0 ==> q <= 0 && a <= q * b < a + b
  {
    if a >= 0 then
      DivBounds(a, b);
      a / b
    else
      DivBounds(-a, b);
      NegTimes((-a) / b, b);
      -((-a) / b)
  }

  /** Euclidean division of a non-negative number brackets it between multiples of `b`. */
  lemma DivBounds(n: int, b: int)
    requires 0 <= n && b > 0
    ensures 0 <= n / b && (n / b) * b <= n < (n / b) * b + b
  {
  }

  /** Division by a positive number keeps the order of naturals. */
  lemma DivMonotone(a: int, b: int, d: int)
    requires d > 0
    ensures 0 <= a <= b ==> a / d <= b / d
  {
    if 0 <= a <= b {
      DivBounds(a, d);
      DivBounds(b, d);
      if a / d > b / d {
        assert (a / d) * d >= (b / d + 1) * d by {
          MulMonotone(b / d + 1, a / d, d);
        }
      }
    }
  }

  lemma MulMonotone(x: int, y: int, d: int)
    requires x <= y && d > 0
    ensures x * d <= y * d
  {
  }

  lemma NegTimes(x: int, b: int)
    ensures (-x) * b == -(x * b)
  {
  }

  /** Wrapping after each addition or once at the end gives the same `int32_t`. */
  lemma ToI32Add(a: int, b: int)
    ensures ToI32(ToI32(a) + b) == ToI32(a + b)
  {
    var k := (ToI32(a) - a) / TWO_32;
    assert ToI32(a) + b == (a + b) + k * TWO_32;
    ModuloShift(a + b, k);
  }

  lemma ModuloShift(x: int, k: int)
    ensures (x + k * TWO_32) % TWO_32 == x % TWO_32
  {
  }
}
