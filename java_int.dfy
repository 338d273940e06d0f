/** Java's 32-bit `int`: its range and the two's-complement wrap-around of `++`. */
module JavaInt {

  const MIN_VALUE: int := -0x8000_0000
  const MAX_VALUE: int := 0x7fff_ffff
  const MODULUS: int := 0x1_0000_0000

  /** The values a Java `int` can hold. */
  type int32 = x: int | -0x8000_0000 <= x <= 0x7fff_ffff

  /** Truncation of a mathematical integer to its low 32 bits, read as a signed int. */
  function Wrap(x: int): (r: int32)
    ensures (r - x) % MODULUS == 0
    ensures MIN_VALUE <= x <= MAX_VALUE ==> r == x
  {
    var low := (x - MIN_VALUE) % MODULUS;
    assert x - MIN_VALUE == ((x - MIN_VALUE) / MODULUS) * MODULUS + low;
    low + MIN_VALUE
  }

  /** Java's `n++` on an `int`: one more, except that `Integer.MAX_VALUE` wraps to `Integer.MIN_VALUE`. */
  function Increment(n: int32): (r: int32)
    ensures n < MAX_VALUE ==> r == n + 1
    ensures n == MAX_VALUE ==> r == MIN_VALUE
    ensures (r - n - 1) % MODULUS == 0
  {
    Wrap(n + 1)
  }
}
