/**
 * The Java integer semantics the fragment relies on: the ranges of `int` and
 * `long`, division that truncates toward zero, and `long` multiplication that
 * wraps around modulo 2^64.
 */
module JavaInt {

  const INT32_MIN: int := -0x8000_0000
  const INT32_MAX: int := 0x7fff_ffff
  const INT64_MIN: int := -0x8000_0000_0000_0000
  const INT64_MAX: int := 0x7fff_ffff_ffff_ffff
  const TWO_POW_64: int := 0x1_0000_0000_0000_0000

  /** A Java `int`. */
  type Int32 = x: int | INT32_MIN <= x <= INT32_MAX

  /** A Java `long`. */
  type Int64 = x: int | INT64_MIN <= x <= INT64_MAX

  /**
   * Java's `a / d` for a positive divisor: the quotient is truncated toward
   * zero, so the remainder `a - d * q` has the sign of the dividend.
   * (Dafny's own `/` is Euclidean and differs for negative `a`.)
   */
  function TruncDiv(a: int, d: int): (q: int)
    requires d > 0
    ensures 0 <= a ==> 0 <= a - d * q < d
    ensures a < 0 ==> -d < a - d * q <= 0
  {
    if a >= 0 then a / d else -((-a) / d)
  }

  /**
   * The `long` that a Java computation with mathematical value `x` produces:
   * the unique `long` congruent to `x` modulo 2^64.
   */
  function WrapLong(x: int): (r: Int64)
    ensures (x - r) % TWO_POW_64 == 0
    ensures INT64_MIN <= x <= INT64_MAX ==> r == x
  {
    (x - INT64_MIN) % TWO_POW_64 + INT64_MIN
  }

  /** Java's `ms * 1000` on a `long`, as used to turn epoch seconds into milliseconds. */
  function SecondsToMillis(s: Int64): (ms: Int64)
    ensures -9_223_372_036_854_775 <= s <= 9_223_372_036_854_775 ==> ms == s * 1000
  {
    WrapLong(s * 1000)
  }
}
