/** Java's 64-bit `long` and the narrowing conversion `(long) x` from `double`. */
module JavaLong {

  const MinLong: int := -0x8000_0000_0000_0000
  const MaxLong: int := 0x7FFF_FFFF_FFFF_FFFF

  /** The values of Java's `long`. */
  type Long = x: int | MinLong <= x <= MaxLong

  /**
   * `(long) x` for a non-negative `x`: rounds toward zero and saturates at
   * `Long.MAX_VALUE`, i.e. the greatest `long` not above `x`.
   */
  function Saturate(x: real): (r: Long)
    requires x >= 0.0
    ensures 0 <= r
    ensures r as real <= x
    ensures r == MaxLong || x < (r + 1) as real
  {
    if x >= MaxLong as real then MaxLong else x.Floor
  }

  /** A `long` not above `x` is not above its conversion either. */
  lemma SaturateAtLeast(k: Long, x: real)
    requires 0 <= k && k as real <= x
    ensures k <= Saturate(x)
  {
  }
}
