/** Fixed-width integer ranges of the C++ and Java sources, and two's-complement wrap-around. */
module Int64 {

  const INT64_MIN: int := -0x8000_0000_0000_0000
  const INT64_MAX: int := 0x7fff_ffff_ffff_ffff
  const UINT32_MAX: int := 0xffff_ffff
  /** Number of distinct 64-bit values. */
  const TWO_TO_64: int := 0x1_0000_0000_0000_0000

  /** A signed 64-bit integer (qint64, std::int64_t, Java long). */
  type int64 = x: int | -0x8000_0000_0000_0000 <= x <= 0x7fff_ffff_ffff_ffff

  /** A value of an unsigned 32-bit integer (std::uint32_t). */
  type uint32 = x: int | 0 <= x <= 0xffff_ffff

  /** The int64 value a two's-complement machine holds for the mathematical value x. */
  function Wrap64(x: int): (r: int64)
    ensures INT64_MIN <= x <= INT64_MAX ==> r == x
    ensures (x - r) % TWO_TO_64 == 0
  {
    (x - INT64_MIN) % TWO_TO_64 + INT64_MIN
  }

  /** A sum of two int64 values that exceeds INT64_MAX wraps downwards by 2^64. */
  lemma WrapAbove(x: int)
    requires INT64_MAX < x <= 2 * INT64_MAX
    ensures Wrap64(x) == x - TWO_TO_64
  {
    var k := x - INT64_MIN;
    assert TWO_TO_64 <= k < 2 * TWO_TO_64;
    assert k % TWO_TO_64 == k - TWO_TO_64 by {
      assert k / TWO_TO_64 == 1;
    }
  }

  /** A sum of two int64 values that is below INT64_MIN wraps upwards by 2^64. */
  lemma WrapBelow(x: int)
    requires 2 * INT64_MIN <= x < INT64_MIN
    ensures Wrap64(x) == x + TWO_TO_64
  {
    var k := x - INT64_MIN;
    assert -TWO_TO_64 <= k < 0;
    assert k % TWO_TO_64 == k + TWO_TO_64 by {
      assert k / TWO_TO_64 == -1;
    }
  }
}
