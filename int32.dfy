/** Go's 32-bit signed integers, with the two conversions the handlers rely on. */
module Int32 {
  const TwoTo31: int := 0x8000_0000
  const TwoTo32: int := 0x1_0000_0000

  newtype int32 = x: int | -0x8000_0000 <= x < 0x8000_0000

  const MinInt32: int32 := -0x8000_0000
  const MaxInt32: int32 := 0x7fff_ffff

  /** Go's conversion `int32(x)`: keep the low 32 bits of x and read them
      as a two's-complement number. */
  function Truncate(x: int): (r: int32)
    ensures (r as int - x) % TwoTo32 == 0
    ensures MinInt32 as int <= x <= MaxInt32 as int ==> r as int == x
  {
    var low := x % TwoTo32;
    if low < TwoTo31 then low as int32 else (low - TwoTo32) as int32
  }

  /** Go's `i++` on an int32: one more, except that MaxInt32 wraps to MinInt32. */
  function Increment(i: int32): (r: int32)
    ensures i < MaxInt32 ==> r as int == i as int + 1
    ensures i == MaxInt32 ==> r == MinInt32
  {
    Truncate(i as int + 1)
  }
}
