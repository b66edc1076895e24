/** The numeric types of the source: C# `int` (32-bit two's complement) and
    `decimal` (exact; modelled as a real number). */
module Numbers {

  const MinInt32: int := -0x8000_0000
  const MaxInt32: int := 0x7fff_ffff

  /** A value a C# `int` can hold. */
  type Int32 = x: int | MinInt32 <= x <= MaxInt32

  /** C# `decimal` amounts. */
  type Money = real

  /** What unchecked C# `int` arithmetic keeps of an exact result: wrap-around
      into [MinInt32, MaxInt32]. */
  function Wrap32(x: int): (r: Int32)
    ensures MinInt32 <= x <= MaxInt32 ==> r == x
    ensures (r - x) % 0x1_0000_0000 == 0
  {
    (x - MinInt32) % 0x1_0000_0000 + MinInt32
  }
}
