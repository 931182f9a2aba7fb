/**
  Java's 32-bit `int`. Dafny integers are unbounded, so the width of a Java
  `int` field is a subset type, and Java's wrapping subtraction is written out.
 */
module JavaInts {

  const Int32Min: int := -0x8000_0000
  const Int32Max: int := 0x7FFF_FFFF

  /** The values a Java `int` can hold. */
  type Int32 = x: int | -0x8000_0000 <= x <= 0x7FFF_FFFF

  /** True iff `x` is representable as a Java `int` (no overflow). */
  predicate InInt32(x: int) {
    Int32Min <= x <= Int32Max
  }

  /** Java `a - b` on two `int`s: the exact difference reduced modulo 2^32
      into the signed range. */
  function Sub32(a: Int32, b: Int32): (r: Int32)
    ensures InInt32(a - b) ==> r == a - b
    ensures (r - (a - b)) % 0x1_0000_0000 == 0
    ensures r == 0 <==> a == b
  {
    ((a - b + 0x8000_0000) % 0x1_0000_0000) - 0x8000_0000
  }
}
