/**
 * Fixed-width C integer behaviour, written out explicitly over Dafny's
 * unbounded integers: unsigned wrap-around and the two's-complement
 * narrowing that a conversion to a 32-bit signed integer performs on Linux.
 */
module CInt {

  const TWO_31: int := 0x8000_0000
  const TWO_32: int := 0x1_0000_0000
  const TWO_63: int := 0x8000_0000_0000_0000
  const TWO_64: int := 0x1_0000_0000_0000_0000

  /** LONG_MAX and LONG_MIN of an LP64 target. */
  const LONG_MAX: int := TWO_63 - 1
  const LONG_MIN: int := -TWO_63

  /** The ranges of `uint32_t`, `int32_t` and `uint64_t`. */
  type u32 = x: int | 0 <= x < 0x1_0000_0000
  type i32 = x: int | -0x8000_0000 <= x < 0x8000_0000
  type u64 = x: int | 0 <= x < 0x1_0000_0000_0000_0000

  predicate IsU32(x: int) { 0 <= x < TWO_32 }
  predicate IsU64(x: int) { 0 <= x < TWO_64 }
  predicate IsI32(x: int) { -TWO_31 <= x < TWO_31 }

  /** The value an unsigned 32-bit computation leaves behind. */
  function U32(x: int): (r: int)
    ensures IsU32(r)
    ensures IsU32(x) ==> r == x
  {
    x % TWO_32
  }

  /** The value an unsigned 64-bit computation leaves behind. */
  function U64(x: int): (r: int)
    ensures IsU64(r)
    ensures IsU64(x) ==> r == x
  {
    x % TWO_64
  }

  /** Conversion of any integer to `int32_t` (two's complement: keep the low 32 bits). */
  function ToI32(x: int): (r: int)
    ensures IsI32(r)
    ensures (r - x) % TWO_32 == 0
    ensures IsI32(x) ==> r == x
  {
    var m := x % TWO_32;
    if m >= TWO_31 then m - TWO_32 else m
  }

  /** Conversion of an `int32_t` back to the unsigned 32-bit pattern it carries. */
  function FromI32(x: int): (r: int)
    requires IsI32(x)
    ensures IsU32(r)
    ensures ToI32(r) == x
  {
    if x < 0 then x + TWO_32 else x
  }

  /** `int32_t` narrowing is the identity on bit patterns: back and forth gives the pattern. */
  lemma FromToI32(x: int)
    requires IsU32(x)
    ensures FromI32(ToI32(x)) == x
  {
  }
}
