/**
 * The C integer widths the encoder plugin works with: `int` (32 bits),
 * `int64_t`, `uint8_t`, and the `(int)` cast that `esmpp_update` applies to
 * the 64-bit integers it reads from the settings.
 */
module CInts {

  const TWO_32: int := 0x1_0000_0000

  type Int32 = x: int | -0x8000_0000 <= x < 0x8000_0000
  type Int64 = x: int | -0x8000_0000_0000_0000 <= x < 0x8000_0000_0000_0000
  type Byte = x: int | 0 <= x < 0x100

  predicate InInt32(x: int) { -0x8000_0000 <= x < 0x8000_0000 }
  predicate InInt64(x: int) { -0x8000_0000_0000_0000 <= x < 0x8000_0000_0000_0000 }

  /** The `(int)` conversion of a 64-bit value: two's-complement truncation to
      32 bits, which is what the compilers the plugin is built with do. */
  function Int32Of(x: int): (r: Int32)
    ensures (r - x) % TWO_32 == 0
    ensures InInt32(x) ==> r == x
  {
    var m := x % TWO_32;
    if m < 0x8000_0000 then m else m - TWO_32
  }
}
