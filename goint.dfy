/** Go's fixed-width integer types as the service uses them, on a 64-bit platform. */
module GoInt {

  const TWO_64: int := 0x1_0000_0000_0000_0000
  const MAX_UINT64: int := TWO_64 - 1

  /** Go's `int` is 64 bits wide, so no slice is longer than this. */
  const MAX_INT: int := 0x7FFF_FFFF_FFFF_FFFF

  /** Go's `uint64` (and `uint`, on the 64-bit platforms the service targets). */
  type Uint64 = x: int | 0 <= x < TWO_64

  /** Go's conversion of an integer to `uint64`: two's-complement wrap-around. */
  function ToUint64(x: int): Uint64 {
    x % TWO_64
  }
}
