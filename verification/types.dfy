/**
 * Machine-level scalar types of the audio core and the Option wrapper used
 * for lookups that `playNote` silently rejects.
 */
module Types {

  /** An 8-bit unsigned value (`byte` / `uint8_t`). */
  type byte = x: int | 0 <= x < 0x100

  /** A 32-bit unsigned value (`unsigned int` / `unsigned long` on the target). */
  type uint32 = x: int | 0 <= x < 0x1_0000_0000

  /** A 32-bit two's-complement value (`int32_t`). */
  type int32 = x: int | -0x8000_0000 <= x < 0x8000_0000

  datatype Option<+T> = None | Some(value: T)

  /**
   * The conversion performed by assigning an `unsigned long` to an `int32_t`
   * on the target: the bit pattern is kept, so values of 2^31 and above wrap
   * around to negative numbers.
   */
  function ToInt32(x: uint32): (r: int32)
    ensures (r - x) % 0x1_0000_0000 == 0
    ensures x < 0x8000_0000 <==> r >= 0
    ensures x < 0x8000_0000 ==> r == x
  {
    if x < 0x8000_0000 then x else x - 0x1_0000_0000
  }
}
