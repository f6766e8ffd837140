/** Machine-level value types shared by every part of the clock model. */
module Units {

  /** An `uint8_t`. */
  newtype byte = x: int | 0 <= x < 256

  /** An `unsigned long` on the target: a 32-bit unsigned value, used for millisecond timestamps. */
  newtype u32 = x: int | 0 <= x < 0x1_0000_0000

  const Modulus32: int := 0x1_0000_0000

  datatype Option<T> = None | Some(value: T)
}
