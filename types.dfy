/** Fixed-width integers and an optional value, shared by the other modules. */
module Types {
  /** C's uint8_t (the type of last_input_value). */
  newtype u8 = x: int | 0 <= x < 0x100

  /** C's uint16_t (blink_speed_ms, and pin offsets printed with %hu). */
  newtype u16 = x: int | 0 <= x < 0x1_0000

  datatype Option<T> = None | Some(value: T)
}
