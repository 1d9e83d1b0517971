/** Small shared vocabulary: optional values, results, and the native integer widths. */
module Wrappers {

  datatype Option<+T> = None | Some(value: T)

  /** `Ok` carries the value of a successful call, `Err` the reason it failed. */
  datatype Result<+T, +E> = Ok(value: T) | Err(error: E)

  /** The unit value returned by operations that only succeed or fail. */
  datatype Unit = Unit

  type u8 = x: int | 0 <= x < 0x100
  type u16 = x: int | 0 <= x < 0x1_0000
  type u32 = x: int | 0 <= x < 0x1_0000_0000
  type i32 = x: int | -0x8000_0000 <= x < 0x8000_0000

  /** The largest value of the driver's `ULONG`, an unsigned 32-bit integer. */
  const ULONG_MAX: int := 0xFFFF_FFFF
}
