/** Bytes, optional values and results shared by every component. */
module Base {

  /** One octet. */
  type Byte = b: int | 0 <= b < 256

  /** One more than the largest unsigned 64-bit integer. */
  const TWO_64 := 0x1_0000_0000_0000_0000

  const TWO_63 := 0x8000_0000_0000_0000

  /** One more than the largest unsigned 32-bit integer. */
  const TWO_32 := 0x1_0000_0000

  datatype Option<+T> = None | Some(value: T)

  datatype Result<+T, +E> = Ok(value: T) | Err(error: E)
}
