/** Small datatypes shared by every module of the model. */
module Common {
  datatype Option<+T> = None | Some(value: T)

  /** A reply that is either a value or an error, as the JSON API returns it. */
  datatype Result<+T, +E> = Ok(value: T) | Err(error: E)

  type Byte = b: nat | b < 256
  type Bytes = seq<Byte>

  /** The number of values of a 64-bit unsigned counter. */
  const U64: nat := 0x1_0000_0000_0000_0000
}
