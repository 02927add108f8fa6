/** Rust's `Option` and `Result`, as the modelled code uses them. */
module RustStd {

  datatype Option<+T> = None | Some(value: T)

  datatype Result<+T, +E> = Ok(value: T) | Err(error: E)

  /** `u16`: the width `parse_u16` accumulates into. */
  newtype u16 = x: int | 0 <= x < 0x1_0000

  /** `u32`: the width of a card's `quantity`. */
  newtype u32 = x: int | 0 <= x < 0x1_0000_0000

  /** A byte, as held by `bytes::Bytes`. */
  type Byte = bv8

  /** `std::cmp::min`. */
  function Min(a: int, b: int): int
  {
    if a <= b then a else b
  }
}
