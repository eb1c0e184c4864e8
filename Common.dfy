/** Machine types and the optional value shared by every module of the model. */
module Common {

  /** An unsigned 8-bit value (Rust `u8`). */
  newtype byte = x: int | 0 <= x < 0x100

  /** An unsigned 64-bit value (Rust `u64`), the type of a file hash. */
  newtype u64 = x: int | 0 <= x < 0x1_0000_0000_0000_0000

  /** Rust's `Option<T>`. */
  datatype Option<+T> = None | Some(value: T)
}
