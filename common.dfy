/** Small value types shared by every module of the client model. */
module Common {

  /** Rust's `Option<T>`. */
  datatype Option<+T> = None | Some(value: T)

  /** Rust's `u16`: the width the client declares for every identifier. */
  newtype u16 = x: int | 0 <= x < 0x1_0000
}
