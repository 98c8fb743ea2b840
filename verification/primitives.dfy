/** The foreign scalars the value objects wrap: a 128-bit UUID (from the `uuid`
    crate) and Rust's `i32`. */
module Primitives {

  /** A UUID is an opaque 128-bit value; only its identity matters here. */
  type Uuid = x: nat | x < 0x1_0000_0000_0000_0000_0000_0000_0000_0000

  /** Rust's `i32`. */
  newtype Int32 = x: int | InInt32Range(x)

  /** The values an `i32` can hold. */
  predicate InInt32Range(x: int) {
    -0x8000_0000 <= x < 0x8000_0000
  }
}
