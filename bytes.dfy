/** The unsigned 8-bit integer of the Rust source. */
module Bytes {
  type byte = bv8
}
