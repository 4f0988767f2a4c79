/** The fixed-width numbers the records carry. */
module Numbers {

  /** Rust's `i64`. */
  type I64 = x: int | -0x8000_0000_0000_0000 <= x < 0x8000_0000_0000_0000

  /** Rust's `u64`. */
  type U64 = x: int | 0 <= x < 0x1_0000_0000_0000_0000

  /** An `f64`, kept as its bit pattern: the job only copies these values
      from one record to another and never computes with them. */
  datatype F64 = F64(bits: bv64)
}
