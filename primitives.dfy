/** Machine integer types of the Rust source, the casts between them, and the
    Option/Result wrappers used for its return values. */
module Primitives {

  newtype i16 = x: int | -0x8000 <= x < 0x8000
  newtype i32 = x: int | -0x8000_0000 <= x < 0x8000_0000
  newtype u32 = x: int | 0 <= x < 0x1_0000_0000
  newtype byte = x: int | 0 <= x < 0x100

  const TwoTo16: int := 0x1_0000
  const TwoTo32: int := 0x1_0000_0000
  /** `usize` is 64 bits wide on the targets the program is built for. */
  const TwoTo64: int := 0x1_0000_0000_0000_0000

  datatype Option<T> = None | Some(value: T)

  datatype Result<T, E> = Ok(value: T) | Err(error: E)

  /** `x as u32` on an `i32`: the same 32-bit pattern read as unsigned. */
  function I32AsU32(x: i32): (r: u32)
    ensures r as int % TwoTo32 == x as int % TwoTo32
    ensures 0 <= x ==> r as int == x as int
  {
    if x < 0 then (x as int + TwoTo32) as u32 else x as int as u32
  }

  /** `x as usize` on an `i32`: sign extension to 64 bits. */
  function I32AsUsize(x: i32): (r: nat)
    ensures r < TwoTo64
    ensures r % TwoTo64 == x as int % TwoTo64
    ensures 0 <= x ==> r == x as int
  {
    if x < 0 then x as int + TwoTo64 else x as int
  }

  /** The signed 16-bit value whose two's-complement pattern is `bits`
      (the `as u16` cast in the other direction keeps the same bits). */
  function AsI16(bits: bv16): (x: i16)
    ensures x as int % TwoTo16 == bits as int
  {
    if bits as int < 0x8000 then bits as int as i16 else (bits as int - TwoTo16) as i16
  }
}
