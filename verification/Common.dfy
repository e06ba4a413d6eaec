/** Failure-carrying datatypes and the fixed-width integers the log engine computes with. */
module Common {

  datatype Option<+T> = None | Some(value: T)

  datatype Result<+T, +E> = Ok(value: T) | Err(error: E)

  const U64_SIZE: int := 0x1_0000_0000_0000_0000
  const U128_SIZE: int := 0x1_0000_0000_0000_0000_0000_0000_0000_0000

  type u8 = x: int | 0 <= x < 0x100
  type u64 = x: int | 0 <= x < 0x1_0000_0000_0000_0000
  type u128 = x: int | 0 <= x < 0x1_0000_0000_0000_0000_0000_0000_0000_0000

  type Bytes = seq<u8>

  // An optimised build wraps on overflow; every 64-bit sum and difference of the source goes through these two.
  function WrapAdd(a: u64, b: u64): u64 {
    if a + b < U64_SIZE then a + b else a + b - U64_SIZE
  }

  function WrapSub(a: u64, b: u64): u64 {
    if b <= a then a - b else a - b + U64_SIZE
  }
}
