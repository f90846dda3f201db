/** Machine integers and failure-carrying wrappers shared by every module of
    the renderer model. Rust's fixed-width integers become subset newtypes of
    `int`; a Rust `as u32` cast from `usize` is written out as `Wrap32`. */
module Base {

  const U32_LIMIT: int := 0x1_0000_0000

  /** `size_of::<u32>()`. */
  const U32_BYTES: nat := 4

  newtype byte = x: int | 0 <= x < 256
  newtype u32 = x: int | 0 <= x < 0x1_0000_0000

  /** The value a Rust `as u32` cast gives for a non-negative `usize`:
      the low 32 bits. */
  function Wrap32(n: nat): (r: u32)
    ensures n < U32_LIMIT ==> r as int == n
    ensures (r as int - n) % U32_LIMIT == 0
  {
    (n % U32_LIMIT) as u32
  }

  datatype Option<+T> = None | Some(value: T)

  datatype Result<+T, +E> = Success(value: T) | Failure(error: E)
}
