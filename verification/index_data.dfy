/** The bytes of an index buffer: a `cast_slice` of the batch's `u32`
    indices, and the reading the GPU makes of them under the 32-bit index
    format. `cast_slice` uses the target's native byte order; the model
    fixes little-endian order. */
module IndexData {
  import opened Base

  /** The four bytes of one index, least significant first. */
  function LeBytes(x: u32): (r: seq<byte>)
    ensures |r| == U32_BYTES
  {
    var q1 := x as int / 256;
    var q2 := q1 / 256;
    var q3 := q2 / 256;
    [(x as int % 256) as byte, (q1 % 256) as byte, (q2 % 256) as byte, q3 as byte]
  }

  /** Partner of `LeBytes`: reassemble an index from four little-endian bytes. */
  function FromLe(b: seq<byte>): u32
    requires |b| == U32_BYTES
  {
    (b[0] as int + 256 * (b[1] as int + 256 * (b[2] as int + 256 * b[3] as int))) as u32
  }

  lemma LeRoundTrip(x: u32)
    ensures FromLe(LeBytes(x)) == x
  {
    var n := x as int;
    var q1 := n / 256;
    var q2 := q1 / 256;
    var q3 := q2 / 256;
    assert n == n % 256 + 256 * q1;
    assert q1 == q1 % 256 + 256 * q2;
    assert q2 == q2 % 256 + 256 * q3;
  }

  /** `bytemuck::cast_slice` of a `u32` slice: the indices' bytes, in order. */
  function CastSlice(xs: seq<u32>): (r: seq<byte>)
    ensures |r| == U32_BYTES * |xs|
  {
    if xs == [] then [] else LeBytes(xs[0]) + CastSlice(xs[1..])
  }

  /** The indices a 32-bit index buffer holding `bytes` presents to a draw. */
  function ReadIndices(bytes: seq<byte>): (r: seq<u32>)
    requires |bytes| % U32_BYTES == 0
    ensures |r| == |bytes| / U32_BYTES
  {
    if |bytes| == 0 then [] else [FromLe(bytes[..U32_BYTES])] + ReadIndices(bytes[U32_BYTES..])
  }

  /** Reading back the cast bytes gives exactly the indices that were cast. */
  lemma {:induction false} ReadCastSlice(xs: seq<u32>)
    ensures ReadIndices(CastSlice(xs)) == xs
  {
    if xs != [] {
      var bytes := CastSlice(xs);
      assert bytes == LeBytes(xs[0]) + CastSlice(xs[1..]);
      assert bytes[..U32_BYTES] == LeBytes(xs[0]);
      assert bytes[U32_BYTES..] == CastSlice(xs[1..]);
      LeRoundTrip(xs[0]);
      ReadCastSlice(xs[1..]);
      assert xs == [xs[0]] + xs[1..];
    }
  }

  /** Casting loses nothing: different index lists give different bytes. */
  lemma CastSliceInjective(xs: seq<u32>, ys: seq<u32>)
    requires CastSlice(xs) == CastSlice(ys)
    ensures xs == ys
  {
    ReadCastSlice(xs);
    ReadCastSlice(ys);
  }
}
