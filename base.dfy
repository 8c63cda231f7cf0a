/** Shared vocabulary of the model: optional and fallible values, machine
    integers, the byte encoding used by `cast_slice`, and opaque GPU handles
    handed out by a device. */
module Base {

  datatype Option<T> = None | Some(value: T)

  datatype Result<T, E> = Ok(value: T) | Err(error: E)

  type byte = x: int | 0 <= x < 0x100

  type u32 = x: int | 0 <= x < 0x1_0000_0000

  type i32 = x: int | -0x8000_0000 <= x < 0x8000_0000

  const I32_MAX: i32 := 0x7FFF_FFFF

  /** An `f32` is carried as its IEEE-754 bit pattern. The model copies floats
      and writes them to buffers; the only arithmetic it takes from them is
      telling a NaN apart, which the YAML text of a material needs. */
  type f32 = u32

  /** All exponent bits set and a non-zero mantissa. */
  predicate IsNaN(x: f32) {
    (x / 0x80_0000) % 0x100 == 0xFF && x % 0x80_0000 != 0
  }

  /** Bit pattern of `f32::NAN`, the NaN every `.nan` in YAML text reads as. */
  const F32_NAN: f32 := 0x7FC0_0000

  /** Bit pattern of 0.0. */
  const F32_ZERO: f32 := 0

  /** Bit pattern of 1.0. */
  const F32_ONE: f32 := 0x3F80_0000

  /** Little-endian bytes of one 32-bit word, as the engine's `cast_slice`
      lays them out on the (little-endian) targets wgpu runs on. */
  function WordBytes(x: u32): (r: seq<byte>)
    ensures |r| == 4
  {
    [x % 0x100, (x / 0x100) % 0x100, (x / 0x1_0000) % 0x100, x / 0x100_0000]
  }

  function WordFromBytes(b: seq<byte>): u32
    requires |b| == 4
  {
    b[0] as int + 0x100 * (b[1] as int) + 0x1_0000 * (b[2] as int) + 0x100_0000 * (b[3] as int)
  }

  lemma WordRoundTrip(x: u32)
    ensures WordFromBytes(WordBytes(x)) == x
  {
    var b := WordBytes(x);
    assert x == x % 0x100 + 0x100 * (x / 0x100);
    assert x / 0x100 == (x / 0x100) % 0x100 + 0x100 * (x / 0x1_0000);
    assert x / 0x1_0000 == (x / 0x1_0000) % 0x100 + 0x100 * (x / 0x100_0000);
  }

  /** `cast_slice` over a slice of 32-bit words. */
  function CastWords(xs: seq<u32>): (r: seq<byte>)
    ensures |r| == 4 * |xs|
  {
    if xs == [] then [] else WordBytes(xs[0]) + CastWords(xs[1..])
  }

  /** Reads a byte slice back as 32-bit words. */
  function WordsFromBytes(b: seq<byte>): (r: seq<u32>)
    requires |b| % 4 == 0
    ensures |r| == |b| / 4
  {
    if b == [] then [] else [WordFromBytes(b[..4])] + WordsFromBytes(b[4..])
  }

  lemma {:induction false} CastWordsRoundTrip(xs: seq<u32>)
    ensures WordsFromBytes(CastWords(xs)) == xs
  {
    if xs != [] {
      var b := CastWords(xs);
      assert b[..4] == WordBytes(xs[0]);
      assert b[4..] == CastWords(xs[1..]);
      WordRoundTrip(xs[0]);
      CastWordsRoundTrip(xs[1..]);
    }
  }

  /** Identity of an opaque GPU object (buffer, bind group, layout, pipeline,
      texture, texture view). */
  datatype Handle = Handle(id: nat)

  /** The device, reduced to what the model needs of it: every object it
      creates gets an identity no earlier object had. */
  class Device {
    var next: nat

    constructor ()
      ensures next == 0
    {
      next := 0;
    }

    method Allocate() returns (h: Handle)
      modifies this
      ensures h.id == old(next) && next == old(next) + 1
    {
      h := Handle(next);
      next := next + 1;
    }
  }
}
