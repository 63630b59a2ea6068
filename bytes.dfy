/** Little-endian fixed-width integers as they are laid out in memory on the
    target (a little-endian RISC-V core), and the C unsigned wrap-around. */
module Bytes {

  type Byte = x: int | 0 <= x < 0x100
  type U16 = x: int | 0 <= x < 0x1_0000
  type U32 = x: int | 0 <= x < 0x1_0000_0000
  type I16 = x: int | -0x8000 <= x < 0x8000

  const TwoTo32: int := 0x1_0000_0000

  /** Truncation of an unbounded value to a C `uint32_t`. */
  function Wrap32(x: nat): (r: U32)
    ensures x < TwoTo32 ==> r == x
    ensures (r - x) % TwoTo32 == 0
  {
    x % TwoTo32
  }

  function Le16(v: U16): (r: seq<Byte>)
    ensures |r| == 2
  {
    [v % 0x100, v / 0x100]
  }

  function Le32(v: U32): (r: seq<Byte>)
    ensures |r| == 4
  {
    [v % 0x100, (v / 0x100) % 0x100, (v / 0x1_0000) % 0x100, v / 0x100_0000]
  }

  /** Reading a `uint16_t` out of two bytes of memory. */
  function ReadLe16(b: seq<Byte>): (r: U16)
    requires |b| == 2
    ensures r % 0x100 == b[0] && r / 0x100 == b[1]
  {
    b[0] as int + 0x100 * b[1] as int
  }

  /** Reading a `uint32_t` out of four bytes of memory. */
  function ReadLe32(b: seq<Byte>): (r: U32)
    requires |b| == 4
    ensures r % 0x100 == b[0]
    ensures r < 0x100_0000 <==> b[3] == 0
  {
    b[0] as int + 0x100 * b[1] as int + 0x1_0000 * b[2] as int + 0x100_0000 * b[3] as int
  }

  lemma Le16RoundTrip(v: U16)
    ensures ReadLe16(Le16(v)) == v
  {
  }

  lemma {:induction false} Le32RoundTrip(v: U32)
    ensures ReadLe32(Le32(v)) == v
  {
    var b0, q0 := v % 0x100, v / 0x100;
    var b1, q1 := q0 % 0x100, q0 / 0x100;
    var b2, b3 := q1 % 0x100, q1 / 0x100;
    assert q1 == v / 0x1_0000;
    assert b3 == v / 0x100_0000;
    assert v == b0 + 0x100 * (b1 + 0x100 * (b2 + 0x100 * b3));
  }

  /** Two equal 32-bit reads came from equal bytes: comparing a chunk id as a
      `uint32_t` is the same as comparing its four bytes. */
  lemma {:induction false} ReadLe32Injective(a: seq<Byte>, b: seq<Byte>)
    requires |a| == 4 && |b| == 4
    ensures ReadLe32(a) == ReadLe32(b) <==> a == b
  {
    if ReadLe32(a) == ReadLe32(b) {
      var v := ReadLe32(a);
      assert a[0] == v % 0x100 == b[0];
      var ra: int := a[1] as int + 0x100 * a[2] as int + 0x1_0000 * a[3] as int;
      var rb: int := b[1] as int + 0x100 * b[2] as int + 0x1_0000 * b[3] as int;
      assert v == a[0] + 0x100 * ra == b[0] + 0x100 * rb;
      assert ra == rb;
      assert a[1] == ra % 0x100 == rb % 0x100 == b[1];
      var sa: int := a[2] as int + 0x100 * a[3] as int;
      var sb: int := b[2] as int + 0x100 * b[3] as int;
      assert ra == a[1] + 0x100 * sa && rb == b[1] + 0x100 * sb;
      assert sa == sb;
      assert a[2] == sa % 0x100 == sb % 0x100 == b[2];
      assert a[3] == b[3];
      assert a == [a[0], a[1], a[2], a[3]] == [b[0], b[1], b[2], b[3]] == b;
    }
  }

  /** Concatenation of a sequence of byte strings (what a sink receives from
      successive writes). */
  function Flatten(pieces: seq<seq<Byte>>): (r: seq<Byte>)
  {
    if pieces == [] then [] else pieces[0] + Flatten(pieces[1..])
  }

  lemma {:induction false} FlattenLength(pieces: seq<seq<Byte>>)
    ensures |Flatten(pieces)| == SumLengths(pieces)
  {
    if pieces != [] {
      FlattenLength(pieces[1..]);
    }
  }

  function SumLengths(pieces: seq<seq<Byte>>): nat
  {
    if pieces == [] then 0 else |pieces[0]| + SumLengths(pieces[1..])
  }
}
