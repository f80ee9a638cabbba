/**
 Byte strings, Go's fixed-width integers and their big-endian encodings.
 A Go `string` is its bytes, so identifiers and text are byte strings too.
 */
module ByteStrings {

  type byte = x: int | 0 <= x < 256

  type Bytes = seq<byte>

  const TWO_31 := 0x8000_0000
  const TWO_32 := 0x1_0000_0000
  const TWO_63 := 0x8000_0000_0000_0000
  const TWO_64 := 0x1_0000_0000_0000_0000

  type int32 = x: int | -0x8000_0000 <= x < 0x8000_0000

  type int64 = x: int | -0x8000_0000_0000_0000 <= x < 0x8000_0000_0000_0000

  /** Go's conversion of an integer to int32: the low 32 bits, read as two's complement. */
  function WrapInt32(x: int): int32 {
    var u := x % TWO_32;
    if u < TWO_31 then u else u - TWO_32
  }

  /** Go's conversion of an integer to int64: the low 64 bits, read as two's complement. */
  function WrapInt64(x: int): int64 {
    var u := x % TWO_64;
    if u < TWO_63 then u else u - TWO_64
  }

  lemma WrapUndoesUnsigned(v: int64, w: int32)
    ensures WrapInt64(v % TWO_64) == v && WrapInt32(w % TWO_32) == w
  {
  }

  /** Go's integer division by two, which truncates toward zero. */
  function GoHalf(x: int): int {
    if x >= 0 then x / 2 else -((-x) / 2)
  }

  const ZERO32: Bytes := [
    0, 0, 0, 0, 0, 0, 0, 0, 0, 0, 0, 0, 0, 0, 0, 0,
    0, 0, 0, 0, 0, 0, 0, 0, 0, 0, 0, 0, 0, 0, 0, 0]

  // Big-endian encodings

  /** `binary.BigEndian.PutUint32` into a fresh four-byte array. */
  function BigEndian32(v: int): (r: Bytes)
    requires 0 <= v < TWO_32
    ensures |r| == 4
  {
    [v / 0x100_0000, v / 0x1_0000 % 0x100, v / 0x100 % 0x100, v % 0x100]
  }

  function FromBigEndian32(b: Bytes): (v: int)
    requires |b| == 4
    ensures 0 <= v < TWO_32
  {
    var (b0: int, b1: int, b2: int, b3: int) := (b[0], b[1], b[2], b[3]);
    b0 * 0x100_0000 + b1 * 0x1_0000 + b2 * 0x100 + b3
  }

  /** `binary.BigEndian.PutUint64` into a fresh eight-byte array. */
  function BigEndian64(v: int): (r: Bytes)
    requires 0 <= v < TWO_64
    ensures |r| == 8
  {
    BigEndian32(v / TWO_32) + BigEndian32(v % TWO_32)
  }

  function FromBigEndian64(b: Bytes): (v: int)
    requires |b| == 8
    ensures 0 <= v < TWO_64
  {
    FromBigEndian32(b[..4]) * TWO_32 + FromBigEndian32(b[4..])
  }

  lemma BigEndian32RoundTrip(v: int)
    requires 0 <= v < TWO_32
    ensures FromBigEndian32(BigEndian32(v)) == v
  {
    assert v / 0x100 == v / 0x1_0000 * 0x100 + v / 0x100 % 0x100;
    assert v / 0x1_0000 == v / 0x100_0000 * 0x100 + v / 0x1_0000 % 0x100;
  }

  lemma BigEndian64RoundTrip(v: int)
    requires 0 <= v < TWO_64
    ensures FromBigEndian64(BigEndian64(v)) == v
  {
    var b := BigEndian64(v);
    assert b[..4] == BigEndian32(v / TWO_32) && b[4..] == BigEndian32(v % TWO_32);
    BigEndian32RoundTrip(v / TWO_32);
    BigEndian32RoundTrip(v % TWO_32);
  }

  /** Two concatenations whose left parts have equal length agree only part by part. */
  lemma SplitConcat(a: Bytes, b: Bytes, c: Bytes, d: Bytes)
    requires a + b == c + d
    requires |a| == |c|
    ensures a == c && b == d
  {
    assert a == (a + b)[..|a|] == (c + d)[..|c|] == c;
    assert b == (a + b)[|a|..] == (c + d)[|c|..] == d;
  }

  lemma ConcatAssociates(a: Bytes, b: Bytes, c: Bytes)
    ensures (a + b) + c == a + (b + c)
  {
  }
}
