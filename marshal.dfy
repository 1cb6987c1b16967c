/**
 * `System.Runtime.InteropServices.Marshal.ReadInt32` / `ReadInt64` on a native buffer:
 * little-endian (the Windows host byte order), two's-complement reads at a byte offset,
 * together with the matching writers, so that every read has an inverse to be checked against.
 */
module Marshal {

  /** An unsigned 8-bit value as the native buffers hold it. */
  newtype byte = b: int | 0 <= b < 256

  /** 256 to the power n: the number of values n bytes can hold. */
  function Pow256(n: nat): (r: nat)
    ensures r >= 1
  {
    if n == 0 then 1 else 256 * Pow256(n - 1)
  }

  /** The unsigned value of `s` read least significant byte first. */
  function LeUnsigned(s: seq<byte>): (r: nat)
    ensures r < Pow256(|s|)
  {
    if |s| == 0 then 0
    else
      var rest := LeUnsigned(s[1..]);
      assert rest <= Pow256(|s| - 1) - 1;
      assert 256 * rest <= 256 * Pow256(|s| - 1) - 256;
      (s[0] as int) + 256 * rest
  }

  /** The n least significant bytes of u, least significant first (u is taken modulo 256^n). */
  function LeBytes(u: nat, n: nat): (s: seq<byte>)
    ensures |s| == n
  {
    if n == 0 then [] else [(u % 256) as byte] + LeBytes(u / 256, n - 1)
  }

  /** Splitting a value into its lowest byte and the rest. */
  lemma DivMod256(u: nat, p: nat)
    requires u < 256 * p
    ensures u == (u % 256) + 256 * (u / 256)
    ensures u / 256 < p
  {
  }

  /** Reading back what LeBytes wrote gives the value, when it fits in n bytes. */
  lemma {:induction false} LeUnsignedOfLeBytes(u: nat, n: nat)
    requires u < Pow256(n)
    ensures LeUnsigned(LeBytes(u, n)) == u
  {
    if n > 0 {
      var s := LeBytes(u, n);
      DivMod256(u, Pow256(n - 1));
      assert s[1..] == LeBytes(u / 256, n - 1);
      LeUnsignedOfLeBytes(u / 256, n - 1);
      assert (s[0] as int) == u % 256;
      assert LeUnsigned(s) == (s[0] as int) + 256 * LeUnsigned(s[1..]);
    }
  }

  /** Writing back what LeUnsigned read gives the same bytes. */
  lemma {:induction false} LeBytesOfLeUnsigned(s: seq<byte>)
    ensures LeBytes(LeUnsigned(s), |s|) == s
  {
    if |s| > 0 {
      var u := LeUnsigned(s);
      var b := s[0] as int;
      var rest := LeUnsigned(s[1..]);
      assert u == b + 256 * rest;
      assert b < 256;
      assert u % 256 == b && u / 256 == rest;
      LeBytesOfLeUnsigned(s[1..]);
      assert ((u % 256) as byte) == s[0];
      assert LeBytes(u, |s|) == [(u % 256) as byte] + LeBytes(rest, |s| - 1);
    }
  }

  /** The two's-complement reading of an n-byte unsigned value. */
  function Signed(u: nat, n: nat): int
  {
    if 2 * u >= Pow256(n) then u - Pow256(n) else u
  }

  /** The n-byte two's-complement bit pattern of a value that fits in n bytes as a signed integer. */
  function Unsigned(x: int, n: nat): (u: nat)
    requires 0 <= 2 * x + Pow256(n) && 2 * x < Pow256(n)
    ensures u < Pow256(n)
  {
    if x < 0 then x + Pow256(n) else x
  }

  /** Signed undoes Unsigned on the values an n-byte signed integer can hold. */
  lemma SignedOfUnsigned(x: int, n: nat)
    requires n > 0
    requires 0 <= 2 * x + Pow256(n) && 2 * x < Pow256(n)
    ensures Signed(Unsigned(x, n), n) == x
  {
  }

  const Int32Min: int := -0x8000_0000
  const Int32Max: int := 0x7FFF_FFFF
  const Int64Min: int := -0x8000_0000_0000_0000
  const Int64Max: int := 0x7FFF_FFFF_FFFF_FFFF

  lemma Pow256Of4And8()
    ensures Pow256(4) == 0x1_0000_0000
    ensures Pow256(8) == 0x1_0000_0000_0000_0000
  {
  }

  /** `Marshal.ReadInt32(ptr, offset)` */
  function ReadInt32(buf: seq<byte>, offset: nat): (r: int)
    requires offset + 4 <= |buf|
    ensures Int32Min <= r <= Int32Max
  {
    Pow256Of4And8();
    Signed(LeUnsigned(buf[offset..offset + 4]), 4)
  }

  /** `Marshal.ReadInt64(ptr, offset)` */
  function ReadInt64(buf: seq<byte>, offset: nat): (r: int)
    requires offset + 8 <= |buf|
    ensures Int64Min <= r <= Int64Max
  {
    Pow256Of4And8();
    Signed(LeUnsigned(buf[offset..offset + 8]), 8)
  }

  /** The four bytes `Marshal.WriteInt32` stores for x. */
  function Int32Bytes(x: int): (s: seq<byte>)
    requires Int32Min <= x <= Int32Max
    ensures |s| == 4
  {
    Pow256Of4And8();
    LeBytes(Unsigned(x, 4), 4)
  }

  /** The eight bytes `Marshal.WriteInt64` stores for x. */
  function Int64Bytes(x: int): (s: seq<byte>)
    requires Int64Min <= x <= Int64Max
    ensures |s| == 8
  {
    Pow256Of4And8();
    LeBytes(Unsigned(x, 8), 8)
  }

  /** Reading an int32 back at any offset where it was written gives the written value. */
  lemma {:induction false} ReadInt32OfInt32Bytes(pre: seq<byte>, x: int, post: seq<byte>)
    requires Int32Min <= x <= Int32Max
    ensures ReadInt32(pre + Int32Bytes(x) + post, |pre|) == x
  {
    var buf := pre + Int32Bytes(x) + post;
    assert buf[|pre|..|pre| + 4] == Int32Bytes(x);
    Pow256Of4And8();
    LeUnsignedOfLeBytes(Unsigned(x, 4), 4);
    SignedOfUnsigned(x, 4);
  }

  /** Reading an int64 back at any offset where it was written gives the written value. */
  lemma {:induction false} ReadInt64OfInt64Bytes(pre: seq<byte>, x: int, post: seq<byte>)
    requires Int64Min <= x <= Int64Max
    ensures ReadInt64(pre + Int64Bytes(x) + post, |pre|) == x
  {
    var buf := pre + Int64Bytes(x) + post;
    assert buf[|pre|..|pre| + 8] == Int64Bytes(x);
    Pow256Of4And8();
    LeUnsignedOfLeBytes(Unsigned(x, 8), 8);
    SignedOfUnsigned(x, 8);
  }

  /** Writing back what ReadInt32 read reproduces the four bytes. */
  lemma {:induction false} Int32BytesOfReadInt32(buf: seq<byte>, offset: nat)
    requires offset + 4 <= |buf|
    ensures Int32Bytes(ReadInt32(buf, offset)) == buf[offset..offset + 4]
  {
    var s := buf[offset..offset + 4];
    Pow256Of4And8();
    LeBytesOfLeUnsigned(s);
    assert Unsigned(ReadInt32(buf, offset), 4) == LeUnsigned(s);
  }

  /** Writing back what ReadInt64 read reproduces the eight bytes. */
  lemma {:induction false} Int64BytesOfReadInt64(buf: seq<byte>, offset: nat)
    requires offset + 8 <= |buf|
    ensures Int64Bytes(ReadInt64(buf, offset)) == buf[offset..offset + 8]
  {
    var s := buf[offset..offset + 8];
    Pow256Of4And8();
    LeBytesOfLeUnsigned(s);
    assert Unsigned(ReadInt64(buf, offset), 8) == LeUnsigned(s);
  }
}
