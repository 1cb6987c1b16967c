/**
 * The .NET string conversions the readers and the text builders use: decimal `ToString()` of
 * integers, `bool.ToString()`, the `X8` hexadecimal format, `Guid.ToString()` ("D" format),
 * `string.IsNullOrWhiteSpace`, and the interpolation of a null value (the empty string).
 */
module Text {
  import opened Wrappers
  import opened Marshal
  import opened Guids

  /** The decimal digit character of d. */
  function DigitChar(d: nat): char
    requires d < 10
  {
    "0123456789"[d]
  }

  predicate IsDigit(c: char) {
    '0' <= c <= '9'
  }

  /** The decimal digits of n, without leading zeros. */
  function NatToString(n: nat): (s: string)
    ensures |s| >= 1 && forall i :: 0 <= i < |s| ==> IsDigit(s[i])
    ensures |s| > 1 ==> s[0] != '0'
  {
    if n < 10 then [DigitChar(n)] else NatToString(n / 10) + [DigitChar(n % 10)]
  }

  /** `int.ToString()` with the invariant culture's minus sign. */
  function IntToString(i: int): string {
    if i < 0 then "-" + NatToString(-i) else NatToString(i)
  }

  /** The value of a string of decimal digits. */
  function ParseNat(s: string): nat
    requires forall i :: 0 <= i < |s| ==> IsDigit(s[i])
  {
    if |s| == 0 then 0
    else
      var last := s[|s| - 1];
      assert IsDigit(last);
      10 * ParseNat(s[..|s| - 1]) + (last as int - '0' as int)
  }

  /** The decimal form reads back as the number it was printed from. */
  lemma {:induction false} ParseNatToString(n: nat)
    ensures ParseNat(NatToString(n)) == n
  {
    if n >= 10 {
      var s := NatToString(n);
      assert s[..|s| - 1] == NatToString(n / 10);
      ParseNatToString(n / 10);
    }
  }

  lemma NatToStringInjective(m: nat, n: nat)
    requires NatToString(m) == NatToString(n)
    ensures m == n
  {
    ParseNatToString(m);
    ParseNatToString(n);
  }

  /** Distinct numbers print differently, since printing has an inverse. */
  lemma IntToStringInjective(a: int, b: int)
    requires IntToString(a) == IntToString(b)
    ensures a == b
  {
    var sa, sb := IntToString(a), IntToString(b);
    if a < 0 {
      assert sa[0] == '-';
      if b < 0 {
        assert sa[1..] == NatToString(-a) && sb[1..] == NatToString(-b);
        NatToStringInjective(-a, -b);
      }
    } else if b >= 0 {
      NatToStringInjective(a, b);
    }
  }

  /** `bool.ToString()` */
  function BoolToString(b: bool): string {
    if b then "True" else "False"
  }

  /** The interpolation `{x}` of a nullable string: null prints as nothing. */
  function Interpolate(s: Option<string>): string {
    s.OrElse("")
  }

  /** The interpolation `{x}` of a nullable integer. */
  function InterpolateInt(i: Option<int>): string {
    match i
    case Some(v) => IntToString(v)
    case None => ""
  }

  /** The interpolation `{x}` of a nullable bool. */
  function InterpolateBool(b: Option<bool>): string {
    match b
    case Some(v) => BoolToString(v)
    case None => ""
  }

  function HexDigitUpper(d: nat): char
    requires d < 16
  {
    "0123456789ABCDEF"[d]
  }

  function HexDigitLower(d: nat): char
    requires d < 16
  {
    "0123456789abcdef"[d]
  }

  /** The value of a hexadecimal digit character (either case). */
  function HexValue(c: char): nat {
    if '0' <= c <= '9' then c as int - '0' as int
    else if 'A' <= c <= 'F' then c as int - 'A' as int + 10
    else if 'a' <= c <= 'f' then c as int - 'a' as int + 10
    else 0
  }

  /** The k least significant hexadecimal digits of u, most significant first, upper case. */
  function HexUpper(u: nat, k: nat): (s: string)
    ensures |s| == k
  {
    if k == 0 then "" else HexUpper(u / 16, k - 1) + [HexDigitUpper(u % 16)]
  }

  /** The value of a string of hexadecimal digits. */
  function ParseHex(s: string): nat {
    if |s| == 0 then 0 else 16 * ParseHex(s[..|s| - 1]) + HexValue(s[|s| - 1])
  }

  function Pow16(k: nat): (r: nat)
    ensures r >= 1
  {
    if k == 0 then 1 else 16 * Pow16(k - 1)
  }

  /** Splitting a value into its lowest hexadecimal digit and the rest. */
  lemma DivMod16(u: nat, p: nat)
    requires u < 16 * p
    ensures u == 16 * (u / 16) + u % 16
    ensures u / 16 < p
  {
  }

  /** k hexadecimal digits read back as the value they were printed from. */
  lemma {:induction false} ParseHexUpper(u: nat, k: nat)
    requires u < Pow16(k)
    ensures ParseHex(HexUpper(u, k)) == u
  {
    if k > 0 {
      var s := HexUpper(u, k);
      assert s[..|s| - 1] == HexUpper(u / 16, k - 1);
      DivMod16(u, Pow16(k - 1));
      ParseHexUpper(u / 16, k - 1);
      assert HexValue(s[|s| - 1]) == u % 16;
    }
  }

  /** `{x:X8}` of an int32: the eight upper-case hexadecimal digits of its 32-bit pattern. */
  function HexX8(x: int): (s: string)
    requires Int32Min <= x <= Int32Max
    ensures |s| == 8
  {
    Pow256Of4And8();
    HexUpper(Unsigned(x, 4), 8)
  }

  /** The X8 digits read back as the 32-bit pattern of the number. */
  lemma ParseHexX8(x: int)
    requires Int32Min <= x <= Int32Max
    ensures ParseHex(HexX8(x)) == Unsigned(x, 4)
  {
    Pow256Of4And8();
    assert Pow16(8) == 0x1_0000_0000;
    ParseHexUpper(Unsigned(x, 4), 8);
  }

  /** Two lower-case hexadecimal digits of a byte. */
  function HexByte(b: byte): (s: string)
    ensures |s| == 2
  {
    [HexDigitLower(b as int / 16), HexDigitLower(b as int % 16)]
  }

  function HexBytes(bs: seq<byte>): (s: string)
    ensures |s| == 2 * |bs|
  {
    if |bs| == 0 then "" else HexByte(bs[0]) + HexBytes(bs[1..])
  }

  /**
   * `Guid.ToString()` ("D" format): Data1, Data2 and Data3 are stored little-endian and
   * printed most significant byte first; Data4 is printed in storage order.
   */
  function GuidToString(g: Guid): (s: string)
    ensures |s| == 36
  {
    HexBytes([g[3], g[2], g[1], g[0]]) + "-" + HexBytes([g[5], g[4]]) + "-" + HexBytes([g[7], g[6]])
    + "-" + HexBytes(g[8..10]) + "-" + HexBytes(g[10..16])
  }

  /** `char.IsWhiteSpace`: the Unicode White_Space characters. */
  predicate IsWhiteSpace(c: char) {
    ('\U{0009}' <= c <= '\U{000D}') || c == ' ' || c == '\U{0085}' || c == '\U{00A0}'
    || c == '\U{1680}' || ('\U{2000}' <= c <= '\U{200A}') || c == '\U{2028}' || c == '\U{2029}'
    || c == '\U{202F}' || c == '\U{205F}' || c == '\U{3000}'
  }

  /** `string.IsNullOrWhiteSpace` */
  predicate IsNullOrWhiteSpace(s: Option<string>) {
    match s
    case None => true
    case Some(t) => forall i :: 0 <= i < |t| ==> IsWhiteSpace(t[i])
  }
}
