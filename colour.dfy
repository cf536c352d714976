/**
 * `rgba` of plug.c and play.c: turn "#RRGGBB" into a raylib `Color` by
 * parsing everything after the first character with `strtol(.., 16)` and
 * taking bits 16-23, 8-15 and 0-7 of the result; alpha is always 255.
 */
module Colour {
  import opened Wrappers

  type Byte = x: int | 0 <= x < 256

  /** raylib's `Color`: four unsigned chars. */
  datatype Color = Color(r: Byte, g: Byte, b: Byte, a: Byte)

  /** `LONG_MAX` of an LP64 C library, where `strtol` saturates. */
  const LongMax: int := 0x7FFF_FFFF_FFFF_FFFF

  function HexDigit(c: char): (d: Option<nat>)
    ensures d.Some? ==> d.value < 16
  {
    if '0' <= c <= '9' then Some(c as int - '0' as int)
    else if 'a' <= c <= 'f' then Some(c as int - 'a' as int + 10)
    else if 'A' <= c <= 'F' then Some(c as int - 'A' as int + 10)
    else None
  }

  predicate IsHexDigit(c: char) { HexDigit(c).Some? }

  /** The number of hexadecimal digits `s` starts with: where `strtol` stops. */
  function HexRun(s: string): (n: nat)
    ensures n <= |s|
    ensures forall k :: 0 <= k < n ==> IsHexDigit(s[k])
    ensures n < |s| ==> !IsHexDigit(s[n])
  {
    if s == [] || !IsHexDigit(s[0]) then 0 else 1 + HexRun(s[1..])
  }

  /** The value of a string of hexadecimal digits, most significant first. */
  function HexValue(digits: string): nat
    requires forall k :: 0 <= k < |digits| ==> IsHexDigit(digits[k])
  {
    if digits == [] then 0
    else
      assert IsHexDigit(digits[|digits| - 1]);
      16 * HexValue(digits[..|digits| - 1]) + HexDigit(digits[|digits| - 1]).value
  }

  /**
   * `strtol(s, NULL, 16)` on a string that starts with its digits: the value
   * of the leading hexadecimal digits (0 when there are none), saturated at
   * LONG_MAX.
   */
  function Strtol16(s: string): (v: int)
    ensures 0 <= v <= LongMax
  {
    var x := HexValue(s[..HexRun(s)]);
    if x > LongMax then LongMax else x
  }

  /** `rgba(hex)`: `(strtol(hex + 1, NULL, 16) >> shift) & 0xFF` per channel,
      which for a non-negative value is `(v / 2^shift) % 256`. */
  function Rgba(hex: string): (c: Color)
    requires |hex| >= 1
    ensures c.a == 255
  {
    var v := Strtol16(hex[1..]);
    Color((v / 0x1_0000) % 0x100, (v / 0x100) % 0x100, v % 0x100, 255)
  }

  /** The byte a pair of hexadecimal digits spells, high digit first. */
  function Pair(hi: char, lo: char): Byte
    requires IsHexDigit(hi) && IsHexDigit(lo)
  {
    16 * HexDigit(hi).value + HexDigit(lo).value
  }

  /** "#RRGGBB": a first character and six hexadecimal digits. */
  predicate IsTriplet(hex: string)
  {
    |hex| == 7 && forall k :: 1 <= k < 7 ==> IsHexDigit(hex[k])
  }

  /** Six hexadecimal digits are the three bytes they spell, high first. */
  lemma SixDigitValue(s: string)
    requires |s| == 6 && forall k :: 0 <= k < 6 ==> IsHexDigit(s[k])
    ensures HexValue(s) == Pair(s[0], s[1]) * 0x1_0000 + Pair(s[2], s[3]) * 0x100 + Pair(s[4], s[5])
  {
    assert s[..5][..4] == s[..4] && s[..4][..3] == s[..3] && s[..3][..2] == s[..2];
    assert s[..2][..1] == s[..1] && s[..1][..0] == [];
    var d := seq(6, k requires 0 <= k < 6 => HexDigit(s[k]).value);
    calc {
      HexValue(s);
      16 * HexValue(s[..5]) + d[5];
      16 * (16 * HexValue(s[..4]) + d[4]) + d[5];
      16 * (16 * (16 * HexValue(s[..3]) + d[3]) + d[4]) + d[5];
      16 * (16 * (16 * (16 * HexValue(s[..2]) + d[2]) + d[3]) + d[4]) + d[5];
      16 * (16 * (16 * (16 * (16 * HexValue(s[..1]) + d[1]) + d[2]) + d[3]) + d[4]) + d[5];
      16 * (16 * (16 * (16 * (16 * d[0] + d[1]) + d[2]) + d[3]) + d[4]) + d[5];
      (16 * d[0] + d[1]) * 0x1_0000 + (16 * d[2] + d[3]) * 0x100 + (16 * d[4] + d[5]);
    }
  }

  /** Dividing `q * 256 + r` by 256, for a remainder `r` below 256. */
  lemma DivMod256(v: int, q: int, r: int)
    requires 0 <= r < 0x100 && v == q * 0x100 + r
    ensures v / 0x100 == q && v % 0x100 == r
  {
  }

  /** Dividing `q * 65536 + r` by 65536, for a remainder `r` below 65536. */
  lemma DivMod65536(v: int, q: int, r: int)
    requires 0 <= r < 0x1_0000 && v == q * 0x1_0000 + r
    ensures v / 0x1_0000 == q && v % 0x1_0000 == r
  {
  }

  /** For "#RRGGBB", each channel is the byte its digit pair spells and alpha is 255. */
  lemma {:induction false} RgbaOfTriplet(hex: string)
    requires IsTriplet(hex)
    ensures Rgba(hex) == Color(Pair(hex[1], hex[2]), Pair(hex[3], hex[4]), Pair(hex[5], hex[6]), 255)
  {
    var s := hex[1..];
    assert forall k :: 0 <= k < 6 ==> IsHexDigit(s[k]);
    assert HexRun(s) == 6;
    assert s[..6] == s;
    SixDigitValue(s);
    var R: int, G: int, B: int := Pair(hex[1], hex[2]), Pair(hex[3], hex[4]), Pair(hex[5], hex[6]);
    var v: int := R * 0x1_0000 + G * 0x100 + B;
    assert Strtol16(s) == v;
    DivMod65536(v, R, G * 0x100 + B);
    DivMod256(R, 0, R);
    DivMod256(v, R * 0x100 + G, B);
    DivMod256(R * 0x100 + G, R, G);
  }

  /** The digit `d` as an upper-case hexadecimal character. */
  function HexChar(d: nat): (c: char)
    requires d < 16
    ensures IsHexDigit(c) && HexDigit(c).value == d
  {
    if d < 10 then ('0' as int + d) as char else ('A' as int + d - 10) as char
  }

  /** The "#RRGGBB" form of a colour's red, green and blue bytes. */
  function ToHex(c: Color): (hex: string)
    ensures IsTriplet(hex) && hex[0] == '#'
  {
    ['#', HexChar(c.r / 16), HexChar(c.r % 16), HexChar(c.g / 16), HexChar(c.g % 16),
     HexChar(c.b / 16), HexChar(c.b % 16)]
  }

  /** `rgba` inverts writing an opaque colour as "#RRGGBB". */
  lemma {:induction false} RgbaRoundTrip(c: Color)
    requires c.a == 255
    ensures Rgba(ToHex(c)) == c
  {
    RgbaOfTriplet(ToHex(c));
  }

  /** `BACKGROUND_COLOR`, `rgba("#181818")`, is the dark grey {24, 24, 24, 255}
      that src/plug.c writes out literally. */
  lemma BackgroundColour()
    ensures Rgba("#181818") == Color(24, 24, 24, 255)
  {
    RgbaOfTriplet("#181818");
  }
}
