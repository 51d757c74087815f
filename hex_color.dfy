/**
 * The `#rrggbb` colour strings of the editor: reading the three channels
 * (`parseInt(hex.substring(i, i + 2), 16)` after dropping the `#`) and
 * writing them back (`n.toString(16).padStart(2, '0')`), which the colour
 * blend of the timeline and the dominant-colour list of the logo analysis
 * both use.
 */
module HexColor {

  const LowerHexDigits: string := "0123456789abcdef"

  predicate IsHexChar(c: char)
  {
    ('0' <= c <= '9') || ('a' <= c <= 'f') || ('A' <= c <= 'F')
  }

  predicate IsLowerHexChar(c: char)
  {
    ('0' <= c <= '9') || ('a' <= c <= 'f')
  }

  /** The value of one hexadecimal digit, either case (as `parseInt(_, 16)` reads it). */
  function HexValue(c: char): (v: int)
    requires IsHexChar(c)
    ensures 0 <= v < 16
  {
    if '0' <= c <= '9' then (c as int) - ('0' as int)
    else if 'a' <= c <= 'f' then (c as int) - ('a' as int) + 10
    else (c as int) - ('A' as int) + 10
  }

  /** A well-formed colour: `#` followed by six hexadecimal digits of either case. */
  predicate IsColor(s: string)
  {
    |s| == 7 && s[0] == '#' && forall i :: 1 <= i < 7 ==> IsHexChar(s[i])
  }

  /** A colour as this code writes it: `#` and six lower-case hexadecimal digits. */
  predicate IsLowerColor(s: string)
  {
    |s| == 7 && s[0] == '#' && forall i :: 1 <= i < 7 ==> IsLowerHexChar(s[i])
  }

  datatype Rgb = Rgb(r: int, g: int, b: int)

  predicate IsByte(n: int)
  {
    0 <= n < 256
  }

  predicate ValidRgb(c: Rgb)
  {
    IsByte(c.r) && IsByte(c.g) && IsByte(c.b)
  }

  /** `parseInt(hex.substring(i, i + 2), 16)` for two hexadecimal digits. */
  function ParseHexByte(hi: char, lo: char): (n: int)
    requires IsHexChar(hi) && IsHexChar(lo)
    ensures IsByte(n)
  {
    16 * HexValue(hi) + HexValue(lo)
  }

  /** The channels of a colour; `color.replace('#', '')` drops the leading `#`. */
  function DecodeColor(s: string): (c: Rgb)
    requires IsColor(s)
    ensures ValidRgb(c)
  {
    var hex := s[1..];
    Rgb(ParseHexByte(hex[0], hex[1]), ParseHexByte(hex[2], hex[3]), ParseHexByte(hex[4], hex[5]))
  }

  /** `n.toString(16)`: lower-case hexadecimal without leading zeros. */
  function ToHexString(n: nat): (s: string)
    ensures |s| >= 1
    decreases n
  {
    if n < 16 then [LowerHexDigits[n]] else ToHexString(n / 16) + [LowerHexDigits[n % 16]]
  }

  /** `s.padStart(width, fill)` */
  function PadStart(s: string, width: nat, fill: char): (r: string)
    ensures |r| == if |s| >= width then |s| else width
    decreases width - |s|
  {
    if |s| >= width then s else PadStart([fill] + s, width, fill)
  }

  /** One channel as two lower-case hexadecimal digits. */
  function ByteToHex(n: int): (s: string)
    requires IsByte(n)
    ensures s == [LowerHexDigits[n / 16], LowerHexDigits[n % 16]]
  {
    if n < 16 then
      assert n / 16 == 0 && n % 16 == n && LowerHexDigits[0] == '0';
      assert ToHexString(n) == [LowerHexDigits[n]];
      assert ['0'] + [LowerHexDigits[n]] == ['0', LowerHexDigits[n]];
      assert PadStart(['0', LowerHexDigits[n]], 2, '0') == ['0', LowerHexDigits[n]];
      PadStart(ToHexString(n), 2, '0')
    else
      assert ToHexString(n / 16) == [LowerHexDigits[n / 16]];
      PadStart(ToHexString(n), 2, '0')
  }

  /** A colour written as `#rrggbb` with lower-case zero-padded channels. */
  function EncodeColor(c: Rgb): (s: string)
    requires ValidRgb(c)
    ensures IsLowerColor(s) && IsColor(s)
  {
    HexDigitsLower();
    var s := "#" + ByteToHex(c.r) + ByteToHex(c.g) + ByteToHex(c.b);
    assert s == ['#', LowerHexDigits[c.r / 16], LowerHexDigits[c.r % 16],
                      LowerHexDigits[c.g / 16], LowerHexDigits[c.g % 16],
                      LowerHexDigits[c.b / 16], LowerHexDigits[c.b % 16]];
    s
  }

  lemma HexDigitsLower()
    ensures forall d :: 0 <= d < 16 ==> IsLowerHexChar(LowerHexDigits[d])
  {
  }

  lemma HexDigitRoundTrip(d: int)
    requires 0 <= d < 16
    ensures IsLowerHexChar(LowerHexDigits[d]) && HexValue(LowerHexDigits[d]) == d
  {
  }

  /** Writing a colour and reading it back gives the same channels. */
  lemma EncodeDecode(c: Rgb)
    requires ValidRgb(c)
    ensures DecodeColor(EncodeColor(c)) == c
  {
    var s := EncodeColor(c);
    HexDigitRoundTrip(c.r / 16); HexDigitRoundTrip(c.r % 16);
    HexDigitRoundTrip(c.g / 16); HexDigitRoundTrip(c.g % 16);
    HexDigitRoundTrip(c.b / 16); HexDigitRoundTrip(c.b % 16);
    assert s[1..] == ByteToHex(c.r) + ByteToHex(c.g) + ByteToHex(c.b);
  }

  lemma LowerHexCharRoundTrip(c: char)
    requires IsLowerHexChar(c)
    ensures LowerHexDigits[HexValue(c)] == c
  {
  }

  lemma ByteRoundTrip(hi: char, lo: char)
    requires IsLowerHexChar(hi) && IsLowerHexChar(lo)
    ensures ByteToHex(ParseHexByte(hi, lo)) == [hi, lo]
  {
    LowerHexCharRoundTrip(hi);
    LowerHexCharRoundTrip(lo);
    var v := ParseHexByte(hi, lo);
    assert v / 16 == HexValue(hi) && v % 16 == HexValue(lo);
  }

  /** Reading a lower-case colour and writing it back gives the same string. */
  lemma DecodeEncode(s: string)
    requires IsLowerColor(s)
    ensures EncodeColor(DecodeColor(s)) == s
  {
    assert IsLowerHexChar(s[1]) && IsLowerHexChar(s[2]);
    assert IsLowerHexChar(s[3]) && IsLowerHexChar(s[4]);
    assert IsLowerHexChar(s[5]) && IsLowerHexChar(s[6]);
    ByteRoundTrip(s[1], s[2]);
    ByteRoundTrip(s[3], s[4]);
    ByteRoundTrip(s[5], s[6]);
    assert s == "#" + [s[1], s[2]] + [s[3], s[4]] + [s[5], s[6]];
  }
}
