/**
 * RGB colours and their `#RRGGBB` hex code, as produced by `color.name().upper()`.
 */
module Colors {
  import opened Wrappers

  /** One colour channel, 0..255. */
  type Byte = b: int | 0 <= b < 256

  /** A valid QColor, reduced to its red, green and blue channels. */
  datatype Color = Color(red: Byte, green: Byte, blue: Byte)

  /** The colour a freshly created main window shows. */
  const White: Color := Color(255, 255, 255)

  /** An upper-case hexadecimal digit, the only digits `name().upper()` produces. */
  predicate IsHexDigit(ch: char)
  {
    '0' <= ch <= '9' || 'A' <= ch <= 'F'
  }

  /** The digit for a nibble. */
  function HexDigit(n: int): (ch: char)
    requires 0 <= n < 16
    ensures IsHexDigit(ch)
    ensures DigitValue(ch) == n
  {
    if n < 10 then ('0' as int + n) as char else ('A' as int + n - 10) as char
  }

  /** The nibble a digit stands for. */
  function DigitValue(ch: char): (n: int)
    requires IsHexDigit(ch)
    ensures 0 <= n < 16
  {
    if '0' <= ch <= '9' then ch as int - '0' as int else ch as int - 'A' as int + 10
  }

  lemma DigitOfValue(ch: char)
    requires IsHexDigit(ch)
    ensures HexDigit(DigitValue(ch)) == ch
  {
  }

  /** The value of a two-digit pair, high nibble first. */
  function PairValue(hi: char, lo: char): (b: Byte)
    requires IsHexDigit(hi) && IsHexDigit(lo)
  {
    DigitValue(hi) * 16 + DigitValue(lo)
  }

  /** Two digits for one channel, high nibble first. */
  function ByteHex(b: Byte): (s: string)
    ensures |s| == 2 && IsHexDigit(s[0]) && IsHexDigit(s[1])
    ensures PairValue(s[0], s[1]) == b
  {
    [HexDigit(b / 16), HexDigit(b % 16)]
  }

  /**
   * The hex code of a colour: `#` and then two upper-case digits per channel,
   * in the order red, green, blue.
   */
  function HexName(c: Color): (s: string)
    ensures |s| == 7 && s[0] == '#'
    ensures forall i :: 1 <= i < 7 ==> IsHexDigit(s[i])
    ensures PairValue(s[1], s[2]) == c.red
    ensures PairValue(s[3], s[4]) == c.green
    ensures PairValue(s[5], s[6]) == c.blue
  {
    "#" + ByteHex(c.red) + ByteHex(c.green) + ByteHex(c.blue)
  }

  /** A well-formed hex code: `#` and six upper-case digits. */
  predicate IsHexCode(s: string)
  {
    |s| == 7 && s[0] == '#' && forall i :: 1 <= i < 7 ==> IsHexDigit(s[i])
  }

  /** Reads a hex code back into a colour; anything but `#` and six upper-case digits is refused. */
  function ParseHex(s: string): (r: Option<Color>)
    ensures r.Some? <==> IsHexCode(s)
  {
    if IsHexCode(s) then
      Some(Color(PairValue(s[1], s[2]), PairValue(s[3], s[4]), PairValue(s[5], s[6])))
    else
      None
  }

  /** Decoding the hex code of a colour gives back that colour. */
  lemma HexRoundTrip(c: Color)
    ensures ParseHex(HexName(c)) == Some(c)
  {
  }

  /** The only string that decodes to a colour is that colour's hex code. */
  lemma ParseHexCanonical(s: string, c: Color)
    ensures ParseHex(s) == Some(c) <==> s == HexName(c)
  {
    if ParseHex(s) == Some(c) {
      var h := HexName(c);
      PairDigits(s[1], s[2], h[1], h[2]);
      PairDigits(s[3], s[4], h[3], h[4]);
      PairDigits(s[5], s[6], h[5], h[6]);
      assert forall i :: 0 <= i < 7 ==> s[i] == h[i];
    }
  }

  /** A pair value determines both of its digits. */
  lemma PairDigits(a: char, b: char, c: char, d: char)
    requires IsHexDigit(a) && IsHexDigit(b) && IsHexDigit(c) && IsHexDigit(d)
    requires PairValue(a, b) == PairValue(c, d)
    ensures a == c && b == d
  {
    DigitOfValue(a);
    DigitOfValue(b);
    DigitOfValue(c);
    DigitOfValue(d);
  }

  /** Different colours have different hex codes. */
  lemma HexNameInjective(c: Color, d: Color)
    ensures HexName(c) == HexName(d) ==> c == d
  {
    HexRoundTrip(c);
    HexRoundTrip(d);
  }
}
