/**
 * Text renderings of integers used on the wire: the base-10 rendering that
 * Swift's `String(_: Int64)` produces, and the lowercase hexadecimal rendering
 * of a byte array (`toHexString`).  Each rendering is paired with a parser and
 * a proof that the parser recovers the rendered value.
 */
module Numerals {
  import opened Wrappers

  const Int64Min: int := -0x8000_0000_0000_0000
  const Int64Max: int := 0x7FFF_FFFF_FFFF_FFFF

  /** Swift's `Int64`; `Int` has the same range on the 64-bit platforms the source targets. */
  type Int64 = x: int | Int64Min <= x <= Int64Max

  type byte = x: int | 0 <= x < 256

  predicate IsDigit(ch: char) {
    '0' <= ch <= '9'
  }

  function DigitChar(d: nat): (ch: char)
    requires d < 10
    ensures IsDigit(ch) && (ch as int) - ('0' as int) == d
  {
    ('0' as int + d) as char
  }

  function DigitValue(ch: char): nat
    requires IsDigit(ch)
  {
    (ch as int) - ('0' as int)
  }

  /** Base-10 digits of `n`, most significant first, without leading zeros. */
  function NatDigits(n: nat): (s: string)
    ensures |s| >= 1
    ensures forall i | 0 <= i < |s| :: IsDigit(s[i])
    ensures |s| > 1 ==> s[0] != '0'
  {
    if n < 10 then [DigitChar(n)] else NatDigits(n / 10) + [DigitChar(n % 10)]
  }

  /** `String(n)` for an integer: a leading '-' for negative values, then the digits of |n|. */
  function Decimal(n: int): (s: string)
    ensures |s| >= 1
    ensures n < 0 <==> s[0] == '-'
  {
    if n < 0 then "-" + NatDigits(-n) else NatDigits(n)
  }

  /** A non-empty run of digits read as a natural number (leading zeros allowed). */
  function ParseNat(s: string): (r: Option<nat>)
    ensures r.Some? <==> |s| >= 1 && forall i | 0 <= i < |s| :: IsDigit(s[i])
  {
    if |s| == 0 || !IsDigit(s[|s| - 1]) then None
    else if |s| == 1 then Some(DigitValue(s[0]))
    else match ParseNat(s[..|s| - 1])
      case None => None
      case Some(p) => Some(p * 10 + DigitValue(s[|s| - 1]))
  }

  /**
   * Swift's `Int64(_: String)`: an optional sign, then digits, within the
   * Int64 range.  A leading `+` is accepted, as Swift accepts it, so "+5"
   * and "5" both read as 5; `Decimal` never writes a `+`.
   */
  function ParseInt64(s: string): (r: Option<Int64>)
    ensures r.Some? ==> |s| >= 1 && (IsDigit(s[0]) || s[0] == '-' || s[0] == '+')
    ensures r.Some? ==> forall i | 1 <= i < |s| :: IsDigit(s[i])
    ensures r.Some? && 1 <= |s| && s[0] == '-' ==> r.value <= 0
    ensures r.Some? && 1 <= |s| && s[0] != '-' ==> r.value >= 0
  {
    var (negative, digits) :=
      if |s| >= 1 && (s[0] == '-' || s[0] == '+') then (s[0] == '-', s[1..]) else (false, s);
    match ParseNat(digits)
    case None => None
    case Some(m) =>
      var v: int := if negative then -(m as int) else m;
      if Int64Min <= v <= Int64Max then Some(v) else None
  }

  lemma {:induction false} NatDigitsRoundTrip(n: nat)
    ensures ParseNat(NatDigits(n)) == Some(n)
  {
    if n >= 10 {
      var s := NatDigits(n);
      NatDigitsRoundTrip(n / 10);
      assert s[..|s| - 1] == NatDigits(n / 10);
      assert DigitValue(s[|s| - 1]) == n % 10;
    }
  }

  /** The base-10 rendering of any Int64 parses back to the same Int64. */
  lemma DecimalRoundTrip(n: Int64)
    ensures ParseInt64(Decimal(n)) == Some(n)
  {
    var s := Decimal(n);
    if n < 0 {
      var digits := NatDigits(-(n as int));
      NatDigitsRoundTrip(-(n as int));
      assert s == "-" + digits;
      assert s[1..] == digits;
    } else {
      NatDigitsRoundTrip(n);
      assert IsDigit(s[0]);
    }
  }

  predicate IsLowerHex(ch: char) {
    '0' <= ch <= '9' || 'a' <= ch <= 'f'
  }

  /** The lowercase hexadecimal digit of a nibble. */
  function HexDigit(d: nat): (ch: char)
    requires d < 16
    ensures IsLowerHex(ch)
  {
    if d < 10 then ('0' as int + d) as char else ('a' as int + d - 10) as char
  }

  function HexValue(ch: char): (v: nat)
    requires IsLowerHex(ch)
    ensures v < 16 && HexDigit(v) == ch
  {
    if ch <= '9' then (ch as int) - ('0' as int) else (ch as int) - ('a' as int) + 10
  }

  /** `toHexString`: two lowercase hexadecimal characters per byte, high nibble first. */
  function HexString(bytes: seq<byte>): (s: string)
    ensures |s| == 2 * |bytes|
    ensures forall i | 0 <= i < |s| :: IsLowerHex(s[i])
  {
    if bytes == [] then ""
    else [HexDigit(bytes[0] / 16), HexDigit(bytes[0] % 16)] + HexString(bytes[1..])
  }

  /** Reads pairs of lowercase hexadecimal characters back into bytes. */
  function ParseHex(s: string): Option<seq<byte>>
    decreases |s|
  {
    if s == [] then Some([])
    else if |s| == 1 || !IsLowerHex(s[0]) || !IsLowerHex(s[1]) then None
    else match ParseHex(s[2..])
      case None => None
      case Some(rest) => Some([HexValue(s[0]) * 16 + HexValue(s[1])] + rest)
  }

  lemma {:induction false} HexRoundTrip(bytes: seq<byte>)
    ensures ParseHex(HexString(bytes)) == Some(bytes)
  {
    if bytes != [] {
      var s := HexString(bytes);
      HexRoundTrip(bytes[1..]);
      assert s[2..] == HexString(bytes[1..]);
      assert HexValue(s[0]) == bytes[0] / 16;
      assert HexValue(s[1]) == bytes[0] % 16;
      assert [bytes[0]] + bytes[1..] == bytes;
    }
  }
}
