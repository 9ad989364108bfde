/**
 * Digit strings as the bot reads and writes them: the decimal form of an id
 * (`str(id)` for config keys and select-option values, `int(s)` for the
 * channel id typed by an administrator and for the chosen option), and the
 * hexadecimal colour code of an embed (`int(c, 16)` with a fixed fallback).
 *
 * Parsing is strict: a non-empty string of digits and nothing else.
 */
module Numerals {
  import opened Wrappers

  // ---------------------------------------------------------------- decimal

  predicate IsDecimalDigit(c: char) { '0' <= c <= '9' }

  function DigitValue(c: char): (d: nat)
    requires IsDecimalDigit(c)
    ensures d < 10
  {
    c as int - '0' as int
  }

  function DigitChar(d: nat): (c: char)
    requires d < 10
    ensures IsDecimalDigit(c) && DigitValue(c) == d
  {
    (d + '0' as int) as char
  }

  /** All characters are decimal digits and there is at least one. */
  predicate IsDecimal(s: string) {
    |s| > 0 && forall i :: 0 <= i < |s| ==> IsDecimalDigit(s[i])
  }

  /** The value of a string of decimal digits, most significant first. */
  function DecimalValue(s: string): nat
    requires forall i :: 0 <= i < |s| ==> IsDecimalDigit(s[i])
    decreases |s|
  {
    if s == [] then 0
    else 10 * DecimalValue(s[..|s| - 1]) + DigitValue(s[|s| - 1])
  }

  /** `int(s)` on a string: its value, or None where Python raises ValueError. */
  function ParseDecimal(s: string): (r: Option<nat>)
    ensures r.Some? <==> IsDecimal(s)
  {
    if IsDecimal(s) then Some(DecimalValue(s)) else None
  }

  /** `str(n)` for a non-negative integer: no sign, no leading zeros. */
  function DecimalString(n: nat): (s: string)
    ensures IsDecimal(s)
    ensures |s| > 1 ==> s[0] != '0'
    decreases n
  {
    if n < 10 then [DigitChar(n)] else DecimalString(n / 10) + [DigitChar(n % 10)]
  }

  /** Reading back what `str` wrote gives the number again. */
  lemma {:induction false} DecimalRoundTrip(n: nat)
    ensures ParseDecimal(DecimalString(n)) == Some(n)
    decreases n
  {
    var s := DecimalString(n);
    if n >= 10 {
      DecimalRoundTrip(n / 10);
      assert s[..|s| - 1] == DecimalString(n / 10);
      assert DigitValue(s[|s| - 1]) == n % 10;
    } else {
      assert s == [DigitChar(n)] && s[..0] == [];
      assert DecimalValue(s) == 10 * DecimalValue([]) + DigitValue(s[0]);
    }
  }

  /** Distinct numbers have distinct decimal strings. */
  lemma DecimalStringInjective(m: nat, n: nat)
    requires m != n
    ensures DecimalString(m) != DecimalString(n)
  {
    DecimalRoundTrip(m);
    DecimalRoundTrip(n);
  }

  // ------------------------------------------------------------ hexadecimal

  predicate IsHexDigit(c: char) {
    '0' <= c <= '9' || 'a' <= c <= 'f' || 'A' <= c <= 'F'
  }

  function HexDigitValue(c: char): (d: nat)
    requires IsHexDigit(c)
    ensures d < 16
  {
    if '0' <= c <= '9' then c as int - '0' as int
    else if 'a' <= c <= 'f' then c as int - 'a' as int + 10
    else c as int - 'A' as int + 10
  }

  /** All characters are hex digits (either case) and there is at least one. */
  predicate IsHex(s: string) {
    |s| > 0 && forall i :: 0 <= i < |s| ==> IsHexDigit(s[i])
  }

  function HexValue(s: string): nat
    requires forall i :: 0 <= i < |s| ==> IsHexDigit(s[i])
    decreases |s|
  {
    if s == [] then 0 else 16 * HexValue(s[..|s| - 1]) + HexDigitValue(s[|s| - 1])
  }

  function Pow16(k: nat): (p: nat)
    ensures p >= 1
  {
    if k == 0 then 1 else 16 * Pow16(k - 1)
  }

  /** A string of k hex digits denotes a value below 16^k. */
  lemma {:induction false} HexValueBound(s: string)
    requires forall i :: 0 <= i < |s| ==> IsHexDigit(s[i])
    ensures HexValue(s) < Pow16(|s|)
    decreases |s|
  {
    if s != [] {
      var init := s[..|s| - 1];
      assert forall i :: 0 <= i < |init| ==> IsHexDigit(init[i]);
      HexValueBound(init);
    }
  }

  function HexDigitChar(d: nat): (c: char)
    requires d < 16
    ensures IsHexDigit(c) && HexDigitValue(c) == d
  {
    if d < 10 then (d + '0' as int) as char else (d - 10 + 'A' as int) as char
  }

  /** The `width`-digit upper-case code of `n`, zero-padded, as a colour is typed. */
  function HexString(n: nat, width: nat): (s: string)
    ensures |s| == width
    ensures forall i :: 0 <= i < |s| ==> IsHexDigit(s[i])
    decreases width
  {
    if width == 0 then [] else HexString(n / 16, width - 1) + [HexDigitChar(n % 16)]
  }

  /** Reading a code back gives the number again, whenever it fits the width. */
  lemma {:induction false} HexRoundTrip(n: nat, width: nat)
    requires n < Pow16(width)
    ensures HexValue(HexString(n, width)) == n
    decreases width
  {
    if width > 0 {
      var s := HexString(n, width);
      HexRoundTrip(n / 16, width - 1);
      assert s[..|s| - 1] == HexString(n / 16, width - 1);
      assert s[|s| - 1] == HexDigitChar(n % 16);
    }
  }

  /** Colour used when the stored colour code does not parse (`0x00FF00`). */
  const FallbackColor: nat := 0x00FF00

  /**
   * The accent colour of an embed: the base-16 value of the stored code, or
   * the fallback when the code is not a string of hex digits. Never fails.
   */
  function EmbedColor(code: string): (c: nat)
    ensures IsHex(code) ==> c == HexValue(code)
    ensures !IsHex(code) ==> c == FallbackColor
  {
    if IsHex(code) then HexValue(code) else FallbackColor
  }

  /** A six-character code always yields a 24-bit colour, parsed or not. */
  lemma SixDigitColorInRange(code: string)
    requires |code| == 6
    ensures EmbedColor(code) <= 0xFFFFFF
  {
    if IsHex(code) {
      HexValueBound(code);
      assert Pow16(6) == 0x1000000;
    }
  }

  /** Every 24-bit colour has a six-digit code that yields exactly it. */
  lemma EveryColorHasCode(color: nat)
    requires color <= 0xFFFFFF
    ensures IsHex(HexString(color, 6)) && EmbedColor(HexString(color, 6)) == color
  {
    assert Pow16(6) == 0x1000000;
    HexRoundTrip(color, 6);
  }

  /** "GGGGGG" is not hex: the colour falls back instead of failing. */
  lemma InvalidColorFallsBack()
    ensures EmbedColor("GGGGGG") == FallbackColor
  {
    assert !IsHexDigit("GGGGGG"[0]);
  }

  /** Hex digits are read case-insensitively and most significant first. */
  lemma RedColorParses()
    ensures EmbedColor("FF0000") == 0xFF0000 && EmbedColor("ff0000") == 0xFF0000
  {
    assert "FF0000"[..5] == "FF000" && "FF000"[..4] == "FF00" && "FF00"[..3] == "FF0";
    assert "FF0"[..2] == "FF" && "FF"[..1] == "F" && "F"[..0] == "";
    assert "ff0000"[..5] == "ff000" && "ff000"[..4] == "ff00" && "ff00"[..3] == "ff0";
    assert "ff0"[..2] == "ff" && "ff"[..1] == "f" && "f"[..0] == "";
  }
}
