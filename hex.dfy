/** The `0x`-prefixed quantity strings that `ethers.utils.hexValue` produces for a
    non-negative number: lower-case base-16 digits, no leading zeros, and `0x0`
    for zero. A decoder is the partner that the inclusion window is checked with. */
module Hex {
  import opened Wrappers

  /** The value of one base-16 digit, either case; None for any other character. */
  function DigitValue(c: char): (r: Option<nat>)
    ensures r.Some? ==> r.value < 16
  {
    if '0' <= c <= '9' then Some(c as nat - '0' as nat)
    else if 'a' <= c <= 'f' then Some(c as nat - 'a' as nat + 10)
    else if 'A' <= c <= 'F' then Some(c as nat - 'A' as nat + 10)
    else None
  }

  predicate IsLowerHexDigit(c: char) {
    '0' <= c <= '9' || 'a' <= c <= 'f'
  }

  /** The lower-case digit for a value below 16. */
  function DigitChar(d: nat): (c: char)
    requires d < 16
    ensures IsLowerHexDigit(c)
    ensures DigitValue(c) == Some(d)
  {
    if d < 10 then ('0' as nat + d) as char else ('a' as nat + d - 10) as char
  }

  /** The shortest big-endian digit string of n; empty for zero. */
  function Digits(n: nat): (s: string)
    ensures s == [] <==> n == 0
    ensures s != [] ==> s[0] != '0'
    ensures forall i :: 0 <= i < |s| ==> IsLowerHexDigit(s[i])
    decreases n
  {
    if n == 0 then [] else Digits(n / 16) + [DigitChar(n % 16)]
  }

  /** A canonical quantity: `0x`, then at least one lower-case digit, with no
      leading zero unless the whole value is `0x0`. */
  predicate IsQuantity(s: string) {
    && |s| >= 3 && s[..2] == "0x"
    && (forall i :: 2 <= i < |s| ==> IsLowerHexDigit(s[i]))
    && (s[2] == '0' ==> |s| == 3)
  }

  /** `ethers.utils.hexValue(n)`. */
  function HexValue(n: nat): (s: string)
    ensures IsQuantity(s)
    ensures s[2] == '0' ==> n == 0 && s == "0x0"
  {
    "0x" + (if n == 0 then "0" else Digits(n))
  }

  /** Reads a big-endian digit string; the empty string reads as zero. */
  function ParseDigits(s: string): (r: Option<nat>)
    decreases |s|
  {
    if s == [] then Some(0)
    else
      match ParseDigits(s[..|s| - 1])
      case None => None
      case Some(high) =>
        match DigitValue(s[|s| - 1])
        case None => None
        case Some(d) => Some(high * 16 + d)
  }

  /** Reads a `0x`-prefixed quantity with at least one digit. */
  function ParseHexValue(s: string): (r: Option<nat>)
  {
    if |s| >= 3 && s[..2] == "0x" then ParseDigits(s[2..]) else None
  }

  lemma {:induction false} ParseDigitsOfDigits(n: nat)
    ensures ParseDigits(Digits(n)) == Some(n)
    decreases n
  {
    if n > 0 {
      var s := Digits(n);
      assert s[..|s| - 1] == Digits(n / 16);
      ParseDigitsOfDigits(n / 16);
    }
  }

  /** Decoding what `hexValue` wrote gives the number back. */
  lemma HexValueRoundTrip(n: nat)
    ensures ParseHexValue(HexValue(n)) == Some(n)
  {
    var s := HexValue(n);
    if n == 0 {
      assert s[2..] == "0";
      assert ParseDigits("0"[..0]) == Some(0);
    } else {
      assert s[2..] == Digits(n);
      ParseDigitsOfDigits(n);
    }
  }

  /** Distinct numbers get distinct strings. */
  lemma HexValueInjective(m: nat, n: nat)
    ensures HexValue(m) == HexValue(n) ==> m == n
  {
    HexValueRoundTrip(m);
    HexValueRoundTrip(n);
  }
}
