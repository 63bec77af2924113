/** The two text renderings of numbers the core relies on: lowercase hex of a
    byte string (Go's `hex.EncodeToString` and `fmt.Sprintf("%x", …)`) and
    base-10 rendering of a non-negative integer (`strconv.FormatUint(n, 10)`,
    `strconv.Itoa` on a non-negative int), each with the parser that undoes it. */
module Encoding {
  import opened Common

  const HexDigits: string := "0123456789abcdef"
  const DecimalDigits: string := "0123456789"

  // ---------------------------------------------------------------------
  // Hex
  // ---------------------------------------------------------------------

  predicate IsHexDigit(c: char) {
    '0' <= c <= '9' || 'a' <= c <= 'f'
  }

  predicate IsLowerHex(s: string) {
    forall i :: 0 <= i < |s| ==> IsHexDigit(s[i])
  }

  /** Two lowercase hex digits per byte, high nibble first. */
  function HexEncode(b: seq<Byte>): (s: string)
    ensures |s| == 2 * |b|
    ensures IsLowerHex(s)
  {
    if b == [] then ""
    else [HexDigits[b[0] / 16], HexDigits[b[0] % 16]] + HexEncode(b[1..])
  }

  /** The value of one lowercase hex digit, or -1 for any other character. */
  function HexValue(c: char): (v: int)
    ensures -1 <= v < 16
    ensures v >= 0 <==> IsHexDigit(c)
  {
    if '0' <= c <= '9' then c as int - '0' as int
    else if 'a' <= c <= 'f' then c as int - 'a' as int + 10
    else -1
  }

  /** Inverse of `HexEncode`: `None` for odd length or a character that is
      not a lowercase hex digit. */
  function HexDecode(s: string): (r: Option<seq<Byte>>)
    ensures r.Some? ==> 2 * |r.value| == |s|
    decreases |s|
  {
    if s == [] then Some([])
    else if |s| == 1 then None
    else
      var hi, lo := HexValue(s[0]), HexValue(s[1]);
      if hi < 0 || lo < 0 then None
      else match HexDecode(s[2..])
        case None => None
        case Some(rest) => Some([(hi * 16 + lo) as Byte] + rest)
  }

  lemma {:induction false} HexRoundTrip(b: seq<Byte>)
    ensures HexDecode(HexEncode(b)) == Some(b)
  {
    if b != [] {
      var hi, lo := b[0] / 16, b[0] % 16;
      var t := HexEncode(b[1..]);
      assert HexEncode(b) == [HexDigits[hi], HexDigits[lo]] + t;
      HexRoundTrip(b[1..]);
      HexValueOfDigit(hi);
      HexValueOfDigit(lo);
      HexDecodeCons(HexDigits[hi], HexDigits[lo], t);
      assert hi * 16 + lo == b[0];
      assert [b[0]] + b[1..] == b;
    }
  }

  /** Decoding two hex digits followed by more text. */
  lemma HexDecodeCons(c0: char, c1: char, t: string)
    requires HexValue(c0) >= 0 && HexValue(c1) >= 0
    requires HexDecode(t).Some?
    ensures HexDecode([c0, c1] + t) == Some([(HexValue(c0) * 16 + HexValue(c1)) as Byte] + HexDecode(t).value)
  {
    assert ([c0, c1] + t)[2..] == t;
  }

  lemma HexValueOfDigit(d: int)
    requires 0 <= d < 16
    ensures HexValue(HexDigits[d]) == d
  {
  }

  /** Different byte strings never share an encoding. */
  lemma HexEncodeInjective(a: seq<Byte>, b: seq<Byte>)
    ensures HexEncode(a) == HexEncode(b) ==> a == b
  {
    HexRoundTrip(a);
    HexRoundTrip(b);
  }

  // ---------------------------------------------------------------------
  // Decimal
  // ---------------------------------------------------------------------

  predicate IsDecimal(s: string) {
    forall i :: 0 <= i < |s| ==> s[i] in DecimalDigits
  }

  function DigitValue(c: char): int {
    c as int - '0' as int
  }

  /** Base-10 rendering without sign and without leading zeros. */
  function FormatUint(n: nat): (s: string)
    ensures 1 <= |s| && IsDecimal(s)
    ensures |s| > 1 ==> s[0] != '0'
  {
    if n < 10 then [DecimalDigits[n]]
    else FormatUint(n / 10) + [DecimalDigits[n % 10]]
  }

  /** Value of a string of decimal digits, most significant first. */
  function DigitsValue(s: string): nat
    requires IsDecimal(s)
  {
    if s == [] then 0
    else DigitsValue(s[..|s| - 1]) * 10 + DigitValue(s[|s| - 1])
  }

  /** Parses a non-empty string of decimal digits; `None` for anything else. */
  function ParseDecimal(s: string): (r: Option<nat>)
    ensures r.Some? <==> s != [] && IsDecimal(s)
  {
    if s != [] && IsDecimal(s) then Some(DigitsValue(s)) else None
  }

  lemma {:induction false} DecimalRoundTrip(n: nat)
    ensures ParseDecimal(FormatUint(n)) == Some(n)
  {
    if n < 10 {
      DigitValueOfDigit(n);
      var s := FormatUint(n);
      assert s[..0] == [];
      assert DigitsValue(s) == DigitValue(s[0]);
    } else {
      var s := FormatUint(n);
      DecimalRoundTrip(n / 10);
      assert s[..|s| - 1] == FormatUint(n / 10);
      DigitValueOfDigit(n % 10);
      assert (n / 10) * 10 + n % 10 == n;
    }
  }

  lemma DigitValueOfDigit(d: int)
    requires 0 <= d < 10
    ensures DigitValue(DecimalDigits[d]) == d
  {
  }

  /** Different numbers never share a rendering. */
  lemma FormatUintInjective(m: nat, n: nat)
    ensures FormatUint(m) == FormatUint(n) ==> m == n
  {
    DecimalRoundTrip(m);
    DecimalRoundTrip(n);
  }

  function Pow10(k: nat): (p: nat)
    ensures p >= 1
  {
    if k == 0 then 1 else 10 * Pow10(k - 1)
  }

  /** A number whose rendering has at most `k` digits is below `10^k`. */
  lemma {:induction false} FormatUintLength(n: nat, k: nat)
    requires |FormatUint(n)| <= k
    ensures n < Pow10(k)
  {
    if n >= 10 {
      assert |FormatUint(n / 10)| <= k - 1;
      FormatUintLength(n / 10, k - 1);
    }
  }
}
