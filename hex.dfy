/** Fixed-width integers and the two hexadecimal conversions BenchClient relies on:
    `fmt::format("{:016X}", x)` for the reported hash sum, and `strtoull(s, nullptr, 16)`
    for a reference hash fetched from the benchmark service. */
module Hex {

  const TWO_64: int := 0x1_0000_0000_0000_0000
  const U64_MAX: int := TWO_64 - 1

  type uint64 = x: int | 0 <= x < TWO_64
  type uint32 = x: int | 0 <= x < 0x1_0000_0000

  /** A digit accepted by strtoull in base 16 (either case). */
  predicate IsHexDigit(c: char) {
    '0' <= c <= '9' || 'A' <= c <= 'F' || 'a' <= c <= 'f'
  }

  /** A digit produced by the `X` conversion: upper case only. */
  predicate IsUpperHexDigit(c: char) {
    '0' <= c <= '9' || 'A' <= c <= 'F'
  }

  predicate AllHex(s: string) {
    forall i | 0 <= i < |s| :: IsHexDigit(s[i])
  }

  predicate AllUpperHex(s: string) {
    forall i | 0 <= i < |s| :: IsUpperHexDigit(s[i])
  }

  function DigitValue(c: char): (v: nat)
    requires IsHexDigit(c)
    ensures v < 16
  {
    if '0' <= c <= '9' then c as int - '0' as int
    else if 'A' <= c <= 'F' then c as int - 'A' as int + 10
    else c as int - 'a' as int + 10
  }

  function UpperDigit(v: nat): (c: char)
    requires v < 16
    ensures IsUpperHexDigit(c) && IsHexDigit(c) && DigitValue(c) == v
  {
    if v < 10 then ('0' as int + v) as char else ('A' as int + v - 10) as char
  }

  function Pow16(n: nat): (p: nat)
    ensures p > 0
  {
    if n == 0 then 1 else 16 * Pow16(n - 1)
  }

  /** The `width` lowest hexadecimal digits of `x`, most significant first, zero-padded. */
  function FormatFixed(x: nat, width: nat): (s: string)
    ensures |s| == width && AllUpperHex(s) && AllHex(s)
  {
    if width == 0 then [] else FormatFixed(x / 16, width - 1) + [UpperDigit(x % 16)]
  }

  /** `fmt::format("{:016X}", x)` on a uint64_t. */
  function Format016X(x: uint64): (s: string)
    ensures |s| == 16 && AllUpperHex(s)
  {
    FormatFixed(x, 16)
  }

  /** The number a string of hexadecimal digits denotes. */
  function HexValue(s: string): nat
    requires AllHex(s)
  {
    if s == [] then 0 else HexValue(s[..|s| - 1]) * 16 + DigitValue(s[|s| - 1])
  }

  /** Length of the longest prefix of `s` made of hexadecimal digits: where strtoull stops. */
  function HexPrefixLength(s: string): (n: nat)
    ensures n <= |s|
    ensures forall i | 0 <= i < n :: IsHexDigit(s[i])
    ensures n < |s| ==> !IsHexDigit(s[n])
  {
    if s == [] || !IsHexDigit(s[0]) then 0 else 1 + HexPrefixLength(s[1..])
  }

  /** `strtoull(s, nullptr, 16)` restricted to plain digit strings: the value of the leading
      hexadecimal digits, saturated at ULLONG_MAX; no digits give 0. */
  function ParseHex(s: string): (v: uint64)
    ensures HexValue(s[..HexPrefixLength(s)]) <= U64_MAX ==> v == HexValue(s[..HexPrefixLength(s)])
    ensures HexValue(s[..HexPrefixLength(s)]) > U64_MAX ==> v == U64_MAX
    ensures HexPrefixLength(s) == 0 ==> v == 0
    ensures AllHex(s) && HexValue(s) <= U64_MAX ==> v == HexValue(s)
  {
    assert AllHex(s) ==> s[..HexPrefixLength(s)] == s;
    var n := HexValue(s[..HexPrefixLength(s)]);
    if n > U64_MAX then U64_MAX else n
  }

  lemma ModSplit(x: nat, p: nat)
    requires p > 0
    ensures (x / 16 % p) * 16 + x % 16 == x % (16 * p)
  {
    var q, r := x / 16, x % 16;
    var a, b := q / p, q % p;
    assert x == 16 * p * a + (16 * b + r) by {
      assert x == 16 * q + r;
      assert q == p * a + b;
    }
    assert 0 <= 16 * b + r < 16 * p;
    ModUnique(x, 16 * p, a, 16 * b + r);
  }

  lemma ModUnique(x: nat, d: nat, q: nat, r: nat)
    requires d > 0 && x == d * q + r && r < d
    ensures x % d == r
  {
    var k := x / d;
    assert x == d * k + x % d;
    if k < q {
      assert d * k + d <= d * q by { MulMonotone(d, k + 1, q); }
    } else if k > q {
      assert d * q + d <= d * k by { MulMonotone(d, q + 1, k); }
    }
  }

  /** Multiplication is monotone; stated on its own so that the solver's nonlinear
      reasoning stays out of ModUnique. */
  lemma MulMonotone(d: nat, a: nat, b: nat)
    requires a <= b
    ensures d * a <= d * b
  {
  }

  lemma {:induction false} FormatFixedValue(x: nat, width: nat)
    ensures HexValue(FormatFixed(x, width)) == x % Pow16(width)
  {
    if width == 0 {
    } else {
      var s := FormatFixed(x, width);
      assert s[..|s| - 1] == FormatFixed(x / 16, width - 1);
      FormatFixedValue(x / 16, width - 1);
      ModSplit(x, Pow16(width - 1));
    }
  }

  /** The reported hash sum is exactly 16 upper-case hex digits and strtoull in base 16
      gives back the same 64-bit value. */
  lemma ParseFormatRoundTrip(x: uint64)
    ensures |Format016X(x)| == 16 && AllUpperHex(Format016X(x))
    ensures ParseHex(Format016X(x)) == x
  {
    Pow16Of16();
    FormatFixedParses(x, 16);
  }

  lemma FormatFixedParses(x: nat, width: nat)
    requires x < Pow16(width)
    ensures HexValue(FormatFixed(x, width)[..HexPrefixLength(FormatFixed(x, width))]) == x
  {
    var s := FormatFixed(x, width);
    assert HexPrefixLength(s) == |s|;
    assert s[..HexPrefixLength(s)] == s;
    FormatFixedValue(x, width);
    ModUnique(x, Pow16(width), 0, x);
  }

  lemma Pow16Of16()
    ensures Pow16(16) == TWO_64
  {
    assert Pow16(4) == 0x1_0000;
    assert Pow16(8) == 0x1_0000 * Pow16(4);
    assert Pow16(12) == 0x1_0000 * Pow16(8);
    assert Pow16(16) == 0x1_0000 * Pow16(12);
  }

  /** A value below 16^k leaves the leading `width - k` digits '0': the `0` flag pads. */
  lemma {:induction false} FormatFixedLeadingZeros(x: nat, width: nat, k: nat)
    requires k <= width && x < Pow16(k)
    ensures forall i | 0 <= i < width - k :: FormatFixed(x, width)[i] == '0'
  {
    if k == width {
    } else if k == 0 {
      FormatFixedZero(width);
    } else {
      assert x / 16 < Pow16(k - 1);
      FormatFixedLeadingZeros(x / 16, width - 1, k - 1);
    }
  }

  lemma {:induction false} FormatFixedZero(width: nat)
    ensures forall i | 0 <= i < width :: FormatFixed(0, width)[i] == '0'
  {
    if width > 0 {
      FormatFixedZero(width - 1);
    }
  }

  /** strtoull stops at the first character that is not a hexadecimal digit. */
  lemma {:induction false} ParseHexStopsAtNonDigit(digits: string, rest: string)
    requires AllHex(digits)
    requires rest == [] || !IsHexDigit(rest[0])
    ensures ParseHex(digits + rest) == ParseHex(digits)
  {
    PrefixLengthOfDigitsThen(digits, rest);
    assert HexPrefixLength(digits) == |digits|;
    assert (digits + rest)[..|digits|] == digits;
    assert digits[..|digits|] == digits;
  }

  lemma {:induction false} PrefixLengthOfDigitsThen(digits: string, rest: string)
    requires AllHex(digits)
    requires rest == [] || !IsHexDigit(rest[0])
    ensures HexPrefixLength(digits + rest) == |digits|
  {
    if digits != [] {
      assert (digits + rest)[1..] == digits[1..] + rest;
      PrefixLengthOfDigitsThen(digits[1..], rest);
    }
  }
}
