/**
 * Small vocabulary shared by the controllers and both servers: optional and
 * failing results, the 32-bit signed integers of C# and Rust, ASCII
 * lower-casing (`string.ToLower()` on the names the source compares against)
 * and the decimal rendering used by C# string interpolation.
 */
module Common {

  datatype Option<+T> = None | Some(value: T)

  datatype Result<+T, +E> = Ok(value: T) | Err(error: E)

  const INT32_MIN: int := -0x8000_0000
  const INT32_MAX: int := 0x7FFF_FFFF

  /** A C# `int` / Rust `i32`. */
  type Int32 = x: int | INT32_MIN <= x <= INT32_MAX

  predicate InInt32(x: int) {
    INT32_MIN <= x <= INT32_MAX
  }

  /** Two's-complement wrap-around of an unchecked C# `int` addition. */
  function Wrap32(v: int): (r: Int32)
    ensures (r - v) % 0x1_0000_0000 == 0
    ensures InInt32(v) ==> r == v
  {
    var m := (v - INT32_MIN) % 0x1_0000_0000;
    m + INT32_MIN
  }

  /** Wrapping a value that differs from another by a multiple of 2^32 gives the same result. */
  lemma WrapCongruent(u: int, v: int)
    requires (u - v) % 0x1_0000_0000 == 0
    ensures Wrap32(u) == Wrap32(v)
  {
    var k := (u - v) / 0x1_0000_0000;
    assert u == v + k * 0x1_0000_0000;
    assert (u - INT32_MIN) == (v - INT32_MIN) + k * 0x1_0000_0000;
  }

  predicate IsUpper(c: char) {
    'A' <= c <= 'Z'
  }

  /** `char.ToLower` restricted to the ASCII letters. */
  function LowerChar(c: char): (r: char)
    ensures !IsUpper(r)
    ensures r == c <==> !IsUpper(c)
    ensures IsUpper(c) ==> r as int - c as int == 'a' as int - 'A' as int
  {
    if IsUpper(c) then (c as int - 'A' as int + 'a' as int) as char else c
  }

  /** `string.ToLower()`, character by character. */
  function ToLower(s: string): (r: string)
    ensures |r| == |s|
    ensures forall i :: 0 <= i < |s| ==> r[i] == LowerChar(s[i])
  {
    seq(|s|, i requires 0 <= i < |s| => LowerChar(s[i]))
  }

  predicate IsLower(s: string) {
    forall i :: 0 <= i < |s| ==> !IsUpper(s[i])
  }

  /** Lower-casing is idempotent: a lower-case name is its own lower case. */
  lemma ToLowerIdempotent(s: string)
    ensures IsLower(ToLower(s))
    ensures ToLower(ToLower(s)) == ToLower(s)
  {
  }

  function DigitChar(d: nat): (c: char)
    requires d < 10
    ensures '0' <= c <= '9'
  {
    ('0' as int + d) as char
  }

  function DigitValue(c: char): int {
    c as int - '0' as int
  }

  /** Decimal digits of a natural number, most significant first, without leading zeros. */
  function NatToDecimal(n: nat): (s: string)
    ensures |s| > 0
    ensures forall i :: 0 <= i < |s| ==> '0' <= s[i] <= '9'
    ensures |s| > 1 ==> s[0] != '0'
    decreases n
  {
    if n < 10 then [DigitChar(n)] else NatToDecimal(n / 10) + [DigitChar(n % 10)]
  }

  /** The value of a string of decimal digits. */
  function DecimalValue(s: string): int
    decreases |s|
  {
    if s == [] then 0 else 10 * DecimalValue(s[..|s| - 1]) + DigitValue(s[|s| - 1])
  }

  /** `int.ToString()`, with '-' as the minus sign. */
  function IntToDecimal(i: int): (s: string)
    ensures |s| > 0
  {
    if i < 0 then "-" + NatToDecimal(-i) else NatToDecimal(i)
  }

  /** Reading back the digits gives the number: the rendering loses nothing. */
  lemma {:induction false} NatToDecimalRoundTrip(n: nat)
    ensures DecimalValue(NatToDecimal(n)) == n
    decreases n
  {
    var s := NatToDecimal(n);
    if n >= 10 {
      NatToDecimalRoundTrip(n / 10);
      assert s[..|s| - 1] == NatToDecimal(n / 10);
    }
  }

  /** Distinct numbers render as distinct strings. */
  lemma IntToDecimalInjective(i: int, j: int)
    requires IntToDecimal(i) == IntToDecimal(j)
    ensures i == j
  {
    var s := IntToDecimal(i);
    assert s[0] == '-' <==> i < 0;
    assert s[0] == '-' <==> j < 0;
    if i < 0 {
      assert NatToDecimal(-i) == s[1..] == NatToDecimal(-j);
      NatToDecimalRoundTrip(-i);
      NatToDecimalRoundTrip(-j);
    } else {
      NatToDecimalRoundTrip(i);
      NatToDecimalRoundTrip(j);
    }
  }

  predicate IsSuffix(suffix: string, s: string) {
    |suffix| <= |s| && s[|s| - |suffix|..] == suffix
  }

  lemma SuffixOfConcat(prefix: string, suffix: string)
    ensures IsSuffix(suffix, prefix + suffix)
  {
    assert (prefix + suffix)[|prefix|..] == suffix;
  }

  /** A number interpolated between fixed texts can be read back: the rendering names the number. */
  lemma InterpolationInjective(pre: string, i: int, j: int, post: string)
    requires pre + IntToDecimal(i) + post == pre + IntToDecimal(j) + post
    ensures i == j
  {
    var a, b := IntToDecimal(i), IntToDecimal(j);
    var s := pre + a + post;
    assert |a| == |b|;
    assert a == s[|pre|..|pre| + |a|];
    assert b == (pre + b + post)[|pre|..|pre| + |b|];
    IntToDecimalInjective(i, j);
  }
}
