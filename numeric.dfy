/**
 * The fixed-width integer behaviour of the Rust code, written out on
 * unbounded integers: the front-end's 32-bit `usize` bound, the saturating `as` casts from
 * `f64`, truncating `/` and `%` on `i32`, and `str::parse::<usize>`.
 */
module Numeric {
  import opened Wrappers

  /** The front-end is built for `wasm32`, where `usize` is 32 bits wide. */
  const WASM_USIZE_MAX: nat := 0xFFFF_FFFF
  const I32_MIN: int := -0x8000_0000
  const I32_MAX: int := 0x7FFF_FFFF

  /** `x as usize` for a finite f64: truncation toward zero, saturating at both ends. */
  function RealToUsize(x: real): (n: nat)
    ensures n <= WASM_USIZE_MAX
    ensures x < 1.0 ==> n == 0
    ensures 0.0 <= x < WASM_USIZE_MAX as real ==> n as real <= x < n as real + 1.0
    ensures x >= WASM_USIZE_MAX as real ==> n == WASM_USIZE_MAX
  {
    if x <= 0.0 then 0
    else if x >= WASM_USIZE_MAX as real then WASM_USIZE_MAX
    else x.Floor
  }

  /** Truncation of a real toward zero. */
  function TruncReal(x: real): (n: int)
    ensures x >= 0.0 ==> 0 <= n && n as real <= x < n as real + 1.0
    ensures x < 0.0 ==> n <= 0 && n as real - 1.0 < x <= n as real
  {
    if x >= 0.0 then x.Floor else -((-x).Floor)
  }

  /** `x as i32` for a finite f64: truncation toward zero, saturating at the i32 bounds. */
  function RealToI32(x: real): (n: int)
    ensures I32_MIN <= n <= I32_MAX
    ensures I32_MIN <= TruncReal(x) <= I32_MAX ==> n == TruncReal(x)
  {
    var t := TruncReal(x);
    if t < I32_MIN then I32_MIN else if t > I32_MAX then I32_MAX else t
  }

  /** Rust's `/` on signed integers: the quotient is truncated toward zero. */
  function TruncDiv(a: int, b: int): int
    requires b > 0
  {
    if a >= 0 then a / b else -((-a) / b)
  }

  /** Rust's `%` on signed integers: the remainder takes the sign of the dividend. */
  function TruncRem(a: int, b: int): int
    requires b > 0
  {
    if a >= 0 then a % b else -((-a) % b)
  }

  lemma TruncDivRem(a: int, b: int)
    requires b > 0
    ensures TruncDiv(a, b) * b + TruncRem(a, b) == a
    ensures -b < TruncRem(a, b) < b
    ensures a >= 0 ==> 0 <= TruncRem(a, b) < b && TruncDiv(a, b) >= 0
    ensures a < 0 ==> TruncRem(a, b) <= 0 && TruncDiv(a, b) <= 0
  {
  }

  // ---------------------------------------------------------------------------
  // Decimal text

  predicate IsDigit(c: char) { '0' <= c <= '9' }

  predicate AllDigits(s: string) { forall i :: 0 <= i < |s| ==> IsDigit(s[i]) }

  function DigitValue(c: char): nat
    requires IsDigit(c)
  {
    (c as int - '0' as int) as nat
  }

  function DigitChar(d: nat): (c: char)
    requires d < 10
    ensures IsDigit(c) && DigitValue(c) == d
  {
    ('0' as int + d) as char
  }

  /** The value of a string of decimal digits, most significant first. */
  function DigitsValue(s: string): nat
    requires AllDigits(s)
  {
    if |s| == 0 then 0 else DigitsValue(s[..|s| - 1]) * 10 + DigitValue(s[|s| - 1])
  }

  /** `n.to_string()` for an unsigned integer. */
  function NatToString(n: nat): (s: string)
    ensures |s| > 0 && AllDigits(s)
  {
    if n < 10 then [DigitChar(n)] else NatToString(n / 10) + [DigitChar(n % 10)]
  }

  /**
   * `s.parse::<usize>()`: an optional leading '+', then at least one decimal
   * digit and nothing else; a value above the 32-bit `usize::MAX` is an overflow error.
   */
  function ParseUsize(s: string): (r: Option<nat>)
    ensures r.Some? ==> r.value <= WASM_USIZE_MAX
    ensures r.Some? ==> (|s| > 0 && IsDigit(s[0])) || (|s| > 1 && s[0] == '+')
  {
    var digits := if |s| > 0 && s[0] == '+' then s[1..] else s;
    if |digits| == 0 || !AllDigits(digits) then None
    else if DigitsValue(digits) <= WASM_USIZE_MAX then Some(DigitsValue(digits))
    else None
  }

  lemma {:induction false} DigitsOfNatToString(n: nat)
    ensures DigitsValue(NatToString(n)) == n
  {
    if n >= 10 {
      DigitsOfNatToString(n / 10);
      var s := NatToString(n);
      assert s[..|s| - 1] == NatToString(n / 10);
    }
  }

  /** The decimal text of a number above the 32-bit `usize::MAX` does not parse: `parse::<usize>` overflows. */
  lemma ParseRejectsAboveBound(n: nat)
    requires n > WASM_USIZE_MAX
    ensures ParseUsize(NatToString(n)) == None
  {
    DigitsOfNatToString(n);
  }

  /** The text an input box shows for a usize parses back to the same usize. */
  lemma ParseShownUsize(n: nat)
    requires n <= WASM_USIZE_MAX
    ensures ParseUsize(NatToString(n)) == Some(n)
  {
    DigitsOfNatToString(n);
  }
}
