/**
 * The few .NET library calls that the pump test runner depends on, stated on
 * Dafny's own values: `string.ToLower`, the default conversion of a number to
 * text used inside interpolated strings, and `Math.Round(x, 2)`.
 */
module Runtime {

  // ---------------------------------------------------------------- ToLower

  predicate IsUpper(c: char) { 'A' <= c <= 'Z' }

  /** Lower-cases one character; only the ASCII letters A-Z change. */
  function LowerChar(c: char): char
  {
    if IsUpper(c) then (c as int + 32) as char else c
  }

  /** `s.ToLower()`, restricted to the ASCII letters: each character lower-cased in place. */
  function ToLower(s: string): (r: string)
    ensures |r| == |s|
    ensures forall i :: 0 <= i < |s| && !IsUpper(s[i]) ==> r[i] == s[i]
  {
    seq(|s|, i requires 0 <= i < |s| => LowerChar(s[i]))
  }

  /** Lower-casing leaves no upper-case letter behind ... */
  lemma ToLowerHasNoUpper(s: string)
    ensures forall i :: 0 <= i < |ToLower(s)| ==> !IsUpper(ToLower(s)[i])
  {
  }

  /** ... so lower-casing twice is lower-casing once. */
  lemma ToLowerIdempotent(s: string)
    ensures ToLower(ToLower(s)) == ToLower(s)
  {
    var t := ToLower(s);
    assert forall i :: 0 <= i < |t| ==> LowerChar(t[i]) == t[i];
  }

  /** A string without upper-case letters is its own lower-case form. */
  lemma ToLowerFixesLowerCase(s: string)
    requires forall i :: 0 <= i < |s| ==> !IsUpper(s[i])
    ensures ToLower(s) == s
  {
  }

  // ------------------------------------------------- numbers rendered as text

  function DigitChar(d: int): (c: char)
    requires 0 <= d < 10
    ensures '0' <= c <= '9'
  {
    ('0' as int + d) as char
  }

  /** Decimal digits of a natural number, most significant first, no leading zeros. */
  function NatToString(n: nat): (s: string)
    ensures |s| > 0
    ensures forall i :: 0 <= i < |s| ==> '0' <= s[i] <= '9'
    ensures |s| > 1 ==> s[0] != '0'
    decreases n
  {
    if n < 10 then [DigitChar(n)] else NatToString(n / 10) + [DigitChar(n % 10)]
  }

  /** The number a string of decimal digits denotes. */
  function DigitsValue(s: string): nat
    requires forall i :: 0 <= i < |s| ==> '0' <= s[i] <= '9'
  {
    if s == [] then 0 else DigitsValue(s[..|s| - 1]) * 10 + (s[|s| - 1] as int - '0' as int)
  }

  /** Reading the digits back gives the number that was rendered. */
  lemma {:induction false} NatToStringRoundTrip(n: nat)
    ensures DigitsValue(NatToString(n)) == n
    decreases n
  {
    if n >= 10 {
      NatToStringRoundTrip(n / 10);
      var s := NatToString(n);
      assert s[..|s| - 1] == NatToString(n / 10);
    }
  }

  /** Up to `max` digits of a fraction in [0, 1), without trailing zeros. */
  function FractionDigits(f: real, max: nat): (s: string)
    requires 0.0 <= f < 1.0
    ensures |s| <= max
    ensures forall i :: 0 <= i < |s| ==> '0' <= s[i] <= '9'
    decreases max
  {
    if max == 0 || f == 0.0 then []
    else
      var d := (f * 10.0).Floor;
      [DigitChar(d)] + FractionDigits(f * 10.0 - d as real, max - 1)
  }

  /** The most fractional digits a `double` shows by default. */
  const MaxFractionDigits: nat := 15

  /** The text a number becomes inside an interpolated string. */
  function FormatNumber(x: real): (s: string)
    ensures |s| > 0
    ensures s[0] == '-' <==> x < 0.0
  {
    if x < 0.0 then "-" + FormatMagnitude(-x) else FormatMagnitude(x)
  }

  function FormatMagnitude(x: real): (s: string)
    requires x >= 0.0
    ensures |s| > 0 && '0' <= s[0] <= '9'
  {
    var whole := x.Floor;
    var fraction := x - whole as real;
    NatToString(whole) + (if fraction == 0.0 then "" else "." + FractionDigits(fraction, MaxFractionDigits))
  }

  /** A whole number is rendered as its decimal digits alone. */
  lemma FormatWholeNumber(n: nat)
    ensures FormatNumber(n as real) == NatToString(n)
  {
  }

  // -------------------------------------------------------- Math.Round(x, 2)

  /** `x` is a whole number of hundredths. */
  predicate TwoDecimals(x: real) { (x * 100.0).Floor as real == x * 100.0 }

  /**
   * `Math.Round(x, 2)`: the nearest multiple of 0.01, a tie going to the
   * multiple whose last digit is even (the default `MidpointRounding.ToEven`).
   */
  function Round2(x: real): (r: real)
    ensures TwoDecimals(r)
    ensures -0.005 <= r - x <= 0.005
  {
    var scaled := x * 100.0;
    var n := scaled.Floor;
    var fraction := scaled - n as real;
    var m := if fraction > 0.5 || (fraction == 0.5 && n % 2 == 1) then n + 1 else n;
    Hundredths(m);
    assert -0.5 <= m as real - scaled <= 0.5;
    m as real / 100.0
  }

  /** A whole number of hundredths has two decimals. */
  lemma Hundredths(m: int)
    ensures (m as real / 100.0) * 100.0 == m as real
    ensures TwoDecimals(m as real / 100.0)
  {
  }

  /** A tie between two hundredths goes to the even one. */
  lemma Round2TieToEven(n: int)
    ensures var r := Round2((n as real + 0.5) / 100.0);
            r * 100.0 == (if n % 2 == 0 then n else n + 1) as real
  {
    var x := (n as real + 0.5) / 100.0;
    assert x * 100.0 == n as real + 0.5;
    assert (x * 100.0).Floor == n;
  }

  /** A value that already has two decimals is left as it is. */
  lemma Round2Keeps(x: real)
    requires TwoDecimals(x)
    ensures Round2(x) == x
  {
    var n := (x * 100.0).Floor;
    assert x * 100.0 - n as real == 0.0;
  }

  /** Rounding twice is rounding once. */
  lemma Round2Idempotent(x: real)
    ensures Round2(Round2(x)) == Round2(x)
  {
    Round2Keeps(Round2(x));
  }

  /**
   * A value in [0, bound) rounds into [0, bound] when the bound itself has
   * two decimals (a rounded value may reach the bound, never pass it).
   */
  lemma Round2Within(x: real, bound: real)
    requires 0.0 <= x < bound
    requires TwoDecimals(bound)
    ensures 0.0 <= Round2(x) <= bound
  {
    var n := (x * 100.0).Floor;
    var b := (bound * 100.0).Floor;
    assert n as real <= x * 100.0 < b as real;
    assert n < b;
    var m := if x * 100.0 - n as real > 0.5 || (x * 100.0 - n as real == 0.5 && n % 2 == 1) then n + 1 else n;
    assert 0 <= m <= b;
    assert Round2(x) == m as real / 100.0;
  }
}
