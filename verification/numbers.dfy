/**
 * JavaScript number handling as the invoicing code uses it: numbers are exact
 * reals, a form value that may be empty or not a number is an `Option<real>`,
 * `Math.round` rounds half toward +infinity, and `${n}` writes a natural number
 * in decimal.
 */
module Numbers {
  import opened Wrappers

  /** A raw form value: `None` is null, undefined, the empty string or NaN. */
  type Num = Option<real>

  /** `Number(x) || 0`: a missing, invalid or zero value counts as 0. */
  function OrZero(n: Num): (r: real)
    ensures n.None? ==> r == 0.0
    ensures n.Some? ==> r == n.value
  {
    match n
    case Some(v) => v
    case None => 0.0
  }

  /** `Number(x) || 1`: a missing, invalid or zero value counts as 1. */
  function OrOne(n: Num): (r: real)
    ensures r != 0.0
    ensures n.None? || n.value == 0.0 ==> r == 1.0
    ensures n.Some? && n.value != 0.0 ==> r == n.value
  {
    match n
    case Some(v) => if v == 0.0 then 1.0 else v
    case None => 1.0
  }

  /** `Math.round(x)`: the nearest integer, halves rounded toward +infinity. */
  function Round(x: real): (r: int)
    ensures x - 0.5 < r as real <= x + 0.5
  {
    (x + 0.5).Floor
  }

  lemma RoundOfInteger(n: int)
    ensures Round(n as real) == n
  {
  }

  /** The decimal digits of `n`, most significant first, as `${n}` prints them. */
  function DecimalString(n: nat): (s: string)
    ensures |s| >= 1
    ensures forall i :: 0 <= i < |s| ==> '0' <= s[i] <= '9'
    decreases n
  {
    if n < 10 then [Digit(n)] else DecimalString(n / 10) + [Digit(n % 10)]
  }

  function Digit(d: nat): (c: char)
    requires d < 10
    ensures '0' <= c <= '9'
  {
    ('0' as int + d) as char
  }

  /** Reads back a string of decimal digits. */
  function DecimalValue(s: string): nat
    requires forall i :: 0 <= i < |s| ==> '0' <= s[i] <= '9'
  {
    if s == [] then 0
    else DecimalValue(s[..|s| - 1]) * 10 + (s[|s| - 1] as int - '0' as int)
  }

  /** Reading back what `DecimalString` writes gives the number again. */
  lemma {:induction false} DecimalRoundTrip(n: nat)
    ensures DecimalValue(DecimalString(n)) == n
    decreases n
  {
    var s := DecimalString(n);
    if n >= 10 {
      DecimalRoundTrip(n / 10);
      assert s[..|s| - 1] == DecimalString(n / 10);
    }
  }

  /** Two different numbers never print the same. */
  lemma DecimalStringInjective(m: nat, n: nat)
    ensures DecimalString(m) == DecimalString(n) ==> m == n
  {
    DecimalRoundTrip(m);
    DecimalRoundTrip(n);
  }
}
