/**
 * Java's integer arithmetic where it differs from Dafny's: `/` and `%`
 * truncate toward zero, and `String.valueOf(long)` / `%d` print a decimal
 * numeral with a leading '-' for negatives.
 */
module JavaInt {
  function Abs(a: int): nat {
    if a < 0 then -a else a
  }

  /** Java's `a / b` for a positive divisor: division truncated toward zero. */
  function Div(a: int, b: int): (q: int)
    requires b > 0
    ensures a == 0 ==> q == 0
    ensures a > 0 ==> q == a / b
    ensures a < 0 ==> q == -((-a) / b) && q <= 0
  {
    if a == 0 then 0 else if a > 0 then a / b else -((-a) / b)
  }

  /** Java's `a % b` for a positive divisor: the remainder takes the sign of `a`. */
  function Rem(a: int, b: int): (r: int)
    requires b > 0
    ensures -b < r < b
    ensures (r < 0 ==> a < 0) && (r > 0 ==> a > 0)
    ensures a == 0 ==> r == 0
    ensures a > 0 ==> r == a % b
  {
    if a == 0 then 0 else if a > 0 then a % b else -((-a) % b)
  }

  /** Java's quotient and remainder recombine to the dividend, for either sign. */
  lemma DivRem(a: int, b: int)
    requires b > 0
    ensures Div(a, b) * b + Rem(a, b) == a
  {
    var x := if a >= 0 then a else -a;
    var q, m := x / b, x % b;
    assert q * b + m == x;
    if a > 0 {
      assert Div(a, b) == q && Rem(a, b) == m;
    } else if a < 0 {
      assert Div(a, b) == -q && Rem(a, b) == -m;
      assert (-q) * b == -(q * b);
    }
  }

  function DigitChar(n: nat): char
    requires n < 10
  {
    "0123456789"[n]
  }

  predicate IsDigit(c: char) {
    '0' <= c <= '9'
  }

  /** The decimal numeral of a natural number, without leading zeros. */
  function NatToString(n: nat): string
    decreases n
  {
    if n < 10 then [DigitChar(n)] else NatToString(n / 10) + [DigitChar(n % 10)]
  }

  lemma {:induction false} NatToStringDigits(n: nat)
    ensures |NatToString(n)| > 0
    ensures forall i :: 0 <= i < |NatToString(n)| ==> IsDigit(NatToString(n)[i])
    decreases n
  {
    if n >= 10 {
      NatToStringDigits(n / 10);
    }
  }

  /** `String.valueOf(n)` for a `long`. */
  function ToDecimal(n: int): string {
    if n < 0 then "-" + NatToString(-n) else NatToString(n)
  }

  /** Reads a string of digits back as a number (a non-digit reads as 0). */
  function ParseNat(s: string): nat
  {
    if s == [] then 0 else ParseNat(s[..|s| - 1]) * 10 + DigitValue(s[|s| - 1])
  }

  function DigitValue(c: char): nat
  {
    if IsDigit(c) then (c as int) - ('0' as int) else 0
  }

  /** Printing a number and reading it back gives the number: the printed form is unambiguous. */
  lemma {:induction false} ParseNatToString(n: nat)
    ensures ParseNat(NatToString(n)) == n
    decreases n
  {
    var s := NatToString(n);
    if n < 10 {
      assert s[..|s| - 1] == [];
    } else {
      ParseNatToString(n / 10);
      assert s[..|s| - 1] == NatToString(n / 10);
    }
  }
}
