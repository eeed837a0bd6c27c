/**
 * Python integer and sequence semantics that the layout code relies on:
 * `int(a / b)` (true division followed by truncation toward zero),
 * negative list indices, and `str(n)` for integers.
 */
module PyNum {

  /** Python's `int(a / b)` for a positive divisor: the quotient truncated
      toward zero.  Dafny's `/` is Euclidean and differs for negative `a`. */
  function TruncDiv(a: int, b: int): (q: int)
    requires b > 0
    ensures 0 <= a ==> 0 <= a - q * b < b
    ensures a < 0 ==> -b < a - q * b <= 0
  {
    if a >= 0 then a / b else -((-a) / b)
  }

  /** A non-zero multiple of a positive number is at least that number away
      from zero. */
  lemma MultipleApart(k: int, b: int)
    requires b > 0
    ensures k >= 1 ==> k * b >= b
    ensures k <= -1 ==> k * b <= -b
  {
  }

  /** Euclidean division is determined by its quotient-remainder equation. */
  lemma DivUnique(a: int, b: int, q: int, r: int)
    requires b > 0 && a == q * b + r && 0 <= r < b
    ensures a / b == q && a % b == r
  {
    var f, m := a / b, a % b;
    assert (q - f) * b == m - r;
    MultipleApart(q - f, b);
  }

  /** Truncation and Dafny's Euclidean division agree on non-negative
      numerators and on multiples, and differ by one on negative
      non-multiples. */
  lemma TruncDivVersusFloor(a: int, b: int)
    requires b > 0
    ensures a >= 0 ==> TruncDiv(a, b) == a / b
    ensures a < 0 && a % b != 0 ==> TruncDiv(a, b) == a / b + 1
    ensures a % b == 0 ==> TruncDiv(a, b) == a / b
  {
    if a < 0 {
      var q, r := (-a) / b, (-a) % b;
      if r == 0 {
        DivUnique(a, b, -q, 0);
      } else {
        DivUnique(a, b, -q - 1, b - r);
      }
    }
  }

  /** The truncated quotient is negative exactly when the numerator reaches
      minus the divisor: a value in (-1, 0) truncates to 0. */
  lemma TruncDivNegative(a: int, b: int)
    requires b > 0
    ensures TruncDiv(a, b) < 0 <==> a <= -b
  {
    if a < 0 {
      var q, r := (-a) / b, (-a) % b;
      assert -a == q * b + r && 0 <= r < b;
      assert TruncDiv(a, b) == -q;
      if q == 0 {
        assert -a == r;
      } else {
        MultipleApart(q, b);
        assert -a >= b;
      }
    } else {
      var q, r := a / b, a % b;
      assert a == q * b + r && 0 <= r < b;
      MultipleApart(q, b);
      assert TruncDiv(a, b) == q;
    }
  }

  /** Python's `s[i]` with negative indices counting from the end. */
  function PyIndex<T>(s: seq<T>, i: int): (x: T)
    requires -|s| <= i < |s|
    ensures 0 <= i ==> x == s[i]
    ensures i < 0 ==> x == s[|s| + i]
  {
    if i >= 0 then s[i] else s[|s| + i]
  }

  // --- decimal digits and str(n) -------------------------------------------

  function Digit(d: int): (c: char)
    requires 0 <= d < 10
    ensures '0' <= c <= '9'
  {
    ('0' as int + d) as char
  }

  function DigitValue(c: char): int
  {
    if '0' <= c <= '9' then c as int - '0' as int else 0
  }

  lemma DigitValueOfDigit(d: int)
    requires 0 <= d < 10
    ensures DigitValue(Digit(d)) == d
  {
  }

  /** The decimal representation of a natural number, most significant digit
      first, without leading zeros (what `str` gives for a non-negative int). */
  function DecimalString(n: nat): (s: string)
    ensures |s| >= 1 && '0' <= s[0] <= '9'
    decreases n
  {
    if n < 10 then [Digit(n)] else DecimalString(n / 10) + [Digit(n % 10)]
  }

  /** Every character of `str(n)` is a decimal digit. */
  lemma {:induction false} DecimalStringDigits(n: nat)
    ensures forall k :: 0 <= k < |DecimalString(n)| ==> '0' <= DecimalString(n)[k] <= '9'
    decreases n
  {
    if n >= 10 {
      DecimalStringDigits(n / 10);
    }
  }

  /** Python's `str(i)` for an int. */
  function PyStr(i: int): (s: string)
    ensures |s| >= 1
    ensures i < 0 <==> s[0] == '-'
  {
    if i < 0 then "-" + DecimalString(-i) else DecimalString(i)
  }

  /** Reads a string of decimal digits back as a number. */
  function ParseDecimal(s: string): nat
  {
    if s == [] then 0
    else ParseDecimal(s[..|s| - 1]) * 10 + (var d := DigitValue(s[|s| - 1]); if d < 0 then 0 else d)
  }

  /** Round trip: reading back the decimal representation gives the number,
      so equal strings come from equal numbers. */
  lemma {:induction false} ParseDecimalString(n: nat)
    ensures ParseDecimal(DecimalString(n)) == n
    decreases n
  {
    var s := DecimalString(n);
    if n < 10 {
      DigitValueOfDigit(n);
    } else {
      ParseDecimalString(n / 10);
      DigitValueOfDigit(n % 10);
      assert s[..|s| - 1] == DecimalString(n / 10);
    }
  }

  lemma DecimalStringInjective(m: nat, n: nat)
    requires DecimalString(m) == DecimalString(n)
    ensures m == n
  {
    ParseDecimalString(m);
    ParseDecimalString(n);
  }

  /** The most significant decimal digit of a natural number. */
  function LeadingDigit(n: nat): (d: nat)
    ensures d < 10
    ensures n >= 1 ==> d >= 1
    decreases n
  {
    if n < 10 then n else LeadingDigit(n / 10)
  }

  /** The first character of `str(n)` is the leading digit. */
  lemma {:induction false} DecimalStringHead(n: nat)
    ensures DecimalString(n)[0] == Digit(LeadingDigit(n))
    decreases n
  {
    if n >= 10 {
      DecimalStringHead(n / 10);
    }
  }

  /** `str(n)` of a three-digit number, digit by digit. */
  lemma DecimalStringThree(n: nat)
    requires 100 <= n < 1000
    ensures DecimalString(n) == [Digit(n / 100), Digit(n / 10 % 10), Digit(n % 10)]
  {
    assert DecimalString(n / 10) == [Digit(n / 100), Digit(n / 10 % 10)];
  }

  /** Two decimal digits with a leading zero, as `%H` and `%M` print them. */
  function TwoDigits(n: int): (s: string)
    requires 0 <= n < 100
    ensures |s| == 2 && ParseDecimal(s) == n
  {
    DigitValueOfDigit(n / 10);
    DigitValueOfDigit(n % 10);
    var s := [Digit(n / 10), Digit(n % 10)];
    assert s[..1] == [Digit(n / 10)] && s[..1][..0] == [];
    assert ParseDecimal(s[..1]) == n / 10;
    s
  }
}
