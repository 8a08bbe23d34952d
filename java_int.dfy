/**
 * Java's 32-bit `int`: the value range, two's-complement wrap-around of
 * `+ - *`, division truncated toward zero, `Integer.toString` and
 * `Integer.parseInt` (ASCII digits).
 */
module JavaInt {

  const TWO_32: int := 0x1_0000_0000
  const MIN_INT: int := -0x8000_0000
  const MAX_INT: int := 0x7FFF_FFFF

  newtype i32 = x: int | -0x8000_0000 <= x < 0x8000_0000

  /** Reduces an unbounded integer to the `int` with the same low 32 bits. */
  function Wrap(x: int): (r: i32)
    ensures (r as int - x) % TWO_32 == 0
    ensures MIN_INT <= x <= MAX_INT ==> r as int == x
  {
    var m := (x - MIN_INT) % TWO_32;
    (m + MIN_INT) as i32
  }

  /** Integer division rounded toward zero (Java `/` on `int`, before wrap-around). */
  function TruncDiv(a: int, b: int): (q: int)
    requires b != 0
    ensures IsTruncatedQuotient(a, b, q)
  {
    var q0 := Abs(a) / Abs(b);
    var q := if (a < 0) == (b < 0) then q0 else -q0;
    TruncDivFacts(a, b, q0, Abs(a) % Abs(b), q);
    q
  }

  /**
   * `q` is `a / b` rounded toward zero: the remainder `a - q * b` is smaller
   * than `b` in magnitude and has the sign of `a` (or is zero).
   */
  ghost predicate IsTruncatedQuotient(a: int, b: int, q: int)
  {
    var rem := a - q * b;
    0 - Abs(b) < rem < Abs(b) && (rem == 0 || (rem < 0 <==> a < 0))
  }

  lemma TruncDivFacts(a: int, b: int, q0: int, r0: int, q: int)
    requires b != 0 && q0 == Abs(a) / Abs(b) && r0 == Abs(a) % Abs(b)
    requires q == if (a < 0) == (b < 0) then q0 else -q0
    ensures IsTruncatedQuotient(a, b, q)
  {
    var A: int, B: int := Abs(a), Abs(b);
    var P := q0 * B;
    assert A == P + r0 && 0 <= r0 < B;
    assert q * b == (if a < 0 then -P else P) by {
      if b < 0 {
        if a < 0 { calc { q * b; q0 * -B; -P; } } else { calc { q * b; -q0 * -B; P; } }
      } else {
        if a < 0 { calc { q * b; -q0 * B; -P; } } else { calc { q * b; q0 * B; } }
      }
    }
    assert a - q * b == (if a < 0 then -r0 else r0);
  }

  function Abs(x: int): nat { if x < 0 then -x else x }

  function Add(a: i32, b: i32): i32 { Wrap(a as int + b as int) }
  function Sub(a: i32, b: i32): i32 { Wrap(a as int - b as int) }
  function Mul(a: i32, b: i32): i32 { Wrap(a as int * b as int) }

  /** Java `a / b`: truncating, wrapping (MIN_VALUE / -1 == MIN_VALUE); None models ArithmeticException. */
  function Div(a: i32, b: i32): (r: Option<i32>)
    ensures r.None? <==> b == 0
  {
    if b == 0 then None else Some(Wrap(TruncDiv(a as int, b as int)))
  }

  datatype Option<T> = None | Some(value: T)

  // ---------------------------------------------------------------------------
  // Decimal text

  predicate IsAsciiDigit(c: char) { '0' <= c <= '9' }

  function DigitChar(d: nat): (c: char)
    requires d < 10
    ensures IsAsciiDigit(c) && DigitValue(c) == d
  {
    ['0', '1', '2', '3', '4', '5', '6', '7', '8', '9'][d]
  }

  function DigitValue(c: char): nat
    requires IsAsciiDigit(c)
  {
    (c as int - '0' as int) as nat
  }

  /** Decimal digits of `n` with no leading zero. */
  function NatToString(n: nat): (s: string)
    ensures |s| > 0 && forall i :: 0 <= i < |s| ==> IsAsciiDigit(s[i])
    ensures s[0] == '0' ==> n == 0
    decreases n
  {
    if n < 10 then [DigitChar(n)] else NatToString(n / 10) + [DigitChar(n % 10)]
  }

  /** Java `Integer.toString(int)`: a minus sign for negative values, then the digits. */
  function IntToString(x: int): string
  {
    if x < 0 then "-" + NatToString(-x) else NatToString(x)
  }

  predicate AllDigits(s: string)
  {
    forall i :: 0 <= i < |s| ==> IsAsciiDigit(s[i])
  }

  /** The value of a run of decimal digits (leading zeros allowed). */
  function DigitsValue(s: string): nat
    requires AllDigits(s)
    decreases |s|
  {
    if s == [] then 0 else DigitsValue(s[..|s| - 1]) * 10 + DigitValue(s[|s| - 1])
  }

  /**
   * Java `Integer.parseInt(s)` for ASCII text: an optional sign, then at least
   * one digit, and the value must lie in the `int` range; None models
   * NumberFormatException.
   */
  function ParseInt(s: string): (r: Option<i32>)
    ensures r.Some? && |s| > 0 && IsAsciiDigit(s[0]) ==> AllDigits(s) && r.value as int == DigitsValue(s)
  {
    if |s| == 0 then None
    else
      var negative := s[0] == '-';
      var digits := if s[0] == '-' || s[0] == '+' then s[1..] else s;
      if |digits| == 0 || !AllDigits(digits) then None
      else
        var v := if negative then -(DigitsValue(digits) as int) else DigitsValue(digits) as int;
        if MIN_INT <= v <= MAX_INT then Some(v as i32) else None
  }

  lemma {:induction false} DigitsOfNat(n: nat)
    ensures DigitsValue(NatToString(n)) == n
    decreases n
  {
    var s := NatToString(n);
    if n >= 10 {
      DigitsOfNat(n / 10);
      assert s[..|s| - 1] == NatToString(n / 10);
    }
  }

  /** Printing and parsing an `int` are inverse: `Integer.parseInt(Integer.toString(x)) == x`. */
  lemma IntToStringRoundTrip(x: i32)
    ensures ParseInt(IntToString(x as int)) == Some(x)
  {
    if x < 0 {
      var d := NatToString(-(x as int));
      DigitsOfNat(-(x as int));
      ParseNegative(d);
    } else {
      var d := NatToString(x as int);
      DigitsOfNat(x as int);
      ParseNonNegative(d);
    }
  }

  lemma ParseNonNegative(d: string)
    requires |d| > 0 && AllDigits(d) && DigitsValue(d) <= MAX_INT
    ensures ParseInt(d) == Some(DigitsValue(d) as i32)
  {
    assert IsAsciiDigit(d[0]);
  }

  lemma ParseNegative(d: string)
    requires |d| > 0 && AllDigits(d) && DigitsValue(d) <= -MIN_INT
    ensures ParseInt("-" + d) == Some((0 - DigitsValue(d)) as i32)
  {
    assert ("-" + d)[0] == '-' && ("-" + d)[1..] == d;
  }

  /** Distinct numbers print as distinct decimal strings (so numbered labels never collide). */
  lemma NatToStringInjective(m: nat, n: nat)
    requires NatToString(m) == NatToString(n)
    ensures m == n
  {
    DigitsOfNat(m);
    DigitsOfNat(n);
  }
}
