/**
 * The persisted `users` map is keyed by `str(user_id)`, the decimal notation
 * of the numeric Telegram user id. This module models that rendering and
 * proves it injective, so a write under one user's key never reaches another
 * user's record.
 */
module Keys {

  predicate IsDigit(c: char) {
    '0' <= c <= '9'
  }

  /** The digit character for `d`. */
  function DigitChar(d: nat): (c: char)
    requires d < 10
    ensures IsDigit(c) && c as int == '0' as int + d
  {
    ('0' as int + d) as char
  }

  /** Decimal notation of a natural number, without leading zeros, as Python's `str` writes it. */
  function Decimal(n: nat): (s: string)
    ensures |s| >= 1
    ensures forall i :: 0 <= i < |s| ==> IsDigit(s[i])
    ensures n >= 10 ==> |s| >= 2 && s[0] != '0'
    ensures n < 10 <==> |s| == 1
    decreases n
  {
    if n < 10 then [DigitChar(n)] else Decimal(n / 10) + [DigitChar(n % 10)]
  }

  /** `str(user_id)`: a minus sign before the magnitude for negative ids. */
  function UserKey(u: int): (s: string)
    ensures |s| >= 1
    ensures s[0] == '-' <==> u < 0
  {
    if u < 0 then "-" + Decimal(-u) else Decimal(u)
  }

  /** The value of a digit character. */
  function DigitValue(c: char): (d: nat)
    requires IsDigit(c)
    ensures d < 10
  {
    c as int - '0' as int
  }

  /** The number a string of digits denotes, read left to right as Python's `int` reads it. */
  function ParseDecimal(s: string): nat
    requires forall i :: 0 <= i < |s| ==> IsDigit(s[i])
  {
    if s == [] then 0 else 10 * ParseDecimal(s[..|s| - 1]) + DigitValue(s[|s| - 1])
  }

  /** Reading back the decimal rendering gives the number: `int(str(n)) == n`. */
  lemma {:induction false} DecimalRoundTrip(n: nat)
    ensures ParseDecimal(Decimal(n)) == n
    decreases n
  {
    if n >= 10 {
      var s := Decimal(n);
      assert s[..|s| - 1] == Decimal(n / 10);
      DecimalRoundTrip(n / 10);
    }
  }

  lemma {:induction false} DecimalInjective(a: nat, b: nat)
    requires Decimal(a) == Decimal(b)
    ensures a == b
    decreases a
  {
    if a >= 10 && b >= 10 {
      var sa, sb := Decimal(a), Decimal(b);
      assert sa[..|sa| - 1] == Decimal(a / 10);
      assert sb[..|sb| - 1] == Decimal(b / 10);
      assert sa[|sa| - 1] == DigitChar(a % 10);
      assert sb[|sb| - 1] == DigitChar(b % 10);
      DecimalInjective(a / 10, b / 10);
    }
  }

  /** Two user ids share a key exactly when they are the same id. */
  lemma UserKeyInjective(u: int, v: int)
    ensures UserKey(u) == UserKey(v) <==> u == v
  {
    if UserKey(u) == UserKey(v) {
      if u < 0 {
        assert UserKey(u)[1..] == Decimal(-u);
        assert UserKey(v)[1..] == Decimal(-v);
        DecimalInjective(-u, -v);
      } else {
        DecimalInjective(u, v);
      }
    }
  }
}
