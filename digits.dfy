/** Decimal digits and digit strings: the digit filter every public entry point
    applies first, the value `parseInt(s, 10)` reads from a digit string, and
    the text `String(n)` writes for a natural number. */
module Digits {
  import opened Wrappers

  predicate IsDigit(c: char) {
    '0' <= c <= '9'
  }

  predicate IsDigits(s: string) {
    forall i | 0 <= i < |s| :: IsDigit(s[i])
  }

  lemma DigitsConcat(a: string, b: string)
    requires IsDigits(a) && IsDigits(b)
    ensures IsDigits(a + b)
  {
  }

  function DigitVal(c: char): (d: nat)
    requires IsDigit(c)
    ensures d <= 9
  {
    c as int - '0' as int
  }

  function DigitChar(d: nat): (c: char)
    requires d <= 9
    ensures IsDigit(c) && DigitVal(c) == d
  {
    ('0' as int + d) as char
  }

  lemma DigitCharOfVal(c: char)
    requires IsDigit(c)
    ensures DigitChar(DigitVal(c)) == c
  {
  }

  /** `s.replace(/[^0-9]/g, "")`: keeps the digits of `s`, in order. */
  function KeepDigits(s: string): (r: string)
    ensures IsDigits(r) && |r| <= |s|
    ensures IsDigits(s) ==> r == s
  {
    if s == [] then [] else (if IsDigit(s[0]) then [s[0]] else []) + KeepDigits(s[1..])
  }

  lemma {:induction false} KeepDigitsConcat(a: string, b: string)
    ensures KeepDigits(a + b) == KeepDigits(a) + KeepDigits(b)
  {
    if a == [] {
      assert a + b == b;
    } else {
      assert (a + b)[0] == a[0];
      assert (a + b)[1..] == a[1..] + b;
      KeepDigitsConcat(a[1..], b);
    }
  }

  function Pow10(k: nat): (p: nat)
    ensures p >= 1
  {
    if k == 0 then 1 else 10 * Pow10(k - 1)
  }

  /** The number a digit string denotes in base ten (leading zeros allowed). */
  function NumberValue(s: string): (n: nat)
    requires IsDigits(s)
    ensures n < Pow10(|s|)
  {
    if s == [] then 0 else NumberValue(s[..|s| - 1]) * 10 + DigitVal(s[|s| - 1])
  }

  /** `String(n)` for a natural number: its decimal text without leading zeros. */
  function DecimalString(n: nat): (s: string)
    ensures IsDigits(s) && 1 <= |s|
    ensures NumberValue(s) == n
    ensures n < 10 <==> |s| == 1
    decreases n
  {
    if n < 10 then [DigitChar(n)]
    else
      var s := DecimalString(n / 10) + [DigitChar(n % 10)];
      assert s[..|s| - 1] == DecimalString(n / 10);
      s
  }

  /** `parseInt(s, 10)` on a digit string; None stands for NaN (the empty string).
      The value read is `NumberValue(s)`, whose properties are proved below. */
  function ParseInt(s: string): (r: Option<nat>)
    requires IsDigits(s)
    ensures r.None? <==> s == []
    ensures r.Some? ==> r.value < Pow10(|s|)
    ensures r.Some? ==> r.value == NumberValue(s)
  {
    if s == [] then None else Some(NumberValue(s))
  }

  /** `parseInt("0")` is zero. */
  lemma ParseIntOfZero()
    ensures ParseInt("0") == Some(0)
  {
    assert "0"[..0] == [];
  }

  /** Reading digits left to right: the value of `a + b` is the value of `a`
      shifted by the length of `b`, plus the value of `b`. */
  lemma {:induction false} NumberValueConcat(a: string, b: string)
    requires IsDigits(a) && IsDigits(b)
    ensures NumberValue(a + b) == NumberValue(a) * Pow10(|b|) + NumberValue(b)
  {
    if b == [] {
      assert a + b == a;
    } else {
      var front := b[..|b| - 1];
      assert (a + b)[..|a + b| - 1] == a + front;
      assert (a + b)[|a + b| - 1] == b[|b| - 1];
      NumberValueConcat(a, front);
      var x, p, y, d := NumberValue(a), Pow10(|front|), NumberValue(front), DigitVal(b[|b| - 1]);
      assert Pow10(|b|) == 10 * p;
      assert NumberValue(b) == y * 10 + d by {
        assert b[..|b| - 1] == front;
      }
      ShiftDigit(x, p, y, d);
    }
  }

  lemma ShiftDigit(x: nat, p: nat, y: nat, d: nat)
    ensures (x * p + y) * 10 + d == x * (10 * p) + (y * 10 + d)
  {
  }

  /** A run of zeros reads as zero, so leading zeros do not change a value. */
  lemma {:induction false} NumberValueOfZeros(n: nat)
    ensures NumberValue(Zeros(n)) == 0
  {
    if n > 0 {
      assert Zeros(n)[..n - 1] == Zeros(n - 1);
      NumberValueOfZeros(n - 1);
    }
  }

  /** A run of `n` zero characters. */
  function Zeros(n: nat): (s: string)
    ensures |s| == n && IsDigits(s)
    ensures forall i | 0 <= i < n :: s[i] == '0'
  {
    seq(n, _ => '0')
  }
}
