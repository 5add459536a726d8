/** The check-digit engine of src/utils/module.ts (duplicated in src/old.js as
    calculaMod10 and calculaMod11). The methods follow the source's loops; the
    functions beside them say what the loops compute. */
module Checksum {
  import opened Digits

  // ---------------------------------------------------------------- Modulo 10

  /** Weight of the first digit of an n-digit string: counting from the right,
      the rightmost digit weighs 2, the next 1, then 2 again, and so on. */
  function Weight10(n: nat): (w: nat)
    ensures w == 1 || w == 2
  {
    if n % 2 == 1 then 2 else 1
  }

  /** The weights alternate: 2, 1, 2, 1, ... */
  lemma WeightAlternates(n: nat)
    ensures Weight10(n + 1) == 3 - Weight10(n)
  {
  }

  /** The usual "subtract 9" rule for a doubled digit. */
  function Reduce(p: nat): nat {
    if p > 9 then p - 9 else p
  }

  /** The weighted sum behind the Modulo-10 digit, each product reduced. */
  function LuhnSum(d: string): nat
    requires IsDigits(d)
  {
    if d == [] then 0 else Reduce(Weight10(|d|) * DigitVal(d[0])) + LuhnSum(d[1..])
  }

  /** The Modulo-10 check digit: the one digit that brings the sum to a
      multiple of ten. */
  function Mod10(d: string): (r: nat)
    requires IsDigits(d)
    ensures r <= 9
    ensures (LuhnSum(d) + r) % 10 == 0
    ensures r == 0 <==> LuhnSum(d) % 10 == 0
  {
    var m := LuhnSum(d) % 10;
    if m == 0 then 0 else 10 - m
  }

  /** The sum of the digits of a digit string. */
  function DigitSum(s: string): nat
    requires IsDigits(s)
  {
    if s == [] then 0 else DigitVal(s[0]) + DigitSum(s[1..])
  }

  lemma DigitSumStep(s: string, k: nat)
    requires IsDigits(s) && k < |s|
    ensures DigitSum(s[k..]) == DigitVal(s[k]) + DigitSum(s[k + 1..])
  {
    assert s[k..][1..] == s[k + 1..];
  }

  lemma {:induction false} DigitSumConcat(a: string, b: string)
    requires IsDigits(a) && IsDigits(b)
    ensures DigitSum(a + b) == DigitSum(a) + DigitSum(b)
  {
    if a == [] {
      assert a + b == b;
    } else {
      assert (a + b)[1..] == a[1..] + b;
      DigitSumConcat(a[1..], b);
    }
  }

  /** Products never exceed 18, so summing the characters of a product's
      text is the same as the "subtract 9" rule. */
  lemma ProductDigitSum(p: nat)
    requires p <= 18
    ensures DigitSum(DecimalString(p)) == Reduce(p)
  {
    var s := DecimalString(p);
    if p >= 10 {
      assert p / 10 == 1;
      var a, b := DigitChar(1), DigitChar(p % 10);
      assert s == [a, b];
      assert s[1..] == [b];
      assert [b][1..] == [];
      assert DigitSum([b]) == p % 10;
    } else {
      assert s[1..] == [];
    }
  }

  lemma LuhnStep(d: string, i: nat)
    requires IsDigits(d) && i < |d|
    ensures LuhnSum(d[i..]) == Reduce(Weight10(|d| - i) * DigitVal(d[i])) + LuhnSum(d[i + 1..])
  {
    assert d[i..][1..] == d[i + 1..];
  }

  /** calculateModule10: non-digits are dropped first, then the products are
      written out as text and the characters of that text are summed. */
  method CalculateModule10(numeration: string) returns (r: nat)
    ensures r == Mod10(KeepDigits(numeration))
  {
    var clean := KeepDigits(numeration);
    var multiplier := 2;
    var s := "";
    var i := |clean| - 1;
    // s holds the text of the products of clean[i + 1..]; summing its
    // characters applies the "subtract 9" rule to every product.
    while i >= 0
      invariant -1 <= i < |clean|
      invariant IsDigits(s)
      invariant DigitSum(s) == LuhnSum(clean[i + 1..])
      invariant multiplier == Weight10(|clean| - i)
    {
      LuhnStep(clean, i);
      WeightAlternates(|clean| - i);
      var product := multiplier * DigitVal(clean[i]);
      ProductDigitSum(product);
      DigitSumConcat(DecimalString(product), s);
      s := DecimalString(product) + s;
      multiplier := multiplier - 1;
      if multiplier < 1 {
        multiplier := 2;
      }
      i := i - 1;
    }
    assert i == -1 && clean[i + 1..] == clean;
    var sum := SumDigitChars(s);
    sum := sum % 10;
    if sum != 0 {
      sum := 10 - sum;
    }
    r := sum;
  }

  /** The second loop of calculateModule10: `parseInt` of every character
      of the products' text, added up. */
  method SumDigitChars(s: string) returns (sum: nat)
    requires IsDigits(s)
    ensures sum == DigitSum(s)
  {
    sum := 0;
    var k := 0;
    assert s[k..] == s;
    while k < |s|
      invariant 0 <= k <= |s|
      invariant sum + DigitSum(s[k..]) == DigitSum(s)
    {
      DigitSumStep(s, k);
      sum := sum + DigitVal(s[k]);
      k := k + 1;
    }
  }

  /** The examples of the library's tests. */
  lemma Mod10Examples()
    ensures Mod10("261533") == 4
    ensures Mod10("17643") == 8
  {
    LuhnSumFirstExample();
    LuhnSumSecondExample();
  }

  /** 261533, summed from the right: 6, 3, 1 (10 reduced), 1, 3 (12 reduced), 2. */
  lemma LuhnSumFirstExample()
    ensures LuhnSum("261533") == 16
  {
    assert LuhnSum("3") == 6 by { assert "3"[1..] == ""; }
    assert LuhnSum("33") == 9 by { assert "33"[1..] == "3"; }
    assert LuhnSum("533") == 10 by { assert "533"[1..] == "33"; }
    assert LuhnSum("1533") == 11 by { assert "1533"[1..] == "533"; }
    assert LuhnSum("61533") == 14 by { assert "61533"[1..] == "1533"; }
    assert "261533"[1..] == "61533";
  }

  /** 17643, summed from the right: 6, 4, 3 (12 reduced), 7, 2. */
  lemma LuhnSumSecondExample()
    ensures LuhnSum("17643") == 22
  {
    assert LuhnSum("3") == 6 by { assert "3"[1..] == ""; }
    assert LuhnSum("43") == 10 by { assert "43"[1..] == "3"; }
    assert LuhnSum("643") == 13 by { assert "643"[1..] == "43"; }
    assert LuhnSum("7643") == 20 by { assert "7643"[1..] == "643"; }
    assert "17643"[1..] == "7643";
  }

  // ---------------------------------------------------------------- Modulo 11

  /** The weight table of the source, applied from the left and cyclically. */
  const Mod11Weights: seq<nat> := [4, 3, 2, 9, 8, 7, 6, 5]

  /** Σ Mod11Weights[(j + i) % 8] * d[i]: the weights of the table, the first
      digit taking entry j. */
  function Mod11Sum(d: string, j: nat): nat
    requires IsDigits(d) && j < |Mod11Weights|
  {
    if d == [] then 0 else Mod11Weights[j] * DigitVal(d[0]) + Mod11Sum(d[1..], (j + 1) % 8)
  }

  /** From the remainder of the weighted sum to the check digit. */
  function DacDigit(dac: nat): (r: nat)
    requires dac < 11
    ensures r <= 9
    ensures (dac + r) % 11 == 0 || (dac == 1 && r == 0)
  {
    if dac == 0 || dac == 1 then 0 else if dac == 10 then 1 else 11 - dac
  }

  /** The Modulo-11 check digit as the source computes it. It completes the
      sum to a multiple of eleven, except that remainder 1 gives 0. */
  function Mod11(d: string): (r: nat)
    requires IsDigits(d)
    ensures r <= 9
    ensures (Mod11Sum(d, 0) + r) % 11 == 0 || (Mod11Sum(d, 0) % 11 == 1 && r == 0)
  {
    DacDigit(Mod11Sum(d, 0) % 11)
  }

  /** calculateModule11: weights 4,3,2,9,8,7,6,5 from the left, repeated. */
  method CalculateModule11(numeration: string) returns (r: nat)
    requires IsDigits(numeration)
    ensures r == Mod11(numeration)
  {
    var digit := 0;
    var sequenceIndex := 0;
    var i := 0;
    while i < |numeration|
      invariant 0 <= i <= |numeration|
      invariant 0 <= sequenceIndex < |Mod11Weights|
      invariant digit + Mod11Sum(numeration[i..], sequenceIndex) == Mod11Sum(numeration, 0)
    {
      assert numeration[i..][1..] == numeration[i + 1..];
      var multiplier := Mod11Weights[sequenceIndex];
      sequenceIndex := sequenceIndex + 1;
      sequenceIndex := sequenceIndex % |Mod11Weights|;
      digit := digit + multiplier * DigitVal(numeration[i]);
      i := i + 1;
    }
    assert numeration[0..] == numeration;
    var dac := digit % 11;
    if dac == 0 || dac == 1 {
      return 0;
    }
    if dac == 10 {
      return 1;
    }
    return 11 - dac;
  }

  /** FEBRABAN's rule: the digit k places from the right weighs 2 + k % 8. */
  function FromRightSum(d: string): nat
    requires IsDigits(d)
  {
    if d == [] then 0 else (2 + (|d| - 1) % 8) * DigitVal(d[0]) + FromRightSum(d[1..])
  }

  /** The Modulo-11 digit with FEBRABAN's right-to-left weights. */
  function Mod11FromRight(d: string): (r: nat)
    requires IsDigits(d)
    ensures r <= 9
    ensures (FromRightSum(d) + r) % 11 == 0 || (FromRightSum(d) % 11 == 1 && r == 0)
  {
    DacDigit(FromRightSum(d) % 11)
  }

  /** Once the table entry of the first digit lines up with its distance from
      the right, every later digit lines up too. */
  lemma {:induction false} WeightsLineUp(d: string, j: nat)
    requires IsDigits(d) && j < |Mod11Weights|
    requires (|d| - 1 + j) % 8 == 2
    ensures Mod11Sum(d, j) == FromRightSum(d)
  {
    if d != [] {
      var n := |d| - 1;
      assert (n - 1 + (j + 1) % 8) % 8 == 2 by {
        if j == 7 {
          assert (n - 1 + 8) % 8 == (n - 1) % 8;
        }
      }
      WeightsLineUp(d[1..], (j + 1) % 8);
      WeightAt(j, n);
    }
  }

  /** The table entry at `j` is FEBRABAN's weight for a digit `n` places from
      the right whenever the two line up. */
  lemma WeightAt(j: nat, n: nat)
    requires j < |Mod11Weights| && (n + j) % 8 == 2
    ensures Mod11Weights[j] == 2 + n % 8
  {
    var r := n % 8;
    assert n == 8 * (n / 8) + r;
    assert (r + j) % 8 == 2;
    assert r + j == 2 || r + j == 10;
  }

  /** For lengths 11, 19, 27, 35, 43, ... the table applied from the left gives
      FEBRABAN's weights: the digit k places from the right weighs 2 + k % 8. */
  lemma Mod11IsFebrabanWhenLengthIs3Mod8(d: string)
    requires IsDigits(d)
    requires |d| % 8 == 3
    ensures Mod11Sum(d, 0) == FromRightSum(d)
    ensures Mod11(d) == Mod11FromRight(d)
  {
    WeightsLineUp(d, 0);
  }

  /** The library's test expects 8 for "5555555555"; the code gives 9, while
      the right-to-left weights give the expected 8. */
  lemma Mod11TestMismatch()
    ensures Mod11("5555555555") == 9
    ensures Mod11FromRight("5555555555") == 8
  {
    Mod11OfFives();
    Mod11FromRightOfFives();
  }

  lemma Mod11OfFives()
    ensures Mod11("5555555555") == 9
  {
    Mod11SumOfFives();
  }

  lemma Mod11FromRightOfFives()
    ensures Mod11FromRight("5555555555") == 8
  {
    FromRightSumOfFives();
  }

  /** The table from the left on ten fives: 5 * (4+3+2+9+8+7+6+5+4+3). */
  lemma Mod11SumOfFives()
    ensures Mod11Sum("5555555555", 0) == 255
  {
    Mod11SumOfFiveFives();
    assert Mod11Sum("555555", 4) == 165 by { assert "555555"[1..] == "55555"; }
    assert Mod11Sum("5555555", 3) == 210 by { assert "5555555"[1..] == "555555"; }
    assert Mod11Sum("55555555", 2) == 220 by { assert "55555555"[1..] == "5555555"; }
    assert Mod11Sum("555555555", 1) == 235 by { assert "555555555"[1..] == "55555555"; }
    assert "5555555555"[1..] == "555555555";
  }

  /** The last five fives take the entries 7, 0, 1, 2 and 3... from index 5:
      5 * (7+6+5+4+3). */
  lemma Mod11SumOfFiveFives()
    ensures Mod11Sum("55555", 5) == 125
  {
    assert Mod11Sum("5", 1) == 15 by { assert "5"[1..] == ""; }
    assert Mod11Sum("55", 0) == 35 by { assert "55"[1..] == "5"; }
    assert Mod11Sum("555", 7) == 60 by { assert "555"[1..] == "55"; }
    assert Mod11Sum("5555", 6) == 90 by { assert "5555"[1..] == "555"; }
    assert "55555"[1..] == "5555";
  }

  /** FEBRABAN's weights on ten fives: 5 * (2+3+4+5+6+7+8+9+2+3). */
  lemma FromRightSumOfFives()
    ensures FromRightSum("5555555555") == 245
  {
    FromRightSumOfNineFives();
    assert "5555555555"[1..] == "555555555";
  }

  /** The last nine fives weigh 2 to 9 and then 2 again. */
  lemma FromRightSumOfNineFives()
    ensures FromRightSum("555555555") == 230
  {
    FromRightSumOfEightFives();
    assert "555555555"[1..] == "55555555";
  }

  /** The last eight fives weigh 2 to 9. */
  lemma FromRightSumOfEightFives()
    ensures FromRightSum("55555555") == 220
  {
    FromRightSumOfSevenFives();
    assert "55555555"[1..] == "5555555";
  }

  /** The last seven fives weigh 2 to 8. */
  lemma FromRightSumOfSevenFives()
    ensures FromRightSum("5555555") == 175
  {
    FromRightSumOfFiveFives();
    assert FromRightSum("555555") == 135 by { assert "555555"[1..] == "55555"; }
    assert "5555555"[1..] == "555555";
  }

  /** The last five fives weigh 2, 3, 4, 5 and 6. */
  lemma FromRightSumOfFiveFives()
    ensures FromRightSum("55555") == 100
  {
    assert FromRightSum("5") == 10 by { assert "5"[1..] == ""; }
    assert FromRightSum("55") == 25 by { assert "55"[1..] == "5"; }
    assert FromRightSum("555") == 45 by { assert "555"[1..] == "55"; }
    assert FromRightSum("5555") == 70 by { assert "5555"[1..] == "555"; }
    assert "55555"[1..] == "5555";
  }
}
