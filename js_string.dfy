/** The JavaScript string primitives the source relies on, with their exact
    treatment of negative and out-of-range arguments, so that the model
    behaves like the source on short or malformed codes too. */
module JsString {
  import opened Digits

  /** How `slice` and `substr` resolve an index: a negative one counts from
      the end, and the result is clamped to [0, n]. */
  function RelIndex(i: int, n: nat): (k: nat)
    ensures k <= n
    ensures 0 <= i <= n ==> k == i
    ensures i < 0 && 0 <= n + i ==> k == n + i
  {
    if i < 0 then (if n + i < 0 then 0 else n + i) else if i > n then n else i
  }

  /** How `substring` resolves an index: clamped to [0, n]. */
  function Clamp(i: int, n: nat): (k: nat)
    ensures k <= n
    ensures 0 <= i <= n ==> k == i
    ensures i < 0 ==> k == 0
  {
    if i < 0 then 0 else if i > n then n else i
  }

  /** `s.substr(start, length)`. */
  function Substr(s: string, start: int, length: int): (r: string)
    ensures |r| <= |s|
    ensures 0 <= length ==> |r| <= length
    ensures |s| <= start ==> r == []
    ensures IsDigits(s) ==> IsDigits(r)
    ensures 0 <= start && 0 <= length && start + length <= |s| ==> r == s[start..start + length]
    ensures 0 <= start <= |s| && 0 <= length && |s| < start + length ==> r == s[start..]
  {
    var b := RelIndex(start, |s|);
    var e := if length <= 0 then b else if b + length < |s| then b + length else |s|;
    s[b..e]
  }

  /** `s.substr(start)`. */
  function SubstrFrom(s: string, start: int): (r: string)
    ensures IsDigits(s) ==> IsDigits(r)
    ensures 0 <= start <= |s| ==> r == s[start..]
  {
    s[RelIndex(start, |s|)..]
  }

  /** The alphabet the string tests take their `substr` cases from. */
  const Alphabet := "abcdefghij" + "klmnopqrst" + "uvwxyzABCDEFGHIJKLMNOP" + "QRSTUVWXYZ"

  /** The `substr` cases of the string tests without a length: a negative
      start counts from the end. */
  lemma SubstrFromExamples()
    ensures SubstrFrom(Alphabet, 0) == Alphabet
    ensures SubstrFrom(Alphabet, 10) == "klmnopqrst" + "uvwxyzABCDEFGHIJKLMNOP" + "QRSTUVWXYZ"
    ensures SubstrFrom(Alphabet, -10) == "QRSTUVWXYZ"
  {
    assert Alphabet[42..] == "QRSTUVWXYZ";
  }

  /** The `substr` cases of the string tests with a length: the window is
      taken whole, and a length of zero or below gives the empty string. */
  lemma SubstrLengthExamples()
    ensures Substr(Alphabet, 0, 10) == "abcdefghij"
    ensures Substr(Alphabet, 10, 10) == "klmnopqrst"
    ensures Substr(Alphabet, 10, 0) == [] && Substr(Alphabet, -10, 0) == []
    ensures Substr(Alphabet, 0, -10) == [] && Substr(Alphabet, 10, -10) == [] && Substr(Alphabet, -10, -10) == []
  {
    assert Alphabet[..10] == "abcdefghij";
    assert Alphabet[10..20] == "klmnopqrst";
  }

  /** `s.substring(a, b)`: both ends clamped, swapped when out of order. */
  function Substring(s: string, a: int, b: int): (r: string)
    ensures 0 <= a <= b <= |s| ==> r == s[a..b]
    ensures a <= 0 && b <= 0 ==> r == []
  {
    var x := Clamp(a, |s|);
    var y := Clamp(b, |s|);
    if x <= y then s[x..y] else s[y..x]
  }

  /** `s.substring(a)`. */
  function SubstringFrom(s: string, a: int): (r: string)
    ensures 0 <= a <= |s| ==> r == s[a..]
    ensures a < 0 ==> r == s
  {
    s[Clamp(a, |s|)..]
  }

  /** `s.slice(begin, end)`. */
  function Slice(s: string, begin: int, end: int): (r: string)
    ensures 0 <= begin <= end <= |s| ==> r == s[begin..end]
  {
    var b := RelIndex(begin, |s|);
    var e := RelIndex(end, |s|);
    if b < e then s[b..e] else []
  }

  /** `s.slice(begin)`. */
  function SliceFrom(s: string, begin: int): (r: string)
    ensures 0 <= begin <= |s| ==> r == s[begin..]
    ensures |s| < begin ==> r == []
  {
    s[RelIndex(begin, |s|)..]
  }

  /** `s.charAt(i)`: a one-character string, or "" past the end. */
  function CharAt(s: string, i: nat): (r: string)
    ensures i < |s| ==> r == [s[i]]
    ensures |s| <= i ==> r == []
  {
    if i < |s| then [s[i]] else []
  }

  /** `s.split("")`, `splice(i, 1)`, `join("")`: deletes the character at
      index `i` when there is one. */
  function Splice1(s: string, i: nat): (r: string)
    ensures IsDigits(s) ==> IsDigits(r)
    ensures i < |s| ==> r == s[..i] + s[i + 1..] && |r| == |s| - 1
    ensures |s| <= i ==> r == s
  {
    if i < |s| then s[..i] + s[i + 1..] else s
  }
}
