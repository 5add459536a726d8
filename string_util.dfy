/** `substringReplace` (src/utils/string.ts, duplicated in src/old.js): replace
    `size` characters of `str` starting at `start` by `replacement`. The zero
    stripping loops call it as `substringReplace(s, "", 0, 1)`. */
module StringUtil {
  import opened Wrappers
  import opened JsString

  /** `size` is None when the caller leaves it out (it then defaults to the
      length of `str`). */
  function SubstringReplace(str: string, replacement: string, start: int, size: Option<int>): (r: string)
    // In range, the whole replacement is kept and the cut is clamped at the end of str.
    ensures 0 <= start <= |str| && size.Some? && 0 <= size.value ==>
      var cut := if start + size.value <= |str| then start + size.value else |str|;
      r == str[..start] + replacement + str[cut..]
    ensures 0 <= start <= |str| && size.Some? && 0 <= size.value && start + size.value <= |str| ==>
      |r| == |str| - size.value + |replacement|
    // Without a size, everything from start on is replaced.
    ensures 0 <= start <= |str| && size.None? ==> r == str[..start] + replacement
  {
    var positiveStart := if start < 0 then start + |str| else start;
    ReplaceFrom(str, replacement, positiveStart, size)
  }

  /** The rest of `substringReplace`, once a negative start has been moved
      up by the length of str. */
  function ReplaceFrom(str: string, replacement: string, positiveStart: int, size: Option<int>): (r: string)
    ensures 0 <= positiveStart <= |str| && size.Some? && 0 <= size.value ==>
      var cut := if positiveStart + size.value <= |str| then positiveStart + size.value else |str|;
      r == str[..positiveStart] + replacement + str[cut..]
    ensures 0 <= positiveStart <= |str| && size.None? ==> r == str[..positiveStart] + replacement
  {
    var size1 := if size.Some? then size.value else |str|;
    var size2 := if size1 < 0 then size1 + |str| - positiveStart else size1;
    var startString := Slice(str, 0, positiveStart);
    var replacementStart := Substring(replacement, 0, size2);
    var replacementString := replacementStart + SliceFrom(replacement, size2);
    var endString := SliceFrom(str, positiveStart + size2);
    assert 0 <= size2 ==> replacementString == replacement by {
      if 0 <= size2 {
        if size2 <= |replacement| {
          assert replacement[..size2] + replacement[size2..] == replacement;
        }
      }
    }
    startString + replacementString + endString
  }

  /** A negative start counts from the end of str. */
  lemma NegativeStart(str: string, replacement: string, start: int, size: Option<int>)
    requires start < 0 && 0 <= start + |str|
    ensures SubstringReplace(str, replacement, start, size)
         == SubstringReplace(str, replacement, start + |str|, size)
  {
  }

  /** A negative size -m keeps the last m characters of str. */
  lemma NegativeSize(str: string, replacement: string, start: int, m: nat)
    requires 0 <= start && start + m <= |str| && 0 < m
    ensures SubstringReplace(str, replacement, start, Some(0 - m as int))
         == str[..start] + replacement + str[|str| - m..]
  {
    var size2: int := |str| - start - m;
    assert 0 <= size2;
    if size2 <= |replacement| {
      assert replacement[..size2] + replacement[size2..] == replacement;
    }
  }

  /** The call the zero stripping loops make removes the first character. */
  lemma DropFirst(s: string)
    requires s != []
    ensures SubstringReplace(s, "", 0, Some(1)) == s[1..]
  {
    assert s[..0] + "" + s[1..] == s[1..];
  }

  /** The library's own example: the replacement is inserted whole. */
  lemma ExampleFromTests()
    ensures SubstringReplace("abcdefg", "12345678", 0, Some(1)) == "12345678bcdefg"
  {
    assert "abcdefg"[..0] + "12345678" + "abcdefg"[1..] == "12345678bcdefg";
  }
}
