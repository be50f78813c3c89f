/**
 * Python's `str.strip()` with no argument: it removes, from both ends of a
 * string, every character for which `str.isspace()` holds.
 */
module PyStr {

  /**
   * The characters Python's `str.isspace()` accepts: the ASCII controls
   * TAB..CR and FS..US, SPACE, NEL, NO-BREAK SPACE and the Unicode space
   * separators and line/paragraph separators.
   */
  predicate IsWhitespace(c: char) {
    var n := c as int;
    (0x09 <= n <= 0x0D) || (0x1C <= n <= 0x20) || n == 0x85 || n == 0xA0
    || n == 0x1680 || (0x2000 <= n <= 0x200A) || n == 0x2028 || n == 0x2029
    || n == 0x202F || n == 0x205F || n == 0x3000
  }

  /** Every character of `s` is whitespace (vacuously so for the empty string). */
  predicate AllWhitespace(s: string) {
    SpaceBetween(s, 0, |s|)
  }

  /** `s[lo..hi]` is all whitespace. */
  predicate SpaceBetween(s: string, lo: nat, hi: nat)
    requires lo <= hi <= |s|
  {
    forall k :: lo <= k < hi ==> IsWhitespace(s[k])
  }

  /**
   * Where the stripped text starts: the first index at or after `from` that
   * does not hold whitespace, or `|s|` when there is none.
   */
  function SkipSpace(s: string, from: nat): (i: nat)
    requires from <= |s|
    ensures from <= i <= |s|
    ensures SpaceBetween(s, from, i)
    ensures i < |s| ==> !IsWhitespace(s[i])
    decreases |s| - from
  {
    if from < |s| && IsWhitespace(s[from]) then SkipSpace(s, from + 1) else from
  }

  /**
   * Where the stripped text ends: the smallest `j` in `lo..hi` such that
   * `s[j..hi]` is all whitespace.
   */
  function SkipSpaceBack(s: string, lo: nat, hi: nat): (j: nat)
    requires lo <= hi <= |s|
    ensures lo <= j <= hi
    ensures SpaceBetween(s, j, hi)
    ensures j > lo ==> !IsWhitespace(s[j - 1])
    decreases hi
  {
    if lo < hi && IsWhitespace(s[hi - 1]) then SkipSpaceBack(s, lo, hi - 1) else hi
  }

  /**
   * `str.strip()`: the result is the slice `s[i..j]` obtained by dropping
   * whitespace only, and it neither starts nor ends with whitespace.
   */
  function Strip(s: string): (r: string)
    ensures |r| <= |s|
    ensures exists i :: 0 <= i <= |s| - |r| && r == s[i..i + |r|]
                        && SpaceBetween(s, 0, i) && SpaceBetween(s, i + |r|, |s|)
    ensures r != [] ==> !IsWhitespace(r[0]) && !IsWhitespace(r[|r| - 1])
  {
    var i := SkipSpace(s, 0);
    var j := SkipSpaceBack(s, i, |s|);
    assert j > i ==> s[i..j][0] == s[i];
    s[i..j]
  }

  /** A string strips to the empty string exactly when it is all whitespace. */
  lemma StripEmptyIff(s: string)
    ensures Strip(s) == [] <==> AllWhitespace(s)
  {
    var i := SkipSpace(s, 0);
    var j := SkipSpaceBack(s, i, |s|);
    assert Strip(s) == s[i..j];
    if AllWhitespace(s) {
      assert i == |s|;
    } else {
      var k :| 0 <= k < |s| && !IsWhitespace(s[k]);
      assert i <= k < j;
    }
  }

  /** Stripping twice is stripping once. */
  lemma StripIdempotent(s: string)
    ensures Strip(Strip(s)) == Strip(s)
  {
    var r := Strip(s);
    if r != [] {
      assert SkipSpace(r, 0) == 0;
      assert SkipSpaceBack(r, 0, |r|) == |r|;
      assert r[0..|r|] == r;
    }
  }
}
