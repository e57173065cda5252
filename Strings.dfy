/** Facts about object keys as character sequences. */
module Strings {

  /** `x` ends the string `y` (Python's `y.endswith(x)`). */
  predicate IsSuffix(x: string, y: string)
  {
    |x| <= |y| && y[|y| - |x|..] == x
  }

  /** A key always ends any key made by prefixing it. */
  lemma SuffixOfPrefixed(p: string, k: string)
    ensures IsSuffix(k, p + k)
  {
    assert (p + k)[|p|..] == k;
  }

  /** Two strings that both end `z` are nested: one ends the other. */
  lemma SuffixesNest(x: string, y: string, z: string)
    requires IsSuffix(x, z) && IsSuffix(y, z)
    ensures IsSuffix(x, y) || IsSuffix(y, x)
  {
    if |x| <= |y| {
      assert y[|y| - |x|..] == z[|z| - |x|..];
    } else {
      assert x[|x| - |y|..] == z[|z| - |y|..];
    }
  }

  /** No element appears twice. */
  ghost predicate Distinct<T>(s: seq<T>)
  {
    forall i, j :: 0 <= i < j < |s| ==> s[i] != s[j]
  }
}
