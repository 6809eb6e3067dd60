/** Prefix and suffix tests on strings (`str::starts_with`, `str::ends_with`). */
module Text {

  predicate StartsWith(s: string, prefix: string)
  {
    |prefix| <= |s| && s[..|prefix|] == prefix
  }

  predicate EndsWith(s: string, suffix: string)
  {
    |suffix| <= |s| && s[|s| - |suffix|..] == suffix
  }

  /** Whether a string ends with a suffix no longer than its own tail depends on the tail alone. */
  /** A string that ends with `suffix` has the suffix's `k`-th last character as its own. */
  lemma EndsWithAt(s: string, suffix: string, k: nat)
    requires 1 <= k <= |suffix|
    ensures EndsWith(s, suffix) ==> s[|s| - k] == suffix[|suffix| - k]
  {
    if EndsWith(s, suffix) {
      assert s[|s| - |suffix|..][|suffix| - k] == s[|s| - k];
    }
  }

  lemma EndsWithTail(head: string, tail: string, suffix: string)
    requires |suffix| <= |tail|
    ensures EndsWith(head + tail, suffix) <==> EndsWith(tail, suffix)
  {
    var s := head + tail;
    assert s[|s| - |suffix|..] == tail[|tail| - |suffix|..];
  }
}
