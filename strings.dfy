/** Java's String.startsWith, the one string operation the eligibility rules use. */
module Strings {

  /** `s.startsWith(prefix)`: the characters of `prefix` match the leading
      characters of `s`, compared one position at a time. */
  predicate StartsWith(s: string, prefix: string)
    decreases prefix
  {
    |prefix| == 0 || (|s| > 0 && s[0] == prefix[0] && StartsWith(s[1..], prefix[1..]))
  }

  /** The character-by-character test is the same as comparing `prefix` with
      the slice of `s` of the same length. */
  lemma {:induction false} StartsWithIsPrefix(s: string, prefix: string)
    ensures StartsWith(s, prefix) <==> |prefix| <= |s| && s[..|prefix|] == prefix
    decreases prefix
  {
    if |prefix| > 0 && |s| > 0 {
      StartsWithIsPrefix(s[1..], prefix[1..]);
      assert prefix == [prefix[0]] + prefix[1..];
      if |prefix| <= |s| {
        assert s[..|prefix|] == [s[0]] + s[1..][..|prefix| - 1];
      }
    }
  }
}
