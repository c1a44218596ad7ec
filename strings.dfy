/** Prefixes, suffixes and substrings of strings, and Go's `strings.TrimSuffix`. */
module Strings {
  import opened Wrappers

  predicate IsPrefix(p: string, s: string) {
    |p| <= |s| && s[..|p|] == p
  }

  predicate IsSuffix(x: string, s: string) {
    |x| <= |s| && s[|s| - |x|..] == x
  }

  /** `sub` occurs in `s` starting at index `i`. */
  predicate OccursAt(sub: string, s: string, i: int) {
    0 <= i && i + |sub| <= |s| && s[i..i + |sub|] == sub
  }

  ghost predicate Contains(s: string, sub: string) {
    exists i :: OccursAt(sub, s, i)
  }

  /** Whatever is placed between two strings occurs in the concatenation. */
  lemma ContainsInfix(p: string, x: string, q: string)
    ensures Contains(p + x + q, x)
  {
    var s := p + x + q;
    assert s[|p|..|p| + |x|] == x;
    assert OccursAt(x, s, |p|);
  }

  lemma PrefixOfConcat(p: string, q: string)
    ensures IsPrefix(p, p + q)
  {

  }

  lemma SuffixOfConcat(p: string, q: string)
    ensures IsSuffix(q, p + q)
  {

  }

  /**
   * Go's `strings.TrimSuffix`: `s` without one trailing copy of `suffix`,
   * or `s` itself when it does not end with `suffix`.
   */
  function TrimSuffix(s: string, suffix: string): (r: string)
    ensures IsSuffix(suffix, s) ==> r + suffix == s
    ensures !IsSuffix(suffix, s) ==> r == s
  {
    if IsSuffix(suffix, s) then s[..|s| - |suffix|] else s
  }

  /**
   * The text between `prefix` and `suffix`, when `s` is `prefix + x + suffix`;
   * used to read a field back out of a rendered message.
   */
  function StripAffixes(s: string, prefix: string, suffix: string): (r: Option<string>)
    ensures r.Some? ==> prefix + r.value + suffix == s
  {
    if |prefix| + |suffix| <= |s| && IsPrefix(prefix, s) && IsSuffix(suffix, s) then
      var x := s[|prefix|..|s| - |suffix|];
      assert s == s[..|prefix|] + x + s[|s| - |suffix|..];
      Some(x)
    else
      None
  }

  /** `StripAffixes` inverts wrapping a string in a prefix and a suffix. */
  lemma StripAffixesOf(prefix: string, x: string, suffix: string)
    ensures StripAffixes(prefix + x + suffix, prefix, suffix) == Some(x)
  {

  }
}
