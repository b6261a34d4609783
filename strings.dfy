/** String tests the route guard is built from, with JavaScript's meaning:
    `String.prototype.startsWith`, an end-anchored regular expression
    `\.(e1|e2|...)$`, and `Array.prototype.some` over a list of prefixes. */
module Strings {

  /** `s.startsWith(p)`: a raw character prefix, not a path-segment match. */
  predicate StartsWith(s: string, p: string) {
    |p| <= |s| && s[..|p|] == p
  }

  /** `s` ends with the characters of `p`. */
  predicate EndsWith(s: string, p: string) {
    |p| <= |s| && s[|s| - |p|..] == p
  }

  /** `prefixes.some(p => s.startsWith(p))`, trying the prefixes in order. */
  function SomeStartsWith(prefixes: seq<string>, s: string): bool {
    |prefixes| > 0 && (StartsWith(s, prefixes[0]) || SomeStartsWith(prefixes[1..], s))
  }

  /** An end-anchored alternation such as `\.(png|jpg)$` without the `m`
      flag: one of the listed suffixes (dot included) ends `s`, case-sensitive. */
  function EndsWithOneOf(s: string, suffixes: seq<string>): bool {
    |suffixes| > 0 && (EndsWith(s, suffixes[0]) || EndsWithOneOf(s, suffixes[1..]))
  }

  /** `some` succeeds exactly when one of the listed prefixes starts `s`. */
  lemma {:induction false} SomeStartsWithIff(prefixes: seq<string>, s: string)
    ensures SomeStartsWith(prefixes, s) <==>
            exists i :: 0 <= i < |prefixes| && StartsWith(s, prefixes[i])
  {
    if |prefixes| > 0 {
      SomeStartsWithIff(prefixes[1..], s);
      if !StartsWith(s, prefixes[0]) && SomeStartsWith(prefixes, s) {
        var i :| 0 <= i < |prefixes[1..]| && StartsWith(s, prefixes[1..][i]);
        assert StartsWith(s, prefixes[i + 1]);
      }
      if exists i :: 0 <= i < |prefixes| && StartsWith(s, prefixes[i]) {
        var i :| 0 <= i < |prefixes| && StartsWith(s, prefixes[i]);
        if i > 0 {
          assert StartsWith(s, prefixes[1..][i - 1]);
        }
      }
    }
  }

  /** The alternation matches exactly when one of the listed suffixes ends `s`. */
  lemma {:induction false} EndsWithOneOfIff(s: string, suffixes: seq<string>)
    ensures EndsWithOneOf(s, suffixes) <==>
            exists i :: 0 <= i < |suffixes| && EndsWith(s, suffixes[i])
  {
    if |suffixes| > 0 {
      EndsWithOneOfIff(s, suffixes[1..]);
      if !EndsWith(s, suffixes[0]) && EndsWithOneOf(s, suffixes) {
        var i :| 0 <= i < |suffixes[1..]| && EndsWith(s, suffixes[1..][i]);
        assert EndsWith(s, suffixes[i + 1]);
      }
      if exists i :: 0 <= i < |suffixes| && EndsWith(s, suffixes[i]) {
        var i :| 0 <= i < |suffixes| && EndsWith(s, suffixes[i]);
        if i > 0 {
          assert EndsWith(s, suffixes[1..][i - 1]);
        }
      }
    }
  }

  /** A suffix whose last character differs from that of `s` does not end it. */
  lemma LastCharacterRulesOut(s: string, p: string)
    requires |s| > 0 && |p| > 0 && s[|s| - 1] != p[|p| - 1]
    ensures !EndsWith(s, p)
  {
  }

  /** A prefix that differs from `s` at some position does not start it. */
  lemma PrefixMismatch(s: string, p: string, k: nat)
    requires k < |p| && k < |s| && s[k] != p[k]
    ensures !StartsWith(s, p)
  {
  }

  /** A suffix that differs from the end of `s` at some position does not end it. */
  lemma SuffixMismatch(s: string, p: string, k: nat)
    requires k < |p| <= |s| && s[|s| - |p| + k] != p[k]
    ensures !EndsWith(s, p)
  {
  }
}
