/**
 * The JavaScript string operations the pages rely on: `toLowerCase`,
 * `toUpperCase`, `includes` and `split(sep)[0]`. Case mapping is ASCII only.
 */
module Text {

  function LowerChar(c: char): char {
    if 'A' <= c <= 'Z' then (c as int + 32) as char else c
  }

  function UpperChar(c: char): char {
    if 'a' <= c <= 'z' then (c as int - 32) as char else c
  }

  function ToLower(s: string): string {
    seq(|s|, i requires 0 <= i < |s| => LowerChar(s[i]))
  }

  function ToUpper(s: string): string {
    seq(|s|, i requires 0 <= i < |s| => UpperChar(s[i]))
  }

  /** `s.includes(t)`: t occurs in s as a contiguous block. */
  predicate Includes(s: string, t: string) {
    exists i :: 0 <= i <= |s| - |t| && OccursAt(s, t, i)
  }

  predicate OccursAt(s: string, t: string, i: int)
    requires 0 <= i <= |s| - |t|
  {
    s[i..i + |t|] == t
  }

  /** `s.toLowerCase().includes(t.toLowerCase())` */
  predicate IncludesIgnoringCase(s: string, t: string) {
    Includes(ToLower(s), ToLower(t))
  }

  /** The empty term is found in every string, whatever its case. */
  lemma EmptyTermFoundEverywhere(s: string)
    ensures IncludesIgnoringCase(s, "")
  {
    assert OccursAt(ToLower(s), ToLower(""), 0);
  }

  /** A string contains each of its prefixes. */
  lemma PrefixIsIncluded(s: string, t: string)
    requires t <= s
    ensures Includes(s, t)
  {
    assert OccursAt(s, t, 0);
  }

  /** `s.split(sep)[0]`: the part of s before the first sep, or all of s when it has none. */
  function Before(s: string, sep: char): (r: string)
    ensures r <= s
    ensures sep !in r
    ensures |r| < |s| ==> s[|r|] == sep
  {
    if s == [] || s[0] == sep then [] else [s[0]] + Before(s[1..], sep)
  }
}
