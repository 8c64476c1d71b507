/** The few string operations the scheduler applies to names and reasons. */
module Text {

  /**
   * Lower-casing of ASCII letters only. Python's `str.lower()` also lowers
   * letters outside ASCII; no such letter lowers to one of the letters of
   * the words the scheduler looks for ("classroom", "uls").
   */
  function LowerChar(c: char): char {
    if 'A' <= c <= 'Z' then (c as int + 32) as char else c
  }

  /** No ASCII capital is left, and every other character is kept where it was. */
  function Lower(s: string): (r: string)
    ensures |r| == |s|
    ensures forall i :: 0 <= i < |r| ==> !('A' <= r[i] <= 'Z')
    ensures forall i :: 0 <= i < |s| && !('A' <= s[i] <= 'Z') ==> r[i] == s[i]
    ensures forall i :: 0 <= i < |s| && 'A' <= s[i] <= 'Z' ==> r[i] as int == s[i] as int + 32
  {
    seq(|s|, i requires 0 <= i < |s| => LowerChar(s[i]))
  }

  /** Lower-casing twice is lower-casing once. */
  lemma LowerIdempotent(s: string)
    ensures Lower(Lower(s)) == Lower(s)
  {
    var r := Lower(s);
    assert forall i :: 0 <= i < |r| ==> Lower(r)[i] == r[i];
  }

  predicate OccursAt(s: string, sub: string, i: int) {
    0 <= i <= |s| - |sub| && s[i..i + |sub|] == sub
  }

  /** Python's `s.startswith(prefix)`. */
  predicate StartsWith(s: string, prefix: string) {
    |prefix| <= |s| && s[..|prefix|] == prefix
  }

  lemma PrefixStartsWith(prefix: string, rest: string)
    ensures StartsWith(prefix + rest, prefix)
  {
    assert (prefix + rest)[..|prefix|] == prefix;
  }

  /** Python's `sub in s`. */
  predicate Contains(s: string, sub: string) {
    exists i :: 0 <= i <= |s| - |sub| && OccursAt(s, sub, i)
  }

  /**
   * The grouping key of a reason: the text before its first ':'
   * (`r.split(':')[0] if ':' in r else r`).
   */
  function Category(r: string): (k: string)
    ensures |k| <= |r| && k == r[..|k|]
    ensures ':' !in k
    ensures ':' !in r ==> k == r
    ensures |k| < |r| ==> r[|k|] == ':'
  {
    if r == [] || r[0] == ':' then [] else [r[0]] + Category(r[1..])
  }

  /** A reason of the shape "prefix:details" is grouped under its prefix. */
  lemma {:induction false} CategoryOfLabelled(prefix: string, details: string)
    requires ':' !in prefix
    ensures Category(prefix + ":" + details) == prefix
  {
    if prefix != [] {
      assert (prefix + ":" + details)[1..] == prefix[1..] + ":" + details;
      CategoryOfLabelled(prefix[1..], details);
    }
  }
}
