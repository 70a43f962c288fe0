/**
 * The two string operations the ingestion relies on: `str.lower()` and the
 * substring test `needle in haystack`. Lower-casing is modelled on ASCII.
 */
module Text {

  function LowerChar(c: char): char
  {
    if 'A' <= c <= 'Z' then (c as int + 32) as char else c
  }

  /** `s.lower()`: every character is lower-cased and nothing else changes. */
  function Lower(s: string): (r: string)
    ensures |r| == |s|
    ensures forall i :: 0 <= i < |s| ==> r[i] == LowerChar(s[i])
  {
    if s == [] then [] else [LowerChar(s[0])] + Lower(s[1..])
  }

  /** Lower-casing twice is lower-casing once. */
  lemma LowerIdempotent(s: string)
    ensures Lower(Lower(s)) == Lower(s)
  {
    assert forall i :: 0 <= i < |s| ==> Lower(Lower(s))[i] == Lower(s)[i];
  }

  /** Two names are the same ignoring case when their lower-cased forms agree. */
  predicate SameIgnoringCase(a: string, b: string)
  {
    Lower(a) == Lower(b)
  }

  /** Python's `needle in haystack`: some suffix of `haystack` starts with `needle`. */
  function Contains(haystack: string, needle: string): bool
    decreases |haystack|
  {
    needle <= haystack || (haystack != [] && Contains(haystack[1..], needle))
  }

  /** `needle` occurs in `haystack` starting at position `i`. */
  predicate OccursAt(haystack: string, needle: string, i: int)
  {
    0 <= i <= |haystack| - |needle| && haystack[i..i + |needle|] == needle
  }

  /** When `Contains` holds, `needle` occurs at the position it returns. */
  lemma {:induction false} ContainsOccurrence(haystack: string, needle: string) returns (i: int)
    requires Contains(haystack, needle)
    ensures OccursAt(haystack, needle, i)
    decreases |haystack|
  {
    if needle <= haystack {
      i := 0;
    } else {
      var tail := haystack[1..];
      var k := ContainsOccurrence(tail, needle);
      assert haystack[k + 1..k + 1 + |needle|] == tail[k..k + |needle|];
      i := k + 1;
    }
  }

  /** An occurrence of `needle` at any position makes `Contains` hold. */
  lemma {:induction false} OccurrenceContains(haystack: string, needle: string, i: int)
    requires OccursAt(haystack, needle, i)
    ensures Contains(haystack, needle)
    decreases |haystack|
  {
    if i != 0 {
      var tail := haystack[1..];
      assert tail[i - 1..i - 1 + |needle|] == haystack[i..i + |needle|];
      OccurrenceContains(tail, needle, i - 1);
    }
  }

  /** `Contains` holds exactly when `needle` occurs at some position of `haystack`. */
  lemma ContainsIff(haystack: string, needle: string)
    ensures Contains(haystack, needle) <==> exists i :: OccursAt(haystack, needle, i)
  {
    if Contains(haystack, needle) {
      var i := ContainsOccurrence(haystack, needle);
    }
    if exists i :: OccursAt(haystack, needle, i) {
      var i :| OccursAt(haystack, needle, i);
      OccurrenceContains(haystack, needle, i);
    }
  }

  /** An empty name occurs in every chunk, as `"" in s` is true in Python. */
  lemma {:induction false} EmptyNeedleEverywhere(haystack: string)
    ensures Contains(haystack, "")
  {
  }
}
