/** PHP's `strpos`, the substring search the template guard applies to the Accept header. */
module PhpStrings {
  import opened Wrappers

  /** `needle` occurs in `haystack` starting at index `i` (case-sensitive, character for character). */
  predicate OccursAt(haystack: string, needle: string, i: nat) {
    i + |needle| <= |haystack| && haystack[i..i + |needle|] == needle
  }

  /** `strpos($haystack, $needle, $from)`: the first index at or after `from` where
      `needle` occurs, or None where PHP returns `false`. */
  function StrPosFrom(haystack: string, needle: string, from: nat): (r: Option<nat>)
    ensures r.Some? ==> from <= r.value && OccursAt(haystack, needle, r.value)
    ensures r.Some? ==> forall j: nat :: from <= j < r.value ==> !OccursAt(haystack, needle, j)
    ensures r.None? ==> forall j: nat :: from <= j ==> !OccursAt(haystack, needle, j)
    decreases |haystack| - from
  {
    if from + |needle| > |haystack| then None
    else if haystack[from..from + |needle|] == needle then Some(from)
    else StrPosFrom(haystack, needle, from + 1)
  }

  /** `strpos($haystack, $needle) !== false`. The strict comparison makes a match at
      index 0 count as found. */
  predicate Contains(haystack: string, needle: string) {
    StrPosFrom(haystack, needle, 0).Some?
  }

  /** The strpos test is exactly "occurs somewhere". */
  lemma ContainsIffOccurs(haystack: string, needle: string)
    ensures Contains(haystack, needle) <==> exists i: nat :: OccursAt(haystack, needle, i)
  {
    var r := StrPosFrom(haystack, needle, 0);
    if r.Some? {
      assert OccursAt(haystack, needle, r.value);
    }
  }

  /** An occurrence at a known index is enough for the strpos test to succeed. */
  lemma ContainsAt(haystack: string, needle: string, i: nat)
    requires OccursAt(haystack, needle, i)
    ensures Contains(haystack, needle)
  {
    ContainsIffOccurs(haystack, needle);
  }
}
