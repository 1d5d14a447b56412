/** The few JavaScript string behaviours the board script relies on:
    truthiness, `indexOf` and `replace` with a string pattern. */
module JsStrings {
  import opened Wrappers

  /** A string is truthy exactly when it is not empty. */
  predicate Truthy(s: string) {
    s != ""
  }

  /** Truthiness of a value that is either absent (null) or a string. */
  predicate OptTruthy(s: Option<string>) {
    s.Some? && Truthy(s.value)
  }

  /** `pat` occurs in `s` starting at index `i`. */
  predicate OccursAt(s: string, pat: string, i: nat) {
    i + |pat| <= |s| && s[i..i + |pat|] == pat
  }

  /** `s.indexOf(pat, from)`, with -1 written as `None`. */
  function IndexOfFrom(s: string, pat: string, from: nat): (r: Option<nat>)
    ensures r.Some? ==> from <= r.value && OccursAt(s, pat, r.value)
    ensures r.Some? ==> forall j :: from <= j < r.value ==> !OccursAt(s, pat, j)
    ensures r.None? ==> forall j :: from <= j ==> !OccursAt(s, pat, j)
    decreases |s| - from
  {
    if from + |pat| > |s| then None
    else if OccursAt(s, pat, from) then Some(from)
    else IndexOfFrom(s, pat, from + 1)
  }

  /** `s.indexOf(pat)`. */
  function IndexOf(s: string, pat: string): Option<nat> {
    IndexOfFrom(s, pat, 0)
  }

  /** `s.replace(pat, rep)` with a string pattern: only the first occurrence
      is replaced, and `s` is returned unchanged when there is none. */
  function ReplaceFirst(s: string, pat: string, rep: string): string {
    match IndexOf(s, pat)
    case None => s
    case Some(i) => s[..i] + rep + s[i + |pat|..]
  }

  /** A pattern whose first two characters never appear side by side in `s`
      does not occur in it. */
  lemma NoOccurrenceByFirstTwo(s: string, pat: string)
    requires |pat| >= 2
    requires forall j :: 0 <= j < |s| - 1 ==> !(s[j] == pat[0] && s[j + 1] == pat[1])
    ensures IndexOf(s, pat) == None
  {
    forall j: nat | j + |pat| <= |s| ensures !OccursAt(s, pat, j) {
      assert s[j..j + |pat|][0] == s[j] && s[j..j + |pat|][1] == s[j + 1];
    }
  }
}
