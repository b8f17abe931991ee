/**
 * The parts of ECMAScript string semantics that the Trusted Types helper
 * relies on: `String.prototype.indexOf` and `String.prototype.replace`
 * with a string (not a regular expression) as pattern.
 */
module JsString {
  import opened Wrappers

  /** `pat` occurs in `s` starting at index `i`. */
  predicate OccursAt(s: string, pat: string, i: int) {
    0 <= i && i + |pat| <= |s| && s[i..i + |pat|] == pat
  }

  /** `i` is the least index at which `pat` occurs in `s`. */
  predicate FirstOccurrence(s: string, pat: string, i: int) {
    OccursAt(s, pat, i) && forall j :: 0 <= j < i ==> !OccursAt(s, pat, j)
  }

  /** The search that `indexOf` performs, started at `from`. */
  function IndexFrom(s: string, pat: string, from: nat): (r: Option<nat>)
    ensures r.Some? ==> from <= r.value && OccursAt(s, pat, r.value)
    ensures r.Some? ==> forall j :: from <= j < r.value ==> !OccursAt(s, pat, j)
    ensures r.None? ==> forall j :: from <= j ==> !OccursAt(s, pat, j)
    decreases |s| - from
  {
    if |s| < from + |pat| then None
    else if OccursAt(s, pat, from) then Some(from)
    else IndexFrom(s, pat, from + 1)
  }

  /** `s.indexOf(pat)`: the least index of an occurrence, `None` standing for -1. */
  function IndexOf(s: string, pat: string): (r: Option<nat>)
    ensures r.Some? ==> FirstOccurrence(s, pat, r.value)
    ensures r.None? ==> forall j :: !OccursAt(s, pat, j)
  {
    IndexFrom(s, pat, 0)
  }

  /**
   * `s.replace(pat, rep)` with a string pattern; the lemmas below say
   * what it does.
   */
  function ReplaceFirst(s: string, pat: string, rep: string): string {
    match IndexOf(s, pat)
    case None => s
    case Some(i) => s[..i] + rep + s[i + |pat|..]
  }

  /** The least occurrence index is unique. */
  lemma FirstOccurrenceUnique(s: string, pat: string, i: int, j: int)
    requires FirstOccurrence(s, pat, i) && FirstOccurrence(s, pat, j)
    ensures i == j
  {
  }

  /** Only the first occurrence is rewritten. */
  lemma ReplaceFirstAtFirst(s: string, pat: string, rep: string, i: nat)
    requires FirstOccurrence(s, pat, i)
    ensures ReplaceFirst(s, pat, rep) == s[..i] + rep + s[i + |pat|..]
  {
  }

  /** A string without an occurrence comes back unchanged. */
  lemma ReplaceFirstAbsent(s: string, pat: string, rep: string)
    requires forall j :: !OccursAt(s, pat, j)
    ensures ReplaceFirst(s, pat, rep) == s
  {
  }

  /**
   * The text before the first occurrence and the text after it are
   * carried over untouched, and `rep` stands in between.
   */
  lemma ReplaceFirstKeepsRest(s: string, pat: string, rep: string, i: nat)
    requires FirstOccurrence(s, pat, i)
    ensures |ReplaceFirst(s, pat, rep)| == |s| - |pat| + |rep|
    ensures ReplaceFirst(s, pat, rep)[..i] == s[..i]
    ensures ReplaceFirst(s, pat, rep)[i..i + |rep|] == rep
    ensures ReplaceFirst(s, pat, rep)[i + |rep|..] == s[i + |pat|..]
  {
    ReplaceFirstAtFirst(s, pat, rep, i);
  }

  /**
   * The occurrence of `pat` right after `p` in `p + pat + q` is its first
   * one when some character `pat[d]` appears neither in `p` nor earlier in
   * `pat`: an earlier occurrence would have put `pat[d]` in one of them.
   */
  lemma FirstOccurrenceAfter(p: string, pat: string, q: string, d: nat)
    requires d < |pat| && pat[d] !in p && pat[d] !in pat[..d]
    ensures FirstOccurrence(p + pat + q, pat, |p|)
  {
    var s := p + pat + q;
    assert s[|p|..|p| + |pat|] == pat;
    forall j | 0 <= j < |p| ensures !OccursAt(s, pat, j) {
    }
  }

  /** `ReplaceFirst` rewrites the occurrence established by `FirstOccurrenceAfter`. */
  lemma ReplaceFirstAfter(p: string, pat: string, q: string, rep: string, d: nat)
    requires d < |pat| && pat[d] !in p && pat[d] !in pat[..d]
    ensures ReplaceFirst(p + pat + q, pat, rep) == p + rep + q
  {
    var s := p + pat + q;
    FirstOccurrenceAfter(p, pat, q, d);
    ReplaceFirstAtFirst(s, pat, rep, |p|);
    assert s[..|p|] == p && s[|p| + |pat|..] == q;
  }
}
