/**
 * The JavaScript string operations the wallet clients apply: `indexOf`, `replace`
 * with a string pattern (first occurrence only) and the first two parts of `split`.
 */
module Text {
  import opened Wrappers

  /** `pat` occurs in `s` starting at index `k`. */
  predicate OccursAt(s: string, pat: string, k: int)
  {
    0 <= k && k + |pat| <= |s| && s[k..k + |pat|] == pat
  }

  /** The first index at or after `from` where `pat` occurs, as `s.indexOf(pat, from)`. */
  function IndexOf(s: string, pat: string, from: nat): (r: Option<nat>)
    ensures r.Some? ==> from <= r.value && OccursAt(s, pat, r.value)
    ensures forall k :: from <= k && (r.None? || k < r.value) ==> !OccursAt(s, pat, k)
    decreases |s| - from
  {
    if from + |pat| > |s| then None
    else if s[from..from + |pat|] == pat then Some(from)
    else IndexOf(s, pat, from + 1)
  }

  /** `k` is the first index where `pat` occurs in `s`. */
  predicate FirstOccurrence(s: string, pat: string, k: int)
  {
    OccursAt(s, pat, k) && forall m :: 0 <= m < k ==> !OccursAt(s, pat, m)
  }

  /** The search from 0 finds the first occurrence, and there is only one first occurrence. */
  lemma FirstOccurrenceFound(s: string, pat: string)
    ensures IndexOf(s, pat, 0).None? <==> forall k :: !OccursAt(s, pat, k)
    ensures forall k :: FirstOccurrence(s, pat, k) ==> IndexOf(s, pat, 0) == Some(k)
  {
    match IndexOf(s, pat, 0)
    case None =>
    case Some(i) =>
      forall k | FirstOccurrence(s, pat, k) ensures k == i {
        assert !(k < i) && !(i < k);
      }
  }

  /**
   * `s.replace(pat, rep)` for a string pattern: the first occurrence is replaced,
   * and a string without one is returned unchanged.
   */
  function ReplaceFirst(s: string, pat: string, rep: string): (r: string)
    ensures (forall k :: !OccursAt(s, pat, k)) ==> r == s
    ensures forall k :: FirstOccurrence(s, pat, k) ==> r == s[..k] + rep + s[k + |pat|..]
    ensures pat <= s ==> r == rep + s[|pat|..]
  {
    FirstOccurrenceFound(s, pat);
    assert pat <= s ==> FirstOccurrence(s, pat, 0) by {
      if pat <= s {
        assert s[0..|pat|] == pat;
      }
    }
    match IndexOf(s, pat, 0)
    case None => s
    case Some(k) => s[..k] + rep + s[k + |pat|..]
  }

  /** Where the part of `split` that starts at `from` ends: the next separator, or the end of `s`. */
  function PartEnd(s: string, sep: string, from: nat): (end: nat)
    requires from <= |s|
    ensures from <= end <= |s|
    ensures forall m :: from <= m < end ==> !OccursAt(s, sep, m)
    ensures end == |s| || OccursAt(s, sep, end)
  {
    match IndexOf(s, sep, from)
    case None => |s|
    case Some(k) => k
  }

  /**
   * The first two elements of `s.split(sep)`: the text before the first separator and,
   * when there is one, the text between it and the next separator (or the end).
   */
  function SplitFirstTwo(s: string, sep: string): (r: (string, Option<string>))
    requires |sep| > 0
    ensures r.1.None? <==> forall k :: !OccursAt(s, sep, k)
    ensures r.1.None? ==> r.0 == s
    ensures r.1.Some? ==>
      var rest := |r.0| + |sep|;
      var end := rest + |r.1.value|;
      && FirstOccurrence(s, sep, |r.0|) && r.0 == s[..|r.0|]
      && end <= |s| && r.1.value == s[rest..end]
      && (forall m :: rest <= m < end ==> !OccursAt(s, sep, m))
      && (end == |s| || OccursAt(s, sep, end))
  {
    FirstOccurrenceFound(s, sep);
    match IndexOf(s, sep, 0)
    case None => (s, None)
    case Some(k) =>
      var rest := k + |sep|;
      (s[..k], Some(s[rest..PartEnd(s, sep, rest)]))
  }

  /**
   * Joining two parts with a separator and splitting again gives back both parts,
   * provided neither part contains the separator's first character.
   */
  lemma {:induction false} SplitJoin(a: string, b: string, sep: string)
    requires |sep| > 0 && sep[0] !in a && sep[0] !in b
    ensures SplitFirstTwo(a + sep + b, sep) == (a, Some(b))
  {
    var s := a + sep + b;
    assert s[|a|..|a| + |sep|] == sep;
    assert OccursAt(s, sep, |a|);
    forall k | 0 <= k < |a| ensures !OccursAt(s, sep, k) {
      if k + |sep| <= |s| {
        assert s[k..k + |sep|][0] == a[k];
      }
    }
    assert IndexOf(s, sep, 0) == Some(|a|);
    var rest := |a| + |sep|;
    forall k | rest <= k ensures !OccursAt(s, sep, k) {
      if k + |sep| <= |s| {
        assert s[k..k + |sep|][0] == b[k - rest];
      }
    }
    assert PartEnd(s, sep, rest) == |s|;
    assert s[..|a|] == a;
    assert s[rest..|s|] == b;
  }
}
