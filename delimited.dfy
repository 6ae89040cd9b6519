/**
 * Splitting and joining strings on a non-empty separator, as Python's
 * `str.split(sep)` and `sep.join(parts)` do: the string is scanned from the
 * left and cut at every non-overlapping occurrence of the separator.
 */
module Delimited {
  import opened Wrappers

  /** The separator `d` occurs in `s` starting at index `i`. */
  predicate OccursAt(s: string, i: nat, d: string) {
    i + |d| <= |s| && s[i..i + |d|] == d
  }

  /** The leftmost occurrence of `d` in `s` at or after index `from`. */
  function FindFrom(s: string, d: string, from: nat): (r: Option<nat>)
    requires |d| > 0
    decreases |s| - from
    ensures r.Some? ==> from <= r.value && OccursAt(s, r.value, d)
    ensures forall k: nat :: from <= k && (r.None? || k < r.value) ==> !OccursAt(s, k, d)
  {
    if from + |d| > |s| then None
    else if OccursAt(s, from, d) then Some(from)
    else FindFrom(s, d, from + 1)
  }

  /** `d` does not occur in `s`. */
  predicate Free(s: string, d: string)
    requires |d| > 0
  {
    FindFrom(s, d, 0).None?
  }

  /**
   * `p` can stand before a separator and be cut off again: in `p + d` the
   * first occurrence of `d` is the appended one.
   */
  predicate Separable(p: string, d: string)
    requires |d| > 0
  {
    FindFrom(p + d, d, 0) == Some(|p|)
  }

  /** An occurrence with none before it is the one the scan finds. */
  lemma FindFirst(s: string, d: string, i: nat)
    requires |d| > 0 && OccursAt(s, i, d)
    requires forall k: nat :: k < i ==> !OccursAt(s, k, d)
    ensures FindFrom(s, d, 0) == Some(i)
  {
  }

  /** A string without the separator is one where no occurrence starts anywhere. */
  lemma FreeMeansNoOccurrence(s: string, d: string)
    requires |d| > 0
    ensures Free(s, d) <==> forall i: nat :: i < |s| ==> !OccursAt(s, i, d)
  {
    var r := FindFrom(s, d, 0);
    if r.Some? {
      assert r.value < |s| && OccursAt(s, r.value, d);
    }
  }

  /** `d.join(parts)`. */
  function Join(parts: seq<string>, d: string): string {
    if |parts| == 0 then ""
    else if |parts| == 1 then parts[0]
    else parts[0] + d + Join(parts[1..], d)
  }

  /** `s.split(d)`: always at least one part, and the parts joined again give `s`. */
  function Split(s: string, d: string): (parts: seq<string>)
    requires |d| > 0
    decreases |s|
    ensures |parts| >= 1
    ensures Join(parts, d) == s
  {
    match FindFrom(s, d, 0)
    case None => [s]
    case Some(i) =>
      assert s == s[..i] + d + s[i + |d|..];
      [s[..i]] + Split(s[i + |d|..], d)
  }

  /** What precedes the leftmost occurrence of the separator can be cut off. */
  lemma HeadSeparable(s: string, d: string, i: nat)
    requires |d| > 0 && FindFrom(s, d, 0) == Some(i)
    ensures Separable(s[..i], d)
  {
    var t := s[..i] + d;
    assert t == s[..i + |d|];
    forall k: nat | k < i
      ensures !OccursAt(t, k, d)
    {
      assert !OccursAt(s, k, d);
    }
    assert OccursAt(t, i, d);
    FindFirst(t, d, i);
  }

  /**
   * Every part `Split` produces but the last can be cut off again, and the
   * last part holds no separator at all.
   */
  lemma {:induction false} SplitParts(s: string, d: string)
    requires |d| > 0
    decreases |s|
    ensures var parts := Split(s, d);
      && (forall k :: 0 <= k < |parts| - 1 ==> Separable(parts[k], d))
      && Free(parts[|parts| - 1], d)
  {
    match FindFrom(s, d, 0)
    case None =>
    case Some(i) =>
      HeadSeparable(s, d, i);
      var tail := s[i + |d|..];
      SplitParts(tail, d);
      var parts, rest := Split(s, d), Split(tail, d);
      assert parts == [s[..i]] + rest;
      forall k | 1 <= k < |parts| - 1
        ensures Separable(parts[k], d)
      {
        assert parts[k] == rest[k - 1];
      }
      assert parts[|parts| - 1] == rest[|rest| - 1];
  }

  /** A string splits into more than one part exactly when it contains the separator. */
  lemma SplitSingle(s: string, d: string)
    requires |d| > 0
    ensures |Split(s, d)| == 1 <==> Free(s, d)
  {
  }

  /** The first occurrence in `p + d + rest` is the one after `p` when `p` is separable. */
  lemma FindAfterSeparable(p: string, d: string, rest: string)
    requires |d| > 0 && Separable(p, d)
    ensures FindFrom(p + d + rest, d, 0) == Some(|p|)
  {
    var s := p + d + rest;
    assert (p + d) == s[..|p| + |d|];
    forall k: nat | k < |p|
      ensures !OccursAt(s, k, d)
    {
      assert !OccursAt(p + d, k, d);
    }
    assert OccursAt(p + d, |p|, d);
    FindFirst(s, d, |p|);
  }

  /**
   * Splitting undoes joining for every list of parts `Split` can produce:
   * together with `Split`'s own contract and `SplitParts`, `Split` is a
   * bijection between strings and such lists.
   */
  lemma {:induction false} SplitJoin(parts: seq<string>, d: string)
    requires |d| > 0 && |parts| >= 1
    requires forall k :: 0 <= k < |parts| - 1 ==> Separable(parts[k], d)
    requires Free(parts[|parts| - 1], d)
    ensures Split(Join(parts, d), d) == parts
  {
    if |parts| > 1 {
      var p, rest := parts[0], Join(parts[1..], d);
      assert Join(parts, d) == p + d + rest;
      FindAfterSeparable(p, d, rest);
      assert (p + d + rest)[|p| + |d|..] == rest;
      SplitJoin(parts[1..], d);
    }
  }

  /**
   * A simple sufficient condition for both: a part in which the separator's
   * first character never appears can be cut off, and holds no separator.
   */
  lemma AvoidsFirstChar(p: string, d: string)
    requires |d| > 0 && forall i :: 0 <= i < |p| ==> p[i] != d[0]
    ensures Separable(p, d) && Free(p, d)
  {
    forall i: nat | i < |p|
      ensures !OccursAt(p + d, i, d) && !OccursAt(p, i, d)
    {
      assert (p + d)[i] == p[i];
    }
    assert OccursAt(p + d, |p|, d);
    FindFirst(p + d, d, |p|);
    FreeMeansNoOccurrence(p, d);
  }
}
