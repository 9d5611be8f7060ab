/** Facts about sequences used by the filters and option lists of the site. */
module Sequences {

  /** `r` can be obtained from `s` by deleting elements, so it keeps their relative order. */
  predicate IsSubsequence<T(==)>(r: seq<T>, s: seq<T>)
    decreases |s|
  {
    if r == [] then true
    else if s == [] then false
    else (r[0] == s[0] && IsSubsequence(r[1..], s[1..])) || IsSubsequence(r, s[1..])
  }

  /** No value occurs twice in `s`. */
  predicate NoDuplicates<T(==)>(s: seq<T>) {
    forall i, j :: 0 <= i < j < |s| ==> s[i] != s[j]
  }

  /** The position of the first occurrence of `x` in `s`. */
  function FirstIndex<T(==)>(s: seq<T>, x: T): (k: nat)
    requires x in s
    ensures k < |s| && s[k] == x
    ensures x !in s[..k]
  {
    if s[0] == x then 0
    else
      assert s == [s[0]] + s[1..];
      var k := 1 + FirstIndex(s[1..], x);
      assert s[..k] == [s[0]] + s[1..][..k - 1];
      k
  }

  /** Appending never moves the first occurrence of a value already present. */
  lemma FirstIndexOfPrefix<T>(s: seq<T>, t: seq<T>, x: T)
    requires x in s
    ensures x in s + t
    ensures FirstIndex(s + t, x) == FirstIndex(s, x)
  {
    var k, k' := FirstIndex(s + t, x), FirstIndex(s, x);
    assert (s + t)[k'] == x;
  }

  /**
   * The distinct values of `s`, each once, in the order of their first
   * occurrence: the array `[...new Set(s)]` of JavaScript, built by
   * inserting the values of `s` one after another into a set.
   */
  function Distinct<T(==)>(s: seq<T>): (r: seq<T>)
    ensures NoDuplicates(r)
    ensures forall i :: 0 <= i < |r| ==> r[i] in s
    ensures forall i :: 0 <= i < |s| ==> s[i] in r
    decreases |s|
  {
    if s == [] then []
    else
      var init, last := s[..|s| - 1], s[|s| - 1];
      assert s == init + [last];
      var p := Distinct(init);
      if last in p then p else p + [last]
  }

  /** Values come out of `Distinct` in the order in which they first occur in `s`. */
  /**
   * Of two entries of `Distinct(s)`, the earlier one occurs in `s` before
   * any occurrence of the later one.
   */
  lemma DistinctOrderAt<T>(s: seq<T>, i: nat, j: nat)
    requires i < j < |Distinct(s)|
    ensures exists p :: 0 <= p < |s| && s[p] == Distinct(s)[i]
              && forall q :: 0 <= q <= p ==> s[q] != Distinct(s)[j]
  {
    DistinctInFirstOccurrenceOrder(s, i, j);
    var p := FirstIndex(s, Distinct(s)[i]);
    var p' := FirstIndex(s, Distinct(s)[j]);
    forall q | 0 <= q <= p ensures s[q] != Distinct(s)[j] {
      assert s[q] == s[..p'][q];
    }
  }

  lemma {:induction false} DistinctInFirstOccurrenceOrder<T>(s: seq<T>, i: nat, j: nat)
    requires i < j < |Distinct(s)|
    ensures Distinct(s)[i] in s && Distinct(s)[j] in s
    ensures FirstIndex(s, Distinct(s)[i]) < FirstIndex(s, Distinct(s)[j])
    decreases |s|
  {
    var init, last := s[..|s| - 1], s[|s| - 1];
    assert s == init + [last];
    var p := Distinct(init);
    var d := Distinct(s);
    assert d[i] in s && d[j] in s;
    if j < |p| {
      assert d[i] == p[i] && d[j] == p[j];
      DistinctInFirstOccurrenceOrder(init, i, j);
      FirstIndexOfPrefix(init, [last], p[i]);
      FirstIndexOfPrefix(init, [last], p[j]);
    } else {
      assert last !in p && d == p + [last] && j == |p|;
      assert d[i] == p[i] && p[i] in init;
      FirstIndexOfPrefix(init, [last], p[i]);
      assert s[FirstIndex(s, last)] == last;
    }
  }
}
