/** Python's ordering of `str` values and the in-place `list.sort()` the listing routes call. */
module Sorting {

  /** Python's `a < b` on `str`: lexicographic on code points, a proper prefix first. */
  predicate Less(a: string, b: string)
    decreases |a|
  {
    if a == [] then b != []
    else if b == [] then false
    else if a[0] != b[0] then a[0] < b[0]
    else Less(a[1..], b[1..])
  }

  predicate LessEq(a: string, b: string) {
    a == b || Less(a, b)
  }

  lemma {:induction false} LessIrreflexive(a: string)
    ensures !Less(a, a)
    decreases |a|
  {
    if a != [] {
      LessIrreflexive(a[1..]);
    }
  }

  lemma {:induction false} LessTransitive(a: string, b: string, c: string)
    requires Less(a, b) && Less(b, c)
    ensures Less(a, c)
    decreases |a|
  {
    if a != [] && a[0] == b[0] && b[0] == c[0] {
      LessTransitive(a[1..], b[1..], c[1..]);
    }
  }

  lemma {:induction false} LessTotal(a: string, b: string)
    ensures a == b || Less(a, b) || Less(b, a)
    decreases |a|
  {
    if a != [] && b != [] && a[0] == b[0] {
      LessTotal(a[1..], b[1..]);
      if a[1..] == b[1..] {
        assert a == [a[0]] + a[1..] && b == [b[0]] + b[1..];
      }
    }
  }

  /** Whether `x` may stand before `y` in a list sorted ascending, or descending when
      `descending` (`reverse=True`). */
  predicate InOrder(x: string, y: string, descending: bool) {
    if descending then LessEq(y, x) else LessEq(x, y)
  }

  predicate Sorted(s: seq<string>, descending: bool) {
    forall i, j :: 0 <= i < j < |s| ==> InOrder(s[i], s[j], descending)
  }

  /** Strictly ordered: sorted with no two equal elements. */
  predicate StrictlySorted(s: seq<string>, descending: bool) {
    forall i, j :: 0 <= i < j < |s| ==> if descending then Less(s[j], s[i]) else Less(s[i], s[j])
  }

  lemma InOrderTotal(x: string, y: string, descending: bool)
    ensures InOrder(x, y, descending) || InOrder(y, x, descending)
  {
    LessTotal(x, y);
  }

  lemma InOrderTransitive(x: string, y: string, z: string, descending: bool)
    requires InOrder(x, y, descending) && InOrder(y, z, descending)
    ensures InOrder(x, z, descending)
  {
    if x != y && y != z {
      if descending { LessTransitive(z, y, x); } else { LessTransitive(x, y, z); }
    }
  }

  /** A sorted list with no repeated element is strictly sorted. */
  lemma SortedDistinctIsStrict(s: seq<string>, descending: bool)
    requires Sorted(s, descending)
    requires forall i, j :: 0 <= i < j < |s| ==> s[i] != s[j]
    ensures StrictlySorted(s, descending)
  {
  }

  /** The first `n` elements of `a` are in order. */
  predicate SortedUpTo(a: array<string>, n: int, descending: bool)
    requires 0 <= n <= a.Length
    reads a
  {
    forall k, l :: 0 <= k < l < n ==> InOrder(a[k], a[l], descending)
  }

  /** `list.sort()` (ascending) or `list.sort(reverse=True)` (descending), in place. The
      elements are compared with `<` only, so equal strings, which are indistinguishable,
      are the only ones whose relative order the result leaves open. */
  method SortStrings(a: array<string>, descending: bool)
    modifies a
    ensures Sorted(a[..], descending)
    ensures multiset(a[..]) == multiset(old(a[..]))
  {
    var i := 0;
    while i < a.Length
      invariant 0 <= i <= a.Length
      invariant SortedUpTo(a, i, descending)
      invariant multiset(a[..]) == multiset(old(a[..]))
    {
      Sink(a, i, descending);
      i := i + 1;
    }
  }

  /** One pass of the insertion sort: moves `a[i]` down into the sorted prefix before it. */
  method Sink(a: array<string>, i: int, descending: bool)
    requires 0 <= i < a.Length && SortedUpTo(a, i, descending)
    modifies a
    ensures SortedUpTo(a, i + 1, descending)
    ensures multiset(a[..]) == multiset(old(a[..]))
  {
    var j := i;
    while j > 0 && !InOrder(a[j - 1], a[j], descending)
      invariant 0 <= j <= i
      invariant forall k, l :: 0 <= k < l <= i && k != j && l != j ==>
        InOrder(a[k], a[l], descending)
      invariant forall l :: j < l <= i ==> InOrder(a[j], a[l], descending)
      invariant multiset(a[..]) == multiset(old(a[..]))
    {
      InOrderTotal(a[j - 1], a[j], descending);
      a[j - 1], a[j] := a[j], a[j - 1];
      j := j - 1;
    }
    forall k | 0 <= k < j ensures InOrder(a[k], a[j], descending) {
      if k < j - 1 {
        InOrderTransitive(a[k], a[j - 1], a[j], descending);
      }
    }
  }
}
