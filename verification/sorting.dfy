/** `Array.prototype.sort` with a numeric comparator `(a, b) => key(a) - key(b)`:
    the array itself is reordered into non-decreasing key order. Used by the
    module section (classes by `order`) and by the manager page (courses by
    descending enrollments, i.e. by the negated count). */
module Sorting {

  /** Non-decreasing by `key`. */
  ghost predicate SortedBy<T>(s: seq<T>, key: T -> int) {
    forall i, j :: 0 <= i < j < |s| ==> key(s[i]) <= key(s[j])
  }

  /** Exchanges the neighbours at j - 1 and j. */
  method SwapDown<T>(a: array<T>, j: int)
    requires 0 < j < a.Length
    modifies a
    ensures a[..] == old(a[..])[j - 1 := old(a[j])][j := old(a[j - 1])]
    ensures multiset(a[..]) == old(multiset(a[..]))
  {
    a[j - 1], a[j] := a[j], a[j - 1];
  }

  /** Moves a[i] down into the sorted prefix a[..i]. */
  method InsertLast<T>(a: array<T>, i: int, key: T -> int)
    requires 0 <= i < a.Length
    requires SortedBy(a[..i], key)
    modifies a
    ensures SortedBy(a[..i + 1], key)
    ensures multiset(a[..]) == old(multiset(a[..]))
    ensures a[i + 1..] == old(a[i + 1..])
  {
    var j := i;
    while j > 0 && key(a[j - 1]) > key(a[j])
      invariant 0 <= j <= i
      invariant multiset(a[..]) == old(multiset(a[..]))
      invariant a[i + 1..] == old(a[i + 1..])
      invariant forall p, q :: 0 <= p < q <= i && q != j ==> key(a[p]) <= key(a[q])
      invariant 0 < j < i ==> key(a[j - 1]) <= key(a[j + 1])
    {
      SwapDown(a, j);
      j := j - 1;
    }
  }

  /** Insertion sort: a permutation of the input, in non-decreasing key order. */
  method SortByKey<T>(a: array<T>, key: T -> int)
    modifies a
    ensures SortedBy(a[..], key)
    ensures multiset(a[..]) == old(multiset(a[..]))
  {
    var i := 0;
    while i < a.Length
      invariant 0 <= i <= a.Length
      invariant SortedBy(a[..i], key)
      invariant multiset(a[..]) == old(multiset(a[..]))
    {
      InsertLast(a, i, key);
      i := i + 1;
    }
    assert a[..a.Length] == a[..];
  }
}
