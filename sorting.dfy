/** `Array.prototype.sort` with a comparator, as both source files use it: the
    array is reordered in place into a permutation of itself in which every
    element is "at most" every later one under the comparator's order. */
module Sorting {

  /** `le` is total and transitive: what a consistent comparator gives. */
  ghost predicate TotalPreorder<T(!new)>(le: (T, T) -> bool) {
    && (forall x, y :: le(x, y) || le(y, x))
    && (forall x, y, z :: le(x, y) && le(y, z) ==> le(x, z))
  }

  /** Every element is `le` every later one. */
  ghost predicate SortedBy<T>(s: seq<T>, le: (T, T) -> bool) {
    forall p, q :: 0 <= p < q < |s| ==> le(s[p], s[q])
  }

  method Swap<T>(a: array<T>, i: int, j: int)
    requires 0 <= i < a.Length && 0 <= j < a.Length
    modifies a
    ensures a[..] == old(a[..])[i := old(a[j])][j := old(a[i])]
    ensures multiset(a[..]) == multiset(old(a[..]))
  {
    a[i], a[j] := a[j], a[i];
  }

  /** Insertion sort by adjacent swaps of strictly out-of-order neighbours. */
  method SortInPlace<T(!new)>(a: array<T>, le: (T, T) -> bool)
    requires TotalPreorder(le)
    modifies a
    ensures SortedBy(a[..], le)
    ensures multiset(a[..]) == multiset(old(a[..]))
  {
    var i := 0;
    while i < a.Length
      invariant 0 <= i <= a.Length
      invariant SortedBy(a[..i], le)
      invariant multiset(a[..]) == multiset(old(a[..]))
    {
      var j := i;
      while 0 < j && !le(a[j - 1], a[j])
        invariant 0 <= j <= i
        invariant forall p, q :: 0 <= p < q <= i && q != j ==> le(a[p], a[q])
        invariant 0 < j < i ==> le(a[j - 1], a[j + 1])
        invariant multiset(a[..]) == multiset(old(a[..]))
      {
        Swap(a, j - 1, j);
        j := j - 1;
      }
      i := i + 1;
    }
  }

  /** In a sorted sequence every element of a prefix is `le` every element
      left out of it. */
  lemma PrefixBelowRest<T>(s: seq<T>, e: nat, le: (T, T) -> bool)
    requires SortedBy(s, le) && e <= |s|
    ensures forall x, y :: x in multiset(s[..e]) && y in multiset(s) - multiset(s[..e]) ==> le(x, y)
  {
    assert s == s[..e] + s[e..];
    assert multiset(s) - multiset(s[..e]) == multiset(s[e..]);
    forall x, y | x in multiset(s[..e]) && y in multiset(s) - multiset(s[..e])
      ensures le(x, y)
    {
      var p :| 0 <= p < e && s[..e][p] == x;
      var q :| 0 <= q < |s| - e && s[e..][q] == y;
      assert s[p] == x && s[e + q] == y;
    }
  }

  lemma SortedPrefix<T>(s: seq<T>, e: nat, le: (T, T) -> bool)
    requires SortedBy(s, le) && e <= |s|
    ensures SortedBy(s[..e], le)
  {
  }
}
