/** Small facts about sequences shared by the models of both source files. */
module SeqUtil {

  /** Index of the first element equal to `x`, or -1 when there is none: the
      behaviour of `Array.prototype.findIndex` with an equality test. */
  function IndexOf<T(==)>(s: seq<T>, x: T): (r: int)
    ensures -1 <= r < |s|
    ensures r == -1 <==> x !in s
    ensures 0 <= r ==> s[r] == x && x !in s[..r]
  {
    if s == [] then -1
    else if s[0] == x then 0
    else
      var k := IndexOf(s[1..], x);
      assert k >= 0 ==> s[..k + 1] == [s[0]] + s[1..][..k];
      if k == -1 then -1 else k + 1
  }

  /** Where the first `x` of a concatenation is. */
  lemma {:induction false} IndexOfConcat<T>(p: seq<T>, q: seq<T>, x: T)
    ensures IndexOf(p + q, x) ==
              if x in p then IndexOf(p, x) else if x in q then |p| + IndexOf(q, x) else -1
    decreases |p|
  {
    if p == [] {
      assert p + q == q;
    } else {
      assert (p + q)[1..] == p[1..] + q;
      IndexOfConcat(p[1..], q, x);
    }
  }

  /** The first `x`, when the elements are pairwise distinct, is the only one. */
  lemma IndexOfDistinct<T>(s: seq<T>, k: nat)
    requires k < |s| && forall i, j :: 0 <= i < j < |s| ==> s[i] != s[j]
    ensures IndexOf(s, s[k]) == k
  {
  }

  /** Concatenation is associative; stated once so that long proofs can cite it. */
  lemma ConcatAssoc<T>(p: seq<T>, q: seq<T>, r: seq<T>)
    ensures (p + q) + r == p + (q + r)
  {
  }

  /** Index of the last element satisfying `p`, or -1: what a forward loop
      that overwrites its answer at every match (and never breaks) ends with. */
  function LastWhere<T>(s: seq<T>, p: T -> bool): (r: int)
    ensures -1 <= r < |s|
    ensures r >= 0 ==> p(s[r])
  {
    if s == [] then -1 else if p(s[|s| - 1]) then |s| - 1 else LastWhere(s[..|s| - 1], p)
  }

  /** -1 exactly when no element satisfies `p`; otherwise no later one does. */
  lemma {:induction false} LastWhereMeaning<T>(s: seq<T>, p: T -> bool)
    ensures LastWhere(s, p) == -1 <==> forall m :: 0 <= m < |s| ==> !p(s[m])
    ensures LastWhere(s, p) >= 0 ==> forall m :: LastWhere(s, p) < m < |s| ==> !p(s[m])
    decreases |s|
  {
    if s != [] && !p(s[|s| - 1]) {
      var q := s[..|s| - 1];
      LastWhereMeaning(q, p);
      assert forall m :: 0 <= m < |q| ==> q[m] == s[m];
    }
  }
}
