/** A fact about permutations shared by the order-independence proofs of the
    CPU mean and of the report tallies. */
module Permutations {

  /** Taking the last element off `a` and a matching element off `b` keeps
      the two sequences permutations of each other. */
  lemma RemovedPermutation<T>(a: seq<T>, b: seq<T>, k: int)
    requires multiset(a) == multiset(b) && a != []
    requires 0 <= k < |b| && b[k] == a[|a| - 1]
    ensures multiset(a[..|a| - 1]) == multiset(b[..k] + b[k + 1..])
  {
    var n, x := |a| - 1, b[k];
    assert a == a[..n] + [x];
    assert b == b[..k] + [x] + b[k + 1..];
    calc {
      multiset(b);
      multiset(b[..k] + [x] + b[k + 1..]);
      multiset(b[..k]) + multiset([x]) + multiset(b[k + 1..]);
      multiset(b[..k] + b[k + 1..]) + multiset([x]);
    }
    assert multiset(a) == multiset(a[..n]) + multiset([x]);
    assert multiset(b[..k] + b[k + 1..]) == multiset(b) - multiset([x]);
    assert multiset(a[..n]) == multiset(a) - multiset([x]);
  }
}
