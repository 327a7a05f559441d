/** Sequences with the same elements, each as often. */
module Permutations {
  lemma LastApart<T>(xs: seq<T>)
    requires xs != []
    ensures multiset(xs) == multiset(xs[..|xs| - 1]) + multiset{xs[|xs| - 1]}
  {
    assert xs == xs[..|xs| - 1] + [xs[|xs| - 1]];
  }

  // Where the last element of a sequence is in a permutation of it.
  lemma Counterpart<T>(xs: seq<T>, ys: seq<T>) returns (i: nat)
    requires xs != [] && multiset(xs) == multiset(ys)
    ensures i < |ys| && ys[i] == xs[|xs| - 1]
    ensures multiset(ys[..i] + ys[i + 1..]) == multiset(xs[..|xs| - 1])
  {
    var last := xs[|xs| - 1];
    assert last in multiset(ys);
    i :| 0 <= i < |ys| && ys[i] == last;
    assert ys == ys[..i] + [ys[i]] + ys[i + 1..];
    LastApart(xs);
    Cancel(multiset(ys[..i] + ys[i + 1..]), multiset(xs[..|xs| - 1]), multiset{last});
  }

  lemma Cancel<T>(a: multiset<T>, b: multiset<T>, c: multiset<T>)
    requires a + c == b + c
    ensures a == b
  {
    forall x ensures a[x] == b[x] {
      assert (a + c)[x] == (b + c)[x];
    }
  }

  lemma SameMembers<T>(xs: seq<T>, ys: seq<T>, x: T)
    requires multiset(xs) == multiset(ys)
    ensures x in xs <==> x in ys
  {
    assert x in multiset(xs) <==> x in multiset(ys);
  }
}
