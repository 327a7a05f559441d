/** Stable sorting into non-increasing order of a size: the order in which equal elements came is kept. */
module StableSort {
  function InsertDesc<T>(xs: seq<T>, x: T, size: T -> int): seq<T> {
    if xs == [] then [x]
    else if size(xs[|xs| - 1]) >= size(x) then xs + [x]
    else InsertDesc(xs[..|xs| - 1], x, size) + [xs[|xs| - 1]]
  }

  function SortDesc<T>(xs: seq<T>, size: T -> int): seq<T> {
    if xs == [] then [] else InsertDesc(SortDesc(xs[..|xs| - 1], size), xs[|xs| - 1], size)
  }

  predicate NonIncreasing<T>(xs: seq<T>, size: T -> int) {
    forall i, j :: 0 <= i < j < |xs| ==> size(xs[i]) >= size(xs[j])
  }

  /** The elements of one size, in order. */
  function OfSize<T>(xs: seq<T>, size: T -> int, n: int): seq<T> {
    if xs == [] then []
    else OfSize(xs[..|xs| - 1], size, n) + if size(xs[|xs| - 1]) == n then [xs[|xs| - 1]] else []
  }

  lemma OfSizeAppend<T>(xs: seq<T>, x: T, size: T -> int, n: int)
    ensures OfSize(xs + [x], size, n) == OfSize(xs, size, n) + if size(x) == n then [x] else []
  {
    assert (xs + [x])[..|xs|] == xs;
  }

  lemma {:induction false} InsertPermutes<T>(xs: seq<T>, x: T, size: T -> int)
    ensures multiset(InsertDesc(xs, x, size)) == multiset(xs) + multiset{x}
    ensures |InsertDesc(xs, x, size)| == |xs| + 1
  {
    if xs == [] || size(xs[|xs| - 1]) >= size(x) {
      assert xs == [] ==> InsertDesc(xs, x, size) == xs + [x];
    } else {
      assert xs == xs[..|xs| - 1] + [xs[|xs| - 1]];
      InsertPermutes(xs[..|xs| - 1], x, size);
    }
  }

  lemma SameElements<T>(xs: seq<T>, ys: seq<T>, i: nat)
    requires multiset(xs) == multiset(ys) && i < |ys|
    ensures ys[i] in xs
  {
    assert ys[i] in multiset(ys);
  }

  lemma {:induction false} InsertSorted<T>(xs: seq<T>, x: T, size: T -> int)
    requires NonIncreasing(xs, size)
    ensures NonIncreasing(InsertDesc(xs, x, size), size)
  {
    if xs != [] && size(xs[|xs| - 1]) < size(x) {
      var prefix, last := xs[..|xs| - 1], xs[|xs| - 1];
      InsertSorted(prefix, x, size);
      InsertPermutes(prefix, x, size);
      var r := InsertDesc(prefix, x, size);
      forall i | 0 <= i < |r| ensures size(r[i]) >= size(last) {
        assert multiset(prefix + [x]) == multiset(prefix) + multiset{x};
        SameElements(prefix + [x], r, i);
      }
    }
  }

  lemma {:induction false} InsertStable<T>(xs: seq<T>, x: T, size: T -> int, n: int)
    ensures OfSize(InsertDesc(xs, x, size), size, n) == OfSize(xs, size, n) + if size(x) == n then [x] else []
  {
    if xs == [] || size(xs[|xs| - 1]) >= size(x) {
      OfSizeAppend(xs, x, size, n);
      assert xs == [] ==> InsertDesc(xs, x, size) == xs + [x];
    } else {
      InsertStable(xs[..|xs| - 1], x, size, n);
      OfSizeAppend(InsertDesc(xs[..|xs| - 1], x, size), xs[|xs| - 1], size, n);
    }
  }

  /** A stable sort: the same elements, in non-increasing order, and those of one size in their old order. */
  lemma {:induction false} SortIsStable<T>(xs: seq<T>, size: T -> int)
    ensures var r := SortDesc(xs, size);
      && NonIncreasing(r, size) && multiset(r) == multiset(xs) && |r| == |xs|
      && forall n :: OfSize(r, size, n) == OfSize(xs, size, n)
  {
    hide InsertDesc, NonIncreasing;
    if xs == [] {
      Trivial(xs, size);
    } else {
      var prefix, last := xs[..|xs| - 1], xs[|xs| - 1];
      SortIsStable(prefix, size);
      InsertSorted(SortDesc(prefix, size), last, size);
      InsertPermutes(SortDesc(prefix, size), last, size);
      assert xs == prefix + [last];
      forall n {
        InsertStable(SortDesc(prefix, size), last, size, n);
      }
    }
  }

  lemma Trivial<T>(xs: seq<T>, size: T -> int)
    requires xs == []
    ensures NonIncreasing(xs, size)
  {}

  function Map<S, T>(xs: seq<S>, f: S -> T): seq<T> {
    seq(|xs|, i requires 0 <= i < |xs| => f(xs[i]))
  }

  lemma {:induction false} InsertCommutes<S, T>(xs: seq<S>, x: S, f: S -> T, size: T -> int, sizeOf: S -> int)
    requires forall s :: sizeOf(s) == size(f(s))
    ensures InsertDesc(Map(xs, f), f(x), size) == Map(InsertDesc(xs, x, sizeOf), f)
  {
    if xs == [] || sizeOf(xs[|xs| - 1]) >= sizeOf(x) {
    } else {
      assert Map(xs, f)[..|xs| - 1] == Map(xs[..|xs| - 1], f);
      InsertCommutes(xs[..|xs| - 1], x, f, size, sizeOf);
    }
  }

  /** Sorting descriptions by size is describing what is sorted. */
  lemma {:induction false} SortCommutes<S, T>(xs: seq<S>, f: S -> T, size: T -> int, sizeOf: S -> int)
    requires forall s :: sizeOf(s) == size(f(s))
    ensures SortDesc(Map(xs, f), size) == Map(SortDesc(xs, sizeOf), f)
  {
    if xs != [] {
      assert Map(xs, f)[..|xs| - 1] == Map(xs[..|xs| - 1], f);
      SortCommutes(xs[..|xs| - 1], f, size, sizeOf);
      InsertCommutes(SortDesc(xs[..|xs| - 1], sizeOf), xs[|xs| - 1], f, size, sizeOf);
    }
  }
}
