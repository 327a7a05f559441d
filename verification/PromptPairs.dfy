/** What becomes of two prompts: one group, one cluster and one template exactly if they agree at enough positions. */
module PromptPairs {
  import opened PromptClusters
  import opened PromptGroups
  import opened PromptTemplates
  import opened StableSort

  /** The tokens that two sequences share, and a wildcard wherever they differ. */
  function Common(a: seq<string>, b: seq<string>): seq<string>
    requires |a| == |b|
  {
    seq(|a|, j requires 0 <= j < |a| => if a[j] == b[j] then a[j] else "<*>")
  }

  /** The number of positions at which they agree is more than a part of all. */
  predicate AgreeEnough(a: seq<string>, b: seq<string>, threshold: real)
    requires |a| == |b|
  {
    |set j: nat | j < |a| && a[j] == b[j]| as real > threshold * |a| as real
  }

  lemma OneGroup(p: string, tok: string -> seq<string>, n: nat, threshold: real)
    requires |tok(p)| == n > 0
    ensures AllOfLength([p], tok, n) && Greedy([p], tok, n, threshold) == [Group(tok(p), [p])]
  {
    assert [p][..0] == [];
    assert Greedy([p][..0], tok, n, threshold) == [];
  }

  lemma WidenIsCommon(a: seq<string>, b: seq<string>)
    requires |a| == |b|
    ensures Widen(a, b) == Common(a, b)
  {}

  lemma AgreeingIs(a: seq<string>, b: seq<string>, threshold: real)
    requires |a| == |b|
    ensures AgreeEnough(a, b, threshold) <==> |Agreeing(b, a)| as real > threshold * |b| as real
  {
    assert Agreeing(b, a) == set j: nat | j < |a| && a[j] == b[j];
  }

  lemma PlaceSecond(g: Group, q: string, tokens: seq<string>, threshold: real)
    requires |tokens| == |g.template| > 0
    ensures Place([g], q, tokens, threshold) ==
      if AgreeEnough(g.template, tokens, threshold)
      then [Group(Common(g.template, tokens), g.members + [q])]
      else [g, Group(tokens, [q])]
  {
    hide AgreeEnough, Agreeing, Common, Widen, Similar;
    FirstAgrees([g], tokens, threshold);
    AgreeingIs(g.template, tokens, threshold);
    WidenIsCommon(g.template, tokens);
    assert [g] + [Group(tokens, [q])] == [g, Group(tokens, [q])];
  }

  /** Two prompts of n tokens form one group, with what they share as its template, if and only if they agree at more
    * than the threshold's part of the positions. */
  lemma PairGroups(p: string, q: string, tok: string -> seq<string>, n: nat, threshold: real)
    requires |tok(p)| == |tok(q)| == n > 0
    ensures Greedy([p, q], tok, n, threshold) ==
      if AgreeEnough(tok(p), tok(q), threshold)
      then [Group(Common(tok(p), tok(q)), [p, q])]
      else [Group(tok(p), [p]), Group(tok(q), [q])]
  {
    hide AgreeEnough, Common;
    OneGroup(p, tok, n, threshold);
    PlaceSecond(Group(tok(p), [p]), q, tok(q), threshold);
    assert [p, q][..1] == [p] && [p] + [q] == [p, q];
  }

  // ---- Clusters ----

  lemma {:induction false} KeptBelow(
    prompts: seq<string>, tok: string -> seq<string>, threshold: real, bound: nat, n: nat)
    requires forall k: nat :: k != n ==> Kept(GroupsOf(prompts, tok, threshold, k)) == []
    ensures Kept(GroupsBelow(prompts, tok, threshold, bound)) ==
      if n < bound then Kept(GroupsOf(prompts, tok, threshold, n)) else []
  {
    hide Kept, GroupsOf;
    if bound == 0 {
      NothingKept();
    } else {
      KeptBelow(prompts, tok, threshold, bound - 1, n);
      KeptConcat(GroupsBelow(prompts, tok, threshold, bound - 1), GroupsOf(prompts, tok, threshold, bound - 1));
    }
  }

  lemma NothingKept()
    ensures Kept([]) == []
  {}

  lemma PairOfLength(p: string, q: string, tok: string -> seq<string>, n: nat)
    ensures OfLength([p, q], tok, n) == (if |tok(p)| == n then [p] else []) + if |tok(q)| == n then [q] else []
  {
    assert [p, q][..1] == [p] && [p][..0] == [];
    assert OfLength([p][..0], tok, n) == [];
  }

  // A single prompt of its length is in no cluster.
  lemma OneIsNoCluster(p: string, tok: string -> seq<string>, n: nat, threshold: real)
    requires |tok(p)| == n > 0
    ensures AllOfLength([p], tok, n) && Kept(Greedy([p], tok, n, threshold)) == []
  {
    OneGroup(p, tok, n, threshold);
    TwoKept(Group(tok(p), [p]), Group(tok(p), [p]));
  }

  lemma TwoKept(g: Group, h: Group)
    ensures Kept([g]) == if |g.members| >= 2 then [Cluster(Join(g.template), g.members)] else []
    ensures |g.members| < 2 && |h.members| < 2 ==> Kept([g, h]) == []
  {
    assert [g][..0] == [] && [g, h][..1] == [g];
    assert Kept([g][..0]) == [];
  }

  lemma KeptOfOther(p: string, q: string, tok: string -> seq<string>, threshold: real, k: nat)
    requires k != |tok(p)| || |tok(p)| != |tok(q)|
    ensures Kept(GroupsOf([p, q], tok, threshold, k)) == []
  {
    hide Greedy, Kept;
    NothingKept();
    if Eligible(k) {
      PairOfLength(p, q, tok, k);
      OfLengthIsOfLength([p, q], tok, k);
      if |tok(p)| == k {
        assert [p] + [] == [p];
        OneIsNoCluster(p, tok, k, threshold);
      } else if |tok(q)| == k {
        assert [] + [q] == [q];
        OneIsNoCluster(q, tok, k, threshold);
      } else {
        NoneGrouped(tok, k, threshold);
      }
    }
  }

  lemma NoneGrouped(tok: string -> seq<string>, n: nat, threshold: real)
    requires n > 0
    ensures Greedy([], tok, n, threshold) == []
  {}

  /** Two prompts of between 2 and 40 tokens, as many in both, that agree at enough positions. */
  predicate PairUp(p: string, q: string, tok: string -> seq<string>, threshold: real) {
    2 <= |tok(p)| <= 40 && |tok(q)| == |tok(p)| && AgreeEnough(tok(p), tok(q), threshold)
  }

  lemma PairHasLength(p: string, q: string, tok: string -> seq<string>, threshold: real)
    ensures PairUp(p, q, tok, threshold) ==> |tok(p)| == |tok(q)|
  {}

  lemma KeptOfLength(p: string, q: string, tok: string -> seq<string>, threshold: real)
    requires |tok(p)| == |tok(q)|
    ensures Kept(GroupsOf([p, q], tok, threshold, |tok(p)|)) ==
      if PairUp(p, q, tok, threshold) then [Cluster(Join(Common(tok(p), tok(q))), [p, q])] else []
  {
    hide AgreeEnough, Greedy, Common, Kept, Join;
    var n := |tok(p)|;
    NothingKept();
    if Eligible(n) {
      PairOfLength(p, q, tok, n);
      OfLengthIsOfLength([p, q], tok, n);
      assert [p] + [q] == [p, q];
      PairGroups(p, q, tok, n, threshold);
      TwoKept(Group(Common(tok(p), tok(q)), [p, q]), Group([], []));
      TwoKept(Group(tok(p), [p]), Group(tok(q), [q]));
    }
  }

  lemma KeptOfPair(p: string, q: string, tok: string -> seq<string>, threshold: real)
    ensures Kept(AllGroups([p, q], tok, threshold)) ==
      if PairUp(p, q, tok, threshold) then [Cluster(Join(Common(tok(p), tok(q))), [p, q])] else []
  {
    hide AgreeEnough, GroupsOf, Common, Kept, Join, GroupsBelow;
    forall k: nat | k != |tok(p)| || |tok(p)| != |tok(q)| {
      KeptOfOther(p, q, tok, threshold, k);
    }
    KeptBelow([p, q], tok, threshold, 41, |tok(p)|);
    if |tok(p)| == |tok(q)| {
      KeptOfLength(p, q, tok, threshold);
    }
  }

  /** The clusters of two prompts: one, of both, if and only if they have the same number of tokens, 2 to 40, and agree
    * at more than the threshold's part of them. */
  lemma PairClusters(
    p: string, q: string, tok: string -> seq<string>, threshold: real, clusters: seq<Cluster>)
    requires multiset(clusters) == multiset(Kept(AllGroups([p, q], tok, threshold)))
    ensures clusters ==
      if PairUp(p, q, tok, threshold) then [Cluster(Join(Common(tok(p), tok(q))), [p, q])] else []
  {
    hide PairUp, Common, Kept, Join, AllGroups;
    KeptOfPair(p, q, tok, threshold);
    if PairUp(p, q, tok, threshold) {
      PairHasLength(p, q, tok, threshold);
      var c := Cluster(Join(Common(tok(p), tok(q))), [p, q]);
      assert |multiset(clusters)| == 1 && c in multiset(clusters);
      assert clusters == [c];
    } else {
      assert |multiset(clusters)| == 0;
    }
  }

  // ---- Templates ----

  lemma SlotGroupOfPair(p: string, q: string, norm: string -> string, k: string)
    ensures SlotGroup([p, q], norm, k) == (if norm(p) == k then [p] else []) + if norm(q) == k then [q] else []
  {
    assert [p, q][..1] == [p] && [p][..0] == [];
    assert SlotGroup([p][..0], norm, k) == [];
  }

  lemma PairIsUncaptured(p: string, q: string, norm: string -> string)
    requires norm(p) != norm(q)
    ensures Uncaptured([p, q], [p, q], norm, 2) == [p, q]
  {
    SlotGroupOfPair(p, q, norm, norm(p));
    SlotGroupOfPair(p, q, norm, norm(q));
    assert [p, q][..1] == [p] && [p][..0] == [];
    assert Uncaptured([p, q], [p][..0], norm, 2) == [];
    assert Uncaptured([p, q], [p], norm, 2) == [p];
    assert [p] + [q] == [p, q];
  }

  /** The template of a pair. */
  function PairTemplate(p: string, q: string, tok: string -> seq<string>): PromptTemplate
    requires |tok(p)| == |tok(q)|
  {
    var pattern := Join(Common(tok(p), tok(q)));
    PromptTemplate(pattern, 2, [p, q], if Contains(pattern, "<*>") then ["*"] else [], [])
  }

  function FoundPair(p: string, q: string, tok: string -> seq<string>): Found
    requires |tok(p)| == |tok(q)|
  {
    var pattern := Join(Common(tok(p), tok(q)));
    Found(pattern, [p, q], ClusterSlots(pattern))
  }

  lemma FoundOfPair(
    p: string, q: string, norm: string -> string, tok: string -> seq<string>, found: seq<Found>, f: Found)
    requires norm(p) != norm(q) && Accounted(found, [p, q], norm, tok, 2)
    ensures f in found <==> PairUp(p, q, tok, 0.5) && f == FoundPair(p, q, tok)
  {
    hide PairUp, Common, Kept, Join, AllGroups, ClusterSlots, Uncaptured, Union, SlotGroup, SlotsOf;
    SlotGroupOfPair(p, q, norm, f.pattern);
    PairHasLength(p, q, tok, 0.5);
    PairIsUncaptured(p, q, norm);
    KeptOfPair(p, q, tok, 0.5);
  }

  lemma {:induction false} UnionOfPairs(found: seq<Found>, p: string, q: string)
    requires forall f :: f in found ==> f.prompts == [p, q]
    ensures |Union(found, InFound)| == 2 * |found|
  {
    if found != [] {
      UnionOfPairs(found[..|found| - 1], p, q);
      assert found[|found| - 1] in found;
    }
  }

  lemma AtMostOnce(found: seq<Found>, p: string, q: string)
    requires forall f :: f in found ==> f.prompts == [p, q]
    requires Union(found, InFound) <= multiset([p, q])
    ensures |found| <= 1
  {
    hide Union;
    UnionOfPairs(found, p, q);
    assert multiset([p, q]) == Union(found, InFound) + (multiset([p, q]) - Union(found, InFound));
  }

  /** The templates of two prompts that normalise differently, with a minimum frequency of 2: one, of both, if and only
    * if they have the same number of tokens, 2 to 40, and agree at more than half of them. */
  lemma PairTemplates(
    p: string, q: string, norm: string -> string, tok: string -> seq<string>, templates: seq<PromptTemplate>,
    found: seq<Found>)
    requires norm(p) != norm(q) && Accounted(found, [p, q], norm, tok, 2) && templates == Map(found, Describe)
    ensures templates == if PairUp(p, q, tok, 0.5) then [PairTemplate(p, q, tok)] else []
  {
    hide PairUp, PairTemplate, FoundPair, Describe, Union, IsSlot, IsCluster;
    forall f {
      FoundOfPair(p, q, norm, tok, found, f);
    }
    if PairUp(p, q, tok, 0.5) {
      PairHasLength(p, q, tok, 0.5);
      FoundOnce(p, q, norm, tok, found);
      PairDescribed(p, q, tok);
    } else {
      FirstIsFound(found);
    }
  }

  lemma FirstIsFound(found: seq<Found>)
    ensures found != [] ==> found[0] in found
  {}

  lemma FoundOnce(p: string, q: string, norm: string -> string, tok: string -> seq<string>, found: seq<Found>)
    requires Accounted(found, [p, q], norm, tok, 2) && |tok(p)| == |tok(q)|
    requires forall f :: f in found <==> f == FoundPair(p, q, tok)
    ensures found == [FoundPair(p, q, tok)]
  {
    hide Union, IsSlot, IsCluster, Join, ClusterSlots;
    AtMostOnce(found, p, q);
    assert FoundPair(p, q, tok) in found;
    assert found[0] in found;
  }

  lemma PairDescribed(p: string, q: string, tok: string -> seq<string>)
    requires |tok(p)| == |tok(q)|
    ensures Describe(FoundPair(p, q, tok)) == PairTemplate(p, q, tok)
  {
    hide Contains, Join;
  }
}
