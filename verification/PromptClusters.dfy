/** Prompts of all lengths clustered: groups of two or more, largest first. */
module PromptClusters {
  import opened Permutations
  import opened PromptGroups
  import opened StableSort
  import opened Traversal

  // ---- Clusters ----

  datatype Cluster = Cluster(template: string, members: seq<string>)

  function Join(tokens: seq<string>): string {
    if tokens == [] then ""
    else if |tokens| == 1 then tokens[0]
    else Join(tokens[..|tokens| - 1]) + " " + tokens[|tokens| - 1]
  }

  lemma JoinLast(tokens: seq<string>, last: string)
    requires tokens != []
    ensures Join(tokens + [last]) == Join(tokens) + " " + last
  {
    assert (tokens + [last])[..|tokens|] == tokens;
  }

  lemma JoinOne(token: string)
    ensures Join([token]) == token
  {}

  /** Tokens are joined in order, with blanks in between. */
  lemma {:induction false} JoinConcat(xs: seq<string>, ys: seq<string>)
    requires xs != [] && ys != []
    ensures Join(xs + ys) == Join(xs) + " " + Join(ys)
  {
    hide Join;
    var n := |ys| - 1;
    var rest := ys[..n];
    assert ys == rest + [ys[n]];
    if n == 0 {
      JoinLast(xs, ys[0]);
      JoinOne(ys[0]);
    } else {
      JoinConcat(xs, rest);
      JoinLast(xs + rest, ys[n]);
      JoinLast(rest, ys[n]);
      assert xs + ys == xs + rest + [ys[n]];
      assert Join(xs) + " " + Join(rest) + " " + ys[n] == Join(xs) + " " + (Join(rest) + " " + ys[n]);
    }
  }

  function Size(c: Cluster): int {
    |c.members|
  }

  // Groups of one prompt are no clusters.
  function Kept(groups: seq<Group>): seq<Cluster> {
    if groups == [] then []
    else
      var g := groups[|groups| - 1];
      Kept(groups[..|groups| - 1]) + if |g.members| >= 2 then [Cluster(Join(g.template), g.members)] else []
  }

  lemma {:induction false} OfLengthIsOfLength(prompts: seq<string>, tok: string -> seq<string>, n: nat)
    ensures AllOfLength(OfLength(prompts, tok, n), tok, n)
  {
    if prompts != [] {
      OfLengthIsOfLength(prompts[..|prompts| - 1], tok, n);
    }
  }

  function GroupsOf(prompts: seq<string>, tok: string -> seq<string>, threshold: real, n: nat): seq<Group> {
    if !Eligible(n) then []
    else
      OfLengthIsOfLength(prompts, tok, n);
      Greedy(OfLength(prompts, tok, n), tok, n, threshold)
  }

  /** The groups of some lengths below a bound, shortest first. */
  function GroupsIn(
    prompts: seq<string>, tok: string -> seq<string>, threshold: real, lengths: set<nat>, bound: nat): seq<Group>
  {
    if bound == 0 then []
    else
      var n := bound - 1;
      GroupsIn(prompts, tok, threshold, lengths, n)
      + if n in lengths then GroupsOf(prompts, tok, threshold, n) else []
  }

  /** The groups of all lengths below a bound, shortest first. */
  function GroupsBelow(prompts: seq<string>, tok: string -> seq<string>, threshold: real, bound: nat): seq<Group> {
    if bound == 0 then []
    else GroupsBelow(prompts, tok, threshold, bound - 1) + GroupsOf(prompts, tok, threshold, bound - 1)
  }

  function AllGroups(prompts: seq<string>, tok: string -> seq<string>, threshold: real): seq<Group> {
    GroupsBelow(prompts, tok, threshold, 41)
  }

  // One length more.
  lemma GroupsInLast(
    prompts: seq<string>, tok: string -> seq<string>, threshold: real, lengths: set<nat>, n: nat)
    ensures multiset(GroupsIn(prompts, tok, threshold, lengths, n + 1)) ==
      multiset(GroupsIn(prompts, tok, threshold, lengths, n))
      + if n in lengths then multiset(GroupsOf(prompts, tok, threshold, n)) else multiset{}
  {
    hide GroupsOf;
  }

  lemma AddInOrder<T>(a: multiset<T>, b: multiset<T>, g: multiset<T>, early: bool, h: multiset<T>)
    requires b == a + if early then g else multiset{}
    ensures early ==> b + h == a + h + g
    ensures !early ==> b + h == a + h && b + g == a + g
    ensures a + multiset{} == a && b + multiset{} == b && a + h + multiset{} == a + h
  {}

  lemma {:induction false} GroupsInMore(
    prompts: seq<string>, tok: string -> seq<string>, threshold: real, lengths: set<nat>, bound: nat, k: nat)
    requires k !in lengths
    ensures multiset(GroupsIn(prompts, tok, threshold, lengths + {k}, bound)) ==
      multiset(GroupsIn(prompts, tok, threshold, lengths, bound))
      + if k < bound then multiset(GroupsOf(prompts, tok, threshold, k)) else multiset{}
  {
    hide GroupsOf;
    if bound > 0 {
      hide GroupsIn;
      var n := bound - 1;
      GroupsInMore(prompts, tok, threshold, lengths, n, k);
      GroupsInLast(prompts, tok, threshold, lengths, n);
      GroupsInLast(prompts, tok, threshold, lengths + {k}, n);
      AddInOrder(
        multiset(GroupsIn(prompts, tok, threshold, lengths, n)),
        multiset(GroupsIn(prompts, tok, threshold, lengths + {k}, n)),
        multiset(GroupsOf(prompts, tok, threshold, k)), k < n,
        if n in lengths then multiset(GroupsOf(prompts, tok, threshold, n)) else multiset{});
      assert k == n ==> n !in lengths;
    }
  }

  lemma {:induction false} NoneMissing(
    prompts: seq<string>, tok: string -> seq<string>, threshold: real, lengths: set<nat>, bound: nat)
    requires forall n: nat :: n !in lengths ==> GroupsOf(prompts, tok, threshold, n) == []
    ensures GroupsIn(prompts, tok, threshold, lengths, bound) == GroupsBelow(prompts, tok, threshold, bound)
  {
    hide GroupsOf;
    if bound > 0 {
      NoneMissing(prompts, tok, threshold, lengths, bound - 1);
    }
  }

  lemma {:induction false} NoLengths(prompts: seq<string>, tok: string -> seq<string>, threshold: real, bound: nat)
    ensures GroupsIn(prompts, tok, threshold, {}, bound) == []
  {
    hide GroupsOf;
    if bound > 0 {
      NoLengths(prompts, tok, threshold, bound - 1);
    }
  }

  lemma {:induction false} KeptConcat(xs: seq<Group>, ys: seq<Group>)
    ensures Kept(xs + ys) == Kept(xs) + Kept(ys)
  {
    if ys == [] {
      assert xs + ys == xs;
    } else {
      var n := |ys| - 1;
      assert (xs + ys)[..|xs| + n] == xs + ys[..n];
      KeptConcat(xs, ys[..n]);
    }
  }

  lemma {:induction false} KeptWithout(xs: seq<Group>, i: nat)
    requires i < |xs|
    ensures multiset(Kept(xs)) == multiset(Kept(xs[..i] + xs[i + 1..])) + multiset(Kept([xs[i]]))
  {
    hide Kept;
    assert xs == xs[..i] + [xs[i]] + xs[i + 1..];
    KeptConcat(xs[..i] + [xs[i]], xs[i + 1..]);
    KeptConcat(xs[..i], [xs[i]]);
    KeptConcat(xs[..i], xs[i + 1..]);
  }

  lemma {:induction false} KeptOfPermutation(xs: seq<Group>, ys: seq<Group>)
    requires multiset(xs) == multiset(ys)
    ensures multiset(Kept(xs)) == multiset(Kept(ys))
  {
    if xs == [] {
      assert |multiset(ys)| == 0;
    } else {
      hide Kept;
      var n := |xs| - 1;
      var i := Counterpart(xs, ys);
      KeptOfPermutation(xs[..n], ys[..i] + ys[i + 1..]);
      KeptWithout(xs, n);
      KeptWithout(ys, i);
      assert xs[..n] + xs[n + 1..] == xs[..n];
    }
  }

  // ---- Every eligible prompt is in exactly one group ----

  /** The prompts of 2 to 40 tokens, and fewer than a bound. */
  function EligibleBelow(prompts: seq<string>, tok: string -> seq<string>, bound: nat): seq<string> {
    if prompts == [] then []
    else
      var p := prompts[|prompts| - 1];
      EligibleBelow(prompts[..|prompts| - 1], tok, bound)
      + if Eligible(|tok(p)|) && |tok(p)| < bound then [p] else []
  }

  lemma {:induction false} OneLengthMore(prompts: seq<string>, tok: string -> seq<string>, n: nat)
    ensures multiset(EligibleBelow(prompts, tok, n + 1)) ==
      multiset(EligibleBelow(prompts, tok, n))
      + if Eligible(n) then multiset(OfLength(prompts, tok, n)) else multiset{}
  {
    if prompts != [] {
      OneLengthMore(prompts[..|prompts| - 1], tok, n);
    }
  }

  lemma {:induction false} NoneBelowZero(prompts: seq<string>, tok: string -> seq<string>)
    ensures EligibleBelow(prompts, tok, 0) == []
  {
    if prompts != [] {
      NoneBelowZero(prompts[..|prompts| - 1], tok);
    }
  }

  lemma {:induction false} PartitionBelow(
    prompts: seq<string>, tok: string -> seq<string>, threshold: real, bound: nat)
    ensures Union(GroupsBelow(prompts, tok, threshold, bound), InGroup) ==
      multiset(EligibleBelow(prompts, tok, bound))
  {
    hide EligibleBelow, Union, GroupsOf, OfLength, InGroup;
    if bound == 0 {
      NoneBelowZero(prompts, tok);
      NoUnion(InGroup);
    } else {
      hide GroupsBelow;
      assert GroupsBelow(prompts, tok, threshold, bound) ==
        GroupsBelow(prompts, tok, threshold, bound - 1) + GroupsOf(prompts, tok, threshold, bound - 1)
        by { GroupsBelowLast(prompts, tok, threshold, bound - 1); }
      var n := bound - 1;
      PartitionBelow(prompts, tok, threshold, n);
      UnionConcat(GroupsBelow(prompts, tok, threshold, n), GroupsOf(prompts, tok, threshold, n), InGroup);
      OneLengthMore(prompts, tok, n);
      PartitionOf(prompts, tok, threshold, n);
    }
  }

  lemma GroupsBelowLast(prompts: seq<string>, tok: string -> seq<string>, threshold: real, n: nat)
    ensures GroupsBelow(prompts, tok, threshold, n + 1) ==
      GroupsBelow(prompts, tok, threshold, n) + GroupsOf(prompts, tok, threshold, n)
  {
    hide GroupsOf;
  }

  lemma {:induction false} PartitionOf(prompts: seq<string>, tok: string -> seq<string>, threshold: real, n: nat)
    ensures Union(GroupsOf(prompts, tok, threshold, n), InGroup) ==
      if Eligible(n) then multiset(OfLength(prompts, tok, n)) else multiset{}
  {
    hide Union, Greedy, OfLength;
    if Eligible(n) {
      OfLengthIsOfLength(prompts, tok, n);
      GroupsPartition(OfLength(prompts, tok, n), tok, n, threshold);
    } else {
      NoUnion(InGroup);
    }
  }

  lemma NoUnion<T>(held: T -> seq<string>)
    ensures Union([], held) == multiset{}
  {}

  lemma {:induction false} GeneraliseBelow(
    prompts: seq<string>, tok: string -> seq<string>, threshold: real, bound: nat)
    ensures forall g :: g in GroupsBelow(prompts, tok, threshold, bound) ==> Generalises(g, tok, |g.template|)
  {
    hide Generalises, GroupsOf;
    if bound > 0 {
      var n := bound - 1;
      GeneraliseBelow(prompts, tok, threshold, n);
      GeneraliseOf(prompts, tok, threshold, n);
    }
  }

  lemma {:induction false} GeneraliseOf(prompts: seq<string>, tok: string -> seq<string>, threshold: real, n: nat)
    ensures forall g :: g in GroupsOf(prompts, tok, threshold, n) ==> Generalises(g, tok, |g.template|)
  {
    hide Generalises, Greedy, OfLength, AllOfLength;
    if Eligible(n) {
      OfLengthIsOfLength(prompts, tok, n);
      GroupsGeneralise(OfLength(prompts, tok, n), tok, n, threshold);
    }
  }

  /** Before small groups are dropped, the groups partition the prompts of 2 to 40 tokens, for any threshold, and each
    * template is the least general generalisation of its group. */
  lemma DrainPartitions(prompts: seq<string>, tok: string -> seq<string>, threshold: real)
    ensures Union(AllGroups(prompts, tok, threshold), InGroup) == multiset(EligibleBelow(prompts, tok, 41))
    ensures forall g :: g in AllGroups(prompts, tok, threshold) ==> Generalises(g, tok, |g.template|)
  {
    hide Generalises;
    PartitionBelow(prompts, tok, threshold, 41);
    GeneraliseBelow(prompts, tok, threshold, 41);
  }

  // ---- The clustering loops ----

  /** Prompts by their number of tokens. */
  method ByLength(prompts: seq<string>, tok: string -> seq<string>) returns (byLength: map<nat, seq<string>>)
    ensures forall n: nat :: n in byLength ==> Eligible(n) && byLength[n] == OfLength(prompts, tok, n)
    ensures forall n: nat :: Eligible(n) && n !in byLength ==> OfLength(prompts, tok, n) == []
  {
    byLength := map[];
    for i := 0 to |prompts|
      invariant forall n: nat :: n in byLength ==> Eligible(n) && byLength[n] == OfLength(prompts[..i], tok, n)
      invariant forall n: nat :: Eligible(n) && n !in byLength ==> OfLength(prompts[..i], tok, n) == []
    {
      assert prompts[..i + 1][..i] == prompts[..i];
      var len := |tok(prompts[i])|;
      if Eligible(len) {
        var items := if len in byLength then byLength[len] else [];
        byLength := byLength[len := items + [prompts[i]]];
      }
    }
    assert prompts[..|prompts|] == prompts;
  }

  method KeepLarge(groups: seq<Group>) returns (kept: seq<Cluster>)
    ensures kept == Kept(groups)
  {
    kept := [];
    for g := 0 to |groups|
      invariant kept == Kept(groups[..g])
    {
      assert groups[..g + 1][..g] == groups[..g];
      if |groups[g].members| >= 2 {
        kept := kept + [Cluster(Join(groups[g].template), groups[g].members)];
      }
    }
    assert groups[..|groups|] == groups;
  }

  lemma LengthDone(prompts: seq<string>, tok: string -> seq<string>, threshold: real, n: nat)
    requires Eligible(n) && AllOfLength(OfLength(prompts, tok, n), tok, n)
    ensures GroupsOf(prompts, tok, threshold, n) == Greedy(OfLength(prompts, tok, n), tok, n, threshold)
  {}

  lemma LengthMissing(prompts: seq<string>, tok: string -> seq<string>, threshold: real, n: nat)
    requires Eligible(n) ==> OfLength(prompts, tok, n) == []
    ensures GroupsOf(prompts, tok, threshold, n) == []
  {}

  /** The groups of all lengths, which are visited in any order. */
  method GroupAll(prompts: seq<string>, threshold: real, tok: string -> seq<string>) returns (groups: seq<Group>)
    ensures multiset(groups) == multiset(AllGroups(prompts, tok, threshold))
  {
    hide GroupsIn, GroupsOf, OfLength, Greedy, AllOfLength;
    var byLength := ByLength(prompts, tok);
    groups := [];
    NoLengths(prompts, tok, threshold, 41);
    var rest := byLength.Keys;
    ghost var done: set<nat> := {};
    while rest != {}
      invariant Visiting(rest, done, byLength.Keys)
      invariant multiset(groups) == multiset(GroupsIn(prompts, tok, threshold, done, 41))
      decreases rest
    {
      hide Visiting;
      var n :| n in rest;
      VisitOne(rest, done, byLength.Keys, n);
      OfLengthIsOfLength(prompts, tok, n);
      var more := GroupPrompts(byLength[n], tok, n, threshold);
      LengthDone(prompts, tok, threshold, n);
      GroupsInMore(prompts, tok, threshold, done, 41, n);
      groups := groups + more;
      rest, done := rest - {n}, done + {n};
    }
    forall n: nat | n !in done ensures GroupsOf(prompts, tok, threshold, n) == [] {
      LengthMissing(prompts, tok, threshold, n);
    }
    NoneMissing(prompts, tok, threshold, done, 41);
  }

  /** The clusters are the groups of two or more, largest first. The order in which the lengths are visited decides
    * only how ties are ordered. */
  method DrainCluster(prompts: seq<string>, threshold: real, tok: string -> seq<string>)
    returns (clusters: seq<Cluster>)
    ensures forall i, j :: 0 <= i < j < |clusters| ==> |clusters[i].members| >= |clusters[j].members|
    ensures multiset(clusters) == multiset(Kept(AllGroups(prompts, tok, threshold)))
  {
    hide SortDesc, AllGroups, Kept;
    var groups := GroupAll(prompts, threshold, tok);
    clusters := KeepLarge(groups);
    KeptOfPermutation(groups, AllGroups(prompts, tok, threshold));
    SortIsStable(clusters, Size);
    clusters := SortDesc(clusters, Size);
  }
}
