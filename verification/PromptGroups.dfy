/** Prompts of one length grouped by token-wise similarity, each group with a template. Tokens (`tok`: split at white
  * space, in lower case) are a parameter. */
module PromptGroups {
  import opened Permutations

  function WILDCARD(): string {
    "<*>"
  }

  predicate Eligible(n: int) {
    2 <= n <= 40
  }

  /** The prompts of n tokens, in order. */
  function OfLength(prompts: seq<string>, tok: string -> seq<string>, n: nat): seq<string> {
    if prompts == [] then []
    else
      var p := prompts[|prompts| - 1];
      OfLength(prompts[..|prompts| - 1], tok, n) + if |tok(p)| == n then [p] else []
  }

  // How many positions agree.
  function Matching(a: seq<string>, b: seq<string>): nat
    requires |a| == |b|
  {
    if a == [] then 0
    else Matching(a[..|a| - 1], b[..|b| - 1]) + if a[|a| - 1] == b[|b| - 1] then 1 else 0
  }

  predicate Similar(tokens: seq<string>, template: seq<string>, threshold: real)
    requires |tokens| == |template| > 0
  {
    Matching(tokens, template) as real / |tokens| as real > threshold
  }

  /** The positions at which two sequences agree. */
  function Agreeing(a: seq<string>, b: seq<string>): set<nat>
    requires |a| == |b|
  {
    set j: nat | j < |a| && a[j] == b[j]
  }

  lemma {:induction false} MatchingIsCount(a: seq<string>, b: seq<string>)
    requires |a| == |b|
    ensures Matching(a, b) == |Agreeing(a, b)|
  {
    if a == [] {
      assert Agreeing(a, b) == {};
    } else {
      var n := |a| - 1;
      MatchingIsCount(a[..n], b[..n]);
      assert Agreeing(a, b) == if a[n] == b[n] then Agreeing(a[..n], b[..n]) + {n} else Agreeing(a[..n], b[..n]);
    }
  }

  /** Tokens are similar to a template if they agree with it at more than the given part of the positions. */
  lemma SimilarIs(tokens: seq<string>, template: seq<string>, threshold: real)
    requires |tokens| == |template| > 0
    ensures Similar(tokens, template, threshold) <==>
      |Agreeing(tokens, template)| as real > threshold * |tokens| as real
  {
    MatchingIsCount(tokens, template);
    Quotient(|Agreeing(tokens, template)| as real, |tokens| as real, threshold);
  }

  lemma Quotient(m: real, n: real, threshold: real)
    requires n > 0.0
    ensures m / n > threshold <==> m > threshold * n
  {
    var q := m / n;
    assert m == q * n;
    if q > threshold {
      assert (q - threshold) * n > 0.0;
    } else {
      assert (threshold - q) * n >= 0.0;
    }
  }

  function Widen(template: seq<string>, tokens: seq<string>): seq<string>
    requires |template| == |tokens|
  {
    seq(|template|, j requires 0 <= j < |template| =>
      if tokens[j] != template[j] && template[j] != WILDCARD() then WILDCARD() else template[j])
  }

  datatype Group = Group(template: seq<string>, members: seq<string>)

  predicate Uniform(groups: seq<Group>, n: nat) {
    forall g :: g in groups ==> |g.template| == n
  }

  /** The first group similar to some tokens, or the number of groups if none is. */
  function FirstSimilar(groups: seq<Group>, tokens: seq<string>, threshold: real): (i: nat)
    requires |tokens| > 0 && Uniform(groups, |tokens|)
    ensures i <= |groups|
    ensures i < |groups| ==> Similar(tokens, groups[i].template, threshold)
    ensures forall k :: 0 <= k < i ==> !Similar(tokens, groups[k].template, threshold)
  {
    if groups == [] then 0
    else if Similar(tokens, groups[0].template, threshold) then 0
    else
      assert forall k :: 0 < k < |groups| ==> groups[1..][k - 1] == groups[k];
      1 + FirstSimilar(groups[1..], tokens, threshold)
  }

  /** It agrees with the tokens at more than the given part of the positions, and none before it does. */
  lemma FirstAgrees(groups: seq<Group>, tokens: seq<string>, threshold: real)
    requires |tokens| > 0 && Uniform(groups, |tokens|)
    ensures var i, enough := FirstSimilar(groups, tokens, threshold), threshold * |tokens| as real;
      && i <= |groups|
      && (i < |groups| ==> |Agreeing(tokens, groups[i].template)| as real > enough)
      && forall k :: 0 <= k < i ==> |Agreeing(tokens, groups[k].template)| as real <= enough
  {
    hide Similar, Agreeing;
    forall k | 0 <= k < |groups| {
      SimilarIs(tokens, groups[k].template, threshold);
    }
  }

  function Place(groups: seq<Group>, p: string, tokens: seq<string>, threshold: real): seq<Group>
    requires |tokens| > 0 && Uniform(groups, |tokens|)
  {
    var i := FirstSimilar(groups, tokens, threshold);
    if i == |groups| then groups + [Group(tokens, [p])]
    else groups[i := Group(Widen(groups[i].template, tokens), groups[i].members + [p])]
  }

  predicate AllOfLength(prompts: seq<string>, tok: string -> seq<string>, n: nat) {
    forall i :: 0 <= i < |prompts| ==> |tok(prompts[i])| == n
  }

  /** The groups of some prompts of n tokens each, placed one after the other. */
  function Greedy(prompts: seq<string>, tok: string -> seq<string>, n: nat, threshold: real): (r: seq<Group>)
    requires n > 0 && AllOfLength(prompts, tok, n)
    ensures Uniform(r, n)
  {
    if prompts == [] then []
    else
      var p := prompts[|prompts| - 1];
      Place(Greedy(prompts[..|prompts| - 1], tok, n, threshold), p, tok(p), threshold)
  }

  // ---- Templates are least general generalisations ----

  /** A pattern covers tokens that differ from it only at wildcards. */
  predicate Covers(pattern: seq<string>, tokens: seq<string>) {
    |pattern| == |tokens| && forall j :: 0 <= j < |pattern| ==> pattern[j] == WILDCARD() || pattern[j] == tokens[j]
  }

  predicate AgreeAt(members: seq<string>, tok: string -> seq<string>, n: nat, j: nat)
    requires j < n && AllOfLength(members, tok, n)
  {
    forall i :: 0 <= i < |members| ==> tok(members[i])[j] == tok(members[0])[j]
  }

  /** The common token where all members agree, a wildcard elsewhere. */
  ghost predicate Generalises(g: Group, tok: string -> seq<string>, n: nat) {
    && g.members != [] && |g.template| == n
    && AllOfLength(g.members, tok, n)
    && (forall j :: 0 <= j < n ==>
          g.template[j] == if AgreeAt(g.members, tok, n, j) then tok(g.members[0])[j] else WILDCARD())
  }

  lemma AgreeMore(members: seq<string>, p: string, tok: string -> seq<string>, n: nat, j: nat)
    requires members != [] && j < n && |tok(p)| == n
    requires AllOfLength(members, tok, n)
    ensures AgreeAt(members + [p], tok, n, j) <==> AgreeAt(members, tok, n, j) && tok(p)[j] == tok(members[0])[j]
  {
    var more := members + [p];
    assert more[|members|] == p;
    if AgreeAt(more, tok, n, j) {
      forall i | 0 <= i < |members| ensures tok(members[i])[j] == tok(members[0])[j] {
        assert more[i] == members[i];
      }
    }
  }

  lemma WidenGeneralises(g: Group, p: string, tok: string -> seq<string>, n: nat)
    requires Generalises(g, tok, n) && |tok(p)| == n
    ensures Generalises(Group(Widen(g.template, tok(p)), g.members + [p]), tok, n)
  {
    var more := g.members + [p];
    forall j: nat | j < n
      ensures Widen(g.template, tok(p))[j] == if AgreeAt(more, tok, n, j) then tok(more[0])[j] else WILDCARD()
    {
      AgreeMore(g.members, p, tok, n, j);
    }
  }

  lemma NewGeneralises(p: string, tok: string -> seq<string>, n: nat)
    requires |tok(p)| == n
    ensures Generalises(Group(tok(p), [p]), tok, n)
  {}

  /** Every group's template is the generalisation of its members, whatever the threshold, and even if a prompt
    * contains the wildcard. */
  lemma {:induction false} GroupsGeneralise(prompts: seq<string>, tok: string -> seq<string>, n: nat, threshold: real)
    requires n > 0 && AllOfLength(prompts, tok, n)
    ensures forall g :: g in Greedy(prompts, tok, n, threshold) ==> Generalises(g, tok, n)
  {
    if prompts != [] {
      hide Generalises;
      var p := prompts[|prompts| - 1];
      var groups := Greedy(prompts[..|prompts| - 1], tok, n, threshold);
      GroupsGeneralise(prompts[..|prompts| - 1], tok, n, threshold);
      NewGeneralises(p, tok, n);
      var i := FirstSimilar(groups, tok(p), threshold);
      if i < |groups| {
        WidenGeneralises(groups[i], p, tok, n);
      }
    }
  }

  /** The template covers every member, and is the most specific pattern that does: any other has a wildcard or the
    * same token at each position. */
  lemma LeastGeneral(g: Group, tok: string -> seq<string>, n: nat, pattern: seq<string>)
    requires Generalises(g, tok, n)
    ensures forall i :: 0 <= i < |g.members| ==> Covers(g.template, tok(g.members[i]))
    ensures (forall i :: 0 <= i < |g.members| ==> Covers(pattern, tok(g.members[i]))) ==> Covers(pattern, g.template)
  {
    if forall i :: 0 <= i < |g.members| ==> Covers(pattern, tok(g.members[i])) {
      assert Covers(pattern, tok(g.members[0]));
      forall j: nat | j < n ensures pattern[j] == WILDCARD() || pattern[j] == g.template[j] {
        if !AgreeAt(g.members, tok, n, j) {
          var i: nat :| i < |g.members| && tok(g.members[i])[j] != tok(g.members[0])[j];
          assert Covers(pattern, tok(g.members[i]));
        }
      }
    }
  }

  /** The template has a wildcard exactly where members differ or the first one has it itself. */
  lemma WildcardMeansDisagreement(g: Group, tok: string -> seq<string>, n: nat, j: nat)
    requires Generalises(g, tok, n) && j < n
    ensures g.template[j] == WILDCARD() <==>
      || tok(g.members[0])[j] == WILDCARD()
      || exists i :: 0 <= i < |g.members| && tok(g.members[i])[j] != tok(g.members[0])[j]
  {}

  lemma {:induction false} AllMatch(tokens: seq<string>)
    ensures Matching(tokens, tokens) == |tokens|
  {
    if tokens != [] {
      AllMatch(tokens[..|tokens| - 1]);
    }
  }

  lemma Whole(n: nat)
    requires n > 0
    ensures n as real / n as real == 1.0
  {}

  lemma SimilarToItself(tokens: seq<string>, threshold: real)
    requires |tokens| > 0 && threshold < 1.0
    ensures Similar(tokens, tokens, threshold)
  {
    AllMatch(tokens);
    Whole(|tokens|);
  }

  lemma FirstIsSimilar(g: Group, tokens: seq<string>, threshold: real)
    requires |g.template| == |tokens| > 0 && Similar(tokens, g.template, threshold)
    ensures FirstSimilar([g], tokens, threshold) == 0
  {
    hide Similar;
  }

  /** The same prompt twice makes one group with its tokens as the template, wildcards included. */
  lemma {:induction false} TwiceTheSame(p: string, tok: string -> seq<string>, n: nat, threshold: real)
    requires |tok(p)| == n > 0 && threshold < 1.0
    ensures Greedy([p, p], tok, n, threshold) == [Group(tok(p), [p, p])]
  {
    var g := Group(tok(p), [p]);
    hide Similar;
    assert [p, p][..1] == [p] && [p][..0] == [];
    assert Greedy([p], tok, n, threshold) == Place([], p, tok(p), threshold) == [g];
    SimilarToItself(tok(p), threshold);
    FirstIsSimilar(g, tok(p), threshold);
    assert Widen(tok(p), tok(p)) == tok(p);
    assert [p] + [p] == [p, p];
  }

  // ---- Groups are a partition ----

  /** All the prompts of some things that hold prompts. */
  function Union<T>(xs: seq<T>, held: T -> seq<string>): multiset<string> {
    if xs == [] then multiset{} else Union(xs[..|xs| - 1], held) + multiset(held(xs[|xs| - 1]))
  }

  lemma UnionAppend<T>(xs: seq<T>, x: T, held: T -> seq<string>)
    ensures Union(xs + [x], held) == Union(xs, held) + multiset(held(x))
  {
    assert (xs + [x])[..|xs|] == xs;
  }

  lemma {:induction false} UnionConcat<T>(xs: seq<T>, ys: seq<T>, held: T -> seq<string>)
    ensures Union(xs + ys, held) == Union(xs, held) + Union(ys, held)
  {
    if ys == [] {
      assert xs + ys == xs;
    } else {
      var n := |ys| - 1;
      assert (xs + ys)[..|xs| + n] == xs + ys[..n];
      UnionConcat(xs, ys[..n], held);
    }
  }

  // Taking one out.
  lemma UnionWithout<T>(xs: seq<T>, i: nat, held: T -> seq<string>)
    requires i < |xs|
    ensures Union(xs, held) == Union(xs[..i] + xs[i + 1..], held) + multiset(held(xs[i]))
  {
    hide Union;
    var before, after := xs[..i], xs[i + 1..];
    assert xs == before + [xs[i]] + after;
    UnionConcat(before + [xs[i]], after, held);
    UnionConcat(before, after, held);
    UnionAppend(before, xs[i], held);
  }

  lemma {:induction false} UnionOfPermutation<T>(xs: seq<T>, ys: seq<T>, held: T -> seq<string>)
    requires multiset(xs) == multiset(ys)
    ensures Union(xs, held) == Union(ys, held)
  {
    if xs == [] {
      assert |multiset(ys)| == 0;
    } else {
      var n := |xs| - 1;
      var i := Counterpart(xs, ys);
      UnionOfPermutation(xs[..n], ys[..i] + ys[i + 1..], held);
      UnionWithout(ys, i, held);
    }
  }

  function InGroup(g: Group): seq<string> {
    g.members
  }

  lemma UnionUpdate(groups: seq<Group>, i: nat, g: Group, p: string)
    requires i < |groups| && g.members == groups[i].members + [p]
    ensures Union(groups[i := g], InGroup) == Union(groups, InGroup) + multiset{p}
  {
    UnionWithout(groups, i, InGroup);
    UnionWithout(groups[i := g], i, InGroup);
    assert groups[i := g][..i] + groups[i := g][i + 1..] == groups[..i] + groups[i + 1..];
  }

  lemma PlaceKeepsAll(groups: seq<Group>, p: string, tokens: seq<string>, threshold: real)
    requires |tokens| > 0 && Uniform(groups, |tokens|)
    ensures Union(Place(groups, p, tokens, threshold), InGroup) == Union(groups, InGroup) + multiset{p}
  {
    hide Union, Widen, Similar;
    var i := FirstSimilar(groups, tokens, threshold);
    if i < |groups| {
      UnionUpdate(groups, i, Group(Widen(groups[i].template, tokens), groups[i].members + [p]), p);
    } else {
      UnionAppend(groups, Group(tokens, [p]), InGroup);
    }
  }

  /** Placing prompts loses and duplicates none. */
  lemma {:induction false} GroupsPartition(prompts: seq<string>, tok: string -> seq<string>, n: nat, threshold: real)
    requires n > 0 && AllOfLength(prompts, tok, n)
    ensures Union(Greedy(prompts, tok, n, threshold), InGroup) == multiset(prompts)
  {
    if prompts != [] {
      hide Place, Union;
      var prefix, p := prompts[..|prompts| - 1], prompts[|prompts| - 1];
      GroupsPartition(prefix, tok, n, threshold);
      PlaceKeepsAll(Greedy(prefix, tok, n, threshold), p, tok(p), threshold);
      LastApart(prompts);
    }
  }

  // ---- The grouping loops ----

  /** Overwrite the tokens that differ with wildcards, in place. */
  method WidenInPlace(template: seq<string>, tokens: seq<string>) returns (widened: seq<string>)
    requires |template| == |tokens|
    ensures widened == Widen(template, tokens)
  {
    widened := template;
    for j := 0 to |tokens|
      invariant |widened| == |template|
      invariant forall k :: 0 <= k < |template| ==>
        widened[k] == if k < j then Widen(template, tokens)[k] else template[k]
    {
      if tokens[j] != widened[j] && widened[j] != WILDCARD() {
        widened := widened[j := WILDCARD()];
      }
    }
  }

  method GroupPrompts(items: seq<string>, tok: string -> seq<string>, n: nat, threshold: real)
    returns (groups: seq<Group>)
    requires n > 0 && AllOfLength(items, tok, n)
    ensures groups == Greedy(items, tok, n, threshold)
  {
    hide Similar, Widen;
    groups := [];
    for i := 0 to |items|
      invariant groups == Greedy(items[..i], tok, n, threshold)
    {
      var original, tokens := items[i], tok(items[i]);
      assert items[..i + 1][..i] == items[..i];
      ghost var before := groups;
      var matched, c := false, 0;
      while c < |groups| && !matched
        invariant c <= |groups|
        invariant matched ==> groups == Place(before, original, tokens, threshold)
        invariant !matched ==> groups == before && c <= FirstSimilar(before, tokens, threshold)
        decreases |groups| - c, !matched
      {
        if Similar(tokens, groups[c].template, threshold) {
          var widened := WidenInPlace(groups[c].template, tokens);
          groups := groups[c := Group(widened, groups[c].members + [original])];
          matched := true;
        } else {
          c := c + 1;
        }
      }
      if !matched {
        groups := groups + [Group(tokens, [original])];
      }
    }
    assert items[..|items|] == items;
  }
}
