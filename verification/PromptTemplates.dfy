/** Prompt templates found in two layers: prompts that normalise to the same pattern, and clusters of the rest. Regex
  * normalisation (`norm`) and tokens (`tok`) are parameters. */
module PromptTemplates {
  import opened Permutations
  import opened PromptClusters
  import opened PromptGroups
  import opened StableSort
  import opened Traversal

  // ---- The two layers ----

  datatype PromptTemplate = PromptTemplate(
    pattern: string, frequency: nat, examples: seq<string>, slots: seq<string>, projects: seq<string>)

  /** A template with all the prompts it counts. */
  datatype Found = Found(pattern: string, prompts: seq<string>, slots: seq<string>)

  function Describe(f: Found): PromptTemplate {
    PromptTemplate(f.pattern, |f.prompts|, if |f.prompts| > 5 then f.prompts[..5] else f.prompts, f.slots, [])
  }

  // ---- Slots ----

  predicate Contains(s: string, part: string) {
    exists i :: 0 <= i <= |s| && part <= s[i..]
  }

  const PLACEHOLDERS := ["<FILE>", "<PATH>", "<URL>", "<UUID>", "<NUM>"]

  // Without the brackets.
  function Trimmed(placeholder: string): string {
    if |placeholder| < 2 then "" else placeholder[1..|placeholder| - 1]
  }

  /** The names of the placeholders, out of some, that a pattern contains. */
  function SlotsAmong(pattern: string, placeholders: seq<string>): seq<string> {
    if placeholders == [] then []
    else
      SlotsAmong(pattern, placeholders[..|placeholders| - 1])
      + if Contains(pattern, placeholders[|placeholders| - 1]) then [Trimmed(placeholders[|placeholders| - 1])] else []
  }

  function SlotsOf(pattern: string): seq<string> {
    SlotsAmong(pattern, PLACEHOLDERS)
  }

  function ClusterSlots(template: string): seq<string> {
    if Contains(template, WILDCARD()) then ["*"] else []
  }

  lemma {:induction false} InSlotsAmong(pattern: string, placeholders: seq<string>, name: string)
    requires forall p :: p in placeholders ==> p == "<" + Trimmed(p) + ">"
    ensures name in SlotsAmong(pattern, placeholders) <==>
      "<" + name + ">" in placeholders && Contains(pattern, "<" + name + ">")
  {
    hide Contains;
    if placeholders != [] {
      var n := |placeholders| - 1;
      InSlotsAmong(pattern, placeholders[..n], name);
      assert placeholders == placeholders[..n] + [placeholders[n]];
      assert ("<" + name + ">")[1..|name| + 1] == name;
    }
  }

  /** A slot template reports FILE, PATH, URL, UUID and NUM, each exactly if its pattern contains the placeholder, and
    * nothing else. */
  lemma SlotsAreNamed(pattern: string, name: string)
    ensures name in SlotsOf(pattern) <==>
      name in {"FILE", "PATH", "URL", "UUID", "NUM"} && Contains(pattern, "<" + name + ">")
  {
    hide Contains, SlotsAmong;
    forall p | p in PLACEHOLDERS ensures p == "<" + Trimmed(p) + ">" {
      PlaceholderNames();
    }
    InSlotsAmong(pattern, PLACEHOLDERS, name);
    PlaceholderNames();
    assert ("<" + name + ">")[1..|name| + 1] == name;
  }

  /** And in this order, each once. */
  lemma SlotsInOrder(pattern: string)
    ensures SlotsOf(pattern) ==
      (if Contains(pattern, "<FILE>") then ["FILE"] else []) + (if Contains(pattern, "<PATH>") then ["PATH"] else [])
      + (if Contains(pattern, "<URL>") then ["URL"] else []) + (if Contains(pattern, "<UUID>") then ["UUID"] else [])
      + if Contains(pattern, "<NUM>") then ["NUM"] else []
  {
    hide Contains;
    var p := PLACEHOLDERS;
    assert p[..5] == p && p[..5][..4] == p[..4] && p[..4][..3] == p[..3] && p[..3][..2] == p[..2];
    assert p[..2][..1] == p[..1] && p[..1][..0] == [];
    assert Trimmed(p[0]) == "FILE" && Trimmed(p[1]) == "PATH" && Trimmed(p[2]) == "URL";
    assert Trimmed(p[3]) == "UUID" && Trimmed(p[4]) == "NUM";
    assert SlotsAmong(pattern, p[..1]) == if Contains(pattern, "<FILE>") then ["FILE"] else [];
    assert SlotsAmong(pattern, p[..2]) ==
      SlotsAmong(pattern, p[..1]) + if Contains(pattern, "<PATH>") then ["PATH"] else [];
    assert SlotsAmong(pattern, p[..3]) ==
      SlotsAmong(pattern, p[..2]) + if Contains(pattern, "<URL>") then ["URL"] else [];
    assert SlotsAmong(pattern, p[..4]) ==
      SlotsAmong(pattern, p[..3]) + if Contains(pattern, "<UUID>") then ["UUID"] else [];
  }

  lemma PlaceholderNames()
    ensures PLACEHOLDERS ==
      ["<" + "FILE" + ">", "<" + "PATH" + ">", "<" + "URL" + ">", "<" + "UUID" + ">", "<" + "NUM" + ">"]
    ensures forall p :: p in PLACEHOLDERS ==> p == "<" + Trimmed(p) + ">"
  {
    assert "<" + "FILE" + ">" == "<FILE>" && "<" + "PATH" + ">" == "<PATH>" && "<" + "URL" + ">" == "<URL>";
    assert "<" + "UUID" + ">" == "<UUID>" && "<" + "NUM" + ">" == "<NUM>";
  }

  // Text without a blank, found in front of a blank, ends there.
  lemma EndsBefore(s: string, n: nat, part: string, i: nat)
    requires i <= n < |s| && s[n] == ' ' && ' ' !in part && part <= s[i..]
    ensures i + |part| <= n
  {}

  // Text without a blank is in one of two strings if it is in their join.
  lemma ContainedInOne(s: string, t: string, part: string)
    requires ' ' !in part && part != ""
    ensures Contains(s + " " + t, part) <==> Contains(s, part) || Contains(t, part)
  {
    var joined := s + " " + t;
    if i: nat :| i <= |s| && part <= s[i..] {
      assert part <= joined[i..];
    }
    if i: nat :| i <= |t| && part <= t[i..] {
      assert joined[|s| + 1 + i..] == t[i..];
    }
    if i: nat :| i <= |joined| && part <= joined[i..] {
      if i > |s| {
        assert t[i - |s| - 1..] == joined[i..];
      } else {
        EndsBefore(joined, |s|, part, i);
        assert part == s[i..][..|part|];
      }
    }
  }

  lemma {:induction false} JoinContains(tokens: seq<string>, part: string)
    requires ' ' !in part && part != ""
    ensures Contains(Join(tokens), part) <==> exists j :: 0 <= j < |tokens| && Contains(tokens[j], part)
  {
    hide Contains;
    if tokens == [] {
      assert !Contains("", part) by { NotInNothing(part); }
    } else if |tokens| > 1 {
      var n := |tokens| - 1;
      JoinContains(tokens[..n], part);
      ContainedInOne(Join(tokens[..n]), tokens[n], part);
      if j :| 0 <= j < |tokens[..n]| && Contains(tokens[..n][j], part) {
        assert Contains(tokens[j], part);
      }
      if j :| 0 <= j < |tokens| && Contains(tokens[j], part) {
        assert j < n ==> Contains(tokens[..n][j], part);
      }
    } else if Contains(Join(tokens), part) {
      assert Contains(tokens[0], part);
    }
  }

  lemma NotInNothing(part: string)
    requires part != ""
    ensures !Contains("", part)
  {}

  lemma WildcardInWildcard()
    ensures Contains(WILDCARD(), WILDCARD()) && ' ' !in WILDCARD() && WILDCARD() != ""
  {
    assert WILDCARD() <= WILDCARD()[0..];
  }

  /** A cluster reports a slot exactly if its members differ somewhere or some token of the first one contains the
    * wildcard. */
  lemma StarMeansDisagreement(g: Group, tok: string -> seq<string>, n: nat)
    requires Generalises(g, tok, n)
    ensures ClusterSlots(Join(g.template)) == ["*"] <==>
      || (exists j :: 0 <= j < n && Contains(tok(g.members[0])[j], WILDCARD()))
      || (exists i, j :: 0 <= i < |g.members| && 0 <= j < n && tok(g.members[i])[j] != tok(g.members[0])[j])
  {
    hide Contains, WILDCARD;
    WildcardInWildcard();
    JoinContains(g.template, WILDCARD());
    if j :| 0 <= j < n && Contains(g.template[j], WILDCARD()) {
      assert AgreeAt(g.members, tok, n, j) ==> Contains(tok(g.members[0])[j], WILDCARD());
    }
    if j :| 0 <= j < n && Contains(tok(g.members[0])[j], WILDCARD()) {
      assert Contains(g.template[j], WILDCARD());
    }
    if i, j :| 0 <= i < |g.members| && 0 <= j < n && tok(g.members[i])[j] != tok(g.members[0])[j] {
      assert g.template[j] == WILDCARD();
    }
  }

  /** The same prompt twice, with a wildcard in it: a slot is reported although nothing differs. */
  lemma LiteralWildcard(p: string, tok: string -> seq<string>, j: nat)
    requires j < |tok(p)| && tok(p)[j] == WILDCARD()
    ensures var g := Group(tok(p), [p, p]);
      && Greedy([p, p], tok, |tok(p)|, 0.5) == [g]
      && g.template[j] == WILDCARD() && ClusterSlots(Join(g.template)) == ["*"]
  {
    hide Contains, WILDCARD;
    TwiceTheSame(p, tok, |tok(p)|, 0.5);
    WildcardInWildcard();
    JoinContains(tok(p), WILDCARD());
  }

  function Frequency(t: PromptTemplate): int {
    t.frequency
  }

  function Count(f: Found): int {
    |f.prompts|
  }

  function InFound(f: Found): seq<string> {
    f.prompts
  }

  function InCluster(c: Cluster): seq<string> {
    c.members
  }

  function TotalFrequency(templates: seq<PromptTemplate>): nat {
    if templates == [] then 0
    else TotalFrequency(templates[..|templates| - 1]) + templates[|templates| - 1].frequency
  }

  lemma {:induction false} TotalIsUnion(found: seq<Found>)
    ensures TotalFrequency(Map(found, Describe)) == |Union(found, InFound)|
  {
    if found != [] {
      assert Map(found, Describe)[..|found| - 1] == Map(found[..|found| - 1], Describe);
      TotalIsUnion(found[..|found| - 1]);
    }
  }

  /** The prompts that normalise to one pattern, in order. */
  function SlotGroup(prompts: seq<string>, norm: string -> string, pattern: string): seq<string> {
    if prompts == [] then []
    else
      var p := prompts[|prompts| - 1];
      SlotGroup(prompts[..|prompts| - 1], norm, pattern) + if norm(p) == pattern then [p] else []
  }

  function PatternIn(prompts: seq<string>, norm: string -> string, patterns: set<string>): seq<string> {
    if prompts == [] then []
    else
      var p := prompts[|prompts| - 1];
      PatternIn(prompts[..|prompts| - 1], norm, patterns) + if norm(p) in patterns then [p] else []
  }

  function Without(prompts: seq<string>, captured: set<string>): seq<string> {
    if prompts == [] then []
    else
      var p := prompts[|prompts| - 1];
      Without(prompts[..|prompts| - 1], captured) + if p in captured then [] else [p]
  }

  lemma {:induction false} OnePatternMore(
    prompts: seq<string>, norm: string -> string, patterns: set<string>, pattern: string)
    requires pattern !in patterns
    ensures multiset(PatternIn(prompts, norm, patterns + {pattern})) ==
      multiset(PatternIn(prompts, norm, patterns)) + multiset(SlotGroup(prompts, norm, pattern))
  {
    if prompts != [] {
      OnePatternMore(prompts[..|prompts| - 1], norm, patterns, pattern);
    }
  }

  lemma {:induction false} NoPatterns(prompts: seq<string>, norm: string -> string)
    ensures PatternIn(prompts, norm, {}) == []
  {
    if prompts != [] {
      NoPatterns(prompts[..|prompts| - 1], norm);
    }
  }

  lemma {:induction false} Split(
    prompts: seq<string>, norm: string -> string, patterns: set<string>, captured: set<string>)
    requires forall i :: 0 <= i < |prompts| ==> (prompts[i] in captured <==> norm(prompts[i]) in patterns)
    ensures multiset(PatternIn(prompts, norm, patterns)) + multiset(Without(prompts, captured)) == multiset(prompts)
  {
    if prompts != [] {
      Split(prompts[..|prompts| - 1], norm, patterns, captured);
      LastApart(prompts);
    }
  }

  lemma {:induction false} InSlotGroup(prompts: seq<string>, norm: string -> string, pattern: string, p: string)
    ensures p in SlotGroup(prompts, norm, pattern) <==> p in prompts && norm(p) == pattern
  {
    if prompts != [] {
      InSlotGroup(prompts[..|prompts| - 1], norm, pattern, p);
      assert p in prompts <==> p in prompts[..|prompts| - 1] || p == prompts[|prompts| - 1];
    }
  }

  ghost predicate Grouped(groups: map<string, seq<string>>, prompts: seq<string>, norm: string -> string) {
    && (forall k :: k in groups ==> groups[k] == SlotGroup(prompts, norm, k) != [])
    && (forall k :: k !in groups ==> SlotGroup(prompts, norm, k) == [])
  }

  lemma SlotGroupAppend(prompts: seq<string>, norm: string -> string, p: string, k: string)
    ensures SlotGroup(prompts + [p], norm, k) == SlotGroup(prompts, norm, k) + if norm(p) == k then [p] else []
  {
    assert (prompts + [p])[..|prompts|] == prompts;
  }

  lemma GroupedMore(groups: map<string, seq<string>>, prompts: seq<string>, norm: string -> string, p: string)
    requires Grouped(groups, prompts, norm)
    ensures Grouped(groups[norm(p) := (if norm(p) in groups then groups[norm(p)] else []) + [p]], prompts + [p], norm)
  {
    hide SlotGroup;
    var more := groups[norm(p) := (if norm(p) in groups then groups[norm(p)] else []) + [p]];
    forall k
      ensures k in more ==> more[k] == SlotGroup(prompts + [p], norm, k) != []
      ensures k !in more ==> SlotGroup(prompts + [p], norm, k) == []
    {
      SlotGroupAppend(prompts, norm, p, k);
    }
  }

  method SlotGroups(prompts: seq<string>, norm: string -> string) returns (groups: map<string, seq<string>>)
    ensures forall k :: k in groups ==> groups[k] == SlotGroup(prompts, norm, k) != []
    ensures forall k :: k !in groups ==> SlotGroup(prompts, norm, k) == []
  {
    groups := map[];
    for i := 0 to |prompts|
      invariant Grouped(groups, prompts[..i], norm)
    {
      hide Grouped, SlotGroup;
      GroupedMore(groups, prompts[..i], norm, prompts[i]);
      assert prompts[..i + 1] == prompts[..i] + [prompts[i]];
      var normalized := norm(prompts[i]);
      var examples := if normalized in groups then groups[normalized] else [];
      groups := groups[normalized := examples + [prompts[i]]];
    }
    assert prompts[..|prompts|] == prompts;
  }

  ghost predicate Frequent(found: seq<Found>, minFrequency: nat) {
    forall f :: f in found ==> |f.prompts| >= minFrequency
  }

  // The slot templates among some patterns, and nothing else.
  ghost predicate FromSlots(found: seq<Found>, prompts: seq<string>, norm: string -> string, patterns: set<string>) {
    forall f :: f in found <==>
      f.pattern in patterns && f.prompts == SlotGroup(prompts, norm, f.pattern) && f.slots == SlotsOf(f.pattern)
  }

  // The patterns of the large slot groups.
  function Large(groups: map<string, seq<string>>, minFrequency: nat, among: set<string>): set<string> {
    set k | k in among && k in groups && |groups[k]| >= minFrequency
  }

  /** The first layer has found the slot templates of some patterns. */
  ghost predicate SlotsFound(
    templates: seq<PromptTemplate>, found: seq<Found>, prompts: seq<string>, norm: string -> string,
    patterns: set<string>, minFrequency: nat)
  {
    && templates == Map(found, Describe) && Frequent(found, minFrequency)
    && FromSlots(found, prompts, norm, patterns)
    && Union(found, InFound) == multiset(PatternIn(prompts, norm, patterns))
  }

  lemma NoSlots(prompts: seq<string>, norm: string -> string, minFrequency: nat)
    ensures SlotsFound([], [], prompts, norm, {}, minFrequency)
  {
    NoPatterns(prompts, norm);
  }

  lemma {:induction false} OneSlotMore(
    templates: seq<PromptTemplate>, found: seq<Found>, prompts: seq<string>, norm: string -> string,
    patterns: set<string>, minFrequency: nat, pattern: string)
    requires SlotsFound(templates, found, prompts, norm, patterns, minFrequency) && pattern !in patterns
    requires |SlotGroup(prompts, norm, pattern)| >= minFrequency
    ensures var f := Found(pattern, SlotGroup(prompts, norm, pattern), SlotsOf(pattern));
      SlotsFound(templates + [Describe(f)], found + [f], prompts, norm, patterns + {pattern}, minFrequency)
  {
    hide SlotGroup, PatternIn, Union;
    var f := Found(pattern, SlotGroup(prompts, norm, pattern), SlotsOf(pattern));
    OnePatternMore(prompts, norm, patterns, pattern);
    UnionAppend(found, f, InFound);
  }

  /** The first layer, its patterns visited in any order. */
  method SlotTemplates(
    prompts: seq<string>, norm: string -> string, groups: map<string, seq<string>>, minFrequency: nat)
    returns (templates: seq<PromptTemplate>, ghost found: seq<Found>)
    requires forall k :: k in groups ==> groups[k] == SlotGroup(prompts, norm, k)
    ensures SlotsFound(templates, found, prompts, norm, Large(groups, minFrequency, groups.Keys), minFrequency)
  {
    hide SlotsFound, SlotGroup, Describe, Large, Map;
    templates, found := [], [];
    NoneLarge(groups, minFrequency);
    NoSlots(prompts, norm, minFrequency);
    var rest := groups.Keys;
    ghost var done: set<string> := {};
    while rest != {}
      invariant Visiting(rest, done, groups.Keys)
      invariant SlotsFound(templates, found, prompts, norm, Large(groups, minFrequency, done), minFrequency)
      decreases rest
    {
      hide Visiting;
      var pattern :| pattern in rest;
      VisitOne(rest, done, groups.Keys, pattern);
      LargeMore(groups, minFrequency, done, pattern);
      if |groups[pattern]| >= minFrequency {
        OneSlotMore(templates, found, prompts, norm, Large(groups, minFrequency, done), minFrequency, pattern);
        var f := Found(pattern, groups[pattern], SlotsOf(pattern));
        templates := templates + [Describe(f)];
        found := found + [f];
      }
      rest, done := rest - {pattern}, done + {pattern};
    }
    assert done == groups.Keys;
  }

  lemma NoneLarge(groups: map<string, seq<string>>, minFrequency: nat)
    ensures Large(groups, minFrequency, {}) == {}
  {}

  lemma LargeMore(groups: map<string, seq<string>>, minFrequency: nat, done: set<string>, k: string)
    requires k in groups && k !in done
    ensures k !in Large(groups, minFrequency, done)
    ensures Large(groups, minFrequency, done + {k}) ==
      if |groups[k]| >= minFrequency then Large(groups, minFrequency, done) + {k} else Large(groups, minFrequency, done)
  {}

  /** The clusters that are large enough, as templates. */
  function ClusterTemplates(clusters: seq<Cluster>, minFrequency: nat): seq<Found> {
    if clusters == [] then []
    else
      var c := clusters[|clusters| - 1];
      ClusterTemplates(clusters[..|clusters| - 1], minFrequency)
      + if |c.members| >= minFrequency then [Found(c.template, c.members, ClusterSlots(c.template))] else []
  }

  lemma {:induction false} InClusterTemplates(clusters: seq<Cluster>, minFrequency: nat, f: Found)
    ensures f in ClusterTemplates(clusters, minFrequency) <==>
      Cluster(f.pattern, f.prompts) in clusters && |f.prompts| >= minFrequency && f.slots == ClusterSlots(f.pattern)
  {
    if clusters != [] {
      var n := |clusters| - 1;
      InClusterTemplates(clusters[..n], minFrequency, f);
      assert clusters == clusters[..n] + [clusters[n]];
    }
  }

  lemma Grow<T>(a: multiset<T>, b: multiset<T>, c: multiset<T>)
    requires a <= b
    ensures a <= b + c && a + c <= b + c
  {}

  lemma {:induction false} SomeOfClusters(clusters: seq<Cluster>, minFrequency: nat)
    ensures Union(ClusterTemplates(clusters, minFrequency), InFound) <= Union(clusters, InCluster)
  {
    hide Union;
    if clusters == [] {
      NoUnion(InCluster);
      NoUnion(InFound);
    } else {
      var prefix, c := clusters[..|clusters| - 1], clusters[|clusters| - 1];
      SomeOfClusters(prefix, minFrequency);
      assert prefix + [c] == clusters;
      UnionAppend(prefix, c, InCluster);
      var f := Found(c.template, c.members, ClusterSlots(c.template));
      UnionAppend(ClusterTemplates(prefix, minFrequency), f, InFound);
      assert ClusterTemplates(prefix, minFrequency) + [] == ClusterTemplates(prefix, minFrequency);
      Grow(Union(ClusterTemplates(prefix, minFrequency), InFound), Union(prefix, InCluster), multiset(c.members));
    }
  }

  lemma {:induction false} SomeOfGroups(groups: seq<Group>)
    ensures Union(Kept(groups), InCluster) <= Union(groups, InGroup)
  {
    hide Union;
    if groups == [] {
      NoUnion(InGroup);
      NoUnion(InCluster);
    } else {
      var prefix, g := groups[..|groups| - 1], groups[|groups| - 1];
      SomeOfGroups(prefix);
      assert prefix + [g] == groups;
      UnionAppend(prefix, g, InGroup);
      UnionAppend(Kept(prefix), Cluster(Join(g.template), g.members), InCluster);
      assert Kept(prefix) + [] == Kept(prefix);
      Grow(Union(Kept(prefix), InCluster), Union(prefix, InGroup), multiset(g.members));
    }
  }

  lemma {:induction false} SomeEligible(prompts: seq<string>, tok: string -> seq<string>, bound: nat)
    ensures multiset(EligibleBelow(prompts, tok, bound)) <= multiset(prompts)
  {
    if prompts != [] {
      SomeEligible(prompts[..|prompts| - 1], tok, bound);
      LastApart(prompts);
    }
  }

  /** No prompt is in two clusters. */
  lemma ClustersAreDisjoint(
    clusters: seq<Cluster>, prompts: seq<string>, tok: string -> seq<string>, threshold: real, minFrequency: nat)
    requires multiset(clusters) == multiset(Kept(AllGroups(prompts, tok, threshold)))
    ensures Union(ClusterTemplates(clusters, minFrequency), InFound) <= multiset(prompts)
  {
    hide Union, Kept, AllGroups, EligibleBelow, ClusterTemplates;
    SomeOfClusters(clusters, minFrequency);
    UnionOfPermutation(clusters, Kept(AllGroups(prompts, tok, threshold)), InCluster);
    SomeOfGroups(AllGroups(prompts, tok, threshold));
    DrainPartitions(prompts, tok, threshold);
    SomeEligible(prompts, tok, 41);
  }

  // A prompt whose slot group is too small.
  predicate Uncommon(prompts: seq<string>, norm: string -> string, minFrequency: nat, p: string) {
    |SlotGroup(prompts, norm, norm(p))| < minFrequency
  }

  /** What the first layer leaves to the second. */
  function Uncaptured(prompts: seq<string>, some: seq<string>, norm: string -> string, minFrequency: nat): seq<string> {
    if some == [] then []
    else
      var p := some[|some| - 1];
      Uncaptured(prompts, some[..|some| - 1], norm, minFrequency)
      + if Uncommon(prompts, norm, minFrequency, p) then [p] else []
  }

  lemma {:induction false} WithoutIsUncaptured(
    prompts: seq<string>, some: seq<string>, norm: string -> string, minFrequency: nat, captured: set<string>)
    requires forall i :: 0 <= i < |some| ==> (some[i] in captured <==> !Uncommon(prompts, norm, minFrequency, some[i]))
    ensures Without(some, captured) == Uncaptured(prompts, some, norm, minFrequency)
  {
    if some != [] {
      WithoutIsUncaptured(prompts, some[..|some| - 1], norm, minFrequency, captured);
    }
  }

  lemma {:induction false} Captured(
    prompts: seq<string>, norm: string -> string, groups: map<string, seq<string>>, minFrequency: nat,
    captured: set<string>, i: nat)
    requires forall k :: k in groups ==> groups[k] == SlotGroup(prompts, norm, k)
    requires forall k :: k !in groups ==> SlotGroup(prompts, norm, k) == []
    requires captured == set k, p | k in groups && |groups[k]| >= minFrequency && p in groups[k] :: p
    requires i < |prompts|
    ensures prompts[i] in captured <==> !Uncommon(prompts, norm, minFrequency, prompts[i])
    ensures prompts[i] in captured <==> norm(prompts[i]) in Large(groups, minFrequency, groups.Keys)
  {
    hide SlotGroup;
    var p := prompts[i];
    InSlotGroup(prompts, norm, norm(p), p);
    assert norm(p) in groups;
    if p in captured {
      var k :| k in groups && |groups[k]| >= minFrequency && p in groups[k];
      InSlotGroup(prompts, norm, k, p);
    }
  }

  /** A slot template counts exactly the prompts that normalise to its pattern, and names the placeholders in it. */
  ghost predicate IsSlot(f: Found, prompts: seq<string>, norm: string -> string) {
    f.prompts != [] && f.prompts == SlotGroup(prompts, norm, f.pattern) && f.slots == SlotsOf(f.pattern)
  }

  ghost predicate IsCluster(
    f: Found, prompts: seq<string>, norm: string -> string, tok: string -> seq<string>, minFrequency: nat)
  {
    && Cluster(f.pattern, f.prompts) in Kept(AllGroups(Uncaptured(prompts, prompts, norm, minFrequency), tok, 0.5))
    && f.slots == ClusterSlots(f.pattern)
  }

  /** Every template found is a large enough slot group or a large enough cluster of the rest, all of these are found,
    * and no prompt is counted twice. */
  ghost predicate Accounted(
    found: seq<Found>, prompts: seq<string>, norm: string -> string, tok: string -> seq<string>, minFrequency: nat)
  {
    && (forall f :: f in found <==>
          && |f.prompts| >= minFrequency
          && (IsSlot(f, prompts, norm) || IsCluster(f, prompts, norm, tok, minFrequency)))
    && Union(found, InFound) <= multiset(prompts)
  }

  lemma SlotIsFound(
    slots: seq<Found>, prompts: seq<string>, norm: string -> string, groups: map<string, seq<string>>,
    minFrequency: nat, f: Found)
    requires forall k :: k in groups ==> groups[k] == SlotGroup(prompts, norm, k) != []
    requires forall k :: k !in groups ==> SlotGroup(prompts, norm, k) == []
    requires FromSlots(slots, prompts, norm, Large(groups, minFrequency, groups.Keys))
    ensures f in slots <==> |f.prompts| >= minFrequency && IsSlot(f, prompts, norm)
  {
    hide SlotGroup;
  }

  lemma {:induction false} AllAccounted(
    slots: seq<Found>, clusters: seq<Cluster>, prompts: seq<string>, norm: string -> string,
    tok: string -> seq<string>, groups: map<string, seq<string>>, minFrequency: nat, captured: set<string>)
    requires forall k :: k in groups ==> groups[k] == SlotGroup(prompts, norm, k) != []
    requires forall k :: k !in groups ==> SlotGroup(prompts, norm, k) == []
    requires captured == set k, p | k in groups && |groups[k]| >= minFrequency && p in groups[k] :: p
    requires FromSlots(slots, prompts, norm, Large(groups, minFrequency, groups.Keys))
    requires Union(slots, InFound) == multiset(PatternIn(prompts, norm, Large(groups, minFrequency, groups.Keys)))
    requires multiset(clusters) == multiset(Kept(AllGroups(Without(prompts, captured), tok, 0.5)))
    ensures Accounted(slots + ClusterTemplates(clusters, minFrequency), prompts, norm, tok, minFrequency)
  {
    hide SlotGroup, Union, Without, Uncaptured, Kept, AllGroups, ClusterTemplates, Uncommon, FromSlots, IsSlot, Large,
      PatternIn;
    var more := ClusterTemplates(clusters, minFrequency);
    forall i: nat | i < |prompts| {
      Captured(prompts, norm, groups, minFrequency, captured, i);
    }
    Split(prompts, norm, Large(groups, minFrequency, groups.Keys), captured);
    WithoutIsUncaptured(prompts, prompts, norm, minFrequency, captured);
    ClustersAreDisjoint(clusters, Without(prompts, captured), tok, 0.5, minFrequency);
    UnionConcat(slots, more, InFound);
    forall f ensures f in slots + more <==>
      |f.prompts| >= minFrequency && (IsSlot(f, prompts, norm) || IsCluster(f, prompts, norm, tok, minFrequency))
    {
      SlotIsFound(slots, prompts, norm, groups, minFrequency, f);
      InClusterTemplates(clusters, minFrequency, f);
      SameMembers(clusters, Kept(AllGroups(Without(prompts, captured), tok, 0.5)), Cluster(f.pattern, f.prompts));
    }
  }

  lemma AccountedPermutes(
    xs: seq<Found>, ys: seq<Found>, prompts: seq<string>, norm: string -> string, tok: string -> seq<string>,
    minFrequency: nat)
    requires Accounted(xs, prompts, norm, tok, minFrequency) && multiset(xs) == multiset(ys)
    ensures Accounted(ys, prompts, norm, tok, minFrequency)
  {
    hide Union, IsSlot, IsCluster;
    UnionOfPermutation(xs, ys, InFound);
    forall f ensures f in xs <==> f in ys {
      SameMembers(xs, ys, f);
    }
  }

  lemma MapConcat<S, T>(xs: seq<S>, ys: seq<S>, f: S -> T)
    ensures Map(xs + ys, f) == Map(xs, f) + Map(ys, f)
  {}

  method ClusterLayer(clusters: seq<Cluster>, minFrequency: nat)
    returns (templates: seq<PromptTemplate>, ghost found: seq<Found>)
    ensures found == ClusterTemplates(clusters, minFrequency) && templates == Map(found, Describe)
  {
    templates, found := [], [];
    for c := 0 to |clusters|
      invariant found == ClusterTemplates(clusters[..c], minFrequency) && templates == Map(found, Describe)
    {
      assert clusters[..c + 1][..c] == clusters[..c];
      if |clusters[c].members| >= minFrequency {
        var f := Found(clusters[c].template, clusters[c].members, ClusterSlots(clusters[c].template));
        templates := templates + [Describe(f)];
        found := found + [f];
      }
    }
    assert clusters[..|clusters|] == clusters;
  }

  /** What the sorted templates promise. */
  lemma Totals(
    templates: seq<PromptTemplate>, found: seq<Found>, prompts: seq<string>, norm: string -> string,
    tok: string -> seq<string>, minFrequency: nat)
    requires Accounted(found, prompts, norm, tok, minFrequency) && templates == Map(found, Describe)
    ensures TotalFrequency(templates) <= |prompts|
    ensures forall t :: t in templates ==> t.frequency >= minFrequency
  {
    hide Union, TotalFrequency, IsSlot, IsCluster;
    TotalIsUnion(found);
    assert multiset(prompts) == Union(found, InFound) + (multiset(prompts) - Union(found, InFound));
    forall t | t in templates ensures t.frequency >= minFrequency {
      var i :| 0 <= i < |templates| && templates[i] == t;
      assert t == Describe(found[i]) && found[i] in found;
    }
  }

  /** The templates are the slot groups and the clusters of the rest that are large enough, most frequent first. No
    * prompt is counted twice. */
  method DetectTemplates(
    prompts: seq<string>, minFrequency: nat, norm: string -> string, tok: string -> seq<string>)
    returns (templates: seq<PromptTemplate>, ghost found: seq<Found>)
    ensures templates == Map(found, Describe)
    ensures forall i, j :: 0 <= i < j < |templates| ==> templates[i].frequency >= templates[j].frequency
    ensures |templates| == |found|
    ensures forall i :: 0 <= i < |templates| ==>
      var t, f := templates[i], found[i];
      && t.pattern == f.pattern && t.frequency == |f.prompts| && t.slots == f.slots && t.projects == []
      && t.examples == if |f.prompts| > 5 then f.prompts[..5] else f.prompts
    ensures Accounted(found, prompts, norm, tok, minFrequency)
    ensures TotalFrequency(templates) <= |prompts|
    ensures forall t :: t in templates ==> t.frequency >= minFrequency
  {
    hide FromSlots, SlotGroup, Describe, Large, Union, Without, Kept, AllGroups, NonIncreasing, SortDesc,
      TotalFrequency, ClusterTemplates, Map, Accounted, PatternIn;
    var groups := SlotGroups(prompts, norm);
    templates, found := SlotTemplates(prompts, norm, groups, minFrequency);
    var captured := set k, p | k in groups && |groups[k]| >= minFrequency && p in groups[k] :: p;
    var uncaptured := Without(prompts, captured);
    var clusters := DrainCluster(uncaptured, 0.5, tok);
    var more;
    ghost var rest;
    more, rest := ClusterLayer(clusters, minFrequency);
    AllAccounted(found, clusters, prompts, norm, tok, groups, minFrequency, captured);
    MapConcat(found, rest, Describe);
    templates, found := templates + more, found + rest;

    SortIsStable(templates, Frequency);
    SortIsStable(found, Count);
    CountIsFrequency();
    SortCommutes(found, Describe, Frequency, Count);
    AccountedPermutes(found, SortDesc(found, Count), prompts, norm, tok, minFrequency);
    templates, found := SortDesc(templates, Frequency), SortDesc(found, Count);
    Totals(templates, found, prompts, norm, tok, minFrequency);
    Described(found, templates);
    InFrequencyOrder(templates);
  }

  lemma Described(found: seq<Found>, templates: seq<PromptTemplate>)
    requires templates == Map(found, Describe)
    ensures |templates| == |found|
    ensures forall i :: 0 <= i < |templates| ==>
      var t, f := templates[i], found[i];
      && t.pattern == f.pattern && t.frequency == |f.prompts| && t.slots == f.slots && t.projects == []
      && t.examples == if |f.prompts| > 5 then f.prompts[..5] else f.prompts
  {
    assert forall i :: 0 <= i < |templates| ==> templates[i] == Describe(found[i]);
  }

  lemma InFrequencyOrder(templates: seq<PromptTemplate>)
    requires NonIncreasing(templates, Frequency)
    ensures forall i, j :: 0 <= i < j < |templates| ==> templates[i].frequency >= templates[j].frequency
  {
    assert forall t :: Frequency(t) == t.frequency;
  }

  lemma CountIsFrequency()
    ensures forall f :: Count(f) == Frequency(Describe(f))
  {}
}
