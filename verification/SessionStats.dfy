/** The statistics of one session, computed in two passes; the second visits the messages in any order. */
module SessionStats {
  import opened Options
  import opened LexOrder
  import opened SessionSums
  import opened Traversal

  // ---- The statistics ----

  datatype Tally = Tally(
    input: nat, output: nat, cacheRead: nat, cacheCreation: nat, cache5m: nat, cache1h: nat)
  {
    function Get(f: Field): nat {
      match f
      case Input => input
      case Output => output
      case CacheRead => cacheRead
      case CacheCreation => cacheCreation
      case Cache5m => cache5m
      case Cache1h => cache1h
    }
  }

  function ZeroTally(): Tally {
    Tally(0, 0, 0, 0, 0, 0)
  }

  datatype Stats = Stats(
    tokens: Tally, turns: nat, thinkingBlocks: nat, toolCalls: nat,
    filesRead: nat, filesEdited: nat, bashRuns: nat, agentSpawns: nat,
    perModel: map<string, Tally>, invocations: map<string, nat>)
  {
    function OfKind(k: ToolKind): nat {
      match k
      case FilesRead => filesRead
      case FilesEdited => filesEdited
      case BashRuns => bashRuns
      case AgentSpawns => agentSpawns
    }

    predicate Reads(m: Measure) {
      !m.ModellessTokens? && !m.ModelUses? && !m.Messages? && !m.Nothing?
    }

    /** What the statistics say about a measure. */
    function Reading(m: Measure): nat
      requires Reads(m)
    {
      match m
      case Tokens(f) => tokens.Get(f)
      case ModelTokens(model, f) => if model in perModel then perModel[model].Get(f) else 0
      case Turns => turns
      case ThinkingBlocks => thinkingBlocks
      case ToolCalls => toolCalls
      case OfKind(k) => OfKind(k)
      case Invocations(name) => if name in invocations then invocations[name] else 0
    }
  }

  function NoStats(): Stats {
    Stats(ZeroTally(), 0, 0, 0, 0, 0, 0, 0, map[], map[])
  }

  /** What the second pass promises for the entries of some keys. */
  ghost predicate Counts(st: Stats, sum: Measure -> nat) {
    && (forall m :: st.Reads(m) ==> st.Reading(m) == sum(m))
    && (forall model :: model in st.perModel <==> sum(ModelUses(model)) > 0)
    && (forall name :: name in st.invocations ==> st.invocations[name] > 0)
  }

  /** The statistics are determined by what they promise: the order of the second pass cannot show. */
  lemma CountsDetermine(a: Stats, b: Stats, sum: Measure -> nat)
    requires Counts(a, sum) && Counts(b, sum)
    ensures a == b
  {
    SameTallies(a.tokens, b.tokens) by {
      forall f ensures a.tokens.Get(f) == b.tokens.Get(f) {
        assert a.Reading(Tokens(f)) == b.Reading(Tokens(f));
      }
    }
    assert a.Reading(Turns) == b.Reading(Turns) && a.Reading(ThinkingBlocks) == b.Reading(ThinkingBlocks);
    assert a.Reading(ToolCalls) == b.Reading(ToolCalls);
    forall k ensures a.OfKind(k) == b.OfKind(k) {
      assert a.Reading(OfKind(k)) == b.Reading(OfKind(k));
    }
    assert a.OfKind(FilesRead) == b.OfKind(FilesRead) && a.OfKind(FilesEdited) == b.OfKind(FilesEdited);
    assert a.OfKind(BashRuns) == b.OfKind(BashRuns) && a.OfKind(AgentSpawns) == b.OfKind(AgentSpawns);
    forall model ensures model in a.perModel <==> model in b.perModel {
    }
    forall model | model in a.perModel ensures a.perModel[model] == b.perModel[model] {
      SameTallies(a.perModel[model], b.perModel[model]) by {
        forall f ensures a.perModel[model].Get(f) == b.perModel[model].Get(f) {
          assert a.Reading(ModelTokens(model, f)) == b.Reading(ModelTokens(model, f));
        }
      }
    }
    assert a.perModel == b.perModel;
    SameInvocations(a, b, sum);
  }

  lemma SameInvocations(a: Stats, b: Stats, sum: Measure -> nat)
    requires Counts(a, sum) && Counts(b, sum)
    ensures a.invocations == b.invocations
  {
    forall name
      ensures name in a.invocations <==> name in b.invocations
      ensures name in a.invocations ==> a.invocations[name] == b.invocations[name]
    {
      assert a.Reading(Invocations(name)) == b.Reading(Invocations(name));
    }
  }

  lemma SameTallies(a: Tally, b: Tally)
    requires forall f :: a.Get(f) == b.Get(f)
    ensures a == b
  {
    assert a.Get(Input) == b.Get(Input) && a.Get(Output) == b.Get(Output);
    assert a.Get(CacheRead) == b.Get(CacheRead) && a.Get(CacheCreation) == b.Get(CacheCreation);
    assert a.Get(Cache5m) == b.Get(Cache5m) && a.Get(Cache1h) == b.Get(Cache1h);
  }

  // ---- The second pass ----

  method AddUsage(t: Tally, u: Usage) returns (r: Tally)
    ensures forall f :: r.Get(f) == t.Get(f) + UsageOf(u, f)
  {
    r := t;
    r := r.(input := r.input + u.input);
    r := r.(output := r.output + u.output);
    r := r.(cacheRead := r.cacheRead + u.cacheRead);
    r := r.(cacheCreation := r.cacheCreation + u.cacheCreation);
    if u.split.Some? {
      r := r.(cache5m := r.cache5m + u.split.value.fiveMinutes);
      r := r.(cache1h := r.cache1h + u.split.value.oneHour);
    }
  }

  // Everything but the tools of a message.
  method AddMessage(st: Stats, snap: Snapshot) returns (r: Stats)
    ensures forall m :: st.Reads(m) && !m.ToolCalls? && !m.OfKind? && !m.Invocations? ==>
      r.Reading(m) == st.Reading(m) + Value(snap, m)
    ensures r.invocations == st.invocations && r.toolCalls == st.toolCalls
    ensures forall k :: r.OfKind(k) == st.OfKind(k)
    ensures forall model :: model in r.perModel <==> model in st.perModel || Value(snap, ModelUses(model)) > 0
  {
    r := st;
    if snap.model.Some? {
      r := r.(turns := r.turns + 1);
    }
    if snap.usage.Some? {
      var tokens := AddUsage(r.tokens, snap.usage.value);
      r := r.(tokens := tokens);
      if snap.model.Some? {
        var model := snap.model.value;
        var entry := AddUsage(if model in r.perModel then r.perModel[model] else ZeroTally(), snap.usage.value);
        r := r.(perModel := r.perModel[model := entry]);
      }
    }
    r := r.(thinkingBlocks := r.thinkingBlocks + snap.thinking);
  }

  method AddTool(st: Stats, name: string) returns (r: Stats)
    ensures forall m :: st.Reads(m) && !m.ToolCalls? && !m.OfKind? && !m.Invocations? ==> r.Reading(m) == st.Reading(m)
    ensures r.toolCalls == st.toolCalls + 1 && r.perModel == st.perModel
    ensures forall k :: r.OfKind(k) == st.OfKind(k) + if HasKind(name, k) then 1 else 0
    ensures forall n :: r.Reading(Invocations(n)) == st.Reading(Invocations(n)) + if n == name then 1 else 0
    ensures (forall n :: n in st.invocations ==> st.invocations[n] > 0) ==>
      forall n :: n in r.invocations ==> r.invocations[n] > 0
  {
    hide HasKind;
    r := st.(toolCalls := st.toolCalls + 1);
    r := r.(invocations := r.invocations[name := 1 + if name in r.invocations then r.invocations[name] else 0]);
    r := AddKind(r, name);
  }

  method AddKind(st: Stats, name: string) returns (r: Stats)
    ensures r == st.(
      filesRead := r.filesRead, filesEdited := r.filesEdited, bashRuns := r.bashRuns, agentSpawns := r.agentSpawns)
    ensures forall k :: r.OfKind(k) == st.OfKind(k) + if HasKind(name, k) then 1 else 0
  {
    r := st;
    var base := Base(name);
    if base == "Read" || base == "NotebookRead" {
      r := r.(filesRead := r.filesRead + 1);
    } else if base == "Edit" || base == "Write" || base == "NotebookEdit" {
      r := r.(filesEdited := r.filesEdited + 1);
    } else if base == "Bash" {
      r := r.(bashRuns := r.bashRuns + 1);
    } else if base == "Agent" || base == "Task" {
      r := r.(agentSpawns := r.agentSpawns + 1);
    }
  }

  // The names that come first, counted.
  function ToolValue(names: seq<string>, m: Measure): nat {
    match m
    case ToolCalls => |names|
    case OfKind(k) => CountKind(names, k)
    case Invocations(name) => CountName(names, name)
    case _ => 0
  }

  method AddSnapshot(st: Stats, snap: Snapshot) returns (r: Stats)
    requires forall n :: n in st.invocations ==> st.invocations[n] > 0
    ensures forall m :: st.Reads(m) ==> r.Reading(m) == st.Reading(m) + Value(snap, m)
    ensures forall model :: model in r.perModel <==> model in st.perModel || Value(snap, ModelUses(model)) > 0
    ensures forall n :: n in r.invocations ==> r.invocations[n] > 0
  {
    hide HasKind, TokensOf;
    r := AddMessage(st, snap);
    ghost var start := r;
    var names := snap.toolNames;
    for i := 0 to |names|
      invariant r.perModel == start.perModel
      invariant forall n :: n in r.invocations ==> r.invocations[n] > 0
      invariant forall m :: st.Reads(m) ==> r.Reading(m) == start.Reading(m) + ToolValue(names[..i], m)
    {
      ghost var before := r;
      assert names[..i + 1][..i] == names[..i];
      r := AddTool(r, names[i]);
      forall m | st.Reads(m) ensures r.Reading(m) == start.Reading(m) + ToolValue(names[..i + 1], m) {
        assert before.Reading(m) == start.Reading(m) + ToolValue(names[..i], m);
        if m.OfKind? {
          assert r.OfKind(m.kind) == before.OfKind(m.kind) + if HasKind(names[i], m.kind) then 1 else 0;
        }
      }
    }
    assert names[..|names|] == names;
    forall m | st.Reads(m) ensures r.Reading(m) == st.Reading(m) + Value(snap, m) {
      if m.OfKind? {
        assert start.OfKind(m.kind) == st.OfKind(m.kind);
      }
    }
  }

  /** The messages by key, as the first pass leaves them. */
  ghost predicate Remembers(msgs: map<string, Snapshot>, entries: seq<Entry>) {
    forall key ::
      && (key in msgs <==> HasKey(entries, key))
      && (key in msgs ==> msgs[key] == LastOf(entries, key))
  }

  function SumsIn(entries: seq<Entry>, keys: set<string>): Measure -> nat {
    m => SumIn(entries, keys, m)
  }

  function Sums(entries: seq<Entry>): Measure -> nat {
    m => SumLast(entries, m)
  }

  lemma CountsNone(entries: seq<Entry>)
    ensures Counts(NoStats(), SumsIn(entries, {}))
  {
    forall m {
      SumInNone(entries, m);
    }
  }

  lemma CountsMore(st: Stats, r: Stats, entries: seq<Entry>, keys: set<string>, key: string)
    requires Counts(st, SumsIn(entries, keys)) && key !in keys && HasKey(entries, key)
    requires forall m :: st.Reads(m) ==> r.Reading(m) == st.Reading(m) + Value(LastOf(entries, key), m)
    requires forall model :: model in r.perModel <==>
      model in st.perModel || Value(LastOf(entries, key), ModelUses(model)) > 0
    requires forall n :: n in r.invocations ==> r.invocations[n] > 0
    ensures Counts(r, SumsIn(entries, keys + {key}))
  {
    hide Value, Stats.Reading;
    forall m {
      SumInMore(entries, keys, key, m);
    }
  }

  lemma CountsAll(st: Stats, entries: seq<Entry>, msgs: map<string, Snapshot>)
    requires Counts(st, SumsIn(entries, msgs.Keys)) && Remembers(msgs, entries)
    ensures Counts(st, Sums(entries))
  {
    hide Stats.Reading;
    forall m {
      SumInAll(entries, msgs.Keys, m);
    }
  }

  lemma RememberedAt(msgs: map<string, Snapshot>, entries: seq<Entry>, key: string)
    requires Remembers(msgs, entries)
    ensures key in msgs <==> HasKey(entries, key)
    ensures key in msgs ==> msgs[key] == LastOf(entries, key)
  {}

  // The last snapshot of one key more.
  method AddLast(st: Stats, snap: Snapshot, ghost entries: seq<Entry>, ghost done: set<string>, ghost key: string)
    returns (r: Stats)
    requires Counts(st, SumsIn(entries, done)) && key !in done
    requires HasKey(entries, key) && snap == LastOf(entries, key)
    ensures Counts(r, SumsIn(entries, done + {key}))
  {
    hide Counts, Value, Stats.Reading, HasKey, LastOf;
    Positive(st, SumsIn(entries, done));
    r := AddSnapshot(st, snap);
    CountsMore(st, r, entries, done, key);
  }

  /** The second pass, over the messages in any order. */
  method Aggregate(msgs: map<string, Snapshot>, ghost entries: seq<Entry>) returns (st: Stats)
    requires Remembers(msgs, entries)
    ensures Counts(st, Sums(entries))
  {
    hide Counts, Value, Stats.Reading, Remembers, HasKey, LastOf;
    st := NoStats();
    CountsNone(entries);
    var rest := msgs.Keys;
    ghost var done: set<string> := {};
    while rest != {}
      invariant Visiting(rest, done, msgs.Keys)
      invariant Counts(st, SumsIn(entries, done))
      decreases rest
    {
      var key :| key in rest;
      hide Visiting;
      VisitOne(rest, done, msgs.Keys, key);
      RememberedAt(msgs, entries, key);
      st := AddLast(st, msgs[key], entries, done, key);
      rest, done := rest - {key}, done + {key};
    }
    assert done == msgs.Keys;
    CountsAll(st, entries, msgs);
  }

  lemma Positive(st: Stats, sum: Measure -> nat)
    requires Counts(st, sum)
    ensures forall n :: n in st.invocations ==> st.invocations[n] > 0
  {}

  // ---- The first pass ----

  function ModelCount(lines: seq<Line>, model: string): nat {
    if lines == [] then 0
    else
      var l := lines[|lines| - 1];
      ModelCount(lines[..|lines| - 1], model)
      + if l.IsAssistant() && l.message.value.model == Some(model) then 1 else 0
  }

  function BlockEdits(blocks: seq<Block>, file: string): nat {
    if blocks == [] then 0
    else
      var b := blocks[|blocks| - 1];
      BlockEdits(blocks[..|blocks| - 1], file)
      + if b.ToolUse? && (b.name == Some("Edit") || b.name == Some("Write")) && b.filePath == Some(file) then 1 else 0
  }

  function EditCount(lines: seq<Line>, file: string): nat {
    if lines == [] then 0
    else
      var l := lines[|lines| - 1];
      EditCount(lines[..|lines| - 1], file) + if l.IsAssistant() then BlockEdits(l.message.value.blocks, file) else 0
  }

  function Lookup(m: map<string, nat>, k: string): nat {
    if k in m then m[k] else 0
  }

  method ReadBlocks(blocks: seq<Block>, edits: map<string, nat>)
    returns (toolNames: seq<string>, thinking: nat, after: map<string, nat>)
    requires forall f :: f in edits ==> edits[f] > 0
    ensures toolNames == ToolNames(blocks) && thinking == ThinkingCount(blocks)
    ensures forall f :: Lookup(after, f) == Lookup(edits, f) + BlockEdits(blocks, f)
    ensures forall f :: f in after ==> after[f] > 0
  {
    toolNames, thinking, after := [], 0, edits;
    for i := 0 to |blocks|
      invariant toolNames == ToolNames(blocks[..i]) && thinking == ThinkingCount(blocks[..i])
      invariant forall f :: Lookup(after, f) == Lookup(edits, f) + BlockEdits(blocks[..i], f)
      invariant forall f :: f in after ==> after[f] > 0
    {
      assert blocks[..i + 1][..i] == blocks[..i];
      match blocks[i] {
        case ToolUse(name, skill, subagent, filePath) =>
          if name.Some? {
            toolNames := toolNames + [InvocationKey(name.value, skill, subagent)];
            if (name.value == "Edit" || name.value == "Write") && filePath.Some? {
              after := after[filePath.value := Lookup(after, filePath.value) + 1];
            }
          }
        case Thinking => thinking := thinking + 1;
        case OtherBlock =>
      }
    }
    assert blocks[..|blocks|] == blocks;
  }

  method Collect(lines: seq<Line>)
    returns (msgs: map<string, Snapshot>, modelCounts: map<string, nat>, edits: map<string, nat>)
    ensures Remembers(msgs, Entries(lines, 0))
    ensures forall model :: Lookup(modelCounts, model) == ModelCount(lines, model)
    ensures forall model :: model in modelCounts ==> modelCounts[model] > 0
    ensures forall f :: Lookup(edits, f) == EditCount(lines, f)
    ensures forall f :: f in edits ==> edits[f] > 0
  {
    hide SnapshotOf, Remembers, Entries, AnonCount, AnonKey, BlockEdits, ToolNames, ThinkingCount;
    msgs, modelCounts, edits := map[], map[], map[];
    var anonCounter := 0;
    RemembersNothing();
    for i := 0 to |lines|
      invariant anonCounter == AnonCount(lines[..i])
      invariant Remembers(msgs, Entries(lines[..i], 0))
      invariant forall model :: Lookup(modelCounts, model) == ModelCount(lines[..i], model)
      invariant forall model :: model in modelCounts ==> modelCounts[model] > 0
      invariant forall f :: Lookup(edits, f) == EditCount(lines[..i], f)
      invariant forall f :: f in edits ==> edits[f] > 0
    {
      assert lines[..i + 1][..i] == lines[..i];
      assert lines[..i + 1] == lines[..i] + [lines[i]];
      LineRemembered(msgs, lines[..i], lines[i]);
      if lines[i].IsAssistant() {
        var m := lines[i].message.value;
        var key;
        if m.id.Some? {
          key := m.id.value;
        } else {
          anonCounter := anonCounter + 1;
          key := AnonKey(anonCounter);
        }
        var toolNames, thinking, after := ReadBlocks(m.blocks, edits);
        edits := after;
        if m.model.Some? {
          modelCounts := modelCounts[m.model.value := Lookup(modelCounts, m.model.value) + 1];
        }
        IsSnapshotOf(m, toolNames, thinking);
        msgs := msgs[key := Snapshot(m.model, m.usage, toolNames, thinking)];
      }
    }
    assert lines[..|lines|] == lines;
  }

  lemma RemembersNothing()
    ensures Remembers(map[], Entries([], 0)) && AnonCount([]) == 0
  {}

  lemma IsSnapshotOf(m: Message, toolNames: seq<string>, thinking: nat)
    requires toolNames == ToolNames(m.blocks) && thinking == ThinkingCount(m.blocks)
    ensures Snapshot(m.model, m.usage, toolNames, thinking) == SnapshotOf(m)
  {}

  lemma RemembersMore(msgs: map<string, Snapshot>, entries: seq<Entry>, key: string, snap: Snapshot)
    requires Remembers(msgs, entries)
    ensures Remembers(msgs[key := snap], entries + [Entry(key, snap)])
  {
    forall k {
      LastOfAppend(entries, Entry(key, snap), k);
    }
  }

  lemma LineRemembered(msgs: map<string, Snapshot>, lines: seq<Line>, l: Line)
    requires Remembers(msgs, Entries(lines, 0))
    ensures AnonCount(lines + [l]) ==
      AnonCount(lines) + if l.IsAssistant() && l.message.value.id == None then 1 else 0
    ensures !l.IsAssistant() ==> Remembers(msgs, Entries(lines + [l], 0))
    ensures l.IsAssistant() ==>
      Remembers(
        msgs[l.message.value.id.GetOr(AnonKey(AnonCount(lines) + 1)) := SnapshotOf(l.message.value)],
        Entries(lines + [l], 0))
  {
    hide Remembers, AnonKey, SnapshotOf;
    var entries, anon := Entries(lines, 0), AnonCount(lines);
    EntriesAppend(lines, 0, l);
    if l.IsAssistant() {
      var e := Entry(l.message.value.id.GetOr(AnonKey(anon + 1)), SnapshotOf(l.message.value));
      assert Entries([l], anon) == [e];
      RemembersMore(msgs, entries, e.key, e.snapshot);
    } else {
      assert entries + [] == entries;
    }
  }

  // ---- The most frequent model ----

  predicate Beats(a: string, ac: nat, b: string, bc: nat) {
    ac > bc || (ac == bc && Below(a, b))
  }

  /** The model of most lines, the first in order if several have as many. */
  ghost predicate IsPrimary(lines: seq<Line>, p: Option<string>) {
    match p
    case None => forall k :: ModelCount(lines, k) == 0
    case Some(m) =>
      && ModelCount(lines, m) > 0
      && forall k :: k == m || Beats(m, ModelCount(lines, m), k, ModelCount(lines, k))
  }

  lemma PrimaryIsUnique(lines: seq<Line>, p: Option<string>, q: Option<string>)
    requires IsPrimary(lines, p) && IsPrimary(lines, q)
    ensures p == q
  {
    if p.Some? && q.Some? && p != q {
      assert Beats(p.value, ModelCount(lines, p.value), q.value, ModelCount(lines, q.value));
      assert Beats(q.value, ModelCount(lines, q.value), p.value, ModelCount(lines, p.value));
      Asymmetric(p.value, q.value);
    }
  }

  /** The maximum over the models, visited in any order. */
  method PrimaryModel(counts: map<string, nat>) returns (best: Option<string>)
    ensures best == None <==> counts == map[]
    ensures best.Some? ==> best.value in counts
    ensures best.Some? ==>
      forall k :: k in counts && k != best.value ==> Beats(best.value, counts[best.value], k, counts[k])
  {
    best := None;
    var rest := counts.Keys;
    while rest != {}
      invariant rest <= counts.Keys
      invariant best == None <==> rest == counts.Keys
      invariant best.Some? ==> best.value in counts && best.value !in rest
      invariant best.Some? ==>
        forall k :: k in counts && k !in rest && k != best.value ==> Beats(best.value, counts[best.value], k, counts[k])
      decreases rest
    {
      var model :| model in rest;
      rest := rest - {model};
      if best == None || !Beats(best.value, counts[best.value], model, counts[model]) {
        if best.Some? {
          forall k | k in counts && k !in rest && k != model
            ensures Beats(model, counts[model], k, counts[k])
          {
            Overtaken(best.value, counts[best.value], model, counts[model], k, counts[k]);
          }
        }
        best := Some(model);
      }
    }
    assert counts.Keys == {} <==> counts == map[];
  }

  lemma Overtaken(best: string, bc: nat, model: string, mc: nat, k: string, kc: nat)
    requires !Beats(best, bc, model, mc) && best != model && (k == best ==> kc == bc)
    requires k == best || Beats(best, bc, k, kc)
    ensures Beats(model, mc, k, kc)
  {
    Total(best, model);
    if k != best && Below(model, best) && Below(best, k) {
      Transitive(model, best, k);
    }
  }

  // ---- Files edited more than once ----

  function Files(blocks: seq<Block>): set<string> {
    set b | b in blocks && b.ToolUse? && b.filePath.Some? :: b.filePath.value
  }

  function FilesOf(lines: seq<Line>): set<string> {
    if lines == [] then {}
    else
      var l := lines[|lines| - 1];
      FilesOf(lines[..|lines| - 1]) + if l.IsAssistant() then Files(l.message.value.blocks) else {}
  }

  lemma {:induction false} EditedInBlocks(blocks: seq<Block>, file: string)
    requires BlockEdits(blocks, file) > 0
    ensures file in Files(blocks)
  {
    var b := blocks[|blocks| - 1];
    if BlockEdits(blocks[..|blocks| - 1], file) > 0 {
      EditedInBlocks(blocks[..|blocks| - 1], file);
    } else {
      assert b in blocks;
    }
  }

  lemma {:induction false} EditedIsFile(lines: seq<Line>, file: string)
    requires EditCount(lines, file) > 0
    ensures file in FilesOf(lines)
  {
    hide Files, BlockEdits;
    var l := lines[|lines| - 1];
    if EditCount(lines[..|lines| - 1], file) > 0 {
      EditedIsFile(lines[..|lines| - 1], file);
    } else {
      EditedInBlocks(l.message.value.blocks, file);
    }
  }

  function Reedited(lines: seq<Line>): set<string> {
    set f | f in FilesOf(lines) && EditCount(lines, f) >= 2
  }

  // ---- The whole computation ----

  datatype Report = Report(stats: Stats, primaryModel: Option<string>, reeditedFiles: nat)

  ghost predicate IsReport(lines: seq<Line>, r: Report) {
    && Counts(r.stats, Sums(Entries(lines, 0)))
    && IsPrimary(lines, r.primaryModel)
    && r.reeditedFiles == |Reedited(lines)|
  }

  method ComputeStats(lines: seq<Line>) returns (r: Report)
    ensures IsReport(lines, r)
  {
    hide Counts, Remembers, Sums, Beats, FilesOf, EditCount, ModelCount;
    var msgs, modelCounts, edits := Collect(lines);
    var stats := Aggregate(msgs, Entries(lines, 0));
    var primary := PrimaryModel(modelCounts);
    PrimaryOfCounts(lines, modelCounts, primary);
    var reedited := set f | f in edits && edits[f] >= 2;
    forall f ensures f in reedited <==> f in Reedited(lines) {
      assert Lookup(edits, f) == EditCount(lines, f);
      if EditCount(lines, f) > 0 {
        EditedIsFile(lines, f);
      }
    }
    assert reedited == Reedited(lines);
    r := Report(stats, primary, |reedited|);
  }

  lemma PrimaryOfCounts(lines: seq<Line>, counts: map<string, nat>, best: Option<string>)
    requires forall model :: Lookup(counts, model) == ModelCount(lines, model)
    requires forall model :: model in counts ==> counts[model] > 0
    requires best == None <==> counts == map[]
    requires best.Some? ==> best.value in counts
    requires best.Some? ==>
      forall k :: k in counts && k != best.value ==> Beats(best.value, counts[best.value], k, counts[k])
    ensures IsPrimary(lines, best)
  {
    hide ModelCount;
    forall k ensures ModelCount(lines, k) == Lookup(counts, k) {}
  }

  /** Neither map's order can show in the report. */
  lemma ReportIsUnique(lines: seq<Line>, a: Report, b: Report)
    requires IsReport(lines, a) && IsReport(lines, b)
    ensures a == b
  {
    hide Counts, Sums, IsPrimary;
    CountsDetermine(a.stats, b.stats, Sums(Entries(lines, 0)));
    PrimaryIsUnique(lines, a.primaryModel, b.primaryModel);
  }

  // ---- Duplicates ----

  lemma SameSums(a: Stats, b: Stats, xs: seq<Entry>, ys: seq<Entry>)
    requires Counts(a, Sums(xs)) && Counts(b, Sums(ys)) && forall m :: SumLast(xs, m) == SumLast(ys, m)
    ensures a == b
  {
    assert Counts(b, Sums(xs)) by {
      hide Stats.Reading;
    }
    CountsDetermine(a, b, Sums(xs));
  }

  /** Deleting the lines that have a later version changes no count of messages, tools or tokens. */
  lemma SupersededDoNotCount(lines: seq<Line>, r: Report, compact: Report)
    requires IsReport(lines, r) && IsReport(Compact(lines), compact)
    ensures r.stats == compact.stats
  {
    hide Counts, Sums, IsPrimary;
    forall m {
      CompactKeepsSums(lines, 0, m);
    }
    SameSums(r.stats, compact.stats, Entries(lines, 0), Entries(Compact(lines), 0));
  }

  /** Nor does appending the last line of a message again. */
  lemma {:induction false} RepeatsDoNotCount(lines: seq<Line>, i: nat, r: Report, longer: Report)
    requires i < |lines| && lines[i].IsAssistant() && lines[i].message.value.id.Some?
    requires forall j :: i < j < |lines| && lines[j].IsAssistant() ==> KeyAt(lines, 0, j) != KeyAt(lines, 0, i)
    requires IsReport(lines, r) && IsReport(lines + [lines[i]], longer)
    ensures r.stats == longer.stats
  {
    hide Counts, Sums, IsPrimary, KeyAt;
    forall m {
      RepeatKeepsSums(lines, i, m);
    }
    SameSums(r.stats, longer.stats, Entries(lines, 0), Entries(lines + [lines[i]], 0));
  }

  // ---- Totals add up ----

  function SumOfModels(perModel: map<string, Tally>, models: seq<string>, f: Field): nat
    requires forall m :: m in models ==> m in perModel
  {
    if models == [] then 0
    else
      var m := models[|models| - 1];
      SumOfModels(perModel, models[..|models| - 1], f) + perModel[m].Get(f)
  }

  function SumOfInvocations(invocations: map<string, nat>, names: seq<string>): nat
    requires forall n :: n in names ==> n in invocations
  {
    if names == [] then 0
    else SumOfInvocations(invocations, names[..|names| - 1]) + invocations[names[|names| - 1]]
  }

  lemma {:induction false} ModelsArePart(st: Stats, entries: seq<Entry>, models: seq<string>, f: Field)
    requires Counts(st, Sums(entries)) && forall m :: m in models ==> m in st.perModel
    ensures SumOfModels(st.perModel, models, f) == PartsSum(entries, models, ModelPart(f))
  {
    if models != [] {
      ModelsArePart(st, entries, models[..|models| - 1], f);
      assert st.Reading(ModelTokens(models[|models| - 1], f)) == SumLast(entries, ModelTokens(models[|models| - 1], f));
    }
  }

  lemma {:induction false} InvocationsArePart(st: Stats, entries: seq<Entry>, names: seq<string>)
    requires Counts(st, Sums(entries)) && forall n :: n in names ==> n in st.invocations
    ensures SumOfInvocations(st.invocations, names) == PartsSum(entries, names, ToolPart())
  {
    if names != [] {
      InvocationsArePart(st, entries, names[..|names| - 1]);
      assert st.Reading(Invocations(names[|names| - 1])) == SumLast(entries, Invocations(names[|names| - 1]));
    }
  }

  // The model of a last snapshot with usage has a tally, and its tools have counts.
  lemma LastIsTallied(st: Stats, entries: seq<Entry>, key: string)
    requires Counts(st, Sums(entries)) && HasKey(entries, key)
    ensures var s := LastOf(entries, key); s.model.Some? && s.usage.Some? ==> s.model.value in st.perModel
  {
    var s := LastOf(entries, key);
    if s.model.Some? && s.usage.Some? {
      SumAtLeast(entries, key, ModelUses(s.model.value));
    }
  }

  lemma {:induction false} Invoked(names: seq<string>, name: string)
    requires name in names
    ensures CountName(names, name) > 0
  {
    if names[|names| - 1] != name {
      Invoked(names[..|names| - 1], name);
    }
  }

  lemma ToolIsCounted(st: Stats, entries: seq<Entry>, key: string, name: string)
    requires Counts(st, Sums(entries)) && HasKey(entries, key) && name in LastOf(entries, key).toolNames
    ensures name in st.invocations
  {
    SumAtLeast(entries, key, Invocations(name));
    Invoked(LastOf(entries, key).toolNames, name);
    assert st.Reading(Invocations(name)) == SumLast(entries, Invocations(name));
  }

  /** A token total is the sum over the models plus the usage of messages without a model. */
  lemma TokensAddUp(lines: seq<Line>, r: Report, models: seq<string>, f: Field)
    requires IsReport(lines, r) && Lists(models, r.stats.perModel.Keys)
    ensures r.stats.tokens.Get(f) ==
      SumOfModels(r.stats.perModel, models, f) + SumLast(Entries(lines, 0), ModellessTokens(f))
  {
    hide Counts, IsPrimary, TokensOf;
    var st, entries := r.stats, Entries(lines, 0);
    ReadsTokens(st, entries, f);
    ModelsArePart(st, entries, models, f);
    forall key | HasKey(entries, key)
      ensures var s := LastOf(entries, key);
        Value(s, Tokens(f)) == PartsValue(s, models, ModelPart(f)) + Value(s, ModellessTokens(f))
    {
      LastIsTallied(st, entries, key);
      ModelParts(LastOf(entries, key), models, f);
      NoUsage(LastOf(entries, key), f);
    }
    SumSplits(entries, Tokens(f), ModelPart(f), ModellessTokens(f), models);
  }

  lemma NoUsage(s: Snapshot, f: Field)
    ensures s.usage == None ==> TokensOf(s, f) == 0
  {}

  lemma ReadsTokens(st: Stats, entries: seq<Entry>, f: Field)
    requires Counts(st, Sums(entries))
    ensures st.tokens.Get(f) == SumLast(entries, Tokens(f)) && st.toolCalls == SumLast(entries, ToolCalls)
  {
    assert st.Reading(Tokens(f)) == SumLast(entries, Tokens(f));
    assert st.Reading(ToolCalls) == SumLast(entries, ToolCalls);
  }

  /** The number of tool calls is the sum of the invocation counts. */
  lemma ToolCallsAddUp(lines: seq<Line>, r: Report, names: seq<string>)
    requires IsReport(lines, r) && Lists(names, r.stats.invocations.Keys)
    ensures r.stats.toolCalls == SumOfInvocations(r.stats.invocations, names)
  {
    hide Counts, IsPrimary;
    var st, entries := r.stats, Entries(lines, 0);
    ReadsTokens(st, entries, Input);
    InvocationsArePart(st, entries, names);
    forall key | HasKey(entries, key)
      ensures var s := LastOf(entries, key);
        Value(s, ToolCalls) == PartsValue(s, names, ToolPart()) + Value(s, Nothing)
    {
      var s := LastOf(entries, key);
      forall i | 0 <= i < |s.toolNames| ensures s.toolNames[i] in names {
        ToolIsCounted(st, entries, key, s.toolNames[i]);
      }
      ToolParts(s, names);
    }
    SumSplits(entries, ToolCalls, ToolPart(), Nothing, names);
    NothingSums(entries);
  }

  lemma {:induction false} NothingSums(entries: seq<Entry>)
    ensures SumLast(entries, Nothing) == 0
  {
    if entries != [] {
      NothingSums(entries[1..]);
    }
  }

  // ---- Duplicates do count for re-edited files ----

  // Edits on lines that have a later version.
  function SupersededEdits(lines: seq<Line>, file: string): nat {
    if lines == [] then 0
    else
      (if Superseded(lines) then BlockEdits(lines[0].message.value.blocks, file) else 0)
      + SupersededEdits(lines[1..], file)
  }

  lemma {:induction false} EditsOfFirst(lines: seq<Line>, file: string)
    requires lines != []
    ensures EditCount(lines, file) == EditCount([lines[0]], file) + EditCount(lines[1..], file)
  {
    if |lines| > 1 {
      var n := |lines| - 1;
      EditsOfFirst(lines[..n], file);
      assert lines[..n][1..] == lines[1..][..n - 1];
    } else {
      assert lines == [lines[0]];
    }
  }

  lemma {:induction false} EditsAreSplit(lines: seq<Line>, file: string)
    ensures EditCount(lines, file) == EditCount(Compact(lines), file) + SupersededEdits(lines, file)
  {
    hide BlockEdits;
    if lines != [] {
      EditsAreSplit(lines[1..], file);
      EditsOfFirst(lines, file);
      if !Superseded(lines) {
        EditsOfFirst(Compact(lines), file);
        assert Compact(lines)[1..] == Compact(lines[1..]);
      } else {
        assert [lines[0]][..0] == [];
      }
    }
  }

  /** A file edited once in the last versions counts as edited again because of earlier versions. */
  ghost predicate OnlyStreamedTwice(lines: seq<Line>, file: string) {
    EditCount(Compact(lines), file) < 2 <= EditCount(Compact(lines), file) + SupersededEdits(lines, file)
  }

  lemma InReedited(lines: seq<Line>, f: string)
    ensures f in Reedited(lines) <==> EditCount(lines, f) >= 2
  {
    hide EditCount, FilesOf;
    if EditCount(lines, f) > 0 {
      EditedIsFile(lines, f);
    }
  }

  /** The count of re-edited files is that of the last versions, unless some file was only streamed twice. */
  lemma ReeditedCountsStreaming(lines: seq<Line>, r: Report, compact: Report)
    requires IsReport(lines, r) && IsReport(Compact(lines), compact)
    ensures r.reeditedFiles >= compact.reeditedFiles
    ensures r.reeditedFiles == compact.reeditedFiles <==> !exists f :: OnlyStreamedTwice(lines, f)
  {
    hide Counts, IsPrimary, EditCount, Compact, Reedited;
    var all, last := Reedited(lines), Reedited(Compact(lines));
    forall f ensures f in all <==> f in last || OnlyStreamedTwice(lines, f) {
      InReedited(lines, f);
      InReedited(Compact(lines), f);
      EditsAreSplit(lines, f);
    }
    assert all == last + (all - last);
    assert |all| == |last| + |all - last|;
    if f :| OnlyStreamedTwice(lines, f) {
      InReedited(Compact(lines), f);
      assert f in all - last;
    }
  }

  /** One edit, streamed on two lines, counts as a re-edited file. */
  lemma StreamedEdit(id: string, file: string, r: Report)
    requires var l := Line(Some(Message(Some(id), None, Some("assistant"), None, [
        ToolUse(Some("Edit"), None, None, Some(file))])));
      IsReport([l, l], r)
    ensures r.reeditedFiles == 1
  {
    hide Counts, IsPrimary;
    var l := Line(Some(Message(Some(id), None, Some("assistant"), None, [
      ToolUse(Some("Edit"), None, None, Some(file))])));
    var b := ToolUse(Some("Edit"), None, None, Some(file));
    assert [b][..0] == [] && [l, l][..1] == [l] && [l][..0] == [];
    forall f ensures f in Reedited([l, l]) <==> f == file {
      InReedited([l, l], f);
      assert BlockEdits([b], f) == if f == file then 1 else 0;
      assert EditCount([l], f) == BlockEdits([b], f);
      assert EditCount([l, l], f) == EditCount([l], f) + BlockEdits([b], f);
    }
    assert Reedited([l, l]) == {file};
  }
}
