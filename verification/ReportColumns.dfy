/** What each number of a session report counts, in the names of the log. `Compact` are the last lines of all messages,
  * and `Lost` the lines that a collision of ids loses. */
module ReportColumns {
  import opened LexOrder
  import opened Options
  import opened SessionSums
  import opened SessionStats

  // ---- Sums over assistant lines ----

  predicate Speaks(l: Line) {
    l.message.Some? && l.message.value.role == Some("assistant")
  }

  function SumOver(lines: seq<Line>, f: Message -> nat): nat {
    if lines == [] then 0
    else
      var l := lines[0];
      (if Speaks(l) then f(l.message.value) else 0)
      + SumOver(lines[1..], f)
  }

  lemma {:induction false} SumAllIs(lines: seq<Line>, m: Measure, f: Message -> nat)
    requires forall msg :: Value(SnapshotOf(msg), m) == f(msg)
    ensures SumAll(lines, m) == SumOver(lines, f)
  {
    hide SnapshotOf, Value;
    if lines != [] {
      SumAllIs(lines[1..], m, f);
    }
  }

  /** A sum of the report and what collisions lose of it are the sum over the last lines. */
  lemma {:induction false} SumIs(lines: seq<Line>, r: Report, m: Measure, f: Message -> nat)
    requires IsReport(lines, r) && r.stats.Reads(m)
    requires forall msg :: Value(SnapshotOf(msg), m) == f(msg)
    ensures r.stats.Reading(m) + SumOver(Lost(lines, 0), f) == SumOver(Compact(lines), f)
  {
    hide Stats.Reading, SnapshotOf, Value, Lost, Compact;
    LostPlusLast(lines, 0, m);
    SumAllIs(Lost(lines, 0), m, f);
    SumAllIs(Compact(lines), m, f);
    assert r.stats.Reading(m) == SumLast(Entries(lines, 0), m);
  }

  // ---- Last lines ----

  /** An assistant line after which no assistant line has its id. */
  ghost predicate LastAt(lines: seq<Line>, i: nat)
    requires i < |lines|
  {
    && Speaks(lines[i])
    && (lines[i].message.value.id == None
        || forall j :: i < j < |lines| && Speaks(lines[j]) ==> lines[j].message.value.id != lines[i].message.value.id)
  }

  ghost function SumLastFrom(lines: seq<Line>, i: nat, f: Message -> nat): nat
    requires i <= |lines|
    decreases |lines| - i
  {
    if i == |lines| then 0
    else (if LastAt(lines, i) then f(lines[i].message.value) else 0) + SumLastFrom(lines, i + 1, f)
  }

  lemma {:induction false} HasIdIs(lines: seq<Line>, i: nat, id: string)
    requires i <= |lines|
    ensures HasId(lines[i..], id) <==>
      exists j :: i <= j < |lines| && Speaks(lines[j]) && lines[j].message.value.id == Some(id)
    decreases |lines| - i
  {
    if i < |lines| {
      HasIdIs(lines, i + 1, id);
      assert lines[i..][1..] == lines[i + 1..];
    }
  }

  lemma {:induction false} CompactFrom(lines: seq<Line>, i: nat, f: Message -> nat)
    requires i <= |lines|
    ensures SumOver(Compact(lines[i..]), f) == SumLastFrom(lines, i, f)
    decreases |lines| - i
  {
    if i < |lines| {
      hide HasId;
      CompactFrom(lines, i + 1, f);
      var rest := lines[i..];
      assert rest[1..] == lines[i + 1..];
      assert ([rest[0]] + Compact(rest[1..]))[1..] == Compact(rest[1..]);
      if Speaks(lines[i]) && lines[i].message.value.id.Some? {
        HasIdIs(lines, i + 1, lines[i].message.value.id.value);
      }
    }
  }

  /** A sum over the compacted log is the sum over the last line of every message. */
  lemma LastLinesAre(lines: seq<Line>, f: Message -> nat)
    ensures SumOver(Compact(lines), f) == SumLastFrom(lines, 0, f)
  {
    assert lines[0..] == lines;
    CompactFrom(lines, 0, f);
  }

  // ---- Tokens ----

  function InputOf(m: Message): nat { if m.usage.Some? then m.usage.value.input else 0 }

  function OutputOf(m: Message): nat { if m.usage.Some? then m.usage.value.output else 0 }

  function CacheReadOf(m: Message): nat { if m.usage.Some? then m.usage.value.cacheRead else 0 }

  function CacheCreationOf(m: Message): nat { if m.usage.Some? then m.usage.value.cacheCreation else 0 }

  function Cache5mOf(m: Message): nat {
    if m.usage.Some? && m.usage.value.split.Some? then m.usage.value.split.value.fiveMinutes else 0
  }

  function Cache1hOf(m: Message): nat {
    if m.usage.Some? && m.usage.value.split.Some? then m.usage.value.split.value.oneHour else 0
  }

  function Of(model: Option<string>, f: Message -> nat): Message -> nat {
    (m: Message) => if model == None || m.model == model then f(m) else 0
  }

  /** Some tokens and the tokens of some lines are the tokens of some other lines, column by column: of one model, or of
    * any. */
  ghost predicate Completes(t: Tally, some: seq<Line>, all: seq<Line>, model: Option<string>) {
    && t.input + SumOver(some, Of(model, InputOf)) == SumOver(all, Of(model, InputOf))
    && t.output + SumOver(some, Of(model, OutputOf)) == SumOver(all, Of(model, OutputOf))
    && t.cacheRead + SumOver(some, Of(model, CacheReadOf)) == SumOver(all, Of(model, CacheReadOf))
    && t.cacheCreation + SumOver(some, Of(model, CacheCreationOf)) == SumOver(all, Of(model, CacheCreationOf))
    && t.cache5m + SumOver(some, Of(model, Cache5mOf)) == SumOver(all, Of(model, Cache5mOf))
    && t.cache1h + SumOver(some, Of(model, Cache1hOf)) == SumOver(all, Of(model, Cache1hOf))
  }

  lemma ColumnValues(msg: Message)
    ensures var s := SnapshotOf(msg);
      && TokensOf(s, Input) == InputOf(msg) && TokensOf(s, Output) == OutputOf(msg)
      && TokensOf(s, CacheRead) == CacheReadOf(msg) && TokensOf(s, CacheCreation) == CacheCreationOf(msg)
      && TokensOf(s, Cache5m) == Cache5mOf(msg) && TokensOf(s, Cache1h) == Cache1hOf(msg)
      && s.model == msg.model
  {}

  // One column of a report.
  lemma ColumnIs(lines: seq<Line>, r: Report, field: Field, model: Option<string>, f: Message -> nat)
    requires IsReport(lines, r) && forall msg :: TokensOf(SnapshotOf(msg), field) == f(msg)
    ensures var m := if model == None then Tokens(field) else ModelTokens(model.value, field);
      r.stats.Reading(m) + SumOver(Lost(lines, 0), Of(model, f)) == SumOver(Compact(lines), Of(model, f))
  {
    hide IsReport, Lost, Compact, TokensOf;
    var m := if model == None then Tokens(field) else ModelTokens(model.value, field);
    forall msg ensures Value(SnapshotOf(msg), m) == Of(model, f)(msg) {
      ColumnValues(msg);
      assert TokensOf(SnapshotOf(msg), field) == f(msg);
    }
    SumIs(lines, r, m, Of(model, f));
  }

  lemma ColumnsAre(lines: seq<Line>, r: Report, t: Tally, model: Option<string>)
    requires IsReport(lines, r)
    requires forall field ::
      t.Get(field) == r.stats.Reading(if model == None then Tokens(field) else ModelTokens(model.value, field))
    ensures Completes(t, Lost(lines, 0), Compact(lines), model)
  {
    hide IsReport, Lost, Compact, TokensOf, Stats.Reading, SumOver, Of;
    forall msg {
      ColumnValues(msg);
    }
    ColumnIs(lines, r, Input, model, InputOf);
    ColumnIs(lines, r, Output, model, OutputOf);
    ColumnIs(lines, r, CacheRead, model, CacheReadOf);
    ColumnIs(lines, r, CacheCreation, model, CacheCreationOf);
    ColumnIs(lines, r, Cache5m, model, Cache5mOf);
    ColumnIs(lines, r, Cache1h, model, Cache1hOf);
    assert t.Get(Input) == t.input && t.Get(Output) == t.output && t.Get(CacheRead) == t.cacheRead;
    assert t.Get(CacheCreation) == t.cacheCreation && t.Get(Cache5m) == t.cache5m && t.Get(Cache1h) == t.cache1h;
  }

  /** Each token total of a report is the sum of that column of the log, together with what collisions lose. */
  lemma TokensByColumn(lines: seq<Line>, r: Report)
    requires IsReport(lines, r)
    ensures Completes(r.stats.tokens, Lost(lines, 0), Compact(lines), None)
    ensures NoCollision(lines, 0) ==> Lost(lines, 0) == []
  {
    hide IsReport, Lost, Compact, NoCollision;
    ColumnsAre(lines, r, r.stats.tokens, None);
    LostIsCollision(lines, 0);
  }

  /** And so is each one of each model; a model without an entry has no tokens. */
  lemma TokensByModel(lines: seq<Line>, r: Report, model: string)
    requires IsReport(lines, r)
    ensures var t := if model in r.stats.perModel then r.stats.perModel[model] else Tally(0, 0, 0, 0, 0, 0);
      Completes(t, Lost(lines, 0), Compact(lines), Some(model))
  {
    hide IsReport, Lost, Compact;
    var t := if model in r.stats.perModel then r.stats.perModel[model] else Tally(0, 0, 0, 0, 0, 0);
    ColumnsAre(lines, r, t, Some(model));
  }

  // ---- Models ----

  function SaysModel(model: string): Message -> nat {
    (m: Message) => if m.model == Some(model) then 1 else 0
  }

  function UsesModel(model: string): Message -> nat {
    (m: Message) => if m.model == Some(model) && m.usage.Some? then 1 else 0
  }

  /** A model has an entry exactly if a last line that is not lost has it with usage. */
  lemma ModelsAre(lines: seq<Line>, r: Report, model: string)
    requires IsReport(lines, r)
    ensures model in r.stats.perModel <==>
      SumOver(Compact(lines), UsesModel(model)) > SumOver(Lost(lines, 0), UsesModel(model))
  {
    hide Lost, Compact, IsPrimary;
    var m := ModelUses(model);
    LostPlusLast(lines, 0, m);
    SumAllIs(Lost(lines, 0), m, UsesModel(model));
    SumAllIs(Compact(lines), m, UsesModel(model));
  }

  lemma {:induction false} ModelCountIs(lines: seq<Line>, model: string)
    ensures ModelCount(lines, model) == SumOver(lines, SaysModel(model))
  {
    if lines != [] {
      var n := |lines| - 1;
      ModelCountIs(lines[..n], model);
      SumOverLast(lines[..n], lines[n], SaysModel(model));
      assert lines == lines[..n] + [lines[n]];
    }
  }

  lemma {:induction false} SumOverLast(lines: seq<Line>, l: Line, f: Message -> nat)
    ensures SumOver(lines + [l], f) == SumOver(lines, f) + if Speaks(l) then f(l.message.value) else 0
  {
    if lines == [] {
      assert [l][1..] == [] && lines + [l] == [l];
    } else {
      assert (lines + [l])[1..] == lines[1..] + [l];
      SumOverLast(lines[1..], l, f);
    }
  }

  /** The primary model is on more lines than any other, or on as many and comes first; there is none exactly if no line
    * has a model. */
  lemma PrimaryIs(lines: seq<Line>, r: Report, model: string)
    requires IsReport(lines, r)
    ensures r.primaryModel == Some(model) <==>
      && SumOver(lines, SaysModel(model)) > 0
      && forall k :: k != model ==>
        || SumOver(lines, SaysModel(k)) < SumOver(lines, SaysModel(model))
        || (SumOver(lines, SaysModel(k)) == SumOver(lines, SaysModel(model)) && Below(model, k))
    ensures r.primaryModel == None <==> forall k :: SumOver(lines, SaysModel(k)) == 0
  {
    hide ModelCount, SumOver, Counts;
    forall k ensures ModelCount(lines, k) == SumOver(lines, SaysModel(k)) {
      ModelCountIs(lines, k);
    }
    if IsPrimary(lines, Some(model)) {
      PrimaryIsUnique(lines, r.primaryModel, Some(model));
    }
    if r.primaryModel.Some? {
      assert SumOver(lines, SaysModel(r.primaryModel.value)) > 0;
    }
  }

  // ---- Blocks ----

  function Count(blocks: seq<Block>, p: Block -> bool): nat {
    if blocks == [] then 0
    else Count(blocks[..|blocks| - 1], p) + if p(blocks[|blocks| - 1]) then 1 else 0
  }

  function BlocksWith(p: Block -> bool): Message -> nat {
    (m: Message) => Count(m.blocks, p)
  }

  predicate IsCall(b: Block) {
    b.ToolUse? && b.name.Some?
  }

  /** The tool itself, or the tool with something behind a colon. */
  predicate Named(name: string, tool: string) {
    name == tool || tool + ":" <= name
  }

  predicate CallsOneOf(b: Block, tools: set<string>) {
    IsCall(b) && exists t :: t in tools && Named(b.name.value, t)
  }

  /** What a call is tallied as: a skill with its name, an agent with its type, any other tool as it is. */
  function TalliedAs(b: Block): string
    requires IsCall(b)
  {
    var name := b.name.value;
    if name == "Skill" && b.skill.Some? && b.skill.value != "" then "Skill:" + b.skill.value
    else if name == "Task" && b.subagent.Some? && b.subagent.value != "" then "Task:" + b.subagent.value
    else if name == "Agent" && b.subagent.Some? && b.subagent.value != "" then "Agent:" + b.subagent.value
    else name
  }

  lemma {:induction false} BaseIs(name: string, tool: string)
    requires ':' !in tool
    ensures Base(name) == tool <==> Named(name, tool)
  {
    assert tool != "" ==> tool[0] in tool && (tool + ":")[0] == tool[0];
    if name == "" || name[0] == ':' {
      assert tool == "" && name != "" ==> tool + ":" == [name[0]];
    } else if tool != "" {
      BaseIs(name[1..], tool[1..]);
      assert tool == [tool[0]] + tool[1..] && name == [name[0]] + name[1..];
      assert tool + ":" == [tool[0]] + (tool[1..] + ":");
      assert tool + ":" <= name <==> tool[0] == name[0] && tool[1..] + ":" <= name[1..] by {
        NextSigns(tool + ":", name);
      }
    } else {
      assert tool + ":" == ":";
      NextSigns(":", name);
    }
  }

  lemma NextSigns(a: string, b: string)
    requires a != "" && b != ""
    ensures a <= b <==> a[0] == b[0] && a[1..] <= b[1..]
  {
    if a <= b {
      assert a[1..] == b[1..][..|a| - 1];
    }
    if a[0] == b[0] && a[1..] <= b[1..] {
      assert a == [a[0]] + a[1..] && b == [b[0]] + b[1..];
    }
  }

  // How each kind of tool is told.
  function ToolsOf(k: ToolKind): set<string> {
    match k
    case FilesRead => {"Read", "NotebookRead"}
    case FilesEdited => {"Edit", "Write", "NotebookEdit"}
    case BashRuns => {"Bash"}
    case AgentSpawns => {"Agent", "Task"}
  }

  lemma KindIs(b: Block, k: ToolKind)
    requires IsCall(b)
    ensures HasKind(InvocationKey(b.name.value, b.skill, b.subagent), k) <==> CallsOneOf(b, ToolsOf(k))
  {
    hide Base, InvocationKey, Named;
    BaseOfKey(b.name.value, b.skill, b.subagent);
    forall t | t in ToolsOf(k) ensures Base(b.name.value) == t <==> Named(b.name.value, t) {
      BaseIs(b.name.value, t);
    }
  }

  lemma KeyIs(b: Block)
    requires IsCall(b)
    ensures InvocationKey(b.name.value, b.skill, b.subagent) == TalliedAs(b)
  {
    assert b.name.value == "Skill" ==> b.name.value + ":" == "Skill:";
    assert b.name.value == "Task" ==> b.name.value + ":" == "Task:";
    assert b.name.value == "Agent" ==> b.name.value + ":" == "Agent:";
  }

  function CallOf(k: ToolKind): Block -> bool {
    (b: Block) => CallsOneOf(b, ToolsOf(k))
  }

  function CallAs(key: string): Block -> bool {
    (b: Block) => IsCall(b) && TalliedAs(b) == key
  }

  function IsThinking(b: Block): bool {
    b.Thinking?
  }

  lemma {:induction false} BlocksAreCounted(blocks: seq<Block>, k: ToolKind, key: string)
    ensures |ToolNames(blocks)| == Count(blocks, IsCall) && ThinkingCount(blocks) == Count(blocks, IsThinking)
    ensures CountKind(ToolNames(blocks), k) == Count(blocks, CallOf(k))
    ensures CountName(ToolNames(blocks), key) == Count(blocks, CallAs(key))
  {
    hide HasKind, InvocationKey, CallsOneOf, TalliedAs;
    if blocks != [] {
      var rest, b := blocks[..|blocks| - 1], blocks[|blocks| - 1];
      BlocksAreCounted(rest, k, key);
      if IsCall(b) {
        KindIs(b, k);
        KeyIs(b);
        var called := InvocationKey(b.name.value, b.skill, b.subagent);
        assert (ToolNames(rest) + [called])[..|ToolNames(rest)|] == ToolNames(rest);
      } else {
        assert !CallOf(k)(b) by { NoCall(b, k); }
      }
    }
  }

  lemma NoCall(b: Block, k: ToolKind)
    requires !IsCall(b)
    ensures !CallsOneOf(b, ToolsOf(k))
  {}

  function HasModel(m: Message): nat {
    if m.model.Some? then 1 else 0
  }

  lemma BlockValues(msg: Message, k: ToolKind, key: string)
    ensures Value(SnapshotOf(msg), OfKind(k)) == BlocksWith(CallOf(k))(msg)
    ensures Value(SnapshotOf(msg), Invocations(key)) == BlocksWith(CallAs(key))(msg)
    ensures Value(SnapshotOf(msg), ToolCalls) == BlocksWith(IsCall)(msg)
    ensures Value(SnapshotOf(msg), ThinkingBlocks) == BlocksWith(IsThinking)(msg)
    ensures Value(SnapshotOf(msg), Turns) == HasModel(msg)
  {
    hide IsCall, IsThinking, CallAs, CallOf;
    BlocksAreCounted(msg.blocks, k, key);
  }

  /** The number of calls of a kind, or under a key, is counted over the blocks of the last lines. */
  lemma CallsByTool(lines: seq<Line>, r: Report, k: ToolKind, key: string)
    requires IsReport(lines, r)
    ensures var lost, last := Lost(lines, 0), Compact(lines);
      && r.stats.turns + SumOver(lost, HasModel) == SumOver(last, HasModel)
      && r.stats.thinkingBlocks + SumOver(lost, BlocksWith(IsThinking)) == SumOver(last, BlocksWith(IsThinking))
      && r.stats.toolCalls + SumOver(lost, BlocksWith(IsCall)) == SumOver(last, BlocksWith(IsCall))
      && (if key in r.stats.invocations then r.stats.invocations[key] else 0) + SumOver(lost, BlocksWith(CallAs(key)))
        == SumOver(last, BlocksWith(CallAs(key)))
      && (match k
          case FilesRead => r.stats.filesRead
          case FilesEdited => r.stats.filesEdited
          case BashRuns => r.stats.bashRuns
          case AgentSpawns => r.stats.agentSpawns) + SumOver(lost, BlocksWith(CallOf(k)))
        == SumOver(last, BlocksWith(CallOf(k)))
  {
    hide IsReport, Lost, Compact, SumOver, Value, SnapshotOf, BlocksWith, CallAs, CallOf, IsCall, IsThinking, HasModel;
    forall msg {
      BlockValues(msg, k, key);
    }
    SumIs(lines, r, Turns, HasModel);
    SumIs(lines, r, ThinkingBlocks, BlocksWith(IsThinking));
    SumIs(lines, r, ToolCalls, BlocksWith(IsCall));
    SumIs(lines, r, Invocations(key), BlocksWith(CallAs(key)));
    SumIs(lines, r, OfKind(k), BlocksWith(CallOf(k)));
  }

  // ---- Files edited more than once ----

  function Edits(file: string): Block -> bool {
    (b: Block) => b.ToolUse? && (b.name == Some("Edit") || b.name == Some("Write")) && b.filePath == Some(file)
  }

  lemma {:induction false} BlockEditsAre(blocks: seq<Block>, file: string)
    ensures BlockEdits(blocks, file) == Count(blocks, Edits(file))
  {
    if blocks != [] {
      BlockEditsAre(blocks[..|blocks| - 1], file);
    }
  }

  lemma {:induction false} EditsAre(lines: seq<Line>, file: string)
    ensures EditCount(lines, file) == SumOver(lines, BlocksWith(Edits(file)))
  {
    if lines != [] {
      hide BlockEdits, Edits;
      EditsOfFirst(lines, file);
      EditsAre(lines[1..], file);
      assert [lines[0]][..0] == [];
      if lines[0].message.Some? {
        BlockEditsAre(lines[0].message.value.blocks, file);
      }
    }
  }

  /** The number of re-edited files is that of the files with two Edit or Write calls or more on all lines. */
  lemma ReeditedAre(lines: seq<Line>, r: Report, files: set<string>)
    requires IsReport(lines, r) && forall f :: f in files <==> SumOver(lines, BlocksWith(Edits(f))) >= 2
    ensures r.reeditedFiles == |files|
  {
    hide Counts, IsPrimary, EditCount, Edits, SumOver, Reedited;
    forall f ensures f in Reedited(lines) <==> f in files {
      InReedited(lines, f);
      EditsAre(lines, f);
    }
    assert Reedited(lines) == files;
  }
}
