/** Sums over the messages of a session. A streamed message appears on several lines; its last line counts. */
module SessionSums {
  import opened Options

  datatype Split = Split(fiveMinutes: nat, oneHour: nat)

  datatype Usage = Usage(input: nat, output: nat, cacheRead: nat, cacheCreation: nat, split: Option<Split>)

  // The parts of an `input` object that are read, each missing unless it is a string.
  datatype Block =
    | ToolUse(name: Option<string>, skill: Option<string>, subagent: Option<string>, filePath: Option<string>)
    | Thinking
    | OtherBlock

  datatype Message = Message(
    id: Option<string>, model: Option<string>, role: Option<string>, usage: Option<Usage>, blocks: seq<Block>)

  datatype Line = Line(message: Option<Message>) {
    predicate IsAssistant() {
      message.Some? && message.value.role == Some("assistant")
    }
  }

  // ---- What a line says ----

  /** What a message is remembered by. */
  datatype Snapshot = Snapshot(model: Option<string>, usage: Option<Usage>, toolNames: seq<string>, thinking: nat)

  function InvocationKey(name: string, skill: Option<string>, subagent: Option<string>): string {
    var sub :=
      if name == "Skill" then skill
      else if name == "Task" || name == "Agent" then subagent
      else None;
    if sub.Some? && sub.value != "" then name + ":" + sub.value else name
  }

  function ToolNames(blocks: seq<Block>): seq<string> {
    if blocks == [] then []
    else
      var rest, b := ToolNames(blocks[..|blocks| - 1]), blocks[|blocks| - 1];
      if b.ToolUse? && b.name.Some? then rest + [InvocationKey(b.name.value, b.skill, b.subagent)] else rest
  }

  function ThinkingCount(blocks: seq<Block>): nat {
    if blocks == [] then 0
    else ThinkingCount(blocks[..|blocks| - 1]) + if blocks[|blocks| - 1].Thinking? then 1 else 0
  }

  function SnapshotOf(m: Message): Snapshot {
    Snapshot(m.model, m.usage, ToolNames(m.blocks), ThinkingCount(m.blocks))
  }

  /** The name of a tool up to its first colon. */
  function Base(name: string): string {
    if name == [] || name[0] == ':' then "" else [name[0]] + Base(name[1..])
  }

  lemma {:induction false} BaseOfSuffixed(name: string, sub: string)
    ensures Base(name + ":" + sub) == Base(name)
  {
    if name != [] && name[0] != ':' {
      assert (name + ":" + sub)[1..] == name[1..] + ":" + sub;
      BaseOfSuffixed(name[1..], sub);
    }
  }

  /** A skill or an agent type never changes which tool a call is tallied under. */
  lemma BaseOfKey(name: string, skill: Option<string>, subagent: Option<string>)
    ensures Base(InvocationKey(name, skill, subagent)) == Base(name)
  {
    if skill.Some? {
      BaseOfSuffixed(name, skill.value);
    }
    if subagent.Some? {
      BaseOfSuffixed(name, subagent.value);
    }
  }

  // ---- Keys: message ids, and numbers for messages without one ----

  function Digit(d: nat): char
    requires d < 10
  {
    ['0', '1', '2', '3', '4', '5', '6', '7', '8', '9'][d]
  }

  function Decimal(n: nat): (s: string)
    ensures |s| > 0 && (n >= 10 ==> |s| > 1)
  {
    if n < 10 then [Digit(n)] else Decimal(n / 10) + [Digit(n % 10)]
  }

  lemma {:induction false} DecimalInjective(m: nat, n: nat)
    requires Decimal(m) == Decimal(n)
    ensures m == n
  {
    assert Decimal(m)[|Decimal(m)| - 1] == Digit(m % 10) && Decimal(n)[|Decimal(n)| - 1] == Digit(n % 10);
    if m >= 10 && n >= 10 {
      assert Decimal(m)[..|Decimal(m)| - 1] == Decimal(m / 10);
      assert Decimal(n)[..|Decimal(n)| - 1] == Decimal(n / 10);
      DecimalInjective(m / 10, n / 10);
    } else {
    }
  }

  ghost predicate IsDecimal(s: string) {
    forall i :: 0 <= i < |s| ==> '0' <= s[i] <= '9'
  }

  ghost function NumberOf(s: string): nat
    requires IsDecimal(s)
  {
    if s == "" then 0 else 10 * NumberOf(s[..|s| - 1]) + (s[|s| - 1] as int - '0' as int)
  }

  /** The decimal digits of a number, without a leading zero. */
  lemma {:induction false} DecimalReads(n: nat)
    ensures IsDecimal(Decimal(n)) && NumberOf(Decimal(n)) == n && (Decimal(n)[0] == '0' ==> n == 0)
  {
    hide Digit, NumberOf;
    if n >= 10 {
      DecimalReads(n / 10);
      DigitReads(Decimal(n / 10), n % 10);
    } else {
      NumberOfNothing();
      DigitReads("", n);
      assert "" + [Digit(n)] == [Digit(n)];
    }
  }

  lemma NumberOfNothing()
    ensures NumberOf("") == 0
  {}

  lemma DigitReads(s: string, d: nat)
    requires IsDecimal(s) && d < 10
    ensures IsDecimal(s + [Digit(d)]) && NumberOf(s + [Digit(d)]) == 10 * NumberOf(s) + d
    ensures Digit(d) == '0' ==> d == 0
  {
    assert (s + [Digit(d)])[..|s|] == s;
    assert Digit(d) as int == '0' as int + d;
  }

  function AnonKey(n: nat): string {
    "__anon_" + Decimal(n)
  }

  lemma AnonKeyInjective(m: nat, n: nat)
    requires AnonKey(m) == AnonKey(n)
    ensures m == n
  {
    assert AnonKey(m)[7..] == Decimal(m) && AnonKey(n)[7..] == Decimal(n);
    DecimalInjective(m, n);
  }

  datatype Entry = Entry(key: string, snapshot: Snapshot)

  /** The assistant lines with their keys; `anon` messages without id came before. */
  function Entries(lines: seq<Line>, anon: nat): seq<Entry> {
    if lines == [] then []
    else if !lines[0].IsAssistant() then Entries(lines[1..], anon)
    else
      var m := lines[0].message.value;
      if m.id.Some? then [Entry(m.id.value, SnapshotOf(m))] + Entries(lines[1..], anon)
      else [Entry(AnonKey(anon + 1), SnapshotOf(m))] + Entries(lines[1..], anon + 1)
  }

  function AnonCount(lines: seq<Line>): nat {
    if lines == [] then 0
    else (if lines[0].IsAssistant() && lines[0].message.value.id == None then 1 else 0) + AnonCount(lines[1..])
  }

  // ---- Sums over the last snapshots ----

  datatype Field = Input | Output | CacheRead | CacheCreation | Cache5m | Cache1h

  datatype ToolKind = FilesRead | FilesEdited | BashRuns | AgentSpawns

  datatype Measure =
    | Tokens(field: Field)
    | ModelTokens(model: string, field: Field)
    | ModellessTokens(field: Field)
    | ModelUses(model: string)
    | Turns
    | ThinkingBlocks
    | ToolCalls
    | OfKind(kind: ToolKind)
    | Invocations(name: string)
    | Messages
    | Nothing

  function UsageOf(u: Usage, f: Field): nat {
    match f
    case Input => u.input
    case Output => u.output
    case CacheRead => u.cacheRead
    case CacheCreation => u.cacheCreation
    case Cache5m => if u.split.Some? then u.split.value.fiveMinutes else 0
    case Cache1h => if u.split.Some? then u.split.value.oneHour else 0
  }

  function TokensOf(s: Snapshot, f: Field): nat {
    if s.usage.Some? then UsageOf(s.usage.value, f) else 0
  }

  predicate HasKind(name: string, k: ToolKind) {
    var base := Base(name);
    match k
    case FilesRead => base == "Read" || base == "NotebookRead"
    case FilesEdited => base == "Edit" || base == "Write" || base == "NotebookEdit"
    case BashRuns => base == "Bash"
    case AgentSpawns => base == "Agent" || base == "Task"
  }

  function CountKind(names: seq<string>, k: ToolKind): nat {
    if names == [] then 0
    else CountKind(names[..|names| - 1], k) + if HasKind(names[|names| - 1], k) then 1 else 0
  }

  function CountName(names: seq<string>, name: string): nat {
    if names == [] then 0
    else CountName(names[..|names| - 1], name) + if names[|names| - 1] == name then 1 else 0
  }

  function Value(s: Snapshot, m: Measure): nat {
    match m
    case Tokens(f) => TokensOf(s, f)
    case ModelTokens(model, f) => if s.model == Some(model) then TokensOf(s, f) else 0
    case ModellessTokens(f) => if s.model == None then TokensOf(s, f) else 0
    case ModelUses(model) => if s.model == Some(model) && s.usage.Some? then 1 else 0
    case Turns => if s.model.Some? then 1 else 0
    case ThinkingBlocks => s.thinking
    case ToolCalls => |s.toolNames|
    case OfKind(k) => CountKind(s.toolNames, k)
    case Invocations(name) => CountName(s.toolNames, name)
    case Messages => 1
    case Nothing => 0
  }

  predicate HasKey(entries: seq<Entry>, key: string) {
    entries != [] && (entries[0].key == key || HasKey(entries[1..], key))
  }

  function LastOf(entries: seq<Entry>, key: string): Snapshot
    requires HasKey(entries, key)
  {
    if HasKey(entries[1..], key) then LastOf(entries[1..], key) else entries[0].snapshot
  }

  /** The sum over the last entry of each key. */
  function SumLast(entries: seq<Entry>, m: Measure): nat {
    if entries == [] then 0
    else
      (if HasKey(entries[1..], entries[0].key) then 0 else Value(entries[0].snapshot, m)) + SumLast(entries[1..], m)
  }

  /** The same, for some keys only. */
  function SumIn(entries: seq<Entry>, keys: set<string>, m: Measure): nat {
    if entries == [] then 0
    else
      (if HasKey(entries[1..], entries[0].key) || entries[0].key !in keys then 0 else Value(entries[0].snapshot, m))
      + SumIn(entries[1..], keys, m)
  }

  lemma {:induction false} SumInMore(entries: seq<Entry>, keys: set<string>, key: string, m: Measure)
    requires key !in keys
    ensures SumIn(entries, keys + {key}, m) ==
      SumIn(entries, keys, m) + if HasKey(entries, key) then Value(LastOf(entries, key), m) else 0
  {
    if entries != [] {
      SumInMore(entries[1..], keys, key, m);
    }
  }

  lemma {:induction false} SumInNone(entries: seq<Entry>, m: Measure)
    ensures SumIn(entries, {}, m) == 0
  {
    if entries != [] {
      SumInNone(entries[1..], m);
    }
  }

  lemma {:induction false} SumInAll(entries: seq<Entry>, keys: set<string>, m: Measure)
    requires forall key :: HasKey(entries, key) ==> key in keys
    ensures SumIn(entries, keys, m) == SumLast(entries, m)
  {
    if entries != [] {
      forall key | HasKey(entries[1..], key) ensures key in keys {
        assert HasKey(entries, key);
      }
      assert HasKey(entries, entries[0].key);
      SumInAll(entries[1..], keys, m);
    }
  }

  // ---- Superseded lines do not count ----

  predicate HasId(lines: seq<Line>, id: string) {
    lines != [] && ((lines[0].IsAssistant() && lines[0].message.value.id == Some(id)) || HasId(lines[1..], id))
  }

  // The first line is an earlier version of a later one.
  predicate Superseded(lines: seq<Line>)
    requires lines != []
  {
    lines[0].IsAssistant() && lines[0].message.value.id.Some? && HasId(lines[1..], lines[0].message.value.id.value)
  }

  /** Without the lines that have a later version. */
  function Compact(lines: seq<Line>): seq<Line> {
    if lines == [] then []
    else if Superseded(lines) then Compact(lines[1..])
    else [lines[0]] + Compact(lines[1..])
  }

  lemma {:induction false} IdIsKey(lines: seq<Line>, anon: nat, id: string)
    requires HasId(lines, id)
    ensures HasKey(Entries(lines, anon), id)
  {
    if !lines[0].IsAssistant() {
      IdIsKey(lines[1..], anon, id);
    } else if lines[0].message.value.id != Some(id) {
      IdIsKey(lines[1..], if lines[0].message.value.id == None then anon + 1 else anon, id);
    }
  }

  lemma {:induction false} CompactKeepsKeys(lines: seq<Line>, anon: nat, key: string)
    ensures HasKey(Entries(Compact(lines), anon), key) == HasKey(Entries(lines, anon), key)
  {
    if lines != [] {
      var rest := lines[1..];
      assert ([lines[0]] + Compact(rest))[1..] == Compact(rest);
      if Superseded(lines) {
        IdIsKey(rest, anon, lines[0].message.value.id.value);
        CompactKeepsKeys(rest, anon, key);
      } else {
        CompactKeepsKeys(rest, anon, key);
        CompactKeepsKeys(rest, anon + 1, key);
      }
    }
  }

  /** Deleting every line that has a later version changes no sum. */
  lemma {:induction false} CompactKeepsSums(lines: seq<Line>, anon: nat, m: Measure)
    ensures SumLast(Entries(Compact(lines), anon), m) == SumLast(Entries(lines, anon), m)
  {
    if lines != [] {
      var rest := lines[1..];
      assert ([lines[0]] + Compact(rest))[1..] == Compact(rest);
      CompactKeepsSums(rest, anon, m);
      if Superseded(lines) {
        IdIsKey(rest, anon, lines[0].message.value.id.value);
      } else if lines[0].IsAssistant() {
        var id := lines[0].message.value.id;
        if id.Some? {
          CompactKeepsKeys(rest, anon, id.value);
        } else {
          CompactKeepsSums(rest, anon + 1, m);
          CompactKeepsKeys(rest, anon + 1, AnonKey(anon + 1));
        }
      }
    }
  }

  // ---- A last line may come again ----

  function KeyAt(lines: seq<Line>, anon: nat, i: nat): string
    requires i < |lines| && lines[i].IsAssistant()
  {
    var id := if lines[0].IsAssistant() then lines[0].message.value.id else Some("");
    if i > 0 then KeyAt(lines[1..], if id == None then anon + 1 else anon, i - 1)
    else if id.Some? then id.value
    else AnonKey(anon + 1)
  }

  lemma {:induction false} EntriesAppend(lines: seq<Line>, anon: nat, l: Line)
    ensures Entries(lines + [l], anon) == Entries(lines, anon) + Entries([l], anon + AnonCount(lines))
    ensures AnonCount(lines + [l]) == AnonCount(lines) + AnonCount([l])
  {
    hide SnapshotOf, AnonKey;
    if lines == [] {
      assert lines + [l] == [l];
    } else {
      assert (lines + [l])[1..] == lines[1..] + [l];
      if lines[0].IsAssistant() && lines[0].message.value.id == None {
        EntriesAppend(lines[1..], anon + 1, l);
      } else {
        EntriesAppend(lines[1..], anon, l);
      }
    }
  }

  lemma {:induction false} LastOfAppend(entries: seq<Entry>, e: Entry, key: string)
    ensures HasKey(entries + [e], key) <==> HasKey(entries, key) || key == e.key
    ensures HasKey(entries + [e], key) ==>
      LastOf(entries + [e], key) == if key == e.key then e.snapshot else LastOf(entries, key)
  {
    if entries == [] {
      assert entries + [e] == [e];
    } else {
      assert (entries + [e])[1..] == entries[1..] + [e];
      LastOfAppend(entries[1..], e, key);
    }
  }

  lemma {:induction false} SumLastAppend(entries: seq<Entry>, e: Entry, m: Measure)
    ensures SumLast(entries + [e], m) + (if HasKey(entries, e.key) then Value(LastOf(entries, e.key), m) else 0) ==
      SumLast(entries, m) + Value(e.snapshot, m)
  {
    if entries == [] {
      assert entries + [e] == [e];
    } else {
      assert (entries + [e])[1..] == entries[1..] + [e];
      SumLastAppend(entries[1..], e, m);
      LastOfAppend(entries[1..], e, entries[0].key);
    }
  }

  lemma {:induction false} LastLine(lines: seq<Line>, anon: nat, i: nat)
    requires i < |lines| && lines[i].IsAssistant()
    requires forall j :: i < j < |lines| && lines[j].IsAssistant() ==> KeyAt(lines, anon, j) != KeyAt(lines, anon, i)
    ensures HasKey(Entries(lines, anon), KeyAt(lines, anon, i))
    ensures LastOf(Entries(lines, anon), KeyAt(lines, anon, i)) == SnapshotOf(lines[i].message.value)
  {
    var id := if lines[0].IsAssistant() then lines[0].message.value.id else Some("");
    var next := if id == None then anon + 1 else anon;
    if i > 0 {
      forall j | i - 1 < j < |lines| - 1 && lines[1..][j].IsAssistant()
        ensures KeyAt(lines[1..], next, j) != KeyAt(lines[1..], next, i - 1)
      {
        assert KeyAt(lines, anon, j + 1) == KeyAt(lines[1..], next, j);
      }
      LastLine(lines[1..], next, i - 1);
    } else {
      NoLaterKey(lines[1..], next, KeyAt(lines, anon, 0)) by {
        forall j: nat | j < |lines| - 1 && lines[1..][j].IsAssistant()
          ensures KeyAt(lines[1..], next, j) != KeyAt(lines, anon, 0)
        {
          assert KeyAt(lines, anon, j + 1) == KeyAt(lines[1..], next, j);
        }
      }
    }
  }

  lemma {:induction false} NoLaterKey(lines: seq<Line>, anon: nat, key: string)
    requires forall j: nat :: j < |lines| && lines[j].IsAssistant() ==> KeyAt(lines, anon, j) != key
    ensures !HasKey(Entries(lines, anon), key)
  {
    if lines != [] {
      var id := if lines[0].IsAssistant() then lines[0].message.value.id else Some("");
      var next := if id == None then anon + 1 else anon;
      assert lines[0].IsAssistant() ==> KeyAt(lines, anon, 0) != key;
      forall j: nat | j < |lines| - 1 && lines[1..][j].IsAssistant() ensures KeyAt(lines[1..], next, j) != key {
        assert KeyAt(lines, anon, j + 1) == KeyAt(lines[1..], next, j);
      }
      NoLaterKey(lines[1..], next, key);
    }
  }

  /** Appending the last line of a message once more changes no sum. */
  lemma RepeatKeepsSums(lines: seq<Line>, i: nat, m: Measure)
    requires i < |lines| && lines[i].IsAssistant() && lines[i].message.value.id.Some?
    requires forall j :: i < j < |lines| && lines[j].IsAssistant() ==> KeyAt(lines, 0, j) != KeyAt(lines, 0, i)
    ensures SumLast(Entries(lines + [lines[i]], 0), m) == SumLast(Entries(lines, 0), m)
  {
    var l := lines[i];
    KeyIsId(lines, 0, i);
    LastLine(lines, 0, i);
    EntriesAppend(lines, 0, l);
    assert Entries([l], AnonCount(lines)) == [Entry(KeyAt(lines, 0, i), SnapshotOf(l.message.value))];
    SumLastAppend(Entries(lines, 0), Entry(KeyAt(lines, 0, i), SnapshotOf(l.message.value)), m);
  }

  lemma {:induction false} KeyIsId(lines: seq<Line>, anon: nat, i: nat)
    requires i < |lines| && lines[i].IsAssistant() && lines[i].message.value.id.Some?
    ensures KeyAt(lines, anon, i) == lines[i].message.value.id.value
  {
    if i > 0 {
      KeyIsId(lines[1..], anon, i - 1);
      KeyIsId(lines[1..], anon + 1, i - 1);
    }
  }

  // ---- Messages without an id may collide with those that have one ----

  /** The sum over all assistant lines. */
  function SumAll(lines: seq<Line>, m: Measure): nat {
    if lines == [] then 0
    else (if lines[0].IsAssistant() then Value(SnapshotOf(lines[0].message.value), m) else 0) + SumAll(lines[1..], m)
  }

  /** No message has an id that was made up for another. */
  ghost predicate NoCollision(lines: seq<Line>, anon: nat) {
    forall n: nat :: anon < n <= anon + AnonCount(lines) ==> !HasId(lines, AnonKey(n))
  }

  lemma {:induction false} KeyIsIdOrAnon(lines: seq<Line>, anon: nat, key: string)
    ensures HasKey(Entries(lines, anon), key) <==>
      HasId(lines, key) || exists n: nat :: anon < n <= anon + AnonCount(lines) && key == AnonKey(n)
  {
    hide AnonKey;
    if lines != [] {
      var rest := lines[1..];
      if !lines[0].IsAssistant() || lines[0].message.value.id.Some? {
        KeyIsIdOrAnon(rest, anon, key);
      } else {
        KeyIsIdOrAnon(rest, anon + 1, key);
        assert key == AnonKey(anon + 1) ==> exists n: nat :: anon < n <= anon + AnonCount(lines) && key == AnonKey(n);
      }
    }
  }

  /** The first line is the last of its message, and yet a later line is filed under its key: a message has the id made
    * up for this line, or the id of this line is made up for a later one. */
  ghost predicate Overwritten(lines: seq<Line>, anon: nat)
    requires lines != []
  {
    lines[0].IsAssistant() &&
    match lines[0].message.value.id
    case None => HasId(lines[1..], AnonKey(anon + 1))
    case Some(id) =>
      !HasId(lines[1..], id) && exists n: nat :: anon < n <= anon + AnonCount(lines[1..]) && id == AnonKey(n)
  }

  function NextAnon(l: Line, anon: nat): nat {
    if l.IsAssistant() && l.message.value.id == None then anon + 1 else anon
  }

  /** The lines that a collision of ids loses. */
  ghost function Lost(lines: seq<Line>, anon: nat): seq<Line> {
    if lines == [] then []
    else (if Overwritten(lines, anon) then [lines[0]] else []) + Lost(lines[1..], NextAnon(lines[0], anon))
  }

  // A later entry has the first entry's key exactly if the first line is superseded or overwritten.
  lemma FirstKeyComesAgain(lines: seq<Line>, anon: nat)
    requires lines != [] && lines[0].IsAssistant()
    ensures HasKey(Entries(lines[1..], NextAnon(lines[0], anon)), Entries(lines, anon)[0].key) <==>
      Superseded(lines) || Overwritten(lines, anon)
  {
    hide AnonKey, SnapshotOf;
    var id := lines[0].message.value.id;
    if id.Some? {
      KeyIsIdOrAnon(lines[1..], anon, id.value);
    } else {
      KeyIsIdOrAnon(lines[1..], anon + 1, AnonKey(anon + 1));
      forall n: nat | anon + 1 < n ensures AnonKey(n) != AnonKey(anon + 1) {
        if AnonKey(n) == AnonKey(anon + 1) {
          AnonKeyInjective(n, anon + 1);
        }
      }
    }
  }

  lemma SumAllHead(l: Line, lines: seq<Line>, m: Measure)
    ensures SumAll([l] + lines, m) ==
      (if l.IsAssistant() then Value(SnapshotOf(l.message.value), m) else 0) + SumAll(lines, m)
  {
    assert ([l] + lines)[1..] == lines;
  }

  /** Whatever the ids: the last lines of the messages add up to what a sum counts and what a collision loses. */
  lemma {:induction false} LostPlusLast(lines: seq<Line>, anon: nat, m: Measure)
    ensures SumAll(Compact(lines), m) == SumLast(Entries(lines, anon), m) + SumAll(Lost(lines, anon), m)
  {
    hide Overwritten, Superseded, SnapshotOf, Value, SumAll, AnonKey;
    if lines == [] {
      assert SumAll([], m) == 0 by { SumAllNothing(m); }
    } else {
      var next := NextAnon(lines[0], anon);
      LostPlusLast(lines[1..], next, m);
      SumAllHead(lines[0], Compact(lines[1..]), m);
      SumAllHead(lines[0], Lost(lines[1..], next), m);
      HeadIsOne(lines, anon);
      assert [] + Lost(lines[1..], next) == Lost(lines[1..], next);
      if lines[0].IsAssistant() {
        FirstKeyComesAgain(lines, anon);
        assert Entries(lines, anon)[1..] == Entries(lines[1..], next);
        assert Entries(lines, anon)[0].snapshot == SnapshotOf(lines[0].message.value);
      }
    }
  }

  lemma SumAllNothing(m: Measure)
    ensures SumAll([], m) == 0
  {}

  lemma HeadIsOne(lines: seq<Line>, anon: nat)
    requires lines != []
    ensures Superseded(lines) ==> lines[0].IsAssistant() && !Overwritten(lines, anon)
    ensures Overwritten(lines, anon) ==> lines[0].IsAssistant()
  {}

  /** Lines are lost exactly if an id was made up that a message has. */
  lemma {:induction false} LostIsCollision(lines: seq<Line>, anon: nat)
    ensures Lost(lines, anon) == [] <==> NoCollision(lines, anon)
  {
    hide AnonKey;
    if lines != [] {
      var next := NextAnon(lines[0], anon);
      var rest := lines[1..];
      LostIsCollision(rest, next);
      if lines[0].IsAssistant() && lines[0].message.value.id == None {
        assert NoCollision(lines, anon) <==> !HasId(rest, AnonKey(anon + 1)) && NoCollision(rest, next);
      } else if NoCollision(lines, anon) {
        forall n: nat | anon < n <= anon + AnonCount(rest) ensures !HasId(rest, AnonKey(n)) {
          assert !HasId(lines, AnonKey(n));
        }
        assert !Overwritten(lines, anon);
      } else {
        var n: nat :| anon < n <= anon + AnonCount(lines) && HasId(lines, AnonKey(n));
        assert HasId(rest, AnonKey(n)) || Overwritten(lines, anon);
      }
    }
  }

  lemma {:induction false} SumOfZeros(lines: seq<Line>, m: Measure)
    ensures SumAll(lines, m) == 0 <==>
      forall l :: l in lines && l.IsAssistant() ==> Value(SnapshotOf(l.message.value), m) == 0
  {
    hide Value, SnapshotOf;
    if lines != [] {
      SumOfZeros(lines[1..], m);
      assert forall l :: l in lines <==> l == lines[0] || l in lines[1..];
    }
  }

  /** A sum counts the last line of every id and every line without an id if and only if what a collision loses has
    * none of the measure. */
  lemma SumIsExact(lines: seq<Line>, m: Measure)
    ensures SumLast(Entries(lines, 0), m) == SumAll(Compact(lines), m) <==>
      forall l :: l in Lost(lines, 0) && l.IsAssistant() ==> Value(SnapshotOf(l.message.value), m) == 0
  {
    LostPlusLast(lines, 0, m);
    SumOfZeros(Lost(lines, 0), m);
  }

  /** Without collisions a sum counts the last line of every id and every line without an id, and nothing else. */
  lemma SumsAreLastLines(lines: seq<Line>, anon: nat, m: Measure)
    requires NoCollision(lines, anon)
    ensures SumLast(Entries(lines, anon), m) == SumAll(Compact(lines), m)
  {
    LostPlusLast(lines, anon, m);
    LostIsCollision(lines, anon);
  }

  lemma {:induction false} LostMessages(lines: seq<Line>, anon: nat)
    ensures SumAll(Lost(lines, anon), Messages) == |Lost(lines, anon)|
  {
    hide SnapshotOf, Overwritten;
    if lines != [] {
      var rest := Lost(lines[1..], NextAnon(lines[0], anon));
      LostMessages(lines[1..], NextAnon(lines[0], anon));
      SumAllHead(lines[0], rest, Messages);
      HeadIsOne(lines, anon);
      assert [] + rest == rest;
    }
  }

  /** A collision loses a message. */
  lemma CollisionLosesMessage(lines: seq<Line>, anon: nat)
    ensures SumLast(Entries(lines, anon), Messages) <= SumAll(Compact(lines), Messages)
    ensures !NoCollision(lines, anon) ==>
      SumLast(Entries(lines, anon), Messages) < SumAll(Compact(lines), Messages)
  {
    hide SumAll, SumLast, NoCollision;
    LostPlusLast(lines, anon, Messages);
    LostIsCollision(lines, anon);
    LostMessages(lines, anon);
  }

  /** Every sum counts exactly the last line of every id and the lines without one, if and only if no id was made up
    * that a message has. */
  lemma LastWinsExactly(lines: seq<Line>)
    ensures (forall m :: SumLast(Entries(lines, 0), m) == SumAll(Compact(lines), m)) <==> NoCollision(lines, 0)
  {
    hide SumAll, SumLast;
    CollisionLosesMessage(lines, 0);
    if NoCollision(lines, 0) {
      forall m ensures SumLast(Entries(lines, 0), m) == SumAll(Compact(lines), m) {
        SumsAreLastLines(lines, 0, m);
      }
    }
  }

  /** Two messages, one without an id and one with the id made up for it: only the second counts. */
  lemma CollisionExample(first: Usage, second: Usage)
    ensures var lines := [
        Line(Some(Message(None, None, Some("assistant"), Some(first), []))),
        Line(Some(Message(Some("__anon_1"), None, Some("assistant"), Some(second), [])))];
      SumLast(Entries(lines, 0), Tokens(Input)) == second.input
  {
    assert AnonKey(1) == "__anon_1" by {
      assert "__anon_" + "1" == "__anon_1";
    }
    hide AnonKey;
    var lines := [
      Line(Some(Message(None, None, Some("assistant"), Some(first), []))),
      Line(Some(Message(Some(AnonKey(1)), None, Some("assistant"), Some(second), [])))];
    var e := Entry(AnonKey(1), SnapshotOf(lines[1].message.value));
    assert lines[1..] == [lines[1]] && lines[1..][1..] == [];
    assert Entries(lines[1..], 1) == [e] + Entries([], 1) == [e];
    assert Entries(lines, 0)[1..] == [e];
    assert [e][1..] == [];
    assert SumLast([e], Tokens(Input)) == Value(e.snapshot, Tokens(Input));
  }

  // ---- Sums split by a name ----

  predicate NoRepeats(ks: seq<string>) {
    forall i, j :: 0 <= i < j < |ks| ==> ks[i] != ks[j]
  }

  /** A list of all the names in a set, each once. */
  ghost predicate Lists(ks: seq<string>, names: set<string>) {
    NoRepeats(ks) && forall k :: k in ks <==> k in names
  }

  function PartsValue(s: Snapshot, ks: seq<string>, part: string -> Measure): nat {
    if ks == [] then 0 else PartsValue(s, ks[..|ks| - 1], part) + Value(s, part(ks[|ks| - 1]))
  }

  function PartsSum(entries: seq<Entry>, ks: seq<string>, part: string -> Measure): nat {
    if ks == [] then 0 else PartsSum(entries, ks[..|ks| - 1], part) + SumLast(entries, part(ks[|ks| - 1]))
  }

  lemma {:induction false} PartsOfFirst(entries: seq<Entry>, ks: seq<string>, part: string -> Measure)
    requires entries != []
    ensures PartsSum(entries, ks, part) ==
      (if HasKey(entries[1..], entries[0].key) then 0 else PartsValue(entries[0].snapshot, ks, part))
      + PartsSum(entries[1..], ks, part)
  {
    if ks != [] {
      PartsOfFirst(entries, ks[..|ks| - 1], part);
    }
  }

  lemma {:induction false} NoParts(ks: seq<string>, part: string -> Measure)
    ensures PartsSum([], ks, part) == 0
  {
    if ks != [] {
      NoParts(ks[..|ks| - 1], part);
    }
  }

  /** If a measure of every last snapshot is the sum of its parts and a rest, so is the whole sum. */
  lemma {:induction false} SumSplits(
    entries: seq<Entry>, whole: Measure, part: string -> Measure, rest: Measure, ks: seq<string>)
    requires forall key :: HasKey(entries, key) ==>
      var s := LastOf(entries, key); Value(s, whole) == PartsValue(s, ks, part) + Value(s, rest)
    ensures SumLast(entries, whole) == PartsSum(entries, ks, part) + SumLast(entries, rest)
  {
    if entries == [] {
      NoParts(ks, part);
    } else {
      hide Value, PartsValue;
      forall key | HasKey(entries[1..], key)
        ensures var s := LastOf(entries[1..], key); Value(s, whole) == PartsValue(s, ks, part) + Value(s, rest)
      {
        assert HasKey(entries, key) && LastOf(entries, key) == LastOf(entries[1..], key);
      }
      SumSplits(entries[1..], whole, part, rest, ks);
      PartsOfFirst(entries, ks, part);
      assert HasKey(entries, entries[0].key);
    }
  }

  lemma {:induction false} SumAtLeast(entries: seq<Entry>, key: string, m: Measure)
    requires HasKey(entries, key)
    ensures SumLast(entries, m) >= Value(LastOf(entries, key), m)
  {
    if HasKey(entries[1..], key) {
      SumAtLeast(entries[1..], key, m);
    }
  }

  function ModelPart(f: Field): string -> Measure {
    model => ModelTokens(model, f)
  }

  function ToolPart(): string -> Measure {
    name => Invocations(name)
  }

  lemma {:induction false} ModelParts(s: Snapshot, ks: seq<string>, f: Field)
    requires NoRepeats(ks)
    ensures PartsValue(s, ks, ModelPart(f)) == if s.model.Some? && s.model.value in ks then TokensOf(s, f) else 0
  {
    hide NoRepeats, TokensOf;
    if ks != [] {
      if s.model.Some? {
        InOnePlace(ks, s.model.value);
      } else {
        InOnePlace(ks, "");
      }
      ModelParts(s, ks[..|ks| - 1], f);
    }
  }

  lemma InOnePlace(ks: seq<string>, k: string)
    requires NoRepeats(ks) && ks != []
    ensures NoRepeats(ks[..|ks| - 1])
    ensures k in ks <==> k in ks[..|ks| - 1] || k == ks[|ks| - 1]
    ensures !(k in ks[..|ks| - 1] && k == ks[|ks| - 1])
  {
    assert ks == ks[..|ks| - 1] + [ks[|ks| - 1]];
  }

  lemma {:induction false} OneToolMore(s: Snapshot, name: string, ks: seq<string>)
    requires NoRepeats(ks)
    ensures PartsValue(s.(toolNames := s.toolNames + [name]), ks, ToolPart()) ==
      PartsValue(s, ks, ToolPart()) + if name in ks then 1 else 0
  {
    if ks != [] {
      hide Value, ToolPart, NoRepeats;
      InOnePlace(ks, name);
      OneToolMore(s, name, ks[..|ks| - 1]);
      OneCallMore(s, name, ks[|ks| - 1]);
    }
  }

  lemma OneCallMore(s: Snapshot, name: string, k: string)
    ensures Value(s.(toolNames := s.toolNames + [name]), ToolPart()(k)) ==
      Value(s, ToolPart()(k)) + if name == k then 1 else 0
  {
    assert (s.toolNames + [name])[..|s.toolNames|] == s.toolNames;
  }

  lemma {:induction false} NoTools(s: Snapshot, ks: seq<string>)
    requires s.toolNames == []
    ensures PartsValue(s, ks, ToolPart()) == 0
  {
    if ks != [] {
      NoTools(s, ks[..|ks| - 1]);
    }
  }

  lemma {:induction false} ToolParts(s: Snapshot, ks: seq<string>)
    requires NoRepeats(ks) && forall i :: 0 <= i < |s.toolNames| ==> s.toolNames[i] in ks
    ensures PartsValue(s, ks, ToolPart()) == |s.toolNames|
    decreases |s.toolNames|
  {
    if s.toolNames == [] {
      NoTools(s, ks);
    } else {
      hide PartsValue;
      var n := |s.toolNames| - 1;
      var fewer := s.(toolNames := s.toolNames[..n]);
      ToolParts(fewer, ks);
      OneToolMore(fewer, s.toolNames[n], ks);
      assert fewer.toolNames + [s.toolNames[n]] == s.toolNames;
    }
  }
}
