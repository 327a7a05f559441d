/** The tool index of the bounded accumulator against the search of the visible blocks it replaces. */
module AccumulatorIndex {
  import opened Options
  import opened Conversation
  import opened AccumulatorSpec

  // ---- Handles of a list ----

  lemma {:induction false} HandlesConcat(s: seq<Segment<nat>>, t: seq<Segment<nat>>)
    ensures Handles(s + t) == Handles(s) + Handles(t)
  {
    if s == [] {
      assert s + t == t;
    } else {
      var hd := if s[0].ToolSegment? then [s[0].execution] else [];
      assert (s + t)[1..] == s[1..] + t;
      HandlesConcat(s[1..], t);
      assert hd + (Handles(s[1..]) + Handles(t)) == (hd + Handles(s[1..])) + Handles(t);
    }
  }

  lemma {:induction false} BlockHandlesConcat(a: seq<Block<Assistant<nat>>>, b: seq<Block<Assistant<nat>>>)
    ensures BlockHandles(a + b) == BlockHandles(a) + BlockHandles(b)
  {
    if a == [] {
      assert a + b == b;
    } else {
      assert (a + b)[1..] == a[1..] + b;
      BlockHandlesConcat(a[1..], b);
    }
  }

  function CurrentHandles(c: Core<nat>): seq<nat> {
    if c.current.Some? then Handles(c.current.value.segments) else []
  }

  lemma LiveSplit(c: Core<nat>)
    ensures Live(c) == BlockHandles(c.blocks) + CurrentHandles(c)
  {
    BlockHandlesConcat(c.blocks, if c.current.Some? then [AssistantBlock(c.current.value)] else []);
  }

  // A text segment in last place can be replaced without touching the executions.
  lemma HandlesLastText(ss: seq<Segment<nat>>, s: Segment<nat>)
    requires |ss| > 0 && ss[|ss| - 1].TextSegment? && s.TextSegment?
    ensures Handles(ss[|ss| - 1 := s]) == Handles(ss)
  {
    var init := ss[..|ss| - 1];
    assert ss == init + [ss[|ss| - 1]] && ss[|ss| - 1 := s] == init + [s];
    HandlesConcat(init, [ss[|ss| - 1]]);
    HandlesConcat(init, [s]);
  }

  lemma {:induction false} NoHandles(bs: seq<Block<Assistant<nat>>>)
    requires forall i :: 0 <= i < |bs| ==> !bs[i].AssistantBlock?
    ensures BlockHandles(bs) == []
  {
    if bs != [] {
      NoHandles(bs[1..]);
    }
  }

  lemma LiveClosed(c: Core<nat>)
    ensures Live(c.Closed()) == Live(c)
  {
    LiveSplit(c);
    LiveSplit(c.Closed());
    if c.current.Some? {
      BlockHandlesConcat(c.blocks, [AssistantBlock(c.current.value.(streaming := false))]);
    }
  }

  lemma LiveSegment(c: Core<nat>, messageId: string, raw: Option<Payload>, s: Segment<nat>)
    ensures Live(c.AddSegment(messageId, raw, s)) == Live(c) + Handles([s])
  {
    hide Live, BlockHandles;
    LiveSplit(c);
    LiveSplit(c.AddSegment(messageId, raw, s));
    HandlesConcat(c.Opened(messageId, raw).segments, [s]);
  }

  lemma HandlesEdit(a: Assistant<nat>, e: Event)
    requires Edits(e)
    ensures Handles(Edit(a, e).segments) == Handles(a.segments)
  {
    hide Handles;
    if e.AssistantText? {
      HandlesText(a, e.text, e.parent);
    } else if e.StreamDelta? {
      HandlesText(a, e.textDelta, None);
      HandlesNoText(a.segments, TextSegment("", None));
    }
  }

  lemma HandlesNoText(ss: seq<Segment<nat>>, s: Segment<nat>)
    requires s.TextSegment?
    ensures Handles(ss + [s]) == Handles(ss)
  {
    HandlesConcat(ss, [s]);
  }

  // Adding text to a turn, or to its last segment.
  lemma HandlesText(a: Assistant<nat>, text: string, parent: Option<string>)
    ensures Handles(WithText(a, text, parent).segments) == Handles(a.segments)
    ensures Handles(WithTextDelta(a, text).segments) == Handles(a.segments)
  {
    hide Handles;
    var n := |a.segments|;
    HandlesNoText(a.segments, TextSegment(text, parent));
    if n > 0 && a.segments[n - 1].TextSegment? {
      var s := a.segments[n - 1];
      HandlesLastText(a.segments, TextSegment(s.text + text, parent));
      HandlesLastText(a.segments, s.(text := s.text + text));
    }
  }

  lemma LiveEdited(c: Core<nat>, e: Event, raw: Option<Payload>)
    requires Edits(e)
    ensures Live(c.(current := Some(Edit(c.Opened(e.messageId, raw), e)))) == Live(c)
  {
    hide Edit, Live, BlockHandles;
    HandlesEdit(c.Opened(e.messageId, raw), e);
    LiveSplit(c);
    LiveSplit(c.(current := Some(Edit(c.Opened(e.messageId, raw), e))));
  }

  lemma LiveNoted(c: Core<nat>, notes: seq<Block<Assistant<nat>>>, ids: nat)
    requires forall i :: 0 <= i < |notes| ==> !notes[i].AssistantBlock?
    ensures Live(c.(blocks := c.blocks + notes, ids := ids)) == Live(c)
  {
    hide Live;
    NoHandles(notes);
    BlockHandlesConcat(c.blocks, notes);
    LiveSplit(c);
    LiveSplit(c.(blocks := c.blocks + notes, ids := ids));
  }

  /** Only starting a tool changes which executions are visible. */
  lemma LivePlain(c: Core<nat>, e: Event, raw: Option<Payload>, n: nat)
    ensures Live(HandlePlain(c, e, raw, n)) == Live(c)
  {
    hide Edit, Notes, Live, Numbers;
    var c1 := if Closes(e) then c.Closed() else c;
    LiveClosed(c);
    var c2 := if Edits(e) then c1.(current := Some(Edit(c1.Opened(e.messageId, raw), e))) else c1;
    if Edits(e) {
      LiveEdited(c1, e, raw);
    }
    LiveNoted(c2, Notes(e, raw, n, c2.ids), c2.ids + Numbers(e));
  }

  // Where a handle is held.
  lemma {:induction false} HandleSegment(ss: seq<Segment<nat>>, h: nat) returns (i: nat)
    requires h in Handles(ss)
    ensures i < |ss| && ss[i] == ToolSegment(h)
  {
    if ss[0].ToolSegment? && ss[0].execution == h {
      i := 0;
    } else {
      var j := HandleSegment(ss[1..], h);
      i := j + 1;
    }
  }

  lemma {:induction false} BlockOfHandle(bs: seq<Block<Assistant<nat>>>, h: nat) returns (i: nat)
    requires h in BlockHandles(bs)
    ensures i < |bs| && bs[i].AssistantBlock? && h in Handles(bs[i].assistant.segments)
  {
    if bs[0].AssistantBlock? && h in Handles(bs[0].assistant.segments) {
      i := 0;
    } else {
      var j := BlockOfHandle(bs[1..], h);
      i := j + 1;
    }
  }

  // ---- Soundness of the index, in every reachable state ----

  /** The visible executions are distinct members of the arena, oldest first. */
  ghost predicate LiveOrdered(b: Body) {
    var l := Live(b.core);
    && (forall h :: h in l ==> h < |b.execs|)
    && Increasing(l)
  }

  /** Every entry leads to an execution of that id which a visible segment holds. */
  ghost predicate IndexSound(b: Body) {
    forall id :: id in b.index ==>
      b.index[id] < |b.execs| && b.execs[b.index[id]].call.toolUseId == id && b.index[id] in Live(b.core)
  }

  ghost predicate Sound(b: Body) {
    LiveOrdered(b) && IndexSound(b)
  }

  lemma {:induction false} TouchAllFrame(b: Body, ids: seq<string>, u: Update)
    ensures var t := TouchAll(b, ids, u);
      && t.core == b.core && t.index == b.index && |t.execs| == |b.execs|
      && (forall h :: 0 <= h < |b.execs| ==> t.execs[h].call == b.execs[h].call)
    decreases |ids|
  {
    if ids != [] {
      TouchAllFrame(Touch(b, ids[0], u), ids[1..], u);
    }
  }

  lemma TouchIsTouchAll(b: Body, id: string, u: Update)
    ensures TouchAll(b, [id], u) == Touch(b, id, u)
  {
    assert TouchAll(Touch(b, id, u), [id][1..], u) == Touch(b, id, u);
  }

  lemma SoundTouchAll(b: Body, ids: seq<string>, u: Update)
    requires Sound(b)
    ensures Sound(TouchAll(b, ids, u))
  {
    TouchAllFrame(b, ids, u);
  }

  lemma SoundPlain(b: Body, e: Event, raw: Option<Payload>, n: nat)
    requires Sound(b)
    ensures Sound(b.(core := HandlePlain(b.core, e, raw, n)))
  {
    LivePlain(b.core, e, raw, n);
  }

  lemma SoundStart(b: Body, call: ToolCall, messageId: string, raw: Option<Payload>)
    requires Sound(b)
    ensures Sound(StartTool(b, call, messageId, raw))
  {
    var b' := StartTool(b, call, messageId, raw);
    LiveSegment(b.core, messageId, raw, ToolSegment(|b.execs|));
    assert Handles([ToolSegment(|b.execs|)]) == [|b.execs|];
    IncreasingSplit(Live(b.core), [|b.execs|]);
    assert forall i :: 0 <= i < |Live(b.core)| ==> Live(b.core)[i] in Live(b.core);
    assert Live(b'.core) == Live(b.core) + [|b.execs|];
  }

  lemma SoundHandle(cfg: Config, b: Body, h: Handled)
    requires Sound(b)
    ensures Sound(Handle(cfg, b, h))
  {
    hide Sound, HandlePlain, StartTool, TouchAll;
    var raw := RawJson(cfg, h.raw);
    match h.event
    case ToolUseStart(call, messageId) => SoundStart(b, call, messageId, raw);
    case ToolUseResult(id, output, isError, isReplay) =>
      var u := SetResult(ToolResult(cfg.clip(output, MAX_TOOL_OUTPUT), isError, isReplay));
      TouchIsTouchAll(b, id, u);
      SoundTouchAll(b, [id], u);
    case ToolSummary(summary, ids) => SoundTouchAll(b, ids, SetSummary(cfg.clip(summary, MAX_TOOL_SUMMARY)));
    case ToolProgress(id, elapsed, _, _) =>
      TouchIsTouchAll(b, id, SetProgress(elapsed));
      SoundTouchAll(b, [id], SetProgress(elapsed));
      SoundPlain(Touch(b, id, SetProgress(elapsed)), h.event, raw, h.pushNo);
    case _ => SoundPlain(b, h.event, raw, h.pushNo);
  }

  lemma {:induction false} SoundHandleAll(cfg: Config, b: Body, hs: seq<Handled>)
    requires Sound(b)
    ensures Sound(HandleAll(cfg, b, hs))
    decreases |hs|
  {
    if hs != [] {
      SoundHandle(cfg, b, hs[0]);
      SoundHandleAll(cfg, Handle(cfg, b, hs[0]), hs[1..]);
    }
  }

  ghost predicate Increasing(s: seq<nat>) {
    forall i, j :: 0 <= i < j < |s| ==> s[i] < s[j]
  }

  ghost predicate Precedes(s: seq<nat>, t: seq<nat>) {
    forall i, j :: 0 <= i < |s| && 0 <= j < |t| ==> s[i] < t[j]
  }

  lemma IncreasingSplit(s: seq<nat>, t: seq<nat>)
    ensures Increasing(s + t) <==> Increasing(s) && Increasing(t) && Precedes(s, t)
  {
    var st := s + t;
    assert forall i :: 0 <= i < |s| ==> st[i] == s[i];
    assert forall i :: 0 <= i < |t| ==> st[|s| + i] == t[i];
    assert forall i :: |s| <= i < |st| ==> st[i] == t[i - |s|];
  }

  /** Turn boundaries hold no executions, so an eviction takes the oldest ones. */
  lemma {:induction false} DropHandles(bs: seq<Block<Assistant<nat>>>, k: nat)
    ensures BlockHandles(bs) == BlockHandles(Dropped(bs, k)) + BlockHandles(Drop(bs, k))
  {
    if k != 0 && bs != [] {
      var k' := if bs[0].TurnBoundary? then k else k - 1;
      DropHandles(bs[1..], k');
      assert ([bs[0]] + Drop(bs[1..], k'))[1..] == Drop(bs[1..], k');
      assert ([bs[0]] + Dropped(bs[1..], k'))[1..] == Dropped(bs[1..], k');
    }
  }

  lemma LiveCut(b: Body, k: nat)
    ensures Live(b.core) == BlockHandles(Dropped(b.core.blocks, k)) + Live(Cut(b, k).core)
  {
    hide Live, BlockHandles;
    LiveSplit(b.core);
    LiveSplit(Cut(b, k).core);
    DropHandles(b.core.blocks, k);
  }

  lemma SoundCut(b: Body, k: nat)
    requires Sound(b)
    ensures Sound(Cut(b, k))
  {
    hide Live, BlockHandles;
    var e, gone := Cut(b, k), BlockHandles(Dropped(b.core.blocks, k));
    LiveCut(b, k);
    IncreasingSplit(gone, Live(e.core));
    forall h | h in Live(e.core) ensures h < |b.execs| {
      assert h in Live(b.core);
    }
    forall id | id in e.index ensures e.index[id] in Live(e.core) {
      IdsAtCarries(b.execs, gone, id);
      assert Carries(b.execs, b.index[id], id) && b.index[id] in Live(b.core);
    }
  }

  lemma SoundEnforce(cfg: Config, b: Body)
    requires Sound(b)
    ensures Sound(Enforce(cfg, b))
  {
    SoundCut(b, Excess(cfg, |b.core.blocks|));
  }

  lemma SoundPush(cfg: Config, s: State, i: Incoming)
    requires Sound(s.body)
    ensures Sound(PushState(cfg, s, i).body)
  {
    if !IsHeld(s.gate, i.event) {
      SoundHandleAll(cfg, s.body, Released(s.gate, i));
      SoundEnforce(cfg, HandleAll(cfg, s.body, Released(s.gate, i)));
    }
  }

  lemma EmptySound(ids: nat)
    ensures Sound(Initial(ids).body)
  {
    assert Live(Initial(ids).body.core) == [];
  }

  /** Over every run, with or without repeated tool ids, an index entry leads to a visible execution of its id. */
  lemma {:induction false} IndexEntriesAreVisible(cfg: Config, ids: nat, ops: seq<Op>)
    ensures Sound(Run(cfg, ids, ops).body)
  {
    if ops != [] {
      var s := Run(cfg, ids, ops[..|ops| - 1]);
      IndexEntriesAreVisible(cfg, ids, ops[..|ops| - 1]);
      match ops[|ops| - 1]
      case Push(i) => SoundPush(cfg, s, i);
      case Finalize => LiveClosed(s.body.core);
      case Reset =>
      case Elsewhere(n) => LiveIds(s.body.core, s.body.core.ids + n);
    }
  }

  lemma LiveIds(c: Core<nat>, ids: nat)
    ensures Live(c.(ids := ids)) == Live(c)
  {}

  // ---- The index against a linear search ----

  /** The newest visible execution of a tool id, found by searching from the end. */
  ghost function Scan(execs: seq<Execution>, live: seq<nat>, id: string): Option<nat> {
    if live == [] then None
    else
      var h := live[|live| - 1];
      if h < |execs| && execs[h].call.toolUseId == id then Some(h) else Scan(execs, live[..|live| - 1], id)
  }

  ghost function Lookup(b: Body, id: string): Option<nat> {
    if id in b.index then Some(b.index[id]) else None
  }

  /** For every id, the index and the search give the same answer. */
  ghost predicate IndexComplete(b: Body) {
    forall id :: Lookup(b, id) == Scan(b.execs, Live(b.core), id)
  }

  ghost predicate Carries(execs: seq<Execution>, h: nat, id: string) {
    h < |execs| && execs[h].call.toolUseId == id
  }

  lemma {:induction false} ScanIsNewest(execs: seq<Execution>, live: seq<nat>, id: string)
    requires Increasing(live)
    ensures match Scan(execs, live, id)
      case None => forall h :: h in live ==> !Carries(execs, h, id)
      case Some(n) => n in live && Carries(execs, n, id) && forall h :: h in live && Carries(execs, h, id) ==> h <= n
  {
    if live != [] {
      ScanIsNewest(execs, live[..|live| - 1], id);
      assert forall h :: h in live ==> h in live[..|live| - 1] || h == live[|live| - 1];
    }
  }

  lemma ScanAgrees(execs: seq<Execution>, live: seq<nat>, execs': seq<Execution>, live': seq<nat>, id: string)
    requires Increasing(live) && Increasing(live')
    requires forall h :: h in live && Carries(execs, h, id) <==> h in live' && Carries(execs', h, id)
    ensures Scan(execs, live, id) == Scan(execs', live', id)
  {
    ScanIsNewest(execs, live, id);
    ScanIsNewest(execs', live', id);
  }

  lemma CompleteTouchAll(b: Body, ids: seq<string>, u: Update)
    requires Sound(b) && IndexComplete(b)
    ensures IndexComplete(TouchAll(b, ids, u))
  {
    TouchAllFrame(b, ids, u);
    var t := TouchAll(b, ids, u);
    forall id ensures Lookup(t, id) == Scan(t.execs, Live(t.core), id) {
      assert Lookup(t, id) == Lookup(b, id);
      ScanAgrees(b.execs, Live(b.core), t.execs, Live(t.core), id);
    }
  }

  lemma CompletePlain(b: Body, e: Event, raw: Option<Payload>, n: nat)
    requires Sound(b) && IndexComplete(b)
    ensures IndexComplete(b.(core := HandlePlain(b.core, e, raw, n)))
  {
    LivePlain(b.core, e, raw, n);
    var t := b.(core := HandlePlain(b.core, e, raw, n));
    forall id ensures Lookup(t, id) == Scan(t.execs, Live(t.core), id) {
      assert Lookup(t, id) == Lookup(b, id);
    }
  }

  lemma CompleteStart(b: Body, call: ToolCall, messageId: string, raw: Option<Payload>)
    requires Sound(b) && IndexComplete(b)
    ensures IndexComplete(StartTool(b, call, messageId, raw))
  {
    var t := StartTool(b, call, messageId, raw);
    SoundStart(b, call, messageId, raw);
    LiveSegment(b.core, messageId, raw, ToolSegment(|b.execs|));
    assert Live(t.core) == Live(b.core) + [|b.execs|];
    forall id ensures Lookup(t, id) == Scan(t.execs, Live(t.core), id) {
      if id != call.toolUseId {
        assert Lookup(t, id) == Lookup(b, id);
        ScanAgrees(b.execs, Live(b.core), t.execs, Live(t.core), id);
      }
    }
  }

  /** Handling an event, also one that starts a tool under an id already in use, keeps index and search in step. */
  lemma HandleKeepsIndexComplete(cfg: Config, b: Body, h: Handled)
    requires Sound(b) && IndexComplete(b)
    ensures IndexComplete(Handle(cfg, b, h))
  {
    hide IndexComplete, HandlePlain, StartTool;
    var raw := RawJson(cfg, h.raw);
    match h.event
    case ToolUseStart(call, messageId) => CompleteStart(b, call, messageId, raw);
    case ToolUseResult(id, output, isError, isReplay) =>
      var u := SetResult(ToolResult(cfg.clip(output, MAX_TOOL_OUTPUT), isError, isReplay));
      TouchIsTouchAll(b, id, u);
      CompleteTouchAll(b, [id], u);
    case ToolSummary(summary, ids) => CompleteTouchAll(b, ids, SetSummary(cfg.clip(summary, MAX_TOOL_SUMMARY)));
    case ToolProgress(id, elapsed, _, _) =>
      TouchIsTouchAll(b, id, SetProgress(elapsed));
      SoundTouchAll(b, [id], SetProgress(elapsed));
      CompleteTouchAll(b, [id], SetProgress(elapsed));
      CompletePlain(Touch(b, id, SetProgress(elapsed)), h.event, raw, h.pushNo);
    case _ => CompletePlain(b, h.event, raw, h.pushNo);
  }

  /** The positions an eviction removes, and those it leaves. */
  ghost function Evicted(cfg: Config, b: Body): seq<nat> {
    BlockHandles(Dropped(b.core.blocks, Excess(cfg, |b.core.blocks|)))
  }

  /** No index entry that an eviction deletes leads to an execution that stays visible. */
  ghost predicate Spares(cfg: Config, b: Body) {
    forall id :: id in IdsAt(b.execs, Evicted(cfg, b)) && id in b.index ==>
      b.index[id] !in Live(Enforce(cfg, b).core)
  }

  /** An eviction keeps index and search in step exactly if it deletes no entry of an execution that stays visible,
    * that is, if no tool id of an evicted block is still in use by a block that stays. */
  lemma EvictionKeepsIndexComplete(cfg: Config, b: Body)
    requires Sound(b) && IndexComplete(b)
    ensures IndexComplete(Enforce(cfg, b)) <==> Spares(cfg, b)
    ensures Spares(cfg, b) <==> IdsAt(b.execs, Evicted(cfg, b)) !! IdsAt(b.execs, Live(Enforce(cfg, b).core))
  {
    hide Live, IdsAt, Enforce, Spares;
    var e, gone := Enforce(cfg, b), IdsAt(b.execs, Evicted(cfg, b));
    var left := IdsAt(b.execs, Live(e.core));
    forall id
      ensures Lookup(e, id) == Scan(e.execs, Live(e.core), id) <==> !(id in gone && id in left)
      ensures (id in gone && id in b.index ==> b.index[id] !in Live(e.core)) <==> !(id in gone && id in left)
    {
      EvictedId(cfg, b, id);
    }
    SparesIs(cfg, b);
    if IndexComplete(e) {
      forall id ensures !(id in gone && id in left) {
        assert Lookup(e, id) == Scan(e.execs, Live(e.core), id);
      }
    }
  }

  lemma SparesIs(cfg: Config, b: Body)
    ensures Spares(cfg, b) <==> forall id ::
      id in IdsAt(b.execs, Evicted(cfg, b)) ==> id in b.index ==> b.index[id] !in Live(Enforce(cfg, b).core)
  {}

  // A search looks at what is left before it looks at what is gone.
  lemma {:induction false} ScanSplit(execs: seq<Execution>, gone: seq<nat>, left: seq<nat>, id: string)
    ensures var s := Scan(execs, left, id); Scan(execs, gone + left, id) == if s.Some? then s else Scan(execs, gone, id)
  {
    if left == [] {
      assert gone + left == gone;
    } else {
      var n := |left| - 1;
      assert (gone + left)[..|gone + left| - 1] == gone + left[..n];
      ScanSplit(execs, gone, left[..n], id);
    }
  }

  lemma {:induction false} ScanFinds(execs: seq<Execution>, hs: seq<nat>, id: string)
    ensures Scan(execs, hs, id).Some? <==> id in IdsAt(execs, hs)
    ensures Scan(execs, hs, id).Some? ==> Scan(execs, hs, id).value in hs
    ensures forall h :: h in hs && Carries(execs, h, id) ==> id in IdsAt(execs, hs)
  {
    if hs != [] {
      var n := |hs| - 1;
      ScanFinds(execs, hs[..n], id);
      IdsAtCarries(execs, hs, id);
      IdsAtCarries(execs, hs[..n], id);
      assert forall h :: h in hs <==> h in hs[..n] || h == hs[n];
    }
  }

  // What an eviction does to the lookup of one id.
  lemma EvictedId(cfg: Config, b: Body, id: string)
    requires Sound(b) && IndexComplete(b)
    ensures var e, gone := Enforce(cfg, b), IdsAt(b.execs, Evicted(cfg, b));
      var clash := id in gone && id in IdsAt(b.execs, Live(e.core));
      && (Lookup(e, id) == Scan(e.execs, Live(e.core), id) <==> !clash)
      && ((id in gone && id in b.index ==> b.index[id] !in Live(e.core)) <==> !clash)
  {
    hide Live, BlockHandles, IndexComplete, Scan, IdsAt, LiveOrdered;
    var e, gone := Enforce(cfg, b), Evicted(cfg, b);
    LiveCut(b, Excess(cfg, |b.core.blocks|));
    LookupIsScan(b, id);
    ScanSplit(b.execs, gone, Live(e.core), id);
    ScanFinds(b.execs, gone, id);
    ScanFinds(b.execs, Live(e.core), id);
  }

  lemma LookupIsScan(b: Body, id: string)
    requires IndexComplete(b)
    ensures Lookup(b, id) == Scan(b.execs, Live(b.core), id)
  {}

  lemma IdsAtCarries(execs: seq<Execution>, hs: seq<nat>, id: string)
    ensures id in IdsAt(execs, hs) <==> exists h :: h in hs && Carries(execs, h, id)
  {
    if id in IdsAt(execs, hs) {
      var i :| 0 <= i < |hs| && hs[i] < |execs| && execs[hs[i]].call.toolUseId == id;
      assert hs[i] in hs && Carries(execs, hs[i], id);
    }
  }

  // ---- Distinct tool ids ----

  ghost function ArenaIds(execs: seq<Execution>): seq<string> {
    seq(|execs|, i requires 0 <= i < |execs| => execs[i].call.toolUseId)
  }

  lemma HandleStarts(cfg: Config, b: Body, h: Handled)
    ensures ArenaIds(Handle(cfg, b, h).execs) == ArenaIds(b.execs) + StartedBy(h)
  {
    match h.event
    case ToolSummary(summary, ids) => TouchAllFrame(b, ids, SetSummary(cfg.clip(summary, MAX_TOOL_SUMMARY)));
    case _ =>
  }

  lemma {:induction false} HandleAllKeepsIndexComplete(cfg: Config, b: Body, hs: seq<Handled>)
    requires Sound(b) && IndexComplete(b)
    ensures IndexComplete(HandleAll(cfg, b, hs))
    decreases |hs|
  {
    if hs != [] {
      SoundHandle(cfg, b, hs[0]);
      HandleKeepsIndexComplete(cfg, b, hs[0]);
      HandleAllKeepsIndexComplete(cfg, Handle(cfg, b, hs[0]), hs[1..]);
    }
  }

  lemma DistinctSpares(cfg: Config, b: Body)
    requires Sound(b) && Distinct(ArenaIds(b.execs))
    ensures Spares(cfg, b)
  {
    hide Live, BlockHandles;
    var e, gone := Enforce(cfg, b), Evicted(cfg, b);
    LiveCut(b, Excess(cfg, |b.core.blocks|));
    IncreasingSplit(gone, Live(e.core));
    forall id | id in IdsAt(b.execs, gone) && id in b.index ensures b.index[id] !in Live(e.core) {
      IdsAtCarries(b.execs, gone, id);
      var h :| h in gone && Carries(b.execs, h, id);
      assert ArenaIds(b.execs)[h] == ArenaIds(b.execs)[b.index[id]];
    }
  }

  lemma {:induction false} HandleAllStarts(cfg: Config, b: Body, r: Ref, hs: seq<Handled>)
    requires ArenaIds(b.execs) == r.started
    ensures ArenaIds(HandleAll(cfg, b, hs).execs) == RefHandleAll(cfg, r, hs).started
    ensures RefHandleAll(cfg, r, hs).gate == r.gate
    decreases |hs|
  {
    if hs != [] {
      HandleStarts(cfg, b, hs[0]);
      HandleAllStarts(cfg, Handle(cfg, b, hs[0]), RefHandleOne(cfg, r, hs[0]), hs[1..]);
    }
  }

  /** The arena is the history of started tools, and both accumulators stand behind the same gate. */
  lemma {:induction false} ArenaIsHistory(cfg: Config, ids: nat, ops: seq<Op>)
    ensures ArenaIds(Run(cfg, ids, ops).body.execs) == RefRun(cfg, ids, ops).started
    ensures Run(cfg, ids, ops).gate == RefRun(cfg, ids, ops).gate
  {
    if ops != [] {
      var prefix := ops[..|ops| - 1];
      var s, r := Run(cfg, ids, prefix), RefRun(cfg, ids, prefix);
      ArenaIsHistory(cfg, ids, prefix);
      match ops[|ops| - 1]
      case Push(i) =>
        HandleAllStarts(cfg, s.body, r.(gate := Through(cfg, r.gate, i)), Released(r.gate, i));
      case _ =>
    }
  }

  // ---- Runs whose evictions spare every id in use ----

  /** A push that evicts, if it evicts, spares the entries of all executions that stay visible. */
  ghost predicate SparesPush(cfg: Config, s: State, i: Incoming) {
    !IsHeld(s.gate, i.event) ==> Spares(cfg, HandleAll(cfg, s.body, Released(s.gate, i)))
  }

  ghost predicate SparesRun(cfg: Config, ids: nat, ops: seq<Op>) {
    forall n :: 0 <= n < |ops| && ops[n].Push? ==> SparesPush(cfg, Run(cfg, ids, ops[..n]), ops[n].incoming)
  }

  lemma {:induction false} SparesPrefix(cfg: Config, ids: nat, ops: seq<Op>)
    requires ops != []
    ensures var last := ops[|ops| - 1];
      SparesRun(cfg, ids, ops) <==>
        && SparesRun(cfg, ids, ops[..|ops| - 1])
        && (last.Push? ==> SparesPush(cfg, Run(cfg, ids, ops[..|ops| - 1]), last.incoming))
  {
    hide SparesPush, Run;
    var m := |ops| - 1;
    forall n | 0 <= n < m ensures ops[..m][..n] == ops[..n] && ops[..m][n] == ops[n] {}
  }

  lemma CompleteStep(cfg: Config, s: State, op: Op)
    requires Sound(s.body) && IndexComplete(s.body)
    ensures IndexComplete(Step(cfg, s, op).body) <==> (op.Push? ==> SparesPush(cfg, s, op.incoming))
  {
    hide Sound, Enforce, HandleAll, Spares, Live;
    match op
    case Push(i) =>
      if !IsHeld(s.gate, i.event) {
        SoundHandleAll(cfg, s.body, Released(s.gate, i));
        HandleAllKeepsIndexComplete(cfg, s.body, Released(s.gate, i));
        EvictionKeepsIndexComplete(cfg, HandleAll(cfg, s.body, Released(s.gate, i)));
      }
    case Finalize =>
      LiveClosed(s.body.core);
      forall id ensures Lookup(FinalizeState(s).body, id) == Lookup(s.body, id) {}
    case Reset => NothingVisible(s.body.core.ids);
    case Elsewhere(n) =>
      LiveIds(s.body.core, s.body.core.ids + n);
      forall id ensures Lookup(Step(cfg, s, op).body, id) == Lookup(s.body, id) {}
  }

  lemma NothingVisible(ids: nat)
    ensures IndexComplete(Body(Core([], None, ids), [], map[]))
  {
    assert Live(Core([], None, ids)) == [];
  }

  /** Lookup by id is a linear search of the visible blocks for every id, all through a run. */
  ghost predicate CompleteThroughout(cfg: Config, ids: nat, ops: seq<Op>) {
    forall n :: 0 <= n <= |ops| ==> IndexComplete(Run(cfg, ids, ops[..n]).body)
  }

  lemma {:induction false} CompleteOneMore(cfg: Config, ids: nat, ops: seq<Op>)
    requires ops != []
    ensures CompleteThroughout(cfg, ids, ops) <==>
      CompleteThroughout(cfg, ids, ops[..|ops| - 1]) && IndexComplete(Run(cfg, ids, ops).body)
  {
    hide IndexComplete, Run;
    var last := |ops| - 1;
    forall n | 0 <= n <= last ensures ops[..last][..n] == ops[..n] {}
    assert ops[..|ops|] == ops;
  }

  /** That is so exactly if the evictions of the run spare every id in use. */
  lemma {:induction false} IndexIsSearch(cfg: Config, ids: nat, ops: seq<Op>)
    ensures CompleteThroughout(cfg, ids, ops) <==> SparesRun(cfg, ids, ops)
    ensures SparesRun(cfg, ids, ops) ==> IndexComplete(Run(cfg, ids, ops).body)
  {
    hide IndexComplete, SparesPush, Step, Run, Sound;
    if ops == [] {
      RunNothing(cfg, ids);
      NothingVisible(ids);
    } else {
      hide SparesRun, CompleteThroughout;
      var prefix, last := ops[..|ops| - 1], |ops| - 1;
      IndexIsSearch(cfg, ids, prefix);
      IndexEntriesAreVisible(cfg, ids, prefix);
      CompleteOneMore(cfg, ids, ops);
      SparesPrefix(cfg, ids, ops);
      RunLast(cfg, ids, ops, last);
      assert ops[..|ops|] == ops;
      if SparesRun(cfg, ids, prefix) {
        CompleteStep(cfg, Run(cfg, ids, prefix), ops[last]);
      }
    }
  }

  /** Distinct tool ids are enough for that. */
  lemma {:induction false} DistinctToolsSpare(cfg: Config, ids: nat, ops: seq<Op>)
    requires DistinctTools(cfg, ids, ops)
    ensures SparesRun(cfg, ids, ops)
  {
    hide Enforce, HandleAll, Sound, Spares, Run, RefRun;
    forall n | 0 <= n < |ops| && ops[n].Push? ensures SparesPush(cfg, Run(cfg, ids, ops[..n]), ops[n].incoming) {
      var s, i := Run(cfg, ids, ops[..n]), ops[n].incoming;
      if !IsHeld(s.gate, i.event) {
        var b := HandleAll(cfg, s.body, Released(s.gate, i));
        IndexEntriesAreVisible(cfg, ids, ops[..n]);
        SoundHandleAll(cfg, s.body, Released(s.gate, i));
        ArenaIsHistory(cfg, ids, ops[..n + 1]);
        RunLast(cfg, ids, ops, n);
        assert b.execs == Run(cfg, ids, ops[..n + 1]).body.execs by { EnforceKeepsArena(cfg, b); }
        DistinctSpares(cfg, b);
      }
    }
  }

  lemma RunNothing(cfg: Config, ids: nat)
    ensures Run(cfg, ids, []) == Initial(ids)
  {}

  lemma EnforceKeepsArena(cfg: Config, b: Body)
    ensures Enforce(cfg, b).execs == b.execs
  {}

  lemma RunLast(cfg: Config, ids: nat, ops: seq<Op>, n: nat)
    requires n < |ops|
    ensures Run(cfg, ids, ops[..n + 1]) == Step(cfg, Run(cfg, ids, ops[..n]), ops[n])
  {
    hide Step;
    assert ops[..n + 1][..n] == ops[..n];
  }

  // ---- What is in the index ----

  /** The tool ids of the visible executions. */
  ghost function VisibleIds(b: Body): set<string> {
    IdsAt(b.execs, Live(b.core))
  }

  lemma EntriesAreVisible(b: Body)
    requires Sound(b)
    ensures b.index.Keys <= VisibleIds(b)
    ensures IndexComplete(b) ==> b.index.Keys == VisibleIds(b)
  {
    hide Live, IdsAt, Scan, LiveOrdered, IndexComplete;
    forall id
      ensures id in b.index ==> id in VisibleIds(b)
      ensures IndexComplete(b) && id in VisibleIds(b) ==> id in b.index
    {
      ScanFinds(b.execs, Live(b.core), id);
      assert id in b.index ==> Carries(b.execs, b.index[id], id);
      if IndexComplete(b) {
        LookupIsScan(b, id);
      }
    }
  }

  /** Every entry leads to the newest execution that was started under its id. */
  ghost predicate EntriesNewest(b: Body) {
    forall id, h: nat :: id in b.index && Carries(b.execs, h, id) ==> h <= b.index[id]
  }

  lemma NewestTouchAll(b: Body, ids: seq<string>, u: Update)
    requires EntriesNewest(b)
    ensures EntriesNewest(TouchAll(b, ids, u))
  {
    TouchAllFrame(b, ids, u);
    var t := TouchAll(b, ids, u);
    forall id, h: nat | id in t.index && Carries(t.execs, h, id) ensures h <= t.index[id] {
      assert Carries(b.execs, h, id);
    }
  }

  lemma NewestHandle(cfg: Config, b: Body, h: Handled)
    requires EntriesNewest(b)
    ensures EntriesNewest(Handle(cfg, b, h))
  {
    hide EntriesNewest, HandlePlain, StartTool, Touch;
    var raw := RawJson(cfg, h.raw);
    match h.event
    case ToolUseStart(call, messageId) => NewestStart(b, call, messageId, raw);
    case ToolUseResult(id, output, isError, isReplay) =>
      var u := SetResult(ToolResult(cfg.clip(output, MAX_TOOL_OUTPUT), isError, isReplay));
      TouchIsTouchAll(b, id, u);
      NewestTouchAll(b, [id], u);
    case ToolProgress(id, elapsed, _, _) =>
      TouchIsTouchAll(b, id, SetProgress(elapsed));
      NewestTouchAll(b, [id], SetProgress(elapsed));
      NewestCore(Touch(b, id, SetProgress(elapsed)), HandlePlain(b.core, h.event, raw, h.pushNo));
      TouchAllFrame(b, [id], SetProgress(elapsed));
    case ToolSummary(summary, ids) => NewestTouchAll(b, ids, SetSummary(cfg.clip(summary, MAX_TOOL_SUMMARY)));
    case _ => NewestCore(b, HandlePlain(b.core, h.event, raw, h.pushNo));
  }

  lemma NewestCore(b: Body, c: Core<nat>)
    requires EntriesNewest(b)
    ensures EntriesNewest(b.(core := c))
  {}

  lemma NewestStart(b: Body, call: ToolCall, messageId: string, raw: Option<Payload>)
    requires EntriesNewest(b)
    ensures EntriesNewest(StartTool(b, call, messageId, raw))
  {
    forall id, h: nat | id in b.index && Carries(b.execs + [Start(call)], h, id) && id != call.toolUseId
      ensures h <= b.index[id]
    {
      assert Carries(b.execs, h, id);
    }
  }

  lemma {:induction false} NewestHandleAll(cfg: Config, b: Body, hs: seq<Handled>)
    requires EntriesNewest(b)
    ensures EntriesNewest(HandleAll(cfg, b, hs))
    decreases |hs|
  {
    hide Handle;
    if hs != [] {
      NewestHandle(cfg, b, hs[0]);
      NewestHandleAll(cfg, Handle(cfg, b, hs[0]), hs[1..]);
    }
  }

  lemma NewestEnforce(cfg: Config, b: Body)
    requires EntriesNewest(b)
    ensures EntriesNewest(Enforce(cfg, b))
  {
    hide IdsAt;
  }

  lemma {:induction false} EntriesAreNewest(cfg: Config, ids: nat, ops: seq<Op>)
    ensures EntriesNewest(Run(cfg, ids, ops).body)
  {
    if ops != [] {
      hide Enforce, HandleAll;
      var s := Run(cfg, ids, ops[..|ops| - 1]);
      EntriesAreNewest(cfg, ids, ops[..|ops| - 1]);
      match ops[|ops| - 1]
      case Push(i) =>
        NewestHandleAll(cfg, s.body, Released(s.gate, i));
        NewestEnforce(cfg, HandleAll(cfg, s.body, Released(s.gate, i)));
      case _ =>
    }
  }

  lemma CompleteIfAllThere(b: Body)
    requires Sound(b) && EntriesNewest(b) && b.index.Keys == VisibleIds(b)
    ensures IndexComplete(b)
  {
    hide Live, IdsAt;
    forall id ensures Lookup(b, id) == Scan(b.execs, Live(b.core), id) {
      ScanFinds(b.execs, Live(b.core), id);
      ScanIsNewest(b.execs, Live(b.core), id);
      assert id in b.index ==> b.index[id] in Live(b.core) && Carries(b.execs, b.index[id], id);
    }
  }

  lemma SameSize<T>(a: set<T>, b: set<T>)
    requires a <= b
    ensures |a| <= |b| && (|a| == |b| <==> a == b)
  {
    assert b == a + (b - a);
    assert |b| == |a| + |b - a|;
  }

  /** Over every run the index has entries for visible ids only. It has one for each of them if and only if lookup is a
    * search, in particular as long as evictions spare the ids in use. */
  lemma IndexIsVisibleIds(cfg: Config, ids: nat, ops: seq<Op>)
    ensures var b := Run(cfg, ids, ops).body;
      && b.index.Keys <= VisibleIds(b) && |b.index| <= |VisibleIds(b)|
      && (|b.index| == |VisibleIds(b)| <==> IndexComplete(b))
      && (SparesRun(cfg, ids, ops) ==> b.index.Keys == VisibleIds(b))
  {
    hide Run, VisibleIds, SparesRun, IndexComplete;
    var b := Run(cfg, ids, ops).body;
    IndexEntriesAreVisible(cfg, ids, ops);
    EntriesAreNewest(cfg, ids, ops);
    EntriesAreVisible(b);
    SameSize(b.index.Keys, VisibleIds(b));
    if b.index.Keys == VisibleIds(b) {
      CompleteIfAllThere(b);
    }
    if SparesRun(cfg, ids, ops) {
      IndexIsSearch(cfg, ids, ops);
    }
  }

  /** The index keeps to the cap exactly if no more than that many tool ids are visible. */
  lemma IndexKeepsToCap(cfg: Config, ids: nat, ops: seq<Op>)
    ensures var b := Run(cfg, ids, ops).body;
      && (|VisibleIds(b)| <= cfg.maxBlocks ==> |b.index| <= cfg.maxBlocks)
      && (SparesRun(cfg, ids, ops) ==> (|b.index| <= cfg.maxBlocks <==> |VisibleIds(b)| <= cfg.maxBlocks))
  {
    hide Run, VisibleIds, SparesRun;
    IndexIsVisibleIds(cfg, ids, ops);
  }

  lemma {:induction false} FewIds(execs: seq<Execution>, hs: seq<nat>)
    ensures |IdsAt(execs, hs)| <= |hs|
  {
    if hs == [] {
      assert IdsAt(execs, hs) == {};
    } else {
      var n := |hs| - 1;
      FewIds(execs, hs[..n]);
      var last := if hs[n] < |execs| then {execs[hs[n]].call.toolUseId} else {};
      assert IdsAt(execs, hs) <= IdsAt(execs, hs[..n]) + last;
      SameSize(IdsAt(execs, hs), IdsAt(execs, hs[..n]) + last);
    }
  }

  /** The index has at most as many entries as there are visible executions, over every run. */
  lemma IndexFitsLive(cfg: Config, ids: nat, ops: seq<Op>)
    ensures var b := Run(cfg, ids, ops).body;
      |b.index| <= |Live(b.core)|
  {
    hide Run, Live, IdsAt;
    var b := Run(cfg, ids, ops).body;
    IndexIsVisibleIds(cfg, ids, ops);
    FewIds(b.execs, Live(b.core));
  }
}
