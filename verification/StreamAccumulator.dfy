/** The accumulator as it is written: blocks, the open turn and the tool index are fields, turns and executions are
  * objects that handlers change in place, and an execution is shared by its segment and the index. */
module StreamAccumulator {
  import opened Options
  import opened Conversation
  import opened AccumulatorSpec
  import opened AccumulatorIndex
  import opened AccumulatorCap
  import opened AccumulatorGate
  import opened AccumulatorEffects

  class ToolExecution {
    const call: ToolCall
    var result: Option<ToolResult>
    var progress: Option<real>
    var summary: Option<string>
    var status: Status

    constructor (call: ToolCall)
      ensures this.call == call && Value() == Start(call)
    {
      this.call := call;
      result, progress, summary, status := None, None, None, Running;
    }

    ghost function Value(): Execution
      reads this
    {
      Execution(call, result, progress, summary, status)
    }
  }

  class AssistantTurn {
    const id: string
    const raw: Option<Payload>
    var segments: seq<Segment<ToolExecution>>
    var thinking: Option<string>
    var streaming: bool

    constructor (id: string, raw: Option<Payload>)
      ensures this.id == id && this.raw == raw && segments == [] && thinking == None && streaming
    {
      this.id, this.raw := id, raw;
      segments, thinking, streaming := [], None, true;
    }
  }

  /** The counter behind `block-n`, shared by all accumulators of the process. */
  class BlockCounter {
    var value: nat

    constructor ()
      ensures value == 0
    {
      value := 0;
    }
  }

  // A block that is no assistant turn, seen as a block over another kind of turn.
  function Recast<A, B>(b: Block<A>): Block<B>
    requires !b.AssistantBlock?
  {
    match b
    case UserBlock(id, text, timestamp, raw) => UserBlock(id, text, timestamp, raw)
    case InteractionBlock(id, kind, requestId, data) => InteractionBlock(id, kind, requestId, data)
    case TurnBoundary(id, success, data) => TurnBoundary(id, success, data)
    case NoticeBlock(id, kind, data) => NoticeBlock(id, kind, data)
    case SystemBlock(id, kind, data, raw) => SystemBlock(id, kind, data, raw)
    case ProgressBlock(id, progress, parent) => ProgressBlock(id, progress, parent)
  }

  // What HandlePlain amounts to for an event that only writes to the turn.
  lemma PlainEdits(c: Core<nat>, e: Event, raw: Option<Payload>, n: nat)
    requires Edits(e)
    ensures HandlePlain(c, e, raw, n) == c.(current := Some(Edit(c.Opened(e.messageId, raw), e)))
  {
    var notes: seq<Block<Assistant<nat>>> := Notes(e, raw, n, c.ids);
    assert c.blocks + notes == c.blocks;
  }

  lemma PlainCloses(c: Core<nat>, e: Event, raw: Option<Payload>, n: nat)
    requires Closes(e)
    ensures HandlePlain(c, e, raw, n) ==
      c.Closed().(blocks := c.Closed().blocks + Notes(e, raw, n, c.ids), ids := c.ids + Numbers(e))
  {}

  lemma PlainNotes(c: Core<nat>, e: Event, raw: Option<Payload>, n: nat)
    requires !Closes(e) && !Edits(e)
    ensures HandlePlain(c, e, raw, n) ==
      c.(blocks := c.blocks + Notes(e, raw, n, c.ids), ids := c.ids + Numbers(e))
  {}

  // The newest execution becomes the last segment of the turn and the entry of its id.
  ghost function Attached(b: Body, call: ToolCall): Body
    requires |b.execs| > 0
  {
    b.(core := b.core.AddSegment("", None, ToolSegment(|b.execs| - 1)),
       index := b.index[call.toolUseId := |b.execs| - 1])
  }

  // Starting a tool in a turn that has just been opened for it.
  lemma StartOpened(b: Body, call: ToolCall, messageId: string, raw: Option<Payload>)
    ensures StartTool(b.(core := b.core.(current := Some(b.core.Opened(messageId, raw)))), call, "", None) ==
      StartTool(b, call, messageId, raw)
  {}

  // A text segment brings no execution.
  lemma LiveText(c: Core<nat>, a: Assistant<nat>, text: string, parent: Option<string>)
    requires c.current == Some(a)
    ensures Live(c.(current := Some(a.(segments := a.segments + [TextSegment(text, parent)])))) == Live(c)
  {
    var ss: seq<Segment<nat>> := [TextSegment(text, parent)];
    LiveSegment(c, a.id, a.raw, ss[0]);
    assert ss[1..] == [] && Handles(ss) == [];
  }

  // Handling an event that is not about tools.
  lemma HandleIsPlain(cfg: Config, b: Body, h: Handled)
    requires !h.event.ToolUseStart? && !h.event.ToolUseResult? && !h.event.ToolProgress? && !h.event.ToolSummary?
    ensures Handle(cfg, b, h) == b.(core := HandlePlain(b.core, h.event, RawJson(cfg, h.raw), h.pushNo))
  {
    hide HandlePlain;
  }

  lemma PlainPushNo(c: Core<nat>, e: Event, raw: Option<Payload>, m: nat, n: nat)
    requires !e.UserMessageEcho?
    ensures HandlePlain(c, e, raw, m) == HandlePlain(c, e, raw, n)
  {
    hide Edit;
  }

  // Whatever leaves the executions of a core as they are keeps the index sound.
  lemma SoundSame(b: Body, c: Core<nat>)
    requires Sound(b) && Live(c) == Live(b.core)
    ensures Sound(b.(core := c))
  {
    hide Live;
  }

  lemma SoundArena(b: Body, x: Execution)
    requires Sound(b)
    ensures Sound(b.(execs := b.execs + [x]))
  {
    hide Live;
  }

  lemma LiveOpened(c: Core<nat>, a: Assistant<nat>)
    requires c.current == None && a.segments == []
    ensures Live(c.(current := Some(a))) == Live(c)
  {
    LiveSplit(c);
    LiveSplit(c.(current := Some(a)));
  }

  lemma LiveThought(c: Core<nat>, a: Assistant<nat>)
    requires c.current.Some? && c.current.value.segments == a.segments
    ensures Live(c.(current := Some(a))) == Live(c)
  {
    LiveSplit(c);
    LiveSplit(c.(current := Some(a)));
  }

  lemma LiveExtended(c: Core<nat>, text: string)
    requires c.current.Some? && |c.current.value.segments| > 0
    requires c.current.value.segments[|c.current.value.segments| - 1].TextSegment?
    ensures Live(c.(current := Some(WithTextDelta(c.current.value, text)))) == Live(c)
  {
    var ss, n := c.current.value.segments, |c.current.value.segments| - 1;
    HandlesLastText(ss, ss[n].(text := ss[n].text + text));
    LiveSplit(c);
    LiveSplit(c.(current := Some(WithTextDelta(c.current.value, text))));
  }

  // ---- Evicting one block at a time ----

  // Leaving out the first expendable block is a splice.
  lemma {:induction false} DropFirst<A>(bs: seq<Block<A>>, idx: nat)
    requires idx < |bs| && !bs[idx].TurnBoundary? && forall j :: 0 <= j < idx ==> bs[j].TurnBoundary?
    ensures Drop(bs, 1) == bs[..idx] + bs[idx + 1..] && Dropped(bs, 1) == [bs[idx]]
  {
    if idx > 0 {
      DropFirst(bs[1..], idx - 1);
      assert bs[..idx] == [bs[0]] + bs[1..][..idx - 1];
    } else {
      assert Drop(bs[1..], 0) == bs[1..] && Dropped(bs[1..], 0) == [];
    }
  }

  lemma {:induction false} DroppedInTwo<A>(bs: seq<Block<A>>, k: nat)
    ensures Dropped(bs, k + 1) == Dropped(bs, k) + Dropped(Drop(bs, k), 1)
  {
    if k == 0 {
      assert Drop(bs, 0) == bs && Dropped(bs, 0) == [];
    } else if bs != [] {
      var tl := bs[1..];
      if bs[0].TurnBoundary? {
        DroppedInTwo(tl, k);
        assert ([bs[0]] + Drop(tl, k))[1..] == Drop(tl, k);
      } else {
        DroppedInTwo(tl, k - 1);
        assert Dropped(bs, k + 1) == [bs[0]] + Dropped(tl, k);
      }
    }
  }

  lemma IdsAtConcat(execs: seq<Execution>, a: seq<nat>, b: seq<nat>)
    ensures IdsAt(execs, a + b) == IdsAt(execs, a) + IdsAt(execs, b)
  {
    forall id ensures id in IdsAt(execs, a + b) <==> id in IdsAt(execs, a) + IdsAt(execs, b) {
      IdsAtCarries(execs, a + b, id);
      IdsAtCarries(execs, a, id);
      IdsAtCarries(execs, b, id);
    }
  }

  lemma CutCut(b: Body, k: nat)
    ensures Cut(Cut(b, k), 1) == Cut(b, k + 1)
  {
    var bs := b.core.blocks;
    DropDrop(bs, k, 1);
    DroppedInTwo(bs, k);
    BlockHandlesConcat(Dropped(bs, k), Dropped(Drop(bs, k), 1));
    IdsAtConcat(b.execs, BlockHandles(Dropped(bs, k)), BlockHandles(Dropped(Drop(bs, k), 1)));
  }

  lemma CutNothing(b: Body)
    ensures Cut(b, 0) == b
  {
    assert Dropped(b.core.blocks, 0) == [] && IdsAt(b.execs, []) == {};
  }

  // Once only turn boundaries are left, cutting more changes nothing.
  lemma {:induction false} CutNoMore(b: Body, k: nat, n: nat)
    requires k <= n && Expendable(Cut(b, k).core.blocks) == 0
    ensures Cut(b, n) == Cut(b, k)
    decreases n - k
  {
    hide Cut;
    if k < n {
      CutCut(b, k);
      CutOnlyBoundaries(Cut(b, k));
      CutNoMore(b, k + 1, n);
    }
  }

  lemma CutOnlyBoundaries(b: Body)
    requires Expendable(b.core.blocks) == 0
    ensures Cut(b, 1) == b
  {
    NothingExpendable(b.core.blocks, 1);
    DroppedNothing(b.core.blocks, 1);
    assert IdsAt(b.execs, []) == {};
  }

  lemma {:induction false} AllBoundaries<A>(bs: seq<Block<A>>)
    requires forall j :: 0 <= j < |bs| ==> bs[j].TurnBoundary?
    ensures Expendable(bs) == 0
  {
    if bs != [] {
      AllBoundaries(bs[1..]);
    }
  }

  lemma OneBlockHandles(b: Block<Assistant<nat>>)
    ensures BlockHandles([b]) == if b.AssistantBlock? then Handles(b.assistant.segments) else []
  {
    assert [b][1..] == [];
  }

  // ---- Objects against values, for executions in the order they were started ----

  ghost predicate SegmentMatches(arena: seq<ToolExecution>, s: Segment<ToolExecution>, v: Segment<nat>) {
    match (s, v)
    case (TextSegment(text, parent), TextSegment(text', parent')) => text == text' && parent == parent'
    case (ToolSegment(x), ToolSegment(h)) => h < |arena| && arena[h] == x
    case _ => false
  }

  ghost predicate SegmentsMatch(arena: seq<ToolExecution>, ss: seq<Segment<ToolExecution>>, vs: seq<Segment<nat>>) {
    |ss| == |vs| && forall i :: 0 <= i < |ss| ==> SegmentMatches(arena, ss[i], vs[i])
  }

  ghost predicate TurnMatches(arena: seq<ToolExecution>, t: AssistantTurn, v: Assistant<nat>)
    reads t
  {
    && t.id == v.id && t.raw == v.raw && t.thinking == v.thinking && t.streaming == v.streaming
    && SegmentsMatch(arena, t.segments, v.segments)
  }

  ghost predicate BlockMatches(arena: seq<ToolExecution>, b: Block<AssistantTurn>, v: Block<Assistant<nat>>)
    reads if b.AssistantBlock? then {b.assistant} else {}
  {
    if b.AssistantBlock?
    then v.AssistantBlock? && TurnMatches(arena, b.assistant, v.assistant)
    else v == Recast(b)
  }

  /** A list of blocks over these turns. */
  ghost predicate BlocksMatch(arena: seq<ToolExecution>, turns: set<AssistantTurn>,
                              bs: seq<Block<AssistantTurn>>, vs: seq<Block<Assistant<nat>>>)
    reads turns
  {
    |bs| == |vs| && forall i :: 0 <= i < |bs| ==>
      (bs[i].AssistantBlock? ==> bs[i].assistant in turns) && BlockMatches(arena, bs[i], vs[i])
  }

  ghost predicate ArenaMatches(arena: seq<ToolExecution>, execs: seq<Execution>)
    reads arena
  {
    && |arena| == |execs|
    && (forall h :: 0 <= h < |arena| ==> arena[h].Value() == execs[h])
    && (forall g, h :: 0 <= g < h < |arena| ==> arena[g] != arena[h])
  }

  ghost predicate IndexMatches(
    arena: seq<ToolExecution>, index: map<string, ToolExecution>, handles: map<string, nat>)
  {
    && index.Keys == handles.Keys
    && forall id :: id in index ==> handles[id] < |arena| && index[id] == arena[handles[id]]
  }

  lemma NothingMatches()
    ensures ArenaMatches([], []) && IndexMatches([], map[], map[]) && BlocksMatch([], {}, [], [])
  {}

  lemma TurnGrows(arena: seq<ToolExecution>, x: ToolExecution, t: AssistantTurn, v: Assistant<nat>)
    requires TurnMatches(arena, t, v)
    ensures TurnMatches(arena + [x], t, v)
  {
    forall i | 0 <= i < |t.segments| ensures SegmentMatches(arena + [x], t.segments[i], v.segments[i]) {
      assert SegmentMatches(arena, t.segments[i], v.segments[i]);
    }
  }

  lemma BlocksGrowArena(arena: seq<ToolExecution>, x: ToolExecution, turns: set<AssistantTurn>,
                        bs: seq<Block<AssistantTurn>>, vs: seq<Block<Assistant<nat>>>)
    requires BlocksMatch(arena, turns, bs, vs)
    ensures BlocksMatch(arena + [x], turns, bs, vs)
  {
    hide TurnMatches;
    forall i | 0 <= i < |bs| ensures BlockMatches(arena + [x], bs[i], vs[i]) {
      assert BlockMatches(arena, bs[i], vs[i]);
      if bs[i].AssistantBlock? {
        TurnGrows(arena, x, bs[i].assistant, vs[i].assistant);
      }
    }
  }

  lemma BlocksAppend(arena: seq<ToolExecution>, turns: set<AssistantTurn>, turns': set<AssistantTurn>,
                     bs: seq<Block<AssistantTurn>>, vs: seq<Block<Assistant<nat>>>,
                     b: Block<AssistantTurn>, v: Block<Assistant<nat>>)
    requires BlocksMatch(arena, turns, bs, vs) && turns <= turns'
    requires BlockMatches(arena, b, v) && (b.AssistantBlock? ==> b.assistant in turns')
    ensures BlocksMatch(arena, turns', bs + [b], vs + [v])
  {
    hide BlockMatches;
  }

  lemma BlocksSplice(arena: seq<ToolExecution>, turns: set<AssistantTurn>,
                     bs: seq<Block<AssistantTurn>>, vs: seq<Block<Assistant<nat>>>, idx: nat)
    requires BlocksMatch(arena, turns, bs, vs) && idx < |bs|
    ensures BlocksMatch(arena, turns, bs[..idx] + bs[idx + 1..], vs[..idx] + vs[idx + 1..])
  {
    hide BlockMatches;
  }

  // Whether a block is a turn boundary, here and in the state.
  lemma BoundariesMatch(arena: seq<ToolExecution>, turns: set<AssistantTurn>,
                        bs: seq<Block<AssistantTurn>>, vs: seq<Block<Assistant<nat>>>)
    requires BlocksMatch(arena, turns, bs, vs)
    ensures |bs| == |vs| && forall i :: 0 <= i < |bs| ==> (bs[i].TurnBoundary? <==> vs[i].TurnBoundary?)
  {
    forall i | 0 <= i < |bs| ensures bs[i].TurnBoundary? <==> vs[i].TurnBoundary? {
      assert BlockMatches(arena, bs[i], vs[i]);
    }
  }

  lemma IndexLess(arena: seq<ToolExecution>, index: map<string, ToolExecution>, handles: map<string, nat>,
                  gone: set<string>)
    requires IndexMatches(arena, index, handles)
    ensures IndexMatches(arena, index - gone, handles - gone)
  {}

  lemma IndexMore(arena: seq<ToolExecution>, index: map<string, ToolExecution>, handles: map<string, nat>,
                  id: string, h: nat)
    requires IndexMatches(arena, index, handles) && h < |arena|
    ensures IndexMatches(arena, index[id := arena[h]], handles[id := h])
  {}

  lemma IndexGrowsArena(arena: seq<ToolExecution>, x: ToolExecution, index: map<string, ToolExecution>,
                        handles: map<string, nat>)
    requires IndexMatches(arena, index, handles)
    ensures IndexMatches(arena + [x], index, handles)
  {}

  lemma ArenaGrows(arena: seq<ToolExecution>, x: ToolExecution, execs: seq<Execution>)
    requires ArenaMatches(arena, execs) && x !in arena
    ensures ArenaMatches(arena + [x], execs + [x.Value()])
  {}

  class StreamAccumulator {
    const cfg: Config
    const ids: BlockCounter
    var blocks: seq<Block<AssistantTurn>>
    var currentAssistant: AssistantTurn?
    var toolExecutionIndex: map<string, ToolExecution>
    var pushCounter: nat
    var initialized: bool
    var buffer: seq<Incoming>
    var currentRaw: Option<Payload>

    // The specified state, the executions in the order they were started, and the finalised turns.
    ghost var st: State
    ghost var arena: seq<ToolExecution>
    ghost var turns: set<AssistantTurn>
    ghost var Repr: set<object>

    // The public operations so far, and the block counter before the first and after the last of them.
    ghost var history: seq<Op>
    ghost const start: nat
    ghost var counted: nat

    ghost predicate OpenMatches(v: Option<Assistant<nat>>)
      reads `arena, `currentAssistant, currentAssistant
    {
      && (currentAssistant == null <==> v == None)
      && (currentAssistant != null ==> TurnMatches(arena, currentAssistant, v.value))
    }

    /** Fields, objects and the specified state agree. Handlers keep this. */
    ghost predicate Consistent()
      reads this, Repr
      ensures Consistent() ==> this in Repr && ids in Repr
    {
      && this in Repr && ids in Repr && turns <= Repr
      && (currentAssistant != null ==> currentAssistant in Repr && currentAssistant !in turns)
      && (forall x :: x in arena ==> x in Repr)
      && st.gate == Gate(pushCounter, initialized, buffer)
      && ArenaMatches(arena, st.body.execs)
      && IndexMatches(arena, toolExecutionIndex, st.body.index)
      && BlocksMatch(arena, turns, blocks, st.body.core.blocks)
      && OpenMatches(st.body.core.current)
      && Sound(st.body)
    }

    /** The specified state is the one after the recorded operations. */
    ghost predicate Recorded()
      reads this, ids
    {
      && counted <= ids.value
      && State(st.gate, st.body.(core := st.body.core.(ids := counted))) == Run(cfg, start, history)
    }

    /** What holds between two public operations, as long as nobody sets the block counter back. */
    ghost predicate Valid()
      reads this, Repr
      ensures Valid() ==> this in Repr && ids in Repr
    {
      Consistent() && Recorded()
    }

    /** How many block numbers other sessions have drawn since the last operation. */
    ghost function Moved(): nat
      reads this, ids
    {
      if counted <= ids.value then ids.value - counted else 0
    }

    /** What the history is after one more operation. */
    ghost function Longer(op: Op): seq<Op>
      reads this, ids
    {
      history + [Elsewhere(Moved()), op]
    }

    /** The specified state, with the block counter as it stands now. */
    ghost function View(): State
      reads this, ids
    {
      State(st.gate, ViewBody())
    }

    ghost function ViewBody(): Body
      reads this, ids
    {
      Body(ViewCore(), st.body.execs, st.body.index)
    }

    ghost function ViewCore(): Core<nat>
      reads this, ids
    {
      Core(st.body.core.blocks, st.body.core.current, ids.value)
    }

    constructor (cfg: Config, ids: BlockCounter)
      ensures Valid() && fresh(Repr - {ids}) && this.cfg == cfg && this.ids == ids
      ensures View() == Initial(ids.value) && history == [] && start == ids.value
    {
      this.cfg, this.ids := cfg, ids;
      blocks, currentAssistant, toolExecutionIndex := [], null, map[];
      pushCounter, initialized, buffer, currentRaw := 0, false, [], None;
      st, arena, turns := Initial(0), [], {};
      Repr := {this, ids};
      history, start, counted := [], ids.value, ids.value;
      new;
      hide Consistent, Recorded, Run;
      IsEmptied();
      IsNew();
    }

    /** getBlocks: the finalised blocks, then the open turn. Block by block they are what the state makes visible. */
    method GetBlocks() returns (all: seq<Block<AssistantTurn>>)
      requires Consistent()
      ensures |all| == |View().body.core.Visible()| && (currentAssistant == null ==> all == blocks)
      ensures forall i :: 0 <= i < |all| ==>
        var v := View().body.core.Visible()[i];
        if all[i].AssistantBlock? then v.AssistantBlock? && TurnMatches(arena, all[i].assistant, v.assistant)
        else v == Recast(all[i])
    {
      all := blocks;
      if currentAssistant != null {
        var a: AssistantTurn := currentAssistant;
        all := blocks + [AssistantBlock(a)];
      }
    }

    /** Whether a segment of a finalised turn or of the open turn holds this very object. */
    ghost predicate IsShown(x: ToolExecution)
      reads this, Repr
      requires Consistent()
    {
      || (exists i :: 0 <= i < |blocks| && HoldsIn(blocks[i], x))
      || (currentAssistant != null && ToolSegment(x) in currentAssistant.segments)
    }

    ghost predicate HoldsIn(b: Block<AssistantTurn>, x: ToolExecution)
      reads `turns, turns
    {
      b.AssistantBlock? && b.assistant in turns && ToolSegment(x) in b.assistant.segments
    }

    /** No entry of the index dangles: it is the very object that a segment of a visible block holds, so changing
      * the one changes the other. */
    lemma IndexIsShared(id: string)
      requires Consistent() && id in toolExecutionIndex
      ensures IsShown(toolExecutionIndex[id]) && toolExecutionIndex[id].call.toolUseId == id
    {
      hide BlocksMatch, Live;
      var c := st.body.core;
      var h := st.body.index[id];
      assert toolExecutionIndex[id].Value() == st.body.execs[h];
      LiveSplit(c);
      if h in BlockHandles(c.blocks) {
        HeldFinalised(h);
      } else {
        HeldOpen(h);
      }
    }

    lemma HeldFinalised(h: nat)
      requires Consistent() && h < |arena| && h in BlockHandles(st.body.core.blocks)
      ensures IsShown(arena[h])
    {
      hide Sound, ArenaMatches, IndexMatches, BlockHandles, Handles;
      var vs := st.body.core.blocks;
      var i := BlockOfHandle(vs, h);
      var j := HandleSegment(vs[i].assistant.segments, h);
      assert BlockMatches(arena, blocks[i], vs[i]);
      assert SegmentMatches(arena, blocks[i].assistant.segments[j], vs[i].assistant.segments[j]);
      assert HoldsIn(blocks[i], arena[h]);
    }

    lemma HeldOpen(h: nat)
      requires Consistent() && h < |arena| && h in CurrentHandles(st.body.core)
      ensures IsShown(arena[h])
    {
      hide Sound, ArenaMatches, IndexMatches, Handles;
      var v := st.body.core.current.value;
      var j := HandleSegment(v.segments, h);
      assert SegmentMatches(arena, currentAssistant.segments[j], v.segments[j]);
    }

    // ---- Helpers ----

    method ExtractRawJson() returns (raw: Option<Payload>)
      ensures raw == RawJson(cfg, currentRaw)
    {
      raw := if currentRaw.Some? then cfg.envelope(currentRaw.value) else None;
    }

    method EnsureAssistant(messageId: string) returns (a: AssistantTurn)
      requires Consistent()
      modifies this`currentAssistant, this`st, this`Repr
      ensures Consistent() && fresh(Repr - old(Repr)) && old(Repr) <= Repr
      ensures currentAssistant == a && if old(currentAssistant) != null then a == old(currentAssistant) else fresh(a)
      ensures arena == old(arena)
      ensures st.body.core.current.Some? && TurnMatches(arena, a, st.body.core.current.value)
      ensures View() == State(old(st.gate), old(ViewBody()).(core := old(ViewCore()).(current :=
                Some(old(ViewCore()).Opened(messageId, RawJson(cfg, currentRaw))))))
    {
      hide Sound, BlocksMatch, IndexMatches, ArenaMatches, RawJson;
      if currentAssistant == null {
        var raw := ExtractRawJson();
        var turn := new AssistantTurn(messageId, raw);
        currentAssistant := turn;
        Repr := Repr + {turn};
        ghost var v := Assistant(messageId, [], None, true, raw);
        LiveOpened(st.body.core, v);
        SoundSame(st.body, st.body.core.(current := Some(v)));
        st := st.(body := st.body.(core := st.body.core.(current := Some(v))));
      }
      a := currentAssistant;
    }

    method FinalizeCurrentAssistant()
      requires Consistent()
      modifies this`blocks, this`currentAssistant, this`st, this`turns, currentAssistant
      ensures Consistent() && currentAssistant == null
      ensures blocks == old(blocks) +
        old(if currentAssistant == null then [] else var a: AssistantTurn := currentAssistant; [AssistantBlock(a)])
      ensures old(currentAssistant) != null ==> !old(currentAssistant).streaming
      ensures View() == State(old(st.gate), old(ViewBody()).(core := old(ViewCore()).Closed()))
    {
      hide Sound, BlocksMatch, IndexMatches, ArenaMatches, SegmentsMatch;
      if currentAssistant != null {
        ghost var c := st.body.core;
        var a: AssistantTurn := currentAssistant;
        a.streaming := false;
        BlocksAppend(arena, turns, turns + {a}, blocks, c.blocks, AssistantBlock(a),
                     AssistantBlock(c.current.value.(streaming := false)));
        blocks := blocks + [AssistantBlock(a)];
        turns := turns + {a};
        currentAssistant := null;
        LiveClosed(c);
        SoundSame(st.body, c.Closed());
        st := st.(body := st.body.(core := c.Closed()));
      }
    }

    method GenId() returns (id: BlockId)
      requires Consistent()
      modifies ids
      ensures Consistent()
      ensures id == GeneratedId(old(ids.value) + 1) && ids.value == old(ids.value) + 1
    {
      hide Sound, BlocksMatch, IndexMatches, ArenaMatches, OpenMatches;
      ids.value := ids.value + 1;
      id := GeneratedId(ids.value);
    }

    // blocks.push(block), for a block that is no assistant turn.
    method PushBlock(b: Block<AssistantTurn>)
      requires Consistent() && !b.AssistantBlock?
      modifies this`blocks, this`st
      ensures Consistent()
      ensures View() == State(old(st.gate), old(ViewBody()).(core := old(ViewCore()).(blocks :=
                old(ViewCore().blocks) + [Recast(b)])))
    {
      hide Sound, BlocksMatch, IndexMatches, ArenaMatches, OpenMatches;
      ghost var c := st.body.core;
      ghost var v := Recast(b);
      BlocksAppend(arena, turns, turns, blocks, c.blocks, b, v);
      LiveNoted(c, [v], c.ids);
      SoundSame(st.body, c.(blocks := c.blocks + [v]));
      blocks := blocks + [b];
      st := st.(body := st.body.(core := c.(blocks := c.blocks + [v])));
    }

    // assistant.segments.push of a text segment.
    method AppendText(text: string, parent: Option<string>)
      requires Consistent() && currentAssistant != null
      modifies currentAssistant`segments, this`st
      ensures Consistent()
      ensures View() == State(old(st.gate), old(ViewBody()).(core := old(ViewCore()).(current :=
                Some(old(st.body.core.current.value).(segments :=
                  old(st.body.core.current.value.segments) + [TextSegment(text, parent)])))))
    {
      hide Sound, BlocksMatch, IndexMatches, ArenaMatches;
      ghost var c := st.body.core;
      ghost var a := c.current.value;
      ghost var more := a.segments + [TextSegment(text, parent)];
      LiveText(c, a, text, parent);
      SoundSame(st.body, c.(current := Some(a.(segments := more))));
      currentAssistant.segments := currentAssistant.segments + [TextSegment(text, parent)];
      st := st.(body := st.body.(core := c.(current := Some(a.(segments := more)))));
    }

    // lastSeg.text += text.
    method ExtendLastText(text: string)
      requires Consistent() && currentAssistant != null
      requires |currentAssistant.segments| > 0
      requires currentAssistant.segments[|currentAssistant.segments| - 1].TextSegment?
      modifies currentAssistant`segments, this`st
      ensures Consistent()
      ensures var v := old(st.body.core.current.value.segments);
        && |v| > 0 && v[|v| - 1].TextSegment?
        && View() == State(old(st.gate), old(ViewBody()).(core := old(ViewCore()).(current :=
             Some(old(st.body.core.current.value).(segments :=
               v[|v| - 1 := v[|v| - 1].(text := v[|v| - 1].text + text)])))))
    {
      hide Sound, BlocksMatch, IndexMatches, ArenaMatches;
      ghost var c := st.body.core;
      ghost var a := c.current.value;
      var ss := currentAssistant.segments;
      var n := |ss| - 1;
      LastMatches(currentAssistant, a);
      LiveExtended(c, text);
      SoundSame(st.body, c.(current := Some(WithTextDelta(a, text))));
      currentAssistant.segments := ss[n := ss[n].(text := ss[n].text + text)];
      st := st.(body := st.body.(core := c.(current := Some(WithTextDelta(a, text)))));
    }

    // Whether the last segment of a turn is text, here and in the state.
    lemma LastMatches(a: AssistantTurn, v: Assistant<nat>)
      requires TurnMatches(arena, a, v)
      ensures |a.segments| == |v.segments|
      ensures |a.segments| > 0 ==>
        var s, s' := a.segments[|a.segments| - 1], v.segments[|v.segments| - 1];
        s.TextSegment? == s'.TextSegment? && (s.TextSegment? ==> s.text == s'.text && s.parent == s'.parent)
    {}

    method AppendThinking(t: string)
      requires Consistent() && currentAssistant != null
      modifies currentAssistant`thinking, this`st
      ensures Consistent()
      ensures View() == State(old(st.gate), old(ViewBody()).(core := old(ViewCore()).(current :=
                Some(WithThinking(old(st.body.core.current.value), t)))))
    {
      hide Sound, BlocksMatch, IndexMatches, ArenaMatches, SegmentsMatch;
      ghost var c := st.body.core;
      ghost var a := WithThinking(c.current.value, t);
      LiveThought(c, a);
      SoundSame(st.body, c.(current := Some(a)));
      currentAssistant.thinking := Some(currentAssistant.thinking.GetOr("") + t);
      st := st.(body := st.body.(core := c.(current := Some(a))));
    }

    // ---- Handlers that write to the turn ----

    // The state after an event that is not about tools.
    ghost function After(b: Body, e: Event, raw: Option<Payload>): Body {
      b.(core := HandlePlain(b.core, e, raw, 0))
    }

    method HandleAssistantText(e: Event)
      requires Consistent() && e.AssistantText?
      modifies this`currentAssistant, this`st, this`Repr, currentAssistant
      ensures Consistent() && fresh(Repr - old(Repr)) && old(Repr) <= Repr && arena == old(arena)
      ensures View() == State(old(st.gate), After(old(ViewBody()), e, RawJson(cfg, currentRaw)))
    {
      hide Consistent, HandlePlain, Sound, TurnMatches;
      PlainEdits(ViewCore(), e, RawJson(cfg, currentRaw), 0);
      var a := EnsureAssistant(e.messageId);
      LastMatches(a, st.body.core.current.value);
      var n := |a.segments|;
      if n > 0 && a.segments[n - 1].TextSegment? && a.segments[n - 1].parent == e.parent {
        ExtendLastText(e.text);
      } else {
        AppendText(e.text, e.parent);
      }
    }

    method HandleAssistantThinking(e: Event)
      requires Consistent() && e.AssistantThinking?
      modifies this`currentAssistant, this`st, this`Repr, currentAssistant
      ensures Consistent() && fresh(Repr - old(Repr)) && old(Repr) <= Repr && arena == old(arena)
      ensures View() == State(old(st.gate), After(old(ViewBody()), e, RawJson(cfg, currentRaw)))
    {
      hide Consistent, HandlePlain, Sound, TurnMatches;
      PlainEdits(ViewCore(), e, RawJson(cfg, currentRaw), 0);
      var a := EnsureAssistant(e.messageId);
      AppendThinking(e.thinking);
    }

    method HandleContentBlockStart(e: Event)
      requires Consistent() && e.StreamDelta? && e.delta.ContentBlockStart?
      modifies this`currentAssistant, this`st, this`Repr, currentAssistant
      ensures Consistent() && fresh(Repr - old(Repr)) && old(Repr) <= Repr && arena == old(arena)
      ensures View() == State(old(st.gate), After(old(ViewBody()), e, RawJson(cfg, currentRaw)))
    {
      hide Consistent, HandlePlain, Sound, TurnMatches;
      PlainEdits(ViewCore(), e, RawJson(cfg, currentRaw), 0);
      var a := EnsureAssistant(e.messageId);
      AppendText("", None);
    }

    method HandleContentBlockDelta(e: Event)
      requires Consistent() && e.StreamDelta? && e.delta.ContentBlockDelta?
      modifies this`currentAssistant, this`st, this`Repr, currentAssistant
      ensures Consistent() && fresh(Repr - old(Repr)) && old(Repr) <= Repr && arena == old(arena)
      ensures View() == State(old(st.gate), After(old(ViewBody()), e, RawJson(cfg, currentRaw)))
    {
      hide Consistent, HandlePlain, Sound, RawJson, TurnMatches;
      ghost var raw := RawJson(cfg, currentRaw);
      if e.textDelta != "" {
        PlainEdits(ViewCore(), e, raw, 0);
        var a := EnsureAssistant(e.messageId);
        LastMatches(a, st.body.core.current.value);
        var n := |a.segments|;
        if n > 0 && a.segments[n - 1].TextSegment? {
          ExtendLastText(e.textDelta);
        }
      } else if e.thinkingDelta != "" {
        PlainEdits(ViewCore(), e, raw, 0);
        var a := EnsureAssistant(e.messageId);
        AppendThinking(e.thinkingDelta);
      } else {
        PlainNotes(ViewCore(), e, raw, 0);
      }
    }

    method HandleStreamDelta(e: Event)
      requires Consistent() && e.StreamDelta?
      modifies this`currentAssistant, this`st, this`Repr, this`blocks, this`turns, currentAssistant, ids
      ensures Consistent() && fresh(Repr - old(Repr)) && old(Repr) <= Repr && arena == old(arena)
      ensures View() == State(old(st.gate), After(old(ViewBody()), e, RawJson(cfg, currentRaw)))
    {
      hide Consistent, HandlePlain, Sound, RawJson, TurnMatches;
      match e.delta
      case ContentBlockStart => HandleContentBlockStart(e);
      case ContentBlockDelta => HandleContentBlockDelta(e);
      case MessageStop =>
        PlainCloses(ViewCore(), e, RawJson(cfg, currentRaw), 0);
        FinalizeCurrentAssistant();
      case OtherDelta(_) =>
        PlainNotes(ViewCore(), e, RawJson(cfg, currentRaw), 0);
        PushSystem(OtherStreamDelta, e.data);
    }

    // ---- Handlers that add a block ----

    method PushSystem(kind: SystemKind, data: Payload)
      requires Consistent()
      modifies this`blocks, this`st, ids
      ensures Consistent()
      ensures View() == State(old(st.gate), old(ViewBody()).(core := old(ViewCore()).(
                blocks := old(ViewCore().blocks) +
                  [SystemBlock(GeneratedId(old(ids.value) + 1), kind, data, RawJson(cfg, currentRaw))],
                ids := old(ids.value) + 1)))
    {
      hide RawJson;
      var raw := ExtractRawJson();
      var id := GenId();
      PushBlock(SystemBlock(id, kind, data, raw));
    }

    method PushNotice(kind: NoticeKind, data: Payload)
      requires Consistent()
      modifies this`blocks, this`st, ids
      ensures Consistent()
      ensures View() == State(old(st.gate), old(ViewBody()).(core := old(ViewCore()).(
                blocks := old(ViewCore().blocks) + [NoticeBlock(GeneratedId(old(ids.value) + 1), kind, data)],
                ids := old(ids.value) + 1)))
    {
      var id := GenId();
      PushBlock(NoticeBlock(id, kind, data));
    }

    method PushInteraction(kind: InteractionKind, requestId: string, data: Payload)
      requires Consistent()
      modifies this`blocks, this`st, ids
      ensures Consistent()
      ensures View() == State(old(st.gate), old(ViewBody()).(core := old(ViewCore()).(
                blocks := old(ViewCore().blocks) +
                  [InteractionBlock(GeneratedId(old(ids.value) + 1), kind, requestId, data)],
                ids := old(ids.value) + 1)))
    {
      var id := GenId();
      PushBlock(InteractionBlock(id, kind, requestId, data));
    }

    method PushProgress(progress: ProgressData, parent: Option<string>)
      requires Consistent()
      modifies this`blocks, this`st, ids
      ensures Consistent()
      ensures View() == State(old(st.gate), old(ViewBody()).(core := old(ViewCore()).(
                blocks := old(ViewCore().blocks) + [ProgressBlock(GeneratedId(old(ids.value) + 1), progress, parent)],
                ids := old(ids.value) + 1)))
    {
      var id := GenId();
      PushBlock(ProgressBlock(id, progress, parent));
    }

    method HandleUserMessageEcho(e: Event)
      requires Consistent() && e.UserMessageEcho?
      modifies this`blocks, this`currentAssistant, this`st, this`turns, currentAssistant
      ensures Consistent()
      ensures View() == State(old(st.gate), old(ViewBody()).(core :=
                HandlePlain(old(ViewCore()), e, RawJson(cfg, currentRaw), pushCounter)))
    {
      hide Consistent, HandlePlain, RawJson;
      PlainCloses(ViewCore(), e, RawJson(cfg, currentRaw), pushCounter);
      FinalizeCurrentAssistant();
      var raw := ExtractRawJson();
      PushBlock(UserBlock(UserId(pushCounter), e.content, e.timestamp, raw));
    }

    method HandleAssistantError(e: Event)
      requires Consistent() && e.AssistantError?
      modifies this`blocks, this`currentAssistant, this`st, this`turns, currentAssistant, ids
      ensures Consistent()
      ensures View() == State(old(st.gate), After(old(ViewBody()), e, RawJson(cfg, currentRaw)))
    {
      hide Consistent, HandlePlain, RawJson;
      PlainCloses(ViewCore(), e, RawJson(cfg, currentRaw), 0);
      FinalizeCurrentAssistant();
      PushNotice(AssistantErrorNotice, e.data);
    }

    method HandleTurnComplete(e: Event)
      requires Consistent() && e.TurnComplete?
      modifies this`blocks, this`currentAssistant, this`st, this`turns, currentAssistant, ids
      ensures Consistent()
      ensures View() == State(old(st.gate), After(old(ViewBody()), e, RawJson(cfg, currentRaw)))
    {
      hide Consistent, HandlePlain, RawJson;
      PlainCloses(ViewCore(), e, RawJson(cfg, currentRaw), 0);
      FinalizeCurrentAssistant();
      var id := GenId();
      PushBlock(TurnBoundary(id, true, e.data));
    }

    method HandleTurnError(e: Event)
      requires Consistent() && e.TurnError?
      modifies this`blocks, this`currentAssistant, this`st, this`turns, currentAssistant, ids
      ensures Consistent()
      ensures View() == State(old(st.gate), After(old(ViewBody()), e, RawJson(cfg, currentRaw)))
    {
      hide Consistent, HandlePlain, RawJson;
      PlainCloses(ViewCore(), e, RawJson(cfg, currentRaw), 0);
      FinalizeCurrentAssistant();
      var id := GenId();
      PushBlock(TurnBoundary(id, false, e.data));
    }

    method HandleTaskProgress(e: Event)
      requires Consistent() && e.TaskProgress?
      modifies this`blocks, this`st, ids
      ensures Consistent()
      ensures View() == State(old(st.gate), After(old(ViewBody()), e, RawJson(cfg, currentRaw)))
    {
      hide Consistent, HandlePlain, RawJson;
      PlainNotes(ViewCore(), e, RawJson(cfg, currentRaw), 0);
      ghost var bs := st.body.core.blocks;
      PushSystem(TaskProgressed, e.data);
      PushProgress(AgentProgress(e.description, e.agentTaskId, e.taskSummary), e.taskToolUseId);
      assert st.body.core.blocks == bs + Notes(e, RawJson(cfg, currentRaw), 0, old(ids.value));
    }

    // ---- Handlers about tools ----

    method HandleToolUseStart(call: ToolCall, messageId: string)
      requires Consistent()
      modifies this`currentAssistant, this`toolExecutionIndex, this`st, this`arena, this`Repr, currentAssistant
      ensures Consistent() && fresh(Repr - old(Repr)) && old(Repr) <= Repr
      ensures View() == State(old(st.gate), StartTool(old(ViewBody()), call, messageId, RawJson(cfg, currentRaw)))
    {
      hide Consistent, Sound, RawJson, StartTool;
      var a := EnsureAssistant(messageId);
      ghost var b := st.body;
      Register(a, call);
      StartOpened(old(ViewBody()), call, messageId, RawJson(cfg, currentRaw));
    }

    // The execution goes to the end of the open turn and under its id in the index: one object, two places.
    method Register(a: AssistantTurn, call: ToolCall)
      requires Consistent() && a == currentAssistant
      modifies this`toolExecutionIndex, this`st, this`arena, this`Repr, a`segments
      ensures Consistent() && fresh(Repr - old(Repr)) && old(Repr) <= Repr
      ensures View() == State(old(st.gate), StartTool(old(ViewBody()), call, "", None))
    {
      hide Consistent, Sound;
      Facts();
      SoundStart(st.body, call, "", None);
      var execution := Create(call);
      Attach(a, execution);
    }

    lemma Facts()
      requires Consistent()
      ensures Sound(st.body) && (currentAssistant != null <==> st.body.core.current.Some?)
    {}

    method Create(call: ToolCall) returns (execution: ToolExecution)
      requires Consistent()
      modifies this`st, this`arena, this`Repr
      ensures Consistent() && fresh(Repr - old(Repr)) && old(Repr) <= Repr
      ensures execution.call == call && arena == old(arena) + [execution] && |arena| == |st.body.execs|
      ensures st == State(old(st.gate), old(st.body).(execs := old(st.body.execs) + [Start(call)]))
    {
      hide Sound, BlocksMatch, IndexMatches, ArenaMatches, TurnMatches;
      execution := new ToolExecution(call);
      ghost var b := st.body;
      BlocksGrowArena(arena, execution, turns, blocks, b.core.blocks);
      IndexGrowsArena(arena, execution, toolExecutionIndex, b.index);
      ArenaGrows(arena, execution, b.execs);
      SoundArena(b, Start(call));
      if currentAssistant != null {
        TurnGrows(arena, execution, currentAssistant, b.core.current.value);
      }
      arena := arena + [execution];
      Repr := Repr + {execution};
      st := st.(body := b.(execs := b.execs + [Start(call)]));
    }

    method Attach(a: AssistantTurn, execution: ToolExecution)
      requires Consistent() && a == currentAssistant && st.body.core.current.Some?
      requires |arena| == |st.body.execs| > 0 && execution == arena[|arena| - 1]
      requires st.body.execs[|arena| - 1].call == execution.call
      requires Sound(Attached(st.body, execution.call))
      modifies this`toolExecutionIndex, this`st, a`segments
      ensures Consistent()
      ensures st == State(old(st.gate), Attached(old(st.body), execution.call))
    {
      hide Sound, BlocksMatch, IndexMatches, ArenaMatches;
      IndexMore(arena, toolExecutionIndex, st.body.index, execution.call.toolUseId, |arena| - 1);
      a.segments := a.segments + [ToolSegment(execution)];
      toolExecutionIndex := toolExecutionIndex[execution.call.toolUseId := execution];
      st := State(st.gate, Attached(st.body, execution.call));
    }

    /** What findToolExecution finds is the execution at the position the state's index names. */
    method FindToolExecution(id: string) returns (execution: ToolExecution?)
      requires Consistent()
      ensures if id in toolExecutionIndex then execution == toolExecutionIndex[id] else execution == null
      ensures execution != null <==> id in st.body.index
      ensures execution != null ==> st.body.index[id] < |arena| && execution == arena[st.body.index[id]]
    {
      execution := if id in toolExecutionIndex then toolExecutionIndex[id] else null;
    }

    method Assign(x: ToolExecution, u: Update)
      modifies x
      ensures x.Value() == Apply(u, old(x.Value()))
      ensures match u
        case SetResult(r) =>
          && x.result == Some(r) && x.status == (if r.isError then Failed else Complete)
          && x.progress == old(x.progress) && x.summary == old(x.summary)
        case SetProgress(t) =>
          && x.progress == Some(t)
          && x.result == old(x.result) && x.status == old(x.status) && x.summary == old(x.summary)
        case SetSummary(t) =>
          && x.summary == Some(t)
          && x.result == old(x.result) && x.status == old(x.status) && x.progress == old(x.progress)
    {
      match u
      case SetResult(r) =>
        x.result := Some(r);
        x.status := if r.isError then Failed else Complete;
      case SetProgress(t) => x.progress := Some(t);
      case SetSummary(t) => x.summary := Some(t);
    }

    // Find an execution and change it in place; without one, do nothing.
    method UpdateTool(id: string, u: Update)
      requires Consistent()
      modifies this`st, arena
      ensures Consistent()
      ensures st == State(old(st.gate), Touch(old(st.body), id, u))
      ensures id in toolExecutionIndex ==>
        toolExecutionIndex[id].Value() == Apply(u, old(toolExecutionIndex[id].Value()))
    {
      hide Sound, BlocksMatch, OpenMatches, IndexMatches, TouchAll;
      ghost var b := st.body;
      TouchIsTouchAll(b, id, u);
      SoundTouchAll(b, [id], u);
      var x := FindToolExecution(id);
      if x != null {
        Assign(x, u);
        st := State(st.gate, Touch(b, id, u));
      }
    }

    method HandleToolUseResult(e: Event)
      requires Consistent() && e.ToolUseResult?
      modifies this`st, arena
      ensures Consistent()
      ensures View() == State(old(st.gate), Touch(old(ViewBody()), e.toolUseId,
                SetResult(ToolResult(cfg.clip(e.output, MAX_TOOL_OUTPUT), e.isError, e.isReplay))))
      ensures e.toolUseId in toolExecutionIndex ==>
        var x := toolExecutionIndex[e.toolUseId];
        && x.result == Some(ToolResult(cfg.clip(e.output, 100_000), e.isError, e.isReplay))
        && x.status == (if e.isError then Failed else Complete)
        && x.progress == old(x.progress) && x.summary == old(x.summary)
    {
      hide Consistent, Sound;
      UpdateTool(e.toolUseId, SetResult(ToolResult(cfg.clip(e.output, MAX_TOOL_OUTPUT), e.isError, e.isReplay)));
    }

    method HandleToolProgress(e: Event)
      requires Consistent() && e.ToolProgress?
      modifies this`blocks, this`st, ids, arena
      ensures Consistent()
      ensures View() == State(old(st.gate),
                After(Touch(old(ViewBody()), e.toolUseId, SetProgress(e.elapsedSeconds)), e, RawJson(cfg, currentRaw)))
      ensures e.toolUseId in toolExecutionIndex ==>
        var x := toolExecutionIndex[e.toolUseId];
        && x.progress == Some(e.elapsedSeconds)
        && x.result == old(x.result) && x.status == old(x.status) && x.summary == old(x.summary)
    {
      hide Consistent, Sound, HandlePlain, RawJson;
      PlainNotes(ViewCore(), e, RawJson(cfg, currentRaw), 0);
      UpdateTool(e.toolUseId, SetProgress(e.elapsedSeconds));
      PushProgress(BashProgress(e.elapsedSeconds, e.taskId), e.parent);
    }

    method HandleToolSummary(e: Event)
      requires Consistent() && e.ToolSummary?
      modifies this`st, arena
      ensures Consistent()
      ensures View() == State(old(st.gate), TouchAll(old(ViewBody()), e.precedingToolUseIds,
                SetSummary(cfg.clip(e.summary, MAX_TOOL_SUMMARY))))
    {
      hide Consistent, Sound;
      var u := SetSummary(cfg.clip(e.summary, MAX_TOOL_SUMMARY));
      var n := 0;
      while n < |e.precedingToolUseIds|
        invariant 0 <= n <= |e.precedingToolUseIds| && Consistent()
        invariant View().gate == old(View().gate)
        invariant TouchAll(ViewBody(), e.precedingToolUseIds[n..], u) ==
                  TouchAll(old(ViewBody()), e.precedingToolUseIds, u)
      {
        assert e.precedingToolUseIds[n..][1..] == e.precedingToolUseIds[n + 1..];
        UpdateTool(e.precedingToolUseIds[n], u);
        n := n + 1;
      }
    }

    // ---- The cap ----

    // findIndex of a block that is no turn boundary; -1 if there is none.
    method FindExpendable() returns (idx: int)
      ensures -1 <= idx < |blocks|
      ensures idx >= 0 ==> !blocks[idx].TurnBoundary? && forall j :: 0 <= j < idx ==> blocks[j].TurnBoundary?
      ensures idx == -1 ==> forall j :: 0 <= j < |blocks| ==> blocks[j].TurnBoundary?
    {
      idx := 0;
      while idx < |blocks|
        invariant 0 <= idx <= |blocks| && forall j :: 0 <= j < idx ==> blocks[j].TurnBoundary?
      {
        if !blocks[idx].TurnBoundary? {
          return;
        }
        idx := idx + 1;
      }
      idx := -1;
    }

    // Delete the ids of the executions in these segments from an index.
    static method DeleteTools(index: map<string, ToolExecution>, ss: seq<Segment<ToolExecution>>)
      returns (left: map<string, ToolExecution>)
      ensures left == index - (set i | 0 <= i < |ss| && ss[i].ToolSegment? :: ss[i].execution.call.toolUseId)
    {
      left := index;
      var n := 0;
      while n < |ss|
        invariant 0 <= n <= |ss|
        invariant left == index - (set i | 0 <= i < n && ss[i].ToolSegment? :: ss[i].execution.call.toolUseId)
      {
        if ss[n].ToolSegment? {
          left := left - {ss[n].execution.call.toolUseId};
        }
        n := n + 1;
      }
    }

    // The ids that DeleteTools deletes are those of the same segments in the state.
    lemma DeletedIds(ss: seq<Segment<ToolExecution>>, vs: seq<Segment<nat>>)
      requires Consistent() && SegmentsMatch(arena, ss, vs)
      ensures (set i | 0 <= i < |ss| && ss[i].ToolSegment? :: ss[i].execution.call.toolUseId) ==
              IdsAt(st.body.execs, Handles(vs))
    {
      var ids := set i | 0 <= i < |ss| && ss[i].ToolSegment? :: ss[i].execution.call.toolUseId;
      forall id ensures id in ids <==> id in IdsAt(st.body.execs, Handles(vs)) {
        IdsAtCarries(st.body.execs, Handles(vs), id);
        if id in ids {
          var i :| 0 <= i < |ss| && ss[i].ToolSegment? && ss[i].execution.call.toolUseId == id;
          assert SegmentMatches(arena, ss[i], vs[i]);
          SegmentHandles(vs, i);
          assert arena[vs[i].execution].Value() == st.body.execs[vs[i].execution];
          assert Carries(st.body.execs, vs[i].execution, id);
        }
        if id in IdsAt(st.body.execs, Handles(vs)) {
          var h :| h in Handles(vs) && Carries(st.body.execs, h, id);
          var i := HandleSegment(vs, h);
          assert SegmentMatches(arena, ss[i], vs[i]);
          assert arena[h].Value() == st.body.execs[h];
        }
      }
    }

    // The index without the executions of an evicted block.
    method IndexWithout(idx: nat) returns (index: map<string, ToolExecution>)
      requires Consistent() && idx < |blocks|
      ensures idx < |st.body.core.blocks|
      ensures index == toolExecutionIndex - IdsAt(st.body.execs, BlockHandles([st.body.core.blocks[idx]]))
    {
      hide Sound, BlockHandles, ArenaMatches, IndexMatches, SegmentsMatch;
      ghost var v := st.body.core.blocks[idx];
      assert BlockMatches(arena, blocks[idx], v);
      OneBlockHandles(v);
      index := toolExecutionIndex;
      if blocks[idx].AssistantBlock? {
        DeletedIds(blocks[idx].assistant.segments, v.assistant.segments);
        index := DeleteTools(index, blocks[idx].assistant.segments);
      }
    }

    // splice(idx, 1), and the index follows.
    method Evict(idx: nat)
      requires Consistent() && idx < |blocks| && !blocks[idx].TurnBoundary?
      requires forall j :: 0 <= j < idx ==> blocks[j].TurnBoundary?
      modifies this`blocks, this`toolExecutionIndex, this`st
      ensures Consistent() && |blocks| == old(|blocks|) - 1
      ensures st == State(old(st.gate), Cut(old(st.body), 1))
    {
      hide Sound, BlocksMatch, IndexMatches, ArenaMatches, OpenMatches, Drop, Dropped, BlockHandles, IdsAt;
      ghost var b := st.body;
      ghost var bs := b.core.blocks;
      BoundariesMatch(arena, turns, blocks, bs);
      DropFirst(bs, idx);
      SoundCut(b, 1);
      BlocksSplice(arena, turns, blocks, bs, idx);
      IndexLess(arena, toolExecutionIndex, b.index, IdsAt(b.execs, BlockHandles([bs[idx]])));
      var index := IndexWithout(idx);
      blocks := blocks[..idx] + blocks[idx + 1..];
      toolExecutionIndex := index;
      st := State(st.gate, Cut(b, 1));
    }

    method EnforceBlockCap()
      requires Consistent()
      modifies this`blocks, this`toolExecutionIndex, this`st
      ensures Consistent()
      ensures st == State(old(st.gate), Enforce(cfg, old(st.body)))
    {
      hide Consistent, Cut, Sound;
      ghost var b := st.body;
      assert |blocks| == |b.core.blocks| by { BlockCount(); }
      CutNothing(b);
      if |blocks| <= cfg.maxBlocks {
        return;
      }
      var excess := |blocks| - cfg.maxBlocks;
      var dropped := 0;
      while dropped < excess && |blocks| > 0
        invariant 0 <= dropped <= excess && Consistent()
        invariant st == State(old(st.gate), Cut(b, dropped))
        invariant |blocks| + dropped == |b.core.blocks|
      {
        var idx := FindExpendable();
        if idx == -1 {
          OnlyBoundariesLeft();
          CutNoMore(b, dropped, excess);
          return;
        }
        Evict(idx);
        CutCut(b, dropped);
        dropped := dropped + 1;
      }
    }

    lemma BlockCount()
      requires Consistent()
      ensures |blocks| == |st.body.core.blocks|
    {}

    lemma OnlyBoundariesLeft()
      requires Consistent() && forall j :: 0 <= j < |blocks| ==> blocks[j].TurnBoundary?
      ensures Expendable(st.body.core.blocks) == 0
    {
      hide Sound, BlocksMatch;
      BoundariesMatch(arena, turns, blocks, st.body.core.blocks);
      AllBoundaries(st.body.core.blocks);
    }

    // ---- The gate ----

    method MarkInitialized()
      requires Consistent()
      modifies this`initialized, this`st
      ensures Consistent() && initialized
      ensures st == State(Gate(pushCounter, true, buffer), old(st.body))
    {
      hide Sound, BlocksMatch, IndexMatches, ArenaMatches, OpenMatches;
      initialized := true;
      st := State(Gate(pushCounter, true, buffer), st.body);
    }

    // buffer.splice(0)
    method TakeBuffer() returns (buffered: seq<Incoming>)
      requires Consistent()
      modifies this`buffer, this`st
      ensures Consistent() && buffered == old(buffer) && buffer == []
      ensures st == State(Gate(pushCounter, initialized, []), old(st.body))
    {
      hide Sound, BlocksMatch, IndexMatches, ArenaMatches, OpenMatches;
      buffered := buffer;
      buffer := [];
      st := State(Gate(pushCounter, initialized, []), st.body);
    }

    // What handling one event, and whatever it releases, comes to.
    ghost predicate HandledAs(was: Gate, b: Body, e: Event, raw: Option<Payload>)
      reads this, ids
    {
      && st.gate == (if e.SessionInit? then Gate(was.pushCounter, true, []) else was)
      && ViewBody() == HandleAll(cfg, b, [Handled(e, raw, was.pushCounter)] +
           if e.SessionInit? then Stamp(was.buffer, was.pushCounter) else [])
    }

    lemma GateFields()
      requires Consistent()
      ensures st.gate == Gate(pushCounter, initialized, buffer)
    {}

    method HandleSessionInit(e: Event)
      requires Consistent() && e.SessionInit?
      modifies Repr
      ensures Consistent() && fresh(Repr - old(Repr)) && old(Repr) <= Repr
      ensures HandledAs(old(st.gate), old(ViewBody()), e, old(currentRaw))
      decreases |buffer|, 0
    {
      hide Consistent, HandlePlain, HandleAll, Handle, RawJson;
      GateFields();
      ghost var b := ViewBody();
      ghost var h := Handled(e, currentRaw, pushCounter);
      var buffered := AddInit(e);
      ghost var hs := Stamp(buffered, pushCounter);
      HandleAllCons(cfg, b, h, hs);
      var n := 0;
      while n < |buffered|
        invariant 0 <= n <= |buffered| && Consistent()
        invariant fresh(Repr - old(Repr)) && old(Repr) <= Repr
        invariant st.gate == Gate(old(pushCounter), true, [])
        invariant HandleAll(cfg, ViewBody(), hs[n..]) == HandleAll(cfg, Handle(cfg, b, h), hs)
      {
        GateFields();
        HandleAllCons(cfg, ViewBody(), hs[n], hs[n + 1..]);
        assert hs[n..] == [hs[n]] + hs[n + 1..];
        Replay(buffered[n]);
        n := n + 1;
      }
      HandleAllNil(cfg, ViewBody());
      assert hs[n..] == [];
    }

    // What session_init does itself.
    method AddInit(e: Event) returns (buffered: seq<Incoming>)
      requires Consistent() && e.SessionInit?
      modifies this`initialized, this`blocks, this`buffer, this`st, ids
      ensures Consistent() && buffered == old(buffer) && buffer == []
      ensures st.gate == Gate(old(st.gate.pushCounter), true, [])
      ensures ViewBody() == Handle(cfg, old(ViewBody()), Handled(e, currentRaw, pushCounter))
    {
      hide Consistent, HandlePlain, Handle, RawJson;
      GateFields();
      HandleIsPlain(cfg, ViewBody(), Handled(e, currentRaw, pushCounter));
      PlainNotes(ViewCore(), e, RawJson(cfg, currentRaw), pushCounter);
      MarkInitialized();
      PushSystem(SessionInitialized, e.data);
      buffered := TakeBuffer();
    }

    // A buffered event is handled with its own raw message.
    method Replay(i: Incoming)
      requires Consistent() && st.gate.initialized && buffer == []
      modifies Repr
      ensures Consistent() && fresh(Repr - old(Repr)) && old(Repr) <= Repr
      ensures st.gate == old(st.gate)
      ensures ViewBody() == Handle(cfg, old(ViewBody()), Handled(i.event, i.raw, old(st.gate.pushCounter)))
      decreases |buffer|, 2
    {
      hide Consistent, Handle, HandleAll;
      GateFields();
      Footprint();
      ghost var b := ViewBody();
      ghost var h := Handled(i.event, i.raw, pushCounter);
      SetRaw(i.raw);
      HandleEvent(i.event);
      HandleAllCons(cfg, b, h, []);
      HandleAllNil(cfg, Handle(cfg, b, h));
      assert [h] + [] == [h] && Stamp([], h.pushNo) == [];
      SetRaw(None);
    }

    method SetRaw(raw: Option<Payload>)
      requires Consistent()
      modifies this`currentRaw
      ensures Consistent() && currentRaw == raw
    {
      hide Sound, BlocksMatch, IndexMatches, ArenaMatches, OpenMatches;
      currentRaw := raw;
    }

    method HandleEvent(e: Event)
      requires Consistent()
      modifies Repr
      ensures Consistent() && fresh(Repr - old(Repr)) && old(Repr) <= Repr
      ensures HandledAs(old(st.gate), old(ViewBody()), e, old(currentRaw))
      decreases |buffer|, 1
    {
      if e.SessionInit? {
        HandleSessionInit(e);
      } else if e.ToolUseStart? || e.ToolUseResult? || e.ToolProgress? || e.ToolSummary? {
        HandleToolEvent(e);
      } else {
        HandlePlainEvent(e);
      }
    }

    method HandleToolEvent(e: Event)
      requires Consistent() && (e.ToolUseStart? || e.ToolUseResult? || e.ToolProgress? || e.ToolSummary?)
      modifies Repr
      ensures Consistent() && fresh(Repr - old(Repr)) && old(Repr) <= Repr
      ensures HandledAs(old(st.gate), old(ViewBody()), e, old(currentRaw))
    {
      hide Consistent, Sound, HandlePlain, HandleAll, RawJson, StartTool, Touch, TouchAll;
      GateFields();
      Footprint();
      ghost var b := ViewBody();
      ghost var h := Handled(e, currentRaw, pushCounter);
      HandleAllCons(cfg, b, h, []);
      assert [h] + [] == [h];
      match e
      case ToolUseStart(call, messageId) => HandleToolUseStart(call, messageId);
      case ToolUseResult(_, _, _, _) => HandleToolUseResult(e);
      case ToolProgress(id, elapsed, _, _) =>
        PlainPushNo(Touch(b, id, SetProgress(elapsed)).core, e, RawJson(cfg, currentRaw), 0, pushCounter);
        HandleToolProgress(e);
      case ToolSummary(_, _) => HandleToolSummary(e);
    }

    method HandlePlainEvent(e: Event)
      requires Consistent() && !e.SessionInit?
      requires !e.ToolUseStart? && !e.ToolUseResult? && !e.ToolProgress? && !e.ToolSummary?
      modifies Repr
      ensures Consistent() && fresh(Repr - old(Repr)) && old(Repr) <= Repr
      ensures HandledAs(old(st.gate), old(ViewBody()), e, old(currentRaw))
    {
      hide Consistent, Sound, HandlePlain, HandleAll, Handle, RawJson;
      GateFields();
      Footprint();
      ghost var b := ViewBody();
      ghost var h := Handled(e, currentRaw, pushCounter);
      HandleIsPlain(cfg, b, h);
      HandleAllCons(cfg, b, h, []);
      assert [h] + [] == [h];
      if e.UserMessageEcho? {
        HandleUserMessageEcho(e);
      } else {
        PlainPushNo(b.core, e, RawJson(cfg, currentRaw), 0, pushCounter);
        HandleOther(e);
      }
    }

    // The rest of the switch: every event that is not about tools, neither echo nor session_init.
    method HandleOther(e: Event)
      requires Consistent() && !e.SessionInit? && !e.UserMessageEcho?
      requires !e.ToolUseStart? && !e.ToolUseResult? && !e.ToolProgress? && !e.ToolSummary?
      modifies this`currentAssistant, this`st, this`Repr, this`blocks, this`turns, currentAssistant, ids
      ensures Consistent() && fresh(Repr - old(Repr)) && old(Repr) <= Repr
      ensures View() == State(old(st.gate), After(old(ViewBody()), e, RawJson(cfg, currentRaw)))
    {
      hide Consistent, Sound, HandlePlain, RawJson;
      match e
      case AssistantText(_, _, _) => HandleAssistantText(e);
      case AssistantThinking(_, _) => HandleAssistantThinking(e);
      case AssistantError(_) => HandleAssistantError(e);
      case TurnComplete(_) => HandleTurnComplete(e);
      case TurnError(_) => HandleTurnError(e);
      case TaskProgress(_, _, _, _, _) => HandleTaskProgress(e);
      case StreamDelta(_, _, _, _, _) => HandleStreamDelta(e);
      case Interaction(kind, requestId, data) =>
        PlainNotes(ViewCore(), e, RawJson(cfg, currentRaw), 0);
        PushInteraction(kind, requestId, data);
      case Notice(kind, data) =>
        PlainNotes(ViewCore(), e, RawJson(cfg, currentRaw), 0);
        PushNotice(kind, data);
      case System(kind, data) =>
        PlainNotes(ViewCore(), e, RawJson(cfg, currentRaw), 0);
        PushSystem(kind, data);
      case Ignored(_) => PlainNotes(ViewCore(), e, RawJson(cfg, currentRaw), 0);
    }

    // What the handlers may write to lies in the footprint.
    lemma Footprint()
      requires Consistent()
      ensures this in Repr && ids in Repr && (currentAssistant != null ==> currentAssistant in Repr)
      ensures forall h :: 0 <= h < |arena| ==> arena[h] in Repr
    {}

    // ---- What a reader of the objects sees ----

    ghost predicate SegmentShows(s: Segment<ToolExecution>, v: Segment<Execution>)
      reads this, Repr
    {
      match (s, v)
      case (TextSegment(text, parent), TextSegment(text', parent')) => text == text' && parent == parent'
      case (ToolSegment(x), ToolSegment(e)) => x in Repr && x.Value() == e
      case _ => false
    }

    ghost predicate TurnShows(t: AssistantTurn, v: Assistant<Execution>)
      reads this, Repr
    {
      && t in Repr && t.id == v.id && t.raw == v.raw && t.thinking == v.thinking && t.streaming == v.streaming
      && |t.segments| == |v.segments|
      && forall i :: 0 <= i < |t.segments| ==> SegmentShows(t.segments[i], v.segments[i])
    }

    ghost predicate BlockShows(b: Block<AssistantTurn>, v: Block<Assistant<Execution>>)
      reads this, Repr
    {
      if b.AssistantBlock? then v.AssistantBlock? && TurnShows(b.assistant, v.assistant) else v == Recast(b)
    }

    /** The objects hold exactly these blocks and this open turn. */
    ghost predicate ReaderSees(c: Core<Execution>)
      reads this, Repr
    {
      && |blocks| == |c.blocks| && (forall i :: 0 <= i < |blocks| ==> BlockShows(blocks[i], c.blocks[i]))
      && (currentAssistant == null <==> c.current == None)
      && (currentAssistant != null ==> TurnShows(currentAssistant, c.current.value))
    }

    lemma TurnSeen(t: AssistantTurn, v: Assistant<nat>)
      requires Consistent() && t in Repr && TurnMatches(arena, t, v)
      ensures TurnShows(t, ResolveAssistant(st.body.execs, v))
    {
      hide Sound, BlocksMatch, IndexMatches, OpenMatches;
      var r := ResolveAssistant(st.body.execs, v);
      forall i | 0 <= i < |t.segments| ensures SegmentShows(t.segments[i], r.segments[i]) {
        assert SegmentMatches(arena, t.segments[i], v.segments[i]);
        if t.segments[i].ToolSegment? {
          assert arena[v.segments[i].execution] in arena;
        }
      }
    }

    lemma BlockSeen(i: nat)
      requires Consistent() && i < |blocks|
      ensures |blocks| == |st.body.core.blocks|
      ensures BlockShows(blocks[i], ResolveBlock(st.body.execs, st.body.core.blocks[i]))
    {
      hide Sound, IndexMatches, ArenaMatches, OpenMatches, TurnMatches;
      var v := st.body.core.blocks[i];
      assert BlockMatches(arena, blocks[i], v);
      if blocks[i].AssistantBlock? {
        TurnSeen(blocks[i].assistant, v.assistant);
      }
    }

    /** What the objects hold is what the specified state shows. */
    lemma SeesState()
      requires Consistent()
      ensures ReaderSees(Resolve(st.body.execs, ViewCore()))
    {
      hide Sound, IndexMatches, ArenaMatches, TurnMatches, BlocksMatch, ResolveBlock;
      var c := Resolve(st.body.execs, ViewCore());
      BlockCount();
      forall i | 0 <= i < |blocks| ensures BlockShows(blocks[i], c.blocks[i]) {
        BlockSeen(i);
      }
      if currentAssistant != null {
        TurnSeen(currentAssistant, st.body.core.current.value);
      }
    }

    /** Every tool the object ever started, since the last reset, runs, has failed or is complete as its result says. */
    lemma StatusesFit()
      requires Valid()
      ensures forall x :: x in arena ==>
        x.status == if x.result == None then Running else if x.result.value.isError then Failed else Complete
    {
      hide BlocksMatch, IndexMatches, OpenMatches, Sound, Run;
      StatusFollowsResult(cfg, start, history);
      forall x | x in arena
        ensures x.status == if x.result == None then Running else if x.result.value.isError then Failed else Complete
      {
        var h :| 0 <= h < |arena| && arena[h] == x;
        assert x.Value() == st.body.execs[h] && StatusFits(st.body.execs[h]);
      }
    }

    /** The objects hold the whole history without what one trimming would have removed, whatever was pushed, as long as
      * no push but perhaps the last evicted an id in use. */
    lemma HoldsTrimmedHistory()
      requires Valid() && SparesBefore(cfg, start, history)
      ensures var c := RefRun(cfg, start, history).core;
        ReaderSees(c.(blocks := Drop(c.blocks, Forgotten(cfg, start, history))))
    {
      hide Consistent, SparesBefore, Run, RefRun, Forgotten, Drop, BlockShows, TurnShows, ResolveBlocks;
      CappedRefinesUncapped(cfg, start, history);
      SeesState();
    }

    // ---- The public operations ----

    method Push(event: Event, raw: Option<Payload>)
      requires Valid()
      modifies Repr
      ensures Valid() && fresh(Repr - old(Repr)) && old(Repr) <= Repr
      ensures View() == PushState(cfg, old(View()), Incoming(event, raw))
      ensures history == old(Longer(Op.Push(Incoming(event, raw))))
    {
      hide Consistent, Recorded, PushState;
      ghost var more, was := Longer(Op.Push(Incoming(event, raw))), View();
      Following(Op.Push(Incoming(event, raw)));
      TakeIn(event, raw);
      Record(more, was, Op.Push(Incoming(event, raw)));
    }

    // What the specification makes of one more operation.
    lemma Following(op: Op)
      requires Recorded()
      ensures Run(cfg, start, Longer(op)) == Step(cfg, View(), op)
    {
      hide Run, RefRun, RefStep, PushState, FinalizeState, ResetState;
      var moved := Elsewhere(Moved());
      RunAppend(cfg, start, history, moved);
      RunAppend(cfg, start, history + [moved], op);
      assert history + [moved] + [op] == Longer(op);
    }

    method Record(ghost more: seq<Op>, ghost was: State, ghost op: Op)
      requires Consistent() && Run(cfg, start, more) == Step(cfg, was, op) == View()
      modifies this`history, this`counted
      ensures Valid() && history == more && View() == old(View())
    {
      hide Sound, BlocksMatch, IndexMatches, ArenaMatches, OpenMatches, Run, Step;
      history, counted := more, ids.value;
    }

    method TakeIn(event: Event, raw: Option<Payload>)
      requires Consistent()
      modifies Repr
      ensures Consistent() && fresh(Repr - old(Repr)) && old(Repr) <= Repr
      ensures View() == PushState(cfg, old(View()), Incoming(event, raw))
    {
      hide Consistent, Sound, HandleAll, Enforce;
      GateFields();
      Footprint();
      ghost var g := st.gate;
      CountPush();
      if event.UserMessageEcho? {
        Deliver(event, raw);
        return;
      }
      if !initialized && !event.SessionInit? {
        Hold(Incoming(event, raw));
        return;
      }
      Deliver(event, raw);
    }

    method CountPush()
      requires Consistent()
      modifies this`pushCounter, this`st
      ensures Consistent() && pushCounter == old(pushCounter) + 1
      ensures st == State(old(st.gate).(pushCounter := pushCounter), old(st.body))
    {
      hide Sound, BlocksMatch, IndexMatches, ArenaMatches, OpenMatches;
      pushCounter := pushCounter + 1;
      st := State(st.gate.(pushCounter := pushCounter), st.body);
    }

    method Hold(i: Incoming)
      requires Consistent()
      modifies this`buffer, this`st
      ensures Consistent()
      ensures st == State(old(st.gate).(buffer := Buffered(cfg, old(st.gate.buffer), i)), old(st.body))
    {
      hide Sound, BlocksMatch, IndexMatches, ArenaMatches, OpenMatches;
      if |buffer| >= cfg.maxBuffer {
        if |buffer| > 0 {
          buffer := buffer[1..];
        }
      }
      buffer := buffer + [i];
      st := State(st.gate.(buffer := buffer), st.body);
    }

    method Deliver(event: Event, raw: Option<Payload>)
      requires Consistent()
      modifies Repr
      ensures Consistent() && fresh(Repr - old(Repr)) && old(Repr) <= Repr
      ensures st.gate ==
        if event.SessionInit? then Gate(old(st.gate.pushCounter), true, []) else old(st.gate)
      ensures ViewBody() == Enforce(cfg, HandleAll(cfg, old(ViewBody()),
        [Handled(event, raw, old(st.gate.pushCounter))] +
          if event.SessionInit? then Stamp(old(st.gate.buffer), old(st.gate.pushCounter)) else []))
    {
      hide Consistent, Sound, HandleAll;
      Footprint();
      SetRaw(raw);
      HandleEvent(event);
      SetRaw(None);
      Footprint();
      ghost var b := ViewBody();
      EnforceBlockCap();
    }

    method Finalize() returns (all: seq<Block<AssistantTurn>>)
      requires Valid()
      modifies Repr
      ensures Valid() && Repr == old(Repr)
      ensures View() == FinalizeState(old(View()))
      ensures currentAssistant == null && all == blocks
      ensures |all| == old(|blocks| + if currentAssistant != null then 1 else 0) && old(blocks) <= all
      ensures old(currentAssistant) != null ==>
        var last := all[|all| - 1];
        last.AssistantBlock? && last.assistant == old(currentAssistant) && !last.assistant.streaming
      ensures history == old(Longer(Op.Finalize))
    {
      hide Consistent, Recorded, Run;
      ghost var more, was := Longer(Op.Finalize), View();
      Following(Op.Finalize);
      Footprint();
      FinalizeCurrentAssistant();
      Record(more, was, Op.Finalize);
      all := GetBlocks();
    }

    method Reset()
      requires Valid()
      modifies this
      ensures Valid() && Repr == old(Repr)
      ensures View() == ResetState(old(View()))
      ensures blocks == [] && currentAssistant == null && toolExecutionIndex == map[]
      ensures !initialized && buffer == [] && pushCounter == old(pushCounter) && ids.value == old(ids.value)
      ensures history == old(Longer(Op.Reset))
    {
      hide Consistent, Recorded, Run;
      ghost var more, was := Longer(Op.Reset), View();
      Following(Op.Reset);
      GateFields();
      blocks := [];
      currentAssistant := null;
      initialized := false;
      buffer := [];
      toolExecutionIndex := map[];
      arena, turns := [], {};
      st := ResetState(st);
      IsEmptied();
      Record(more, was, Op.Reset);
    }

    lemma IsNew()
      requires counted == start == ids.value && history == [] && st == Initial(st.body.core.ids)
      ensures Recorded()
    {
      hide Run;
      RunNothing(cfg, start);
    }

    lemma IsEmptied()
      requires this in Repr && ids in Repr
      requires blocks == [] && currentAssistant == null && toolExecutionIndex == map[] && buffer == []
      requires arena == [] && turns == {} && !initialized && st.gate == Gate(pushCounter, false, [])
      requires st.body == Initial(st.body.core.ids).body
      ensures Consistent()
    {
      hide Sound, BlocksMatch, IndexMatches, ArenaMatches;
      EmptySound(st.body.core.ids);
      NothingMatches();
    }
  }
}
