/** What the assistant says and thinks goes through the registry and the accumulator unchanged and in order. */
module AccumulatorText {
  import opened Options
  import opened Conversation
  import opened AccumulatorSpec
  import opened AccumulatorIndex
  import opened AccumulatorCap
  import opened AccumulatorGate

  // ---- Text of blocks ----

  /** What to read: all text, the text under one parent tool (or under none), or the thinking. */
  datatype Strand = Everything | Under(parent: Option<string>) | Thoughts {
    predicate Holds(parent: Option<string>) {
      Everything? || (Under? && this.parent == parent)
    }
  }

  function SegmentsText<T>(ss: seq<Segment<T>>, w: Strand): string {
    if ss == [] then ""
    else (if ss[0].TextSegment? && w.Holds(ss[0].parent) then ss[0].text else "") + SegmentsText(ss[1..], w)
  }

  function TurnText<T>(a: Assistant<T>, w: Strand): string {
    if w.Thoughts? then a.thinking.GetOr("") else SegmentsText(a.segments, w)
  }

  function BlocksText<T>(bs: seq<Block<Assistant<T>>>, w: Strand): string {
    if bs == [] then ""
    else (if bs[0].AssistantBlock? then TurnText(bs[0].assistant, w) else "") + BlocksText(bs[1..], w)
  }

  /** What a reader sees of it, in the order of the blocks. */
  function Text<T>(c: Core<T>, w: Strand): string {
    BlocksText(c.Visible(), w)
  }

  lemma {:induction false} SegmentsTextConcat<T>(s: seq<Segment<T>>, t: seq<Segment<T>>, w: Strand)
    ensures SegmentsText(s + t, w) == SegmentsText(s, w) + SegmentsText(t, w)
  {
    if s == [] {
      assert s + t == t;
    } else {
      assert (s + t)[1..] == s[1..] + t;
      SegmentsTextConcat(s[1..], t, w);
    }
  }

  lemma {:induction false} BlocksTextConcat<T>(a: seq<Block<Assistant<T>>>, b: seq<Block<Assistant<T>>>, w: Strand)
    ensures BlocksText(a + b, w) == BlocksText(a, w) + BlocksText(b, w)
  {
    if a == [] {
      assert a + b == b;
    } else {
      assert (a + b)[1..] == a[1..] + b;
      BlocksTextConcat(a[1..], b, w);
    }
  }

  lemma {:induction false} NoText<T>(bs: seq<Block<Assistant<T>>>, w: Strand)
    requires forall i :: 0 <= i < |bs| ==> !bs[i].AssistantBlock?
    ensures BlocksText(bs, w) == ""
  {
    if bs != [] {
      NoText(bs[1..], w);
    }
  }

  function CurrentText<T>(c: Core<T>, w: Strand): string {
    if c.current.Some? then TurnText(c.current.value, w) else ""
  }

  lemma TextSplit<T>(c: Core<T>, w: Strand)
    ensures Text(c, w) == BlocksText(c.blocks, w) + CurrentText(c, w)
  {
    if c.current.Some? {
      BlocksTextConcat(c.blocks, [AssistantBlock(c.current.value)], w);
    } else {
      assert c.Visible() == c.blocks;
    }
  }

  // ---- One event ----

  predicate IsTextDelta(e: Event) {
    e.StreamDelta? && e.delta.ContentBlockDelta?
  }

  /** What the assistant says, or thinks, in an event. */
  function Said(e: Event, w: Strand): string {
    if e.AssistantText? && w.Holds(e.parent) then e.text
    else if e.AssistantThinking? && w.Thoughts? then e.thinking
    else ""
  }

  lemma OneText<T>(text: string, parent: Option<string>, w: Strand)
    ensures SegmentsText<T>([TextSegment(text, parent)], w) == if w.Holds(parent) then text else ""
  {
    var ss: seq<Segment<T>> := [TextSegment(text, parent)];
    assert ss[1..] == [] && SegmentsText(ss[1..], w) == "";
  }

  // The last segment gets longer.
  lemma TextLonger<T>(ss: seq<Segment<T>>, text: string, parent: Option<string>, w: Strand)
    requires ss != [] && ss[|ss| - 1].TextSegment? && ss[|ss| - 1].parent == parent
    ensures var n := |ss| - 1;
      SegmentsText(ss[n := TextSegment(ss[n].text + text, parent)], w) ==
      SegmentsText(ss, w) + if w.Holds(parent) then text else ""
  {
    hide SegmentsText;
    var n := |ss| - 1;
    var longer := TextSegment(ss[n].text + text, parent);
    assert ss == ss[..n] + [ss[n]] && ss[n := longer] == ss[..n] + [longer];
    SegmentsTextConcat(ss[..n], [ss[n]], w);
    SegmentsTextConcat(ss[..n], [longer], w);
    OneText<T>(ss[n].text, ss[n].parent, w);
    OneText<T>(longer.text, parent, w);
  }

  lemma TextAdded<T>(a: Assistant<T>, text: string, parent: Option<string>, w: Strand)
    ensures SegmentsText(WithText(a, text, parent).segments, w) ==
      SegmentsText(a.segments, w) + if w.Holds(parent) then text else ""
  {
    hide SegmentsText;
    SegmentsTextConcat(a.segments, [TextSegment(text, parent)], w);
    OneText<T>(text, parent, w);
    var n := |a.segments| - 1;
    if n >= 0 && a.segments[n].TextSegment? && a.segments[n].parent == parent {
      TextLonger(a.segments, text, parent, w);
    }
  }

  lemma TextEdit<T>(a: Assistant<T>, e: Event, w: Strand)
    requires Edits(e) && !IsTextDelta(e)
    ensures TurnText(Edit(a, e), w) == TurnText(a, w) + Said(e, w)
  {
    hide SegmentsText;
    if e.AssistantText? {
      TextAdded(a, e.text, e.parent, w);
    } else if e.StreamDelta? {
      SegmentsTextConcat(a.segments, [TextSegment("", None)], w);
      OneText<T>("", None, w);
    }
  }

  lemma TextClosed<T>(c: Core<T>, w: Strand)
    ensures Text(c.Closed(), w) == Text(c, w)
  {
    TextSplit(c, w);
    TextSplit(c.Closed(), w);
    if c.current.Some? {
      BlocksTextConcat(c.blocks, [AssistantBlock(c.current.value.(streaming := false))], w);
    }
  }

  lemma TextEdited<T>(c: Core<T>, e: Event, raw: Option<Payload>, w: Strand)
    requires Edits(e) && !IsTextDelta(e)
    ensures Text(c.(current := Some(Edit(c.Opened(e.messageId, raw), e))), w) == Text(c, w) + Said(e, w)
  {
    hide Edit, Text, BlocksText, TurnText, Said;
    NothingYet<T>(e.messageId, raw, w);
    var c' := c.(current := Some(Edit(c.Opened(e.messageId, raw), e)));
    TextEdit(c.Opened(e.messageId, raw), e, w);
    TextSplit(c, w);
    TextSplit(c', w);
    assert CurrentText(c', w) == CurrentText(c, w) + Said(e, w);
  }

  lemma NothingYet<T>(messageId: string, raw: Option<Payload>, w: Strand)
    ensures TurnText<T>(Assistant(messageId, [], None, true, raw), w) == ""
  {}

  lemma TextNoted<T>(c: Core<T>, notes: seq<Block<Assistant<T>>>, ids: nat, w: Strand)
    requires forall i :: 0 <= i < |notes| ==> !notes[i].AssistantBlock?
    ensures Text(c.(blocks := c.blocks + notes, ids := ids), w) == Text(c, w)
  {
    hide Text;
    NoText(notes, w);
    BlocksTextConcat(c.blocks, notes, w);
    TextSplit(c, w);
    TextSplit(c.(blocks := c.blocks + notes, ids := ids), w);
  }

  lemma TextPlain<T>(c: Core<T>, e: Event, raw: Option<Payload>, n: nat, w: Strand)
    requires !IsTextDelta(e)
    ensures Text(HandlePlain(c, e, raw, n), w) == Text(c, w) + Said(e, w)
  {
    hide Edit, Notes, Text, Numbers;
    var c1 := if Closes(e) then c.Closed() else c;
    TextClosed(c, w);
    var c2 := if Edits(e) then c1.(current := Some(Edit(c1.Opened(e.messageId, raw), e))) else c1;
    if Edits(e) {
      TextEdited(c1, e, raw, w);
    }
    TextNoted(c2, Notes(e, raw, n, c2.ids), c2.ids + Numbers(e), w);
  }

  lemma TextStart(c: Core<nat>, messageId: string, raw: Option<Payload>, h: nat, w: Strand)
    ensures Text(c.AddSegment(messageId, raw, ToolSegment(h)), w) == Text(c, w)
  {
    hide Text, BlocksText;
    var tool: seq<Segment<nat>> := [ToolSegment(h)];
    TextSplit(c, w);
    TextSplit(c.AddSegment(messageId, raw, ToolSegment(h)), w);
    SegmentsTextConcat(c.Opened(messageId, raw).segments, tool, w);
    assert tool[1..] == [] && SegmentsText(tool[1..], w) == "";
  }

  lemma TextHandle(cfg: Config, b: Body, h: Handled, w: Strand)
    requires !IsTextDelta(h.event)
    ensures Text(Handle(cfg, b, h).core, w) == Text(b.core, w) + Said(h.event, w)
  {
    hide TurnText, BlocksText, HandlePlain;
    var raw := RawJson(cfg, h.raw);
    match h.event
    case ToolUseStart(call, messageId) => TextStart(b.core, messageId, raw, |b.execs|, w);
    case ToolUseResult(_, _, _, _) =>
    case ToolSummary(summary, ids) => TouchAllFrame(b, ids, SetSummary(cfg.clip(summary, MAX_TOOL_SUMMARY)));
    case _ => TextPlain(b.core, h.event, raw, h.pushNo, w);
  }

  function AllSaid(hs: seq<Handled>, w: Strand): string {
    if hs == [] then "" else Said(hs[0].event, w) + AllSaid(hs[1..], w)
  }

  ghost predicate NoDeltas(hs: seq<Handled>) {
    forall i :: 0 <= i < |hs| ==> !IsTextDelta(hs[i].event)
  }

  lemma {:induction false} TextHandleAll(cfg: Config, b: Body, hs: seq<Handled>, w: Strand)
    requires NoDeltas(hs)
    ensures Text(HandleAll(cfg, b, hs).core, w) == Text(b.core, w) + AllSaid(hs, w)
    decreases |hs|
  {
    hide Handle, Text;
    if hs != [] {
      TextHandle(cfg, b, hs[0], w);
      TextHandleAll(cfg, Handle(cfg, b, hs[0]), hs[1..], w);
    }
  }

  // ---- Eviction takes text away from the front only ----

  lemma {:induction false} TextDrop<T>(bs: seq<Block<Assistant<T>>>, k: nat, w: Strand)
    ensures BlocksText(bs, w) == BlocksText(Dropped(bs, k), w) + BlocksText(Drop(bs, k), w)
  {
    if k != 0 && bs != [] {
      var k' := if bs[0].TurnBoundary? then k else k - 1;
      TextDrop(bs[1..], k', w);
      assert ([bs[0]] + Drop(bs[1..], k'))[1..] == Drop(bs[1..], k');
      assert ([bs[0]] + Dropped(bs[1..], k'))[1..] == Dropped(bs[1..], k');
    }
  }

  ghost function EvictedText(cfg: Config, b: Body, w: Strand): string {
    BlocksText(Dropped(b.core.blocks, Excess(cfg, |b.core.blocks|)), w)
  }

  lemma TextEnforce(cfg: Config, b: Body, w: Strand)
    ensures Text(b.core, w) == EvictedText(cfg, b, w) + Text(Enforce(cfg, b).core, w)
    ensures EvictedText(cfg, b, w) != "" ==> |Enforce(cfg, b).core.blocks| >= cfg.maxBlocks
  {
    hide BlockHandles, IdsAt, Text, Drop, Dropped, BlocksText;
    var k := Excess(cfg, |b.core.blocks|);
    TextSplit(b.core, w);
    TextSplit(Enforce(cfg, b).core, w);
    TextDrop(b.core.blocks, k, w);
    EvictedAtCap(cfg, b, w);
  }

  // Nothing is evicted below the cap, and an eviction stops there.
  lemma EvictedAtCap(cfg: Config, b: Body, w: Strand)
    ensures EvictedText(cfg, b, w) != "" ==> |Enforce(cfg, b).core.blocks| >= cfg.maxBlocks
  {
    hide BlockHandles, IdsAt, Expendable, Drop;
    DropCounts(b.core.blocks, Excess(cfg, |b.core.blocks|));
  }

  // ---- Looking up the executions changes no text ----

  lemma {:induction false} SegmentsTextResolved(execs: seq<Execution>, ss: seq<Segment<nat>>, w: Strand)
    ensures SegmentsText(ResolveSegments(execs, ss), w) == SegmentsText(ss, w)
  {
    if ss != [] {
      assert ResolveSegments(execs, ss)[1..] == ResolveSegments(execs, ss[1..]);
      SegmentsTextResolved(execs, ss[1..], w);
    }
  }

  lemma {:induction false} BlocksTextResolved(execs: seq<Execution>, bs: seq<Block<Assistant<nat>>>, w: Strand)
    ensures BlocksText(ResolveBlocks(execs, bs), w) == BlocksText(bs, w)
  {
    hide SegmentsText, ResolveSegments;
    if bs != [] {
      assert ResolveBlocks(execs, bs)[1..] == ResolveBlocks(execs, bs[1..]);
      BlocksTextResolved(execs, bs[1..], w);
      if bs[0].AssistantBlock? {
        SegmentsTextResolved(execs, bs[0].assistant.segments, w);
      }
    }
  }

  lemma TextResolved(execs: seq<Execution>, c: Core<nat>, w: Strand)
    ensures Text(Resolve(execs, c), w) == Text(c, w)
  {
    hide Text, BlocksText, SegmentsText, ResolveBlocks, ResolveSegments;
    TextSplit(c, w);
    TextSplit(Resolve(execs, c), w);
    BlocksTextResolved(execs, c.blocks, w);
    if c.current.Some? {
      SegmentsTextResolved(execs, c.current.value.segments, w);
    }
  }

  // ---- Runs of emitSequenced ----

  /** emitSequenced forwards everything but the text deltas to the accumulator. */
  ghost function Emit(cfg: Config, s: State, i: Incoming): State {
    if IsTextDelta(i.event) then s else PushState(cfg, s, i)
  }

  /** Other operations reach the accumulator as they are. */
  ghost function EmitStep(cfg: Config, s: State, op: Op): State {
    if op.Push? then Emit(cfg, s, op.incoming) else Step(cfg, s, op)
  }

  ghost function EmitRun(cfg: Config, ids: nat, ops: seq<Op>): State {
    if ops == [] then Initial(ids)
    else EmitStep(cfg, EmitRun(cfg, ids, ops[..|ops| - 1]), ops[|ops| - 1])
  }

  /** What is left of some operations behind the filter. */
  function Forwarded(ops: seq<Op>): seq<Op> {
    if ops == [] then []
    else
      var op := ops[|ops| - 1];
      Forwarded(ops[..|ops| - 1]) + if op.Push? && IsTextDelta(op.incoming.event) then [] else [op]
  }

  /** So the accumulator behind the filter is one that got the rest. */
  lemma {:induction false} EmitRunIsRun(cfg: Config, ids: nat, ops: seq<Op>)
    ensures EmitRun(cfg, ids, ops) == Run(cfg, ids, Forwarded(ops))
  {
    hide PushState, Run, IsTextDelta;
    if ops == [] {
      RunNothing(cfg, ids);
    } else {
      var prefix, op := ops[..|ops| - 1], ops[|ops| - 1];
      EmitRunIsRun(cfg, ids, prefix);
      RunAppend(cfg, ids, Forwarded(prefix), op);
      assert Forwarded(prefix) + [] == Forwarded(prefix);
    }
  }

  // What one operation hands to the handlers.
  ghost function Delivered(g: Gate, op: Op): seq<Handled> {
    if !op.Push? || IsTextDelta(op.incoming.event) then [] else Released(g, op.incoming)
  }

  // The text of the blocks it evicts.
  ghost function EvictedBy(cfg: Config, s: State, op: Op, w: Strand): string {
    var hs := Delivered(s.gate, op);
    if hs == [] then "" else EvictedText(cfg, HandleAll(cfg, s.body, hs), w)
  }

  /** The text of all assistant_text events handled since the last reset, in the order they were handled. */
  ghost function HandledText(cfg: Config, ids: nat, ops: seq<Op>, w: Strand): string {
    if ops == [] || ops[|ops| - 1].Reset? then ""
    else
      var prefix := ops[..|ops| - 1];
      HandledText(cfg, ids, prefix, w) + AllSaid(Delivered(EmitRun(cfg, ids, prefix).gate, ops[|ops| - 1]), w)
  }

  /** The text of all blocks evicted since the last reset. */
  ghost function LostText(cfg: Config, ids: nat, ops: seq<Op>, w: Strand): string {
    if ops == [] || ops[|ops| - 1].Reset? then ""
    else
      var prefix := ops[..|ops| - 1];
      LostText(cfg, ids, prefix, w) + EvictedBy(cfg, EmitRun(cfg, ids, prefix), ops[|ops| - 1], w)
  }

  ghost predicate NoDeltasWait(g: Gate) {
    forall j :: 0 <= j < |g.buffer| ==> !IsTextDelta(g.buffer[j].event)
  }

  lemma EmitGate(cfg: Config, s: State, op: Op)
    requires NoDeltasWait(s.gate)
    ensures NoDeltas(Delivered(s.gate, op)) && NoDeltasWait(EmitStep(cfg, s, op).gate)
  {
    hide Enforce, HandleAll;
  }

  lemma EmitBody(cfg: Config, s: State, i: Incoming)
    ensures var hs := Delivered(s.gate, Op.Push(i));
      Emit(cfg, s, i).body == if hs == [] then s.body else Enforce(cfg, HandleAll(cfg, s.body, hs))
  {
    hide Enforce, HandleAll;
  }

  // What holds of the text handled and lost so far, and of the buffer and the kept blocks.
  ghost predicate Conserves(cfg: Config, s: State, handled: string, lost: string, w: Strand) {
    && handled == lost + Text(s.body.core, w)
    && (lost != "" ==> |s.body.core.blocks| >= cfg.maxBlocks)
    && NoDeltasWait(s.gate)
  }

  lemma ConservePush(cfg: Config, s: State, i: Incoming, handled: string, lost: string, w: Strand)
    requires Conserves(cfg, s, handled, lost, w)
    ensures Conserves(cfg, Emit(cfg, s, i), handled + AllSaid(Delivered(s.gate, Op.Push(i)), w),
                      lost + EvictedBy(cfg, s, Op.Push(i), w), w)
  {
    hide Emit, Delivered, Text, Enforce, EvictedText, HandleAll, AllSaid, NoDeltas, NoDeltasWait;
    var hs := Delivered(s.gate, Op.Push(i));
    var b := HandleAll(cfg, s.body, hs);
    EmitGate(cfg, s, Op.Push(i));
    EmitBody(cfg, s, i);
    if hs == [] {
      NobodySays(w);
      assert lost + "" == lost && handled + "" == handled;
    } else {
      TextHandleAll(cfg, s.body, hs, w);
      TextEnforce(cfg, b, w);
      KeepsCap(cfg, s.body, hs);
      assert handled + AllSaid(hs, w) == lost + Text(b.core, w);
      assert lost + Text(b.core, w) == (lost + EvictedText(cfg, b, w)) + Text(Enforce(cfg, b).core, w);
    }
  }

  // No handler removes a block, and an eviction stops at the cap.
  lemma KeepsCap(cfg: Config, b: Body, hs: seq<Handled>)
    ensures |b.core.blocks| >= cfg.maxBlocks ==>
      |Enforce(cfg, HandleAll(cfg, b, hs)).core.blocks| >= cfg.maxBlocks
  {
    hide Handle;
    var full := HandleAll(cfg, b, hs);
    BlocksGrow(cfg, b, hs);
    DropCounts(full.core.blocks, Excess(cfg, |full.core.blocks|));
  }

  // Operations that evict nothing: an open turn is closed, or other sessions draw block numbers.
  lemma ConserveQuiet(cfg: Config, s: State, op: Op, handled: string, lost: string, w: Strand)
    requires Conserves(cfg, s, handled, lost, w) && (op.Finalize? || op.Elsewhere?)
    ensures Conserves(cfg, Step(cfg, s, op), handled, lost, w)
  {
    hide Text;
    if op.Finalize? {
      TextClosed(s.body.core, w);
    } else {
      TextIds(s.body.core, s.body.core.ids + op.numbers, w);
    }
  }

  lemma TextIds<T>(c: Core<T>, ids: nat, w: Strand)
    ensures Text(c.(ids := ids), w) == Text(c, w)
  {}

  lemma NothingSaid(cfg: Config, s: State, ids: nat, w: Strand)
    requires s.gate.buffer == [] && s.body.core == Core([], None, ids)
    ensures Conserves(cfg, s, "", "", w)
  {
    TextSplit(s.body.core, w);
  }

  lemma {:induction false} EmitRunConserves(cfg: Config, ids: nat, ops: seq<Op>, w: Strand)
    ensures Conserves(cfg, EmitRun(cfg, ids, ops), HandledText(cfg, ids, ops, w), LostText(cfg, ids, ops, w), w)
  {
    hide Emit, Conserves, HandleAll, EvictedText, AllSaid;
    if ops == [] {
      NothingSaid(cfg, Initial(ids), ids, w);
    } else {
      var prefix, op := ops[..|ops| - 1], ops[|ops| - 1];
      var s := EmitRun(cfg, ids, prefix);
      var handled, lost := HandledText(cfg, ids, prefix, w), LostText(cfg, ids, prefix, w);
      EmitRunConserves(cfg, ids, prefix, w);
      match op
      case Push(i) => ConservePush(cfg, s, i, handled, lost, w);
      case Reset => NothingSaid(cfg, ResetState(s), s.body.core.ids, w);
      case _ =>
        ConserveQuiet(cfg, s, op, handled, lost, w);
        assert handled + "" == handled && lost + "" == lost && AllSaid([], w) == "" by { NobodySays(w); }
    }
  }

  lemma NobodySays(w: Strand)
    ensures AllSaid([], w) == ""
  {}

  /** Main result. Over any run of emitSequenced, with text deltas, empty skeleton segments, finalisations, resets and
    * other sessions in between and with repeated tool ids, the visible text is what is left of the text handled since
    * the last reset after cutting off the evicted text at its front. So is the text under each parent tool, and so is
    * the thinking. */
  lemma TextIsConserved(cfg: Config, ids: nat, ops: seq<Op>, w: Strand)
    ensures HandledText(cfg, ids, ops, w) == LostText(cfg, ids, ops, w) + Text(EmitRun(cfg, ids, ops).body.core, w)
  {
    hide EmitRun, HandledText, LostText, Text;
    EmitRunConserves(cfg, ids, ops, w);
  }

  /** If fewer blocks than the cap are kept at the end, no text was ever lost. */
  lemma TextIsWholeBelowCap(cfg: Config, ids: nat, ops: seq<Op>, w: Strand)
    requires |EmitRun(cfg, ids, ops).body.core.blocks| < cfg.maxBlocks
    ensures Text(EmitRun(cfg, ids, ops).body.core, w) == HandledText(cfg, ids, ops, w)
  {
    hide EmitRun, HandledText, LostText, Text;
    EmitRunConserves(cfg, ids, ops, w);
  }

  /** An open turn that a text delta writes to. */
  predicate EndsInText<T>(c: Core<T>) {
    c.current.Some? && |c.current.value.segments| > 0 &&
    c.current.value.segments[|c.current.value.segments| - 1].TextSegment?
  }

  function LastParent<T>(c: Core<T>): Option<string>
    requires EndsInText(c)
  {
    c.current.value.segments[|c.current.value.segments| - 1].parent
  }

  lemma DeltaEdit<T>(a: Assistant<T>, text: string, w: Strand)
    requires |a.segments| > 0 && a.segments[|a.segments| - 1].TextSegment?
    ensures SegmentsText(WithTextDelta(a, text).segments, w) ==
      SegmentsText(a.segments, w) + if w.Holds(a.segments[|a.segments| - 1].parent) then text else ""
  {
    TextLonger(a.segments, text, a.segments[|a.segments| - 1].parent, w);
  }

  lemma DeltaHandled<T>(c: Core<T>, e: Event, raw: Option<Payload>, n: nat)
    requires IsTextDelta(e) && e.textDelta != "" && c.current.Some?
    ensures HandlePlain(c, e, raw, n) == c.(current := Some(WithTextDelta(c.current.value, e.textDelta)))
  {
    var notes: seq<Block<Assistant<T>>> := Notes(e, raw, n, c.ids);
    assert notes == [] && c.blocks + notes == c.blocks;
  }

  /** What the filter keeps out: a delta is written to an open turn exactly if that ends in a text segment, and then
    * under the parent of that segment. */
  lemma TextOfDelta<T>(c: Core<T>, e: Event, raw: Option<Payload>, n: nat, w: Strand)
    requires IsTextDelta(e) && e.textDelta != "" && c.current.Some?
    ensures Text(HandlePlain(c, e, raw, n), w) ==
      Text(c, w) + if EndsInText(c) && w.Holds(LastParent(c)) then e.textDelta else ""
  {
    hide Text, BlocksText, SegmentsText, HandlePlain;
    DeltaHandled(c, e, raw, n);
    TextSplit(c, w);
    TextSplit(HandlePlain(c, e, raw, n), w);
    if EndsInText(c) {
      DeltaEdit(c.current.value, e.textDelta, w);
    }
  }

  /** Without the filter of emitSequenced, a delta and the assistant_text it belongs to would count twice, in any open
    * turn that ends in a text segment. */
  lemma UnfilteredDeltaDoublesText<T>(c: Core<T>, delta: Event, said: Event, raw: Option<Payload>, n: nat)
    requires IsTextDelta(delta) && delta.textDelta != "" && EndsInText(c)
    requires said.AssistantText? && said.text == delta.textDelta
    ensures Text(HandlePlain(HandlePlain(c, delta, raw, n), said, raw, n), Everything) ==
      Text(c, Everything) + said.text + said.text
  {
    hide Text, HandlePlain;
    TextOfDelta(c, delta, raw, n, Everything);
    TextPlain(HandlePlain(c, delta, raw, n), said, raw, n, Everything);
  }
}
