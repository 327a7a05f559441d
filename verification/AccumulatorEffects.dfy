/** What each event does, field by field, and what the status of a tool means. */
module AccumulatorEffects {
  import opened Options
  import opened Conversation
  import opened AccumulatorSpec
  import opened AccumulatorIndex
  import opened AccumulatorCap
  import opened AccumulatorGate

  // ---- The status of a tool ----

  /** A tool runs until it has a result, and then has failed exactly if that is an error. */
  ghost predicate StatusFits(x: Execution) {
    match x.result
    case None => x.status == Running
    case Some(r) => x.status == if r.isError then Failed else Complete
  }

  ghost predicate AllFit(execs: seq<Execution>) {
    forall h :: 0 <= h < |execs| ==> StatusFits(execs[h])
  }

  lemma TouchFits(b: Body, id: string, u: Update)
    requires AllFit(b.execs)
    ensures AllFit(Touch(b, id, u).execs)
  {}

  lemma {:induction false} TouchAllFits(b: Body, ids: seq<string>, u: Update)
    requires AllFit(b.execs)
    ensures AllFit(TouchAll(b, ids, u).execs)
    decreases |ids|
  {
    hide AllFit, Touch;
    if ids != [] {
      TouchFits(b, ids[0], u);
      TouchAllFits(Touch(b, ids[0], u), ids[1..], u);
    }
  }

  lemma ToolFits(execs: seq<Execution>, call: ToolCall)
    requires AllFit(execs)
    ensures AllFit(execs + [Start(call)])
  {}

  lemma HandleFits(cfg: Config, b: Body, h: Handled)
    requires AllFit(b.execs)
    ensures AllFit(Handle(cfg, b, h).execs)
  {
    hide AllFit, Touch, TouchAll, HandlePlain, Start;
    match h.event
    case ToolUseStart(call, _) => ToolFits(b.execs, call);
    case ToolUseResult(id, output, isError, isReplay) =>
      TouchFits(b, id, SetResult(ToolResult(cfg.clip(output, MAX_TOOL_OUTPUT), isError, isReplay)));
    case ToolProgress(id, elapsed, _, _) => TouchFits(b, id, SetProgress(elapsed));
    case ToolSummary(summary, ids) => TouchAllFits(b, ids, SetSummary(cfg.clip(summary, MAX_TOOL_SUMMARY)));
    case _ =>
  }

  lemma {:induction false} HandleAllFits(cfg: Config, b: Body, hs: seq<Handled>)
    requires AllFit(b.execs)
    ensures AllFit(HandleAll(cfg, b, hs).execs)
    decreases |hs|
  {
    hide AllFit, Handle;
    if hs != [] {
      HandleFits(cfg, b, hs[0]);
      HandleAllFits(cfg, Handle(cfg, b, hs[0]), hs[1..]);
    }
  }

  /** Over every run a tool is running if and only if it has no result, has failed if and only if its result is an
    * error, and is complete otherwise. */
  lemma {:induction false} StatusFollowsResult(cfg: Config, ids: nat, ops: seq<Op>)
    ensures AllFit(Run(cfg, ids, ops).body.execs)
  {
    if ops != [] {
      hide HandleAll, Enforce, AllFit;
      var s := Run(cfg, ids, ops[..|ops| - 1]);
      StatusFollowsResult(cfg, ids, ops[..|ops| - 1]);
      match ops[|ops| - 1]
      case Push(i) =>
        HandleAllFits(cfg, s.body, Released(s.gate, i));
        EnforceKeepsArena(cfg, HandleAll(cfg, s.body, Released(s.gate, i)));
      case Reset => NothingUnfit();
      case _ =>
    }
  }

  lemma NothingUnfit()
    ensures AllFit([])
  {}

  // ---- Events about tools ----

  /** Nothing but the execution at h may have changed. */
  ghost predicate OnlyAt(before: seq<Execution>, after: seq<Execution>, h: nat) {
    |after| == |before| && forall g :: 0 <= g < |before| && g != h ==> after[g] == before[g]
  }

  /** With the gate open, a push changes executions as the handler of its event does, and nothing else does. */
  lemma PushHandles(cfg: Config, s: State, i: Incoming)
    requires s.gate.initialized && !i.event.SessionInit?
    ensures var s' := PushState(cfg, s, i);
      && s'.body.execs == Handle(cfg, s.body, Handled(i.event, i.raw, s.gate.pushCounter + 1)).execs
      && s'.body == Enforce(cfg, Handle(cfg, s.body, Handled(i.event, i.raw, s.gate.pushCounter + 1)))
  {
    hide Handle, Enforce, PushState;
    GateDecides(cfg, s, i);
    EnforceKeepsArena(cfg, Handle(cfg, s.body, Handled(i.event, i.raw, s.gate.pushCounter + 1)));
  }

  /** So after the push of a result for an id in the index, the execution found under it has the result, and the status
    * that goes with it. */
  lemma ResultOfPush(cfg: Config, s: State, i: Incoming)
    requires s.gate.initialized && i.event.ToolUseResult?
    requires i.event.toolUseId in s.body.index && s.body.index[i.event.toolUseId] < |s.body.execs|
    ensures var e, n, execs := i.event, s.body.index[i.event.toolUseId], PushState(cfg, s, i).body.execs;
      && OnlyAt(s.body.execs, execs, n)
      && execs[n] == s.body.execs[n].(
        result := Some(ToolResult(cfg.clip(e.output, 100_000), e.isError, e.isReplay)),
        status := if e.isError then Failed else Complete)
  {
    hide PushState, Handle;
    PushHandles(cfg, s, i);
    ResultArrives(cfg, s.body, Handled(i.event, i.raw, s.gate.pushCounter + 1));
  }

  /** A result for an id in the index: the execution has it, cut to size, and fails or completes with it. */
  lemma ResultArrives(cfg: Config, b: Body, h: Handled)
    requires h.event.ToolUseResult? && h.event.toolUseId in b.index && b.index[h.event.toolUseId] < |b.execs|
    ensures var e, n, b' := h.event, b.index[h.event.toolUseId], Handle(cfg, b, h);
      && b'.core == b.core && b'.index == b.index && OnlyAt(b.execs, b'.execs, n)
      && var x, y := b.execs[n], b'.execs[n];
      && y.result.Some? && y.result.value.output == cfg.clip(e.output, 100_000)
      && y.result.value.isError == e.isError && y.result.value.isReplay == e.isReplay
      && y.status == (if e.isError then Failed else Complete)
      && y.call == x.call && y.progress == x.progress && y.summary == x.summary
  {}

  /** Progress for an id in the index: only the progress changes, and a block tells of it. */
  lemma ProgressArrives(cfg: Config, b: Body, h: Handled)
    requires h.event.ToolProgress? && h.event.toolUseId in b.index && b.index[h.event.toolUseId] < |b.execs|
    ensures var e, n, b' := h.event, b.index[h.event.toolUseId], Handle(cfg, b, h);
      && b'.index == b.index && OnlyAt(b.execs, b'.execs, n)
      && var x, y := b.execs[n], b'.execs[n];
      && y.progress == Some(e.elapsedSeconds)
      && y.call == x.call && y.result == x.result && y.summary == x.summary && y.status == x.status
  {}

  /** With an id that is not in the index, a result does nothing, and progress adds its block only. */
  lemma NobodyFound(cfg: Config, b: Body, h: Handled)
    requires (h.event.ToolUseResult? || h.event.ToolProgress?) && h.event.toolUseId !in b.index
    ensures Handle(cfg, b, h).execs == b.execs && Handle(cfg, b, h).index == b.index
    ensures h.event.ToolUseResult? ==> Handle(cfg, b, h).core == b.core
  {}

  /** The block of a tool's progress, found or not. */
  lemma ProgressIsShown(cfg: Config, b: Body, h: Handled)
    requires h.event.ToolProgress?
    ensures var e, c, c' := h.event, b.core, Handle(cfg, b, h).core;
      && c'.current == c.current && c'.ids == c.ids + 1
      && c'.blocks == c.blocks +
        [ProgressBlock(GeneratedId(c.ids + 1), BashProgress(e.elapsedSeconds, e.taskId), e.parent)]
  {}

  ghost predicate Summarised(b: Body, ids: seq<string>, n: nat) {
    exists i :: 0 <= i < |ids| && ids[i] in b.index && b.index[ids[i]] == n
  }

  lemma {:induction false} SummaryOfAll(b: Body, ids: seq<string>, text: string)
    ensures var b' := TouchAll(b, ids, SetSummary(text));
      && b'.core == b.core && b'.index == b.index && |b'.execs| == |b.execs|
      && forall n :: 0 <= n < |b.execs| ==>
        b'.execs[n] == b.execs[n].(summary := if Summarised(b, ids, n) then Some(text) else b.execs[n].summary)
    decreases |ids|
  {
    if ids != [] {
      var t := Touch(b, ids[0], SetSummary(text));
      SummaryOfAll(t, ids[1..], text);
      forall n: nat ensures Summarised(b, ids, n) <==>
        (ids[0] in b.index && b.index[ids[0]] == n) || Summarised(t, ids[1..], n)
      {
        if i :| 0 <= i < |ids| && ids[i] in b.index && b.index[ids[i]] == n {
          assert i > 0 ==> ids[1..][i - 1] == ids[i];
        }
        if i :| 0 <= i < |ids[1..]| && ids[1..][i] in t.index && t.index[ids[1..][i]] == n {
          assert ids[i + 1] == ids[1..][i];
        }
      }
    }
  }

  /** A summary goes, cut to size, to the execution of every preceding id in the index, and changes nothing else. */
  lemma SummaryArrives(cfg: Config, b: Body, h: Handled)
    requires h.event.ToolSummary?
    ensures var e, b' := h.event, Handle(cfg, b, h);
      && b'.core == b.core && b'.index == b.index && |b'.execs| == |b.execs|
      && forall n :: 0 <= n < |b.execs| ==>
        var x, y := b.execs[n], b'.execs[n];
        && y.summary ==
          (if Summarised(b, e.precedingToolUseIds, n) then Some(cfg.clip(e.summary, 10_000)) else x.summary)
        && y.call == x.call && y.result == x.result && y.progress == x.progress && y.status == x.status
  {
    SummaryOfAll(b, h.event.precedingToolUseIds, cfg.clip(h.event.summary, MAX_TOOL_SUMMARY));
  }

  /** A turn that stays open, or is opened by this event. */
  ghost predicate SameTurn<T>(before: Option<Assistant<T>>, after: Option<Assistant<T>>, messageId: string,
                              raw: Option<Payload>)
  {
    && after.Some? && after.value.id == (if before.Some? then before.value.id else messageId)
    && after.value.raw == (if before.Some? then before.value.raw else raw)
    && after.value.streaming == (if before.Some? then before.value.streaming else true)
  }

  // The segments of the turn so far.
  ghost function SegmentsOf<T>(turn: Option<Assistant<T>>): seq<Segment<T>> {
    if turn.Some? then turn.value.segments else []
  }

  ghost function ThinkingOf<T>(turn: Option<Assistant<T>>): Option<string> {
    if turn.Some? then turn.value.thinking else None
  }

  /** A raw message as a block keeps it. */
  ghost function Kept(cfg: Config, raw: Option<Payload>): Option<Payload> {
    match raw
    case None => None
    case Some(m) => cfg.envelope(m)
  }

  /** A started tool runs, is the last segment of the turn, and the entry of its id. */
  lemma ToolStarts(cfg: Config, b: Body, h: Handled)
    requires h.event.ToolUseStart?
    ensures var e, b' := h.event, Handle(cfg, b, h);
      && b'.execs == b.execs + [Execution(e.call, None, None, None, Running)]
      && b'.index == b.index[e.call.toolUseId := |b.execs|]
      && b'.core.blocks == b.core.blocks && b'.core.ids == b.core.ids
      && SameTurn(b.core.current, b'.core.current, e.messageId, Kept(cfg, h.raw))
      && SegmentsOf(b'.core.current) == SegmentsOf(b.core.current) + [ToolSegment(|b.execs|)]
      && ThinkingOf(b'.core.current) == ThinkingOf(b.core.current)
  {}

  /** All other events concern the core only, and get their raw message as the blocks keep it. */
  lemma PlainArrives(cfg: Config, b: Body, h: Handled)
    requires !h.event.ToolUseStart? && !h.event.ToolUseResult? && !h.event.ToolProgress? && !h.event.ToolSummary?
    ensures Handle(cfg, b, h) == b.(core := HandlePlain(b.core, h.event, Kept(cfg, h.raw), h.pushNo))
  {
    hide HandlePlain;
  }

  // ---- Events that write to the turn ----

  /** Text goes to the last segment if that is text under the same parent, and else to a new one. */
  lemma TextArrives<T>(c: Core<T>, e: Event, raw: Option<Payload>, n: nat)
    requires e.AssistantText?
    ensures var c' := HandlePlain(c, e, raw, n);
      && c'.blocks == c.blocks && c'.ids == c.ids && SameTurn(c.current, c'.current, e.messageId, raw)
      && ThinkingOf(c'.current) == ThinkingOf(c.current)
      && var ss, ss' := SegmentsOf(c.current), SegmentsOf(c'.current);
      var m := |ss| - 1;
      if m >= 0 && ss[m].TextSegment? && ss[m].parent == e.parent
      then |ss'| == |ss| && ss'[..m] == ss[..m] && ss'[m] == TextSegment(ss[m].text + e.text, e.parent)
      else ss' == ss + [TextSegment(e.text, e.parent)]
  {
    PlainWrites(c, e, raw, n);
  }

  /** Thinking is added behind what was thought before. */
  lemma ThinkingArrives<T>(c: Core<T>, e: Event, raw: Option<Payload>, n: nat)
    requires e.AssistantThinking?
    ensures var c' := HandlePlain(c, e, raw, n);
      && c'.blocks == c.blocks && c'.ids == c.ids && SameTurn(c.current, c'.current, e.messageId, raw)
      && SegmentsOf(c'.current) == SegmentsOf(c.current)
      && ThinkingOf(c'.current) ==
        Some(if ThinkingOf(c.current).Some? then ThinkingOf(c.current).value + e.thinking else e.thinking)
  {
    PlainWrites(c, e, raw, n);
    assert "" + e.thinking == e.thinking;
  }

  /** A content block starts with an empty text segment under no tool. */
  lemma SkeletonArrives<T>(c: Core<T>, e: Event, raw: Option<Payload>, n: nat)
    requires e.StreamDelta? && e.delta.ContentBlockStart?
    ensures var c' := HandlePlain(c, e, raw, n);
      && c'.blocks == c.blocks && c'.ids == c.ids && SameTurn(c.current, c'.current, e.messageId, raw)
      && SegmentsOf(c'.current) == SegmentsOf(c.current) + [TextSegment("", None)]
      && ThinkingOf(c'.current) == ThinkingOf(c.current)
  {
    PlainWrites(c, e, raw, n);
  }

  /** A delta adds its text to the last segment if that is text, or its thinking if it has no text; one with neither
    * does nothing. */
  lemma DeltaArrives<T>(c: Core<T>, e: Event, raw: Option<Payload>, n: nat)
    requires e.StreamDelta? && e.delta.ContentBlockDelta?
    ensures var c' := HandlePlain(c, e, raw, n);
      if e.textDelta == "" && e.thinkingDelta == "" then c' == c
      else
        && c'.blocks == c.blocks && c'.ids == c.ids && SameTurn(c.current, c'.current, e.messageId, raw)
        && var ss, ss' := SegmentsOf(c.current), SegmentsOf(c'.current);
        var m := |ss| - 1;
        if e.textDelta == "" then
          && ss' == ss
          && ThinkingOf(c'.current) ==
            Some(if ThinkingOf(c.current).Some? then ThinkingOf(c.current).value + e.thinkingDelta else e.thinkingDelta)
        else
          && ThinkingOf(c'.current) == ThinkingOf(c.current)
          && if m >= 0 && ss[m].TextSegment?
             then |ss'| == |ss| && ss'[..m] == ss[..m]
                  && ss'[m] == TextSegment(ss[m].text + e.textDelta, ss[m].parent)
             else ss' == ss
  {
    if e.textDelta == "" && e.thinkingDelta == "" {
      var notes: seq<Block<Assistant<T>>> := Notes(e, raw, n, c.ids);
      assert notes == [] && c.blocks + notes == c.blocks;
    } else {
      PlainWrites(c, e, raw, n);
      assert "" + e.thinkingDelta == e.thinkingDelta;
    }
  }

  // Such an event adds no block.
  lemma PlainWrites<T>(c: Core<T>, e: Event, raw: Option<Payload>, n: nat)
    requires Edits(e) && !e.UserMessageEcho?
    ensures HandlePlain(c, e, raw, n) == c.(current := Some(Edit(c.Opened(e.messageId, raw), e)))
  {
    hide Edit;
    var notes: seq<Block<Assistant<T>>> := Notes(e, raw, n, c.ids);
    assert notes == [] && c.blocks + notes == c.blocks;
  }

  // ---- Events that end the turn ----

  /** What an open turn leaves behind: its block, no longer streaming. */
  ghost function Ended<T>(turn: Option<Assistant<T>>): seq<Block<Assistant<T>>> {
    match turn
    case None => []
    case Some(a) => [AssistantBlock(Assistant(a.id, a.segments, a.thinking, false, a.raw))]
  }

  /** An echo, an error of the assistant, the end of a turn in success or error and message_stop close the open turn
    * first; all but the last add one block. */
  lemma TurnEnds<T>(c: Core<T>, e: Event, raw: Option<Payload>, n: nat)
    ensures var c', id := HandlePlain(c, e, raw, n), GeneratedId(c.ids + 1);
      match e
      case UserMessageEcho(content, timestamp) =>
        c' == Core(c.blocks + Ended(c.current) + [UserBlock(UserId(n), content, timestamp, raw)], None, c.ids)
      case AssistantError(data) =>
        c' == Core(c.blocks + Ended(c.current) + [NoticeBlock(id, AssistantErrorNotice, data)], None, c.ids + 1)
      case TurnComplete(data) =>
        c' == Core(c.blocks + Ended(c.current) + [TurnBoundary(id, true, data)], None, c.ids + 1)
      case TurnError(data) =>
        c' == Core(c.blocks + Ended(c.current) + [TurnBoundary(id, false, data)], None, c.ids + 1)
      case StreamDelta(MessageStop, _, _, _, _) => c' == Core(c.blocks + Ended(c.current), None, c.ids)
      case _ => true
  {
    var c1 := c.Closed();
    assert c1.blocks == c.blocks + Ended(c.current);
    if e.StreamDelta? && e.delta.MessageStop? {
      var notes: seq<Block<Assistant<T>>> := Notes(e, raw, n, c.ids);
      assert notes == [] && c1.blocks + notes == c1.blocks;
    }
  }

  // ---- Events that only add blocks ----

  /** All other events leave the open turn alone. They add one block, task progress two, ignored events none. */
  lemma BlocksArrive<T>(c: Core<T>, e: Event, raw: Option<Payload>, n: nat)
    ensures var c', id := HandlePlain(c, e, raw, n), GeneratedId(c.ids + 1);
      match e
      case SessionInit(data) =>
        c' == Core(c.blocks + [SystemBlock(id, SessionInitialized, data, raw)], c.current, c.ids + 1)
      case Interaction(kind, requestId, data) =>
        c' == Core(c.blocks + [InteractionBlock(id, kind, requestId, data)], c.current, c.ids + 1)
      case Notice(kind, data) => c' == Core(c.blocks + [NoticeBlock(id, kind, data)], c.current, c.ids + 1)
      case System(kind, data) => c' == Core(c.blocks + [SystemBlock(id, kind, data, raw)], c.current, c.ids + 1)
      case TaskProgress(description, agentTaskId, taskSummary, taskToolUseId, data) =>
        c' == Core(
          c.blocks + [SystemBlock(id, TaskProgressed, data, raw),
            ProgressBlock(GeneratedId(c.ids + 2), AgentProgress(description, agentTaskId, taskSummary), taskToolUseId)],
          c.current, c.ids + 2)
      case StreamDelta(OtherDelta(_), _, _, _, data) =>
        c' == Core(c.blocks + [SystemBlock(id, OtherStreamDelta, data, raw)], c.current, c.ids + 1)
      case Ignored(_) => c' == c
      case _ => true
  {
    if e.Ignored? {
      var notes: seq<Block<Assistant<T>>> := Notes(e, raw, n, c.ids);
      assert notes == [] && c.blocks + notes == c.blocks;
    }
  }

  // ---- The gate ----

  /** An echo is handled at once; session_init opens the gate and lets the waiting events through; any other event is
    * handled if the gate is open, and else waits, pushing out the oldest if the buffer is full. */
  lemma GateDecides(cfg: Config, s: State, i: Incoming)
    ensures var g, s' := s.gate, PushState(cfg, s, i);
      var h := Handled(i.event, i.raw, g.pushCounter + 1);
      match i.event
      case UserMessageEcho(_, _) =>
        s' == State(Gate(g.pushCounter + 1, g.initialized, g.buffer), Enforce(cfg, Handle(cfg, s.body, h)))
      case SessionInit(_) =>
        s' == State(Gate(g.pushCounter + 1, true, []),
          Enforce(cfg, HandleAll(cfg, s.body, [h] + Stamp(g.buffer, g.pushCounter + 1))))
      case _ =>
        if g.initialized
        then s' == State(Gate(g.pushCounter + 1, true, g.buffer), Enforce(cfg, Handle(cfg, s.body, h)))
        else s' == State(
          Gate(g.pushCounter + 1, false,
            (if |g.buffer| >= cfg.maxBuffer && |g.buffer| > 0 then g.buffer[1..] else g.buffer) + [i]), s.body)
  {
    hide Handle, HandleAll, Enforce;
    var h := Handled(i.event, i.raw, s.gate.pushCounter + 1);
    if !IsHeld(s.gate, i.event) && !i.event.SessionInit? {
      assert Released(s.gate, i) == [h];
      HandleAllCons(cfg, s.body, h, []);
    }
  }

  // ---- Eviction ----

  function Boundaries<A>(bs: seq<Block<A>>): seq<Block<A>> {
    if bs == [] then [] else (if bs[0].TurnBoundary? then [bs[0]] else []) + Boundaries(bs[1..])
  }

  /** What is left after an eviction: a front part of the list is reduced to its turn boundaries, and the rest is as it
    * was. */
  lemma {:induction false} EvictedFromFront<A>(bs: seq<Block<A>>, k: nat) returns (j: nat)
    ensures j <= |bs| && Drop(bs, k) == Boundaries(bs[..j]) + bs[j..]
    ensures Expendable(bs[..j]) == Min(k, Expendable(bs))
  {
    if k == 0 || bs == [] {
      j := 0;
      assert bs[..0] == [] && bs[0..] == bs;
    } else {
      var tl := bs[1..];
      var i := EvictedFromFront(tl, if bs[0].TurnBoundary? then k else k - 1);
      j := i + 1;
      assert bs[..j][1..] == tl[..i] && bs[j..] == tl[i..];
    }
  }
}
