/** Two accumulators over the same events.
  *
  * State is the bounded one: executions sit in an arena in the order they were started, segments and the id index
  * refer to them by position, and every push ends with an eviction. Ref is the reference: it holds executions by
  * value, finds the newest of an id by searching every block, and never forgets a block. Both share one gate. */
module AccumulatorSpec {
  import opened Options
  import opened Conversation

  /** MAX_BLOCKS and MAX_PRE_INIT_BUFFER, and the two text functions the model leaves abstract: `clip` cuts a string
    * to a size, `envelope` keeps what is worth keeping of a raw message. */
  datatype Config = Config(maxBlocks: nat, maxBuffer: nat, clip: (string, nat) -> string,
                           envelope: Payload -> Option<Payload>)

  const MAX_TOOL_OUTPUT := 100_000
  const MAX_TOOL_SUMMARY := 10_000

  function RawJson(cfg: Config, raw: Option<Payload>): Option<Payload> {
    if raw.Some? then cfg.envelope(raw.value) else None
  }

  // ---- The gate: which events are handled, and when ----

  datatype Incoming = Incoming(event: Event, raw: Option<Payload>)

  // An event that reaches a handler, with the value of pushCounter at that moment.
  datatype Handled = Handled(event: Event, raw: Option<Payload>, pushNo: nat)

  datatype Gate = Gate(pushCounter: nat, initialized: bool, buffer: seq<Incoming>)

  function Stamp(buffer: seq<Incoming>, pushNo: nat): seq<Handled> {
    seq(|buffer|, i requires 0 <= i < |buffer| => Handled(buffer[i].event, buffer[i].raw, pushNo))
  }

  // `shift` on an empty array does nothing.
  function Buffered(cfg: Config, buffer: seq<Incoming>, i: Incoming): seq<Incoming> {
    (if |buffer| >= cfg.maxBuffer && |buffer| > 0 then buffer[1..] else buffer) + [i]
  }

  predicate IsHeld(g: Gate, e: Event) {
    !e.UserMessageEcho? && !g.initialized && !e.SessionInit?
  }

  function Through(cfg: Config, g: Gate, i: Incoming): Gate {
    var g := g.(pushCounter := g.pushCounter + 1);
    if IsHeld(g, i.event) then g.(buffer := Buffered(cfg, g.buffer, i))
    else if i.event.SessionInit? then g.(initialized := true, buffer := [])
    else g
  }

  function Released(g: Gate, i: Incoming): seq<Handled> {
    if IsHeld(g, i.event) then []
    else [Handled(i.event, i.raw, g.pushCounter + 1)] +
         if i.event.SessionInit? then Stamp(g.buffer, g.pushCounter + 1) else []
  }

  // ---- The bounded accumulator ----

  datatype Body = Body(core: Core<nat>, execs: seq<Execution>, index: map<string, nat>)

  datatype State = State(gate: Gate, body: Body)

  function Touch(b: Body, id: string, u: Update): Body {
    if id in b.index && b.index[id] < |b.execs|
    then b.(execs := b.execs[b.index[id] := Apply(u, b.execs[b.index[id]])])
    else b
  }

  function TouchAll(b: Body, ids: seq<string>, u: Update): Body
    decreases |ids|
  {
    if ids == [] then b else TouchAll(Touch(b, ids[0], u), ids[1..], u)
  }

  function StartTool(b: Body, call: ToolCall, messageId: string, raw: Option<Payload>): Body {
    Body(b.core.AddSegment(messageId, raw, ToolSegment(|b.execs|)), b.execs + [Start(call)],
         b.index[call.toolUseId := |b.execs|])
  }

  function Handle(cfg: Config, b: Body, h: Handled): Body {
    var raw := RawJson(cfg, h.raw);
    match h.event
    case ToolUseStart(call, messageId) => StartTool(b, call, messageId, raw)
    case ToolUseResult(id, output, isError, isReplay) =>
      Touch(b, id, SetResult(ToolResult(cfg.clip(output, MAX_TOOL_OUTPUT), isError, isReplay)))
    case ToolProgress(id, elapsed, _, _) =>
      var b := Touch(b, id, SetProgress(elapsed));
      b.(core := HandlePlain(b.core, h.event, raw, h.pushNo))
    case ToolSummary(summary, ids) => TouchAll(b, ids, SetSummary(cfg.clip(summary, MAX_TOOL_SUMMARY)))
    case _ => b.(core := HandlePlain(b.core, h.event, raw, h.pushNo))
  }

  function HandleAll(cfg: Config, b: Body, hs: seq<Handled>): Body
    decreases |hs|
  {
    if hs == [] then b else HandleAll(cfg, Handle(cfg, b, hs[0]), hs[1..])
  }

  function Handles(ss: seq<Segment<nat>>): seq<nat> {
    if ss == [] then []
    else (if ss[0].ToolSegment? then [ss[0].execution] else []) + Handles(ss[1..])
  }

  function BlockHandles(bs: seq<Block<Assistant<nat>>>): seq<nat> {
    if bs == [] then []
    else (if bs[0].AssistantBlock? then Handles(bs[0].assistant.segments) else []) + BlockHandles(bs[1..])
  }

  /** The positions of the executions a reader can see, in the order of the blocks. */
  function Live(c: Core<nat>): seq<nat> {
    BlockHandles(c.Visible())
  }

  // The list without its first k blocks that are no turn boundaries; with fewer than k of them, without any.
  function Drop<A>(bs: seq<Block<A>>, k: nat): seq<Block<A>> {
    if k == 0 || bs == [] then bs
    else if bs[0].TurnBoundary? then [bs[0]] + Drop(bs[1..], k)
    else Drop(bs[1..], k - 1)
  }

  // What Drop leaves out.
  function Dropped<A>(bs: seq<Block<A>>, k: nat): seq<Block<A>> {
    if k == 0 || bs == [] then []
    else if bs[0].TurnBoundary? then Dropped(bs[1..], k)
    else [bs[0]] + Dropped(bs[1..], k - 1)
  }

  function Expendable<A>(bs: seq<Block<A>>): nat {
    if bs == [] then 0 else (if bs[0].TurnBoundary? then 0 else 1) + Expendable(bs[1..])
  }

  function Excess(cfg: Config, n: nat): nat {
    if n > cfg.maxBlocks then n - cfg.maxBlocks else 0
  }

  ghost function IdsAt(execs: seq<Execution>, hs: seq<nat>): set<string> {
    set i | 0 <= i < |hs| && hs[i] < |execs| :: execs[hs[i]].call.toolUseId
  }

  // Remove the first k expendable blocks, and the ids of their executions from the index.
  ghost function Cut(b: Body, k: nat): Body {
    b.(core := b.core.(blocks := Drop(b.core.blocks, k)),
       index := b.index - IdsAt(b.execs, BlockHandles(Dropped(b.core.blocks, k))))
  }

  ghost function Enforce(cfg: Config, b: Body): Body {
    Cut(b, Excess(cfg, |b.core.blocks|))
  }

  ghost function PushState(cfg: Config, s: State, i: Incoming): State {
    var g := Through(cfg, s.gate, i);
    if IsHeld(s.gate, i.event) then s.(gate := g)
    else State(g, Enforce(cfg, HandleAll(cfg, s.body, Released(s.gate, i))))
  }

  function FinalizeState(s: State): State {
    s.(body := s.body.(core := s.body.core.Closed()))
  }

  function ResetState(s: State): State {
    State(Gate(s.gate.pushCounter, false, []), Body(Core([], None, s.body.core.ids), [], map[]))
  }

  // ---- The reference accumulator ----

  /** `started` is the history of tool ids since the last reset. */
  datatype Ref = Ref(gate: Gate, core: Core<Execution>, started: seq<string>)

  function SearchSegment(id: string, u: Update, s: Segment<Execution>): Segment<Execution> {
    if s.ToolSegment? && s.execution.call.toolUseId == id then ToolSegment(Apply(u, s.execution)) else s
  }

  predicate HasTool(id: string, ss: seq<Segment<Execution>>) {
    ss != [] && ((ss[0].ToolSegment? && ss[0].execution.call.toolUseId == id) || HasTool(id, ss[1..]))
  }

  /** Update the last execution with this id. */
  function SearchSegments(id: string, u: Update, ss: seq<Segment<Execution>>): seq<Segment<Execution>> {
    if ss == [] then []
    else if HasTool(id, ss[1..]) then [ss[0]] + SearchSegments(id, u, ss[1..])
    else [SearchSegment(id, u, ss[0])] + ss[1..]
  }

  function SearchAssistant(id: string, u: Update, a: Assistant<Execution>): Assistant<Execution> {
    a.(segments := SearchSegments(id, u, a.segments))
  }

  function SearchBlock(id: string, u: Update, b: Block<Assistant<Execution>>): Block<Assistant<Execution>> {
    if b.AssistantBlock? then AssistantBlock(SearchAssistant(id, u, b.assistant)) else b
  }

  predicate BlocksHaveTool(id: string, bs: seq<Block<Assistant<Execution>>>) {
    bs != [] && ((bs[0].AssistantBlock? && HasTool(id, bs[0].assistant.segments)) || BlocksHaveTool(id, bs[1..]))
  }

  function SearchBlocks(id: string, u: Update, bs: seq<Block<Assistant<Execution>>>)
    : seq<Block<Assistant<Execution>>>
  {
    if bs == [] then []
    else if BlocksHaveTool(id, bs[1..]) then [bs[0]] + SearchBlocks(id, u, bs[1..])
    else [SearchBlock(id, u, bs[0])] + bs[1..]
  }

  /** Update the newest execution with this id, wherever it is. */
  function SearchCore(id: string, u: Update, c: Core<Execution>): Core<Execution> {
    if c.current.Some? && HasTool(id, c.current.value.segments)
    then c.(current := Some(SearchAssistant(id, u, c.current.value)))
    else c.(blocks := SearchBlocks(id, u, c.blocks))
  }

  function SearchEach(ids: seq<string>, u: Update, c: Core<Execution>): Core<Execution>
    decreases |ids|
  {
    if ids == [] then c else SearchEach(ids[1..], u, SearchCore(ids[0], u, c))
  }

  function RefHandle(cfg: Config, c: Core<Execution>, h: Handled): Core<Execution> {
    var raw := RawJson(cfg, h.raw);
    match h.event
    case ToolUseStart(call, messageId) => c.AddSegment(messageId, raw, ToolSegment(Start(call)))
    case ToolUseResult(id, output, isError, isReplay) =>
      SearchCore(id, SetResult(ToolResult(cfg.clip(output, MAX_TOOL_OUTPUT), isError, isReplay)), c)
    case ToolProgress(id, elapsed, _, _) =>
      HandlePlain(SearchCore(id, SetProgress(elapsed), c), h.event, raw, h.pushNo)
    case ToolSummary(summary, ids) => SearchEach(ids, SetSummary(cfg.clip(summary, MAX_TOOL_SUMMARY)), c)
    case _ => HandlePlain(c, h.event, raw, h.pushNo)
  }

  function StartedBy(h: Handled): seq<string> {
    if h.event.ToolUseStart? then [h.event.call.toolUseId] else []
  }

  function RefHandleOne(cfg: Config, r: Ref, h: Handled): Ref {
    r.(core := RefHandle(cfg, r.core, h), started := r.started + StartedBy(h))
  }

  function RefHandleAll(cfg: Config, r: Ref, hs: seq<Handled>): Ref
    decreases |hs|
  {
    if hs == [] then r else RefHandleAll(cfg, RefHandleOne(cfg, r, hs[0]), hs[1..])
  }

  function RefPush(cfg: Config, r: Ref, i: Incoming): Ref {
    RefHandleAll(cfg, r.(gate := Through(cfg, r.gate, i)), Released(r.gate, i))
  }

  // ---- Runs ----

  /** What happens to an accumulator, or elsewhere: other accumulators of the process draw numbers from the same block
    * counter. */
  datatype Op = Push(incoming: Incoming) | Finalize | Reset | Elsewhere(numbers: nat)

  const EMPTY_GATE := Gate(0, false, [])

  ghost function Step(cfg: Config, s: State, op: Op): State {
    match op
    case Push(i) => PushState(cfg, s, i)
    case Finalize => FinalizeState(s)
    case Reset => ResetState(s)
    case Elsewhere(n) => s.(body := s.body.(core := s.body.core.(ids := s.body.core.ids + n)))
  }

  /** A new accumulator, with the block counter at `ids`. */
  function Initial(ids: nat): State {
    State(EMPTY_GATE, Body(Core([], None, ids), [], map[]))
  }

  /** The state after a run, from a new accumulator and a block counter at `ids`. */
  ghost function Run(cfg: Config, ids: nat, ops: seq<Op>): State {
    if ops == [] then Initial(ids)
    else Step(cfg, Run(cfg, ids, ops[..|ops| - 1]), ops[|ops| - 1])
  }

  function RefStep(cfg: Config, r: Ref, op: Op): Ref {
    match op
    case Push(i) => RefPush(cfg, r, i)
    case Finalize => r.(core := r.core.Closed())
    case Reset => Ref(Gate(r.gate.pushCounter, false, []), Core([], None, r.core.ids), [])
    case Elsewhere(n) => r.(core := r.core.(ids := r.core.ids + n))
  }

  function RefRun(cfg: Config, ids: nat, ops: seq<Op>): Ref {
    if ops == [] then Ref(EMPTY_GATE, Core([], None, ids), [])
    else RefStep(cfg, RefRun(cfg, ids, ops[..|ops| - 1]), ops[|ops| - 1])
  }

  ghost predicate Distinct(ids: seq<string>) {
    forall i, j :: 0 <= i < j < |ids| ==> ids[i] != ids[j]
  }

  /** Between two resets, no two tools are started with the same id. */
  ghost predicate DistinctTools(cfg: Config, ids: nat, ops: seq<Op>) {
    forall n :: 0 <= n <= |ops| ==> Distinct(RefRun(cfg, ids, ops[..n]).started)
  }

  // ---- What a reader of the bounded accumulator sees ----

  const UNKNOWN := Start(ToolCall("", "", "", None))

  function ResolveSegment(execs: seq<Execution>, s: Segment<nat>): Segment<Execution> {
    match s
    case TextSegment(text, parent) => TextSegment(text, parent)
    case ToolSegment(h) => ToolSegment(if h < |execs| then execs[h] else UNKNOWN)
  }

  function ResolveSegments(execs: seq<Execution>, ss: seq<Segment<nat>>): seq<Segment<Execution>> {
    seq(|ss|, i requires 0 <= i < |ss| => ResolveSegment(execs, ss[i]))
  }

  function ResolveAssistant(execs: seq<Execution>, a: Assistant<nat>): Assistant<Execution> {
    Assistant(a.id, ResolveSegments(execs, a.segments), a.thinking, a.streaming, a.raw)
  }

  function ResolveBlock(execs: seq<Execution>, b: Block<Assistant<nat>>): Block<Assistant<Execution>> {
    match b
    case UserBlock(id, text, timestamp, raw) => UserBlock(id, text, timestamp, raw)
    case AssistantBlock(a) => AssistantBlock(ResolveAssistant(execs, a))
    case InteractionBlock(id, kind, requestId, data) => InteractionBlock(id, kind, requestId, data)
    case TurnBoundary(id, success, data) => TurnBoundary(id, success, data)
    case NoticeBlock(id, kind, data) => NoticeBlock(id, kind, data)
    case SystemBlock(id, kind, data, raw) => SystemBlock(id, kind, data, raw)
    case ProgressBlock(id, progress, parent) => ProgressBlock(id, progress, parent)
  }

  function ResolveBlocks(execs: seq<Execution>, bs: seq<Block<Assistant<nat>>>)
    : seq<Block<Assistant<Execution>>>
  {
    seq(|bs|, i requires 0 <= i < |bs| => ResolveBlock(execs, bs[i]))
  }

  function Resolve(execs: seq<Execution>, c: Core<nat>): Core<Execution> {
    Core(ResolveBlocks(execs, c.blocks),
         if c.current.Some? then Some(ResolveAssistant(execs, c.current.value)) else None, c.ids)
  }
}
