/** Protocol events and conversation blocks of one chat session.
  *
  * Block and Segment are generic in how an assistant turn and a tool execution are held: by value in the
  * reference accumulator, by position in the specification of the indexed one, and by reference in the class. */
module Conversation {
  import opened Options

  // JSON payloads that the accumulator copies but never looks into.
  type Payload = string

  datatype InteractionKind = Permission | Question | Plan | ElicitationRequest

  datatype NoticeKind =
    | AssistantErrorNotice | RateLimit | ContextCompacted | AuthStatus | SessionClosed | ErrorNotice | PromptSuggestion

  datatype SystemKind =
    | SessionInitialized | SessionStatus | ElicitationComplete | HookEvent | TaskStarted | TaskProgressed
    | TaskNotification | FilesSaved | CommandOutput | OtherStreamDelta | UnknownSdkEvent

  datatype DeltaKind = ContentBlockStart | ContentBlockDelta | MessageStop | OtherDelta(name: string)

  datatype ToolCall = ToolCall(toolName: string, toolInput: Payload, toolUseId: string, parent: Option<string>)

  /** A protocol event. An absent optional string of a stream delta is the empty string: both are falsy. */
  datatype Event =
    | UserMessageEcho(content: string, timestamp: int)
    | SessionInit(data: Payload)
    | AssistantText(text: string, messageId: string, parent: Option<string>)
    | AssistantThinking(thinking: string, messageId: string)
    | AssistantError(data: Payload)
    | ToolUseStart(call: ToolCall, messageId: string)
    | ToolUseResult(toolUseId: string, output: string, isError: bool, isReplay: bool)
    | ToolProgress(toolUseId: string, elapsedSeconds: real, taskId: Option<string>, parent: Option<string>)
    | ToolSummary(summary: string, precedingToolUseIds: seq<string>)
    | TurnComplete(data: Payload)
    | TurnError(data: Payload)
    | Interaction(interaction: InteractionKind, requestId: string, data: Payload)
    | Notice(notice: NoticeKind, data: Payload)
    | System(system: SystemKind, data: Payload)
    | TaskProgress(description: string, agentTaskId: string, taskSummary: Option<string>, taskToolUseId: Option<string>,
                   data: Payload)
    | StreamDelta(delta: DeltaKind, messageId: string, textDelta: string, thinkingDelta: string, data: Payload)
    | Ignored(name: string)

  datatype Status = Running | Complete | Failed

  datatype ToolResult = ToolResult(output: string, isError: bool, isReplay: bool)

  datatype Execution = Execution(call: ToolCall, result: Option<ToolResult>, progress: Option<real>,
                                 summary: Option<string>, status: Status)

  /** The three ways a later event changes an execution in place. */
  datatype Update = SetResult(result: ToolResult) | SetProgress(elapsedSeconds: real) | SetSummary(summary: string)

  function Start(call: ToolCall): Execution {
    Execution(call, None, None, None, Running)
  }

  function Apply(u: Update, x: Execution): Execution {
    match u
    case SetResult(r) => x.(result := Some(r), status := if r.isError then Failed else Complete)
    case SetProgress(t) => x.(progress := Some(t))
    case SetSummary(t) => x.(summary := Some(t))
  }

  datatype Segment<T> =
    | TextSegment(text: string, parent: Option<string>)
    | ToolSegment(execution: T)

  datatype Assistant<T> = Assistant(id: string, segments: seq<Segment<T>>, thinking: Option<string>,
                                    streaming: bool, raw: Option<Payload>)

  // `user-n` and `block-n`
  datatype BlockId = UserId(n: nat) | GeneratedId(n: nat)

  datatype ProgressData =
    | BashProgress(elapsedTimeSeconds: real, taskId: Option<string>)
    | AgentProgress(prompt: string, agentId: string, message: Option<string>)

  datatype Block<A> =
    | UserBlock(id: BlockId, text: string, timestamp: int, raw: Option<Payload>)
    | AssistantBlock(assistant: A)
    | InteractionBlock(id: BlockId, interaction: InteractionKind, requestId: string, data: Payload)
    | TurnBoundary(id: BlockId, success: bool, data: Payload)
    | NoticeBlock(id: BlockId, notice: NoticeKind, data: Payload)
    | SystemBlock(id: BlockId, system: SystemKind, data: Payload, raw: Option<Payload>)
    | ProgressBlock(id: BlockId, progress: ProgressData, parent: Option<string>)

  /** What the events that are not about tools need: the finalised blocks, the open assistant turn and the last
    * block number handed out. */
  datatype Core<T> = Core(blocks: seq<Block<Assistant<T>>>, current: Option<Assistant<T>>, ids: nat) {

    /** The blocks a reader sees: the finalised ones, then the open turn. */
    function Visible(): seq<Block<Assistant<T>>> {
      blocks + if current.Some? then [AssistantBlock(current.value)] else []
    }

    /** The open turn, opened now if there is none. */
    function Opened(messageId: string, raw: Option<Payload>): Assistant<T> {
      if current.Some? then current.value else Assistant(messageId, [], None, true, raw)
    }

    function Closed(): Core<T> {
      if current.Some?
      then this.(blocks := blocks + [AssistantBlock(current.value.(streaming := false))], current := None)
      else this
    }

    function AddSegment(messageId: string, raw: Option<Payload>, s: Segment<T>): Core<T> {
      var a := Opened(messageId, raw);
      this.(current := Some(a.(segments := a.segments + [s])))
    }
  }

  function WithText<T>(a: Assistant<T>, text: string, parent: Option<string>): Assistant<T> {
    var n := |a.segments|;
    if n > 0 && a.segments[n - 1].TextSegment? && a.segments[n - 1].parent == parent
    then a.(segments := a.segments[n - 1 := TextSegment(a.segments[n - 1].text + text, parent)])
    else a.(segments := a.segments + [TextSegment(text, parent)])
  }

  function WithTextDelta<T>(a: Assistant<T>, text: string): Assistant<T> {
    var n := |a.segments|;
    if n > 0 && a.segments[n - 1].TextSegment?
    then a.(segments := a.segments[n - 1 := a.segments[n - 1].(text := a.segments[n - 1].text + text)])
    else a
  }

  function WithThinking<T>(a: Assistant<T>, thinking: string): Assistant<T> {
    a.(thinking := Some(a.thinking.GetOr("") + thinking))
  }

  /** Whether an event ends the open turn before anything else. */
  predicate Closes(e: Event) {
    e.UserMessageEcho? || e.AssistantError? || e.TurnComplete? || e.TurnError? ||
    (e.StreamDelta? && e.delta.MessageStop?)
  }

  /** Whether an event writes to the open turn, opening one if there is none. */
  predicate Edits(e: Event) {
    || e.AssistantText? || e.AssistantThinking?
    || (e.StreamDelta? && e.delta.ContentBlockStart?)
    || (e.StreamDelta? && e.delta.ContentBlockDelta? && (e.textDelta != "" || e.thinkingDelta != ""))
  }

  function Edit<T>(a: Assistant<T>, e: Event): Assistant<T>
    requires Edits(e)
  {
    match e
    case AssistantText(text, _, parent) => WithText(a, text, parent)
    case AssistantThinking(thinking, _) => WithThinking(a, thinking)
    case StreamDelta(ContentBlockStart, _, _, _, _) => a.(segments := a.segments + [TextSegment("", None)])
    case StreamDelta(ContentBlockDelta, _, text, thinking, _) =>
      if text != "" then WithTextDelta(a, text) else WithThinking(a, thinking)
  }

  /** The blocks an event adds, where `ids` is the last number handed out. */
  function Notes<A>(e: Event, raw: Option<Payload>, pushNo: nat, ids: nat): (notes: seq<Block<A>>)
    ensures forall i :: 0 <= i < |notes| ==> !notes[i].AssistantBlock?
  {
    var id := GeneratedId(ids + 1);
    match e
    case UserMessageEcho(content, timestamp) => [UserBlock(UserId(pushNo), content, timestamp, raw)]
    case SessionInit(data) => [SystemBlock(id, SessionInitialized, data, raw)]
    case AssistantError(data) => [NoticeBlock(id, AssistantErrorNotice, data)]
    case ToolProgress(_, elapsed, taskId, parent) => [ProgressBlock(id, BashProgress(elapsed, taskId), parent)]
    case TurnComplete(data) => [TurnBoundary(id, true, data)]
    case TurnError(data) => [TurnBoundary(id, false, data)]
    case Interaction(kind, requestId, data) => [InteractionBlock(id, kind, requestId, data)]
    case Notice(kind, data) => [NoticeBlock(id, kind, data)]
    case System(kind, data) => [SystemBlock(id, kind, data, raw)]
    case TaskProgress(description, taskId, summary, toolUseId, data) =>
      [SystemBlock(id, TaskProgressed, data, raw),
       ProgressBlock(GeneratedId(ids + 2), AgentProgress(description, taskId, summary), toolUseId)]
    case StreamDelta(OtherDelta(_), _, _, _, data) => [SystemBlock(id, OtherStreamDelta, data, raw)]
    case _ => []
  }

  // How many generated ids an event takes: an echo is named after its push.
  function Numbers(e: Event): nat {
    match e
    case UserMessageEcho(_, _) => 0
    case TaskProgress(_, _, _, _, _) => 2
    case AssistantText(_, _, _) => 0
    case AssistantThinking(_, _) => 0
    case ToolUseStart(_, _) => 0
    case ToolUseResult(_, _, _, _) => 0
    case ToolSummary(_, _) => 0
    case StreamDelta(kind, _, _, _, _) => if kind.OtherDelta? then 1 else 0
    case Ignored(_) => 0
    case _ => 1
  }

  /** The effect of an event on the core, apart from what it does to tool executions. */
  function HandlePlain<T>(c: Core<T>, e: Event, raw: Option<Payload>, pushNo: nat): Core<T> {
    var c := if Closes(e) then c.Closed() else c;
    var c := if Edits(e) then c.(current := Some(Edit(c.Opened(e.messageId, raw), e))) else c;
    c.(blocks := c.blocks + Notes(e, raw, pushNo, c.ids), ids := c.ids + Numbers(e))
  }
}
