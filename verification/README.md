# Claude View: proofs about the chat sidecar and the session statistics

A Dafny model of two parts of Claude View, and proofs of what they promise.

The first part is the sidecar runtime of one chat session. `StreamAccumulator` folds protocol events into conversation
blocks behind an init gate, with an id index over its tool executions and a cap on its history; `ControlSession` decides
which events reach it; `PermissionHandler` keeps promises that answers, timers, aborts and drains race to settle;
`MessageBridge` is the message queue between the user and the SDK; `SuperviseServer` restarts a crashed server within a
sliding window. Each is a class that changes its fields as the program does, proved equal, call by call, to a
specification on values. The theorems are about runs of the specification: the bounded, indexed accumulator against a
reference that never forgets a block and searches all of them, the queue against delivery by rank, the promises against
the first verdict on each request.

The second part are four Rust algorithms with loops over hash maps in no particular order: the statistics of a session
(the last line of a message counts), the rollup per date and project (the first line counts), the clustering of
prompts into templates, and the decoding of project directory names by probing the file system.

Caps, buffer sizes and restart budgets are parameters. So are the functions the model leaves open: text truncation and
the raw message envelope (`Config`), tokenising and regex normalisation (`tok`, `norm`), the date of a time stamp
(`dateOf`), and the file system (`isDir`, `present`). Every theorem holds for any choice of them; two of the examples
fix a cap of two blocks.

## Files

| file | contents |
|---|---|
| `Conversation.dfy`, `AccumulatorSpec.dfy` | events, blocks, the bounded accumulator and the reference on values |
| `AccumulatorIndex.dfy`, `AccumulatorCap.dfy`, `AccumulatorExact.dfy` | the index against the search, the bounded accumulator against the reference, and when exactly they agree |
| `AccumulatorGate.dfy`, `AccumulatorTwins.dfy` | the init gate: what a reader can tell of it, at once and later |
| `AccumulatorText.dfy`, `AccumulatorBlocks.dfy` | the text and the block ids over runs |
| `AccumulatorEffects.dfy` | what each event does, field by field, and the status of tools over runs |
| `AccumulatorExamples.dfy` | runs in which a tool id is used twice or the index outgrows the cap |
| `StreamAccumulator.dfy`, `SessionRegistry.dfy` | the accumulator and `emitSequenced` as classes |
| `PermissionSpec.dfy`, `PermissionHandler.dfy` | the four maps of promises: runs, and the class |
| `MessageBridge.dfy`, `Supervise.dfy` | the queue and the supervisor: runs, and the classes |
| `SessionSums.dfy`, `SessionStats.dfy`, `ReportColumns.dfy` | sums over last lines; the two passes of the statistics; what each number of the report counts |
| `AnalyticsRollup.dfy`, `RollupColumns.dfy`, `RollupFeature.dfy` | the rollup; what its numbers count; the class |
| `CountingAgrees.dfy` | when both ways of counting agree |
| `PromptGroups.dfy`, `PromptClusters.dfy`, `PromptTemplates.dfy` | grouping prompts, clustering, template detection |
| `PromptPairs.dfy` | what becomes of two prompts |
| `MemoryFiles.dfy` | directory name decoding |
| `StableSort.dfy`, `Permutations.dfy`, `Traversal.dfy`, `LexOrder.dfy`, `Options.dfy` | sorting, permutations, loops over sets, string order, options |

## What the proofs found

* Evicting a block deletes the index entry of a newer execution with the same tool id. `EvictionKeepsIndexComplete` is
  the exact condition, `ReusedIdIsForgotten` a run of five events in which a visible execution is lost to the index.
  The cap then shows: `CappedRefinesExactly` says that the bounded accumulator is its reference without the trimmed
  blocks, whatever comes next, if and only if no push evicts an id in use.
* For the same reason the init gate can be seen. In `GateShows` a tool id is reused across the cap; with session_init
  first its result is lost, with session_init last it arrives. `GateIsInvisibleExactly` is the condition. The other way
  round, session_init last evicts all at once and can lose an id that the other order kept (`LateLoses`);
  `GateIsInvisibleForEver` says when nothing that happens later tells the two orders apart.
* The comment on the cap says that the index cannot outgrow MAX_BLOCKS. It can (`IndexOutgrowsCap`): the executions of an
  open turn are not evicted. The index holds visible tool ids only, and all of them as long as evictions spare the ids in
  use (`IndexIsVisibleIds`). So it keeps to the cap exactly if no more tool ids than that are visible
  (`IndexKeepsToCap`).
* The supervisor means to count the crashes of the trailing window. On a clock that is set back it also counts those that
  now lie ahead, and can give up without a single crash in the window (`ClockSetBack`). `RefusedExactly` is the rule for
  any clock, `TrailingRuleFails` says exactly when it differs from the intended one. The bound on restarts in a window
  holds for any clock.
* A child that emits 'error' and then a crash 'exit' uses up a restart without one. `RecordedIsRestarted` says exactly
  when that happens.
* A message without an id is remembered as `__anon_1`, `__anon_2` and so on. A message whose id is one of these is
  confused with it and one of the two is lost. `LastWinsExactly` says that this is the only way to lose one, and
  `SumIsExact` that a total is wrong exactly if a message so lost has some of what is counted.
* The comment on re-edited files speaks of files touched twice; the code counts streamed duplicates as well.
  `ReeditedCountsStreaming` says exactly when the two differ.
* Templates are least general generalisations even of prompts that contain the wildcard. A wildcard in a template means
  that members differ or that the first one has it there itself (`WildcardMeansDisagreement`); the same prompt twice
  can report a slot (`LiteralWildcard`).
* Not every project directory comes back from its name. `RoundTrip` and `ReadableExactly` say which paths do, whatever
  the file system; `ProbeEncodedPath` says when a path found encodes to the name, and `MisreadName` is one that does
  not, with an '@' after a dash.
* The placeholders a template reports as slots leave out `<HASH>`, which the normalisation inserts as well
  (`SlotsAreNamed`).

## Model

| member | source | states |
|---|---|---|
| AccumulatorCap.CappedRefinesUncapped | sidecar/src/stream-accumulator.ts:291-341 | over every run of push, finalize and reset, with repeated tool ids and with other sessions drawing block numbers in between, in which no push but perhaps the last evicts an id in use, the blocks a reader of the bounded accumulator sees are the whole history of the reference without its first k blocks that are no turn boundaries, contents and open turn included; after a push k is what one trimming at the end would take |
| AccumulatorExact.CappedRefinesExactly | sidecar/src/stream-accumulator.ts:291-341 | this holds all through a run, whatever event comes next, if and only if no push of the run evicts an id in use |
| AccumulatorExact.LossShows | sidecar/src/stream-accumulator.ts:299-304 | after a push that evicts an id in use there is an event that makes the two differ |
| AccumulatorCap.CappedRefinesDistinct | sidecar/src/stream-accumulator.ts:291-341 | in particular over every run with distinct tool ids |
| AccumulatorCap.TrimOnce | sidecar/src/stream-accumulator.ts:291-306 | trimming what is left of a list after k blocks went gives what one trimming of the whole list gives |
| AccumulatorCap.ShowsEnforce | sidecar/src/stream-accumulator.ts:291-313 | an eviction makes the bounded accumulator show the history trimmed once to the cap, whatever it evicts |
| AccumulatorCap.CapHolds | sidecar/src/stream-accumulator.ts:291-306 | after a push that is not buffered the cap holds, or only turn boundaries are kept |
| AccumulatorCap.ResolveHandle | sidecar/src/stream-accumulator.ts:366-489 | looking up an execution through the index and changing it in place has the effect of searching the visible blocks for the newest execution of the id |
| AccumulatorCap.DropDrop | sidecar/src/stream-accumulator.ts:292-306 | evicting at every step is evicting once |
| AccumulatorIndex.IndexEntriesAreVisible | sidecar/src/stream-accumulator.ts:273-305 | over every run, also with repeated ids, an index entry leads to an execution of its id that a visible block holds |
| AccumulatorIndex.IndexIsSearch | sidecar/src/stream-accumulator.ts:695-700 | lookup by id is a linear search of getBlocks(), for every id and all through a run, if and only if no push of the run evicts an id in use |
| AccumulatorIndex.DistinctToolsSpare | sidecar/src/stream-accumulator.ts:299-304 | distinct tool ids are enough for that |
| AccumulatorIndex.IndexIsVisibleIds | sidecar/src/stream-accumulator.ts:273-305 | over every run the index has entries for visible tool ids only; it has all of them if and only if lookup is the search, and as long as no push evicts an id in use |
| AccumulatorIndex.EntriesAreNewest | sidecar/src/stream-accumulator.ts:547-549 | over every run an entry leads to the newest execution started under its id |
| AccumulatorIndex.IndexKeepsToCap | sidecar/src/stream-accumulator.ts:299-299 | the index has at most MAX_BLOCKS entries if at most that many tool ids are visible, and only then as long as no push evicts an id in use |
| AccumulatorIndex.IndexFitsLive | sidecar/src/stream-accumulator.ts:299-299 | over every run the index has at most as many entries as there are visible executions |
| AccumulatorExamples.IndexOutgrowsCap | sidecar/src/stream-accumulator.ts:299-299 | for every cap there is a run after which the index has more entries than the cap allows blocks, so the bound of the comment is false; IndexKeepsToCap is when it holds |
| AccumulatorIndex.HandleKeepsIndexComplete | sidecar/src/stream-accumulator.ts:539-594 | no handler, not even a start under an id in use, makes index and search differ |
| AccumulatorIndex.EvictionKeepsIndexComplete | sidecar/src/stream-accumulator.ts:299-304 | an eviction keeps index and search in step if and only if no tool id of an evicted block is still in use |
| AccumulatorIndex.ArenaIsHistory | sidecar/src/stream-accumulator.ts:539-550 | the executions of the bounded accumulator are the history of started tools, and both accumulators are behind the same gate |
| AccumulatorExamples.ReusedIdIsForgotten | sidecar/src/stream-accumulator.ts:300-304 | a concrete run after which a visible execution cannot be found by its id |
| AccumulatorGate.GateIsInvisible | sidecar/src/stream-accumulator.ts:315-341 | from any sound state, at most a buffer full of events followed by session_init leaves the same gate, blocks, block numbers, executions and open turn as session_init followed by those events, whatever is evicted and repeated on the way, if no push of the latter order but perhaps the last evicts an id in use |
| AccumulatorGate.GateIsInvisibleExactly | sidecar/src/stream-accumulator.ts:315-341 | the two orders stay the same after each of these events, whatever event comes next, if and only if no push of the latter order evicts an id in use |
| AccumulatorGate.HarmShows | sidecar/src/stream-accumulator.ts:315-341 | if the last push does, there is an event after which the two orders differ |
| AccumulatorTwins.GateIsInvisibleForEver | sidecar/src/stream-accumulator.ts:315-341 | if no push with session_init first evicts an id in use, the two orders stay the same to a reader under every continuation if and only if neither does session_init last |
| AccumulatorTwins.InvisibleForEverExactly | sidecar/src/stream-accumulator.ts:315-341 | and, if the last of these pushes may, if and only if both orders end with the same index |
| AccumulatorTwins.TwinsContinue | sidecar/src/stream-accumulator.ts:291-489 | two accumulators that differ in executions nobody can see stay so under every continuation by push, finalize, reset and other sessions |
| AccumulatorExamples.LateLoses | sidecar/src/stream-accumulator.ts:291-306 | a concrete run in which only session_init last loses an id in use, so the two orders look the same and differ later |
| AccumulatorExamples.GateShows | sidecar/src/stream-accumulator.ts:299-304 | a concrete run in which the two orders leave a visible execution complete and running |
| AccumulatorGate.GateIsInvisibleDistinct | sidecar/src/stream-accumulator.ts:315-341 | the two orders lead to the same after every run with distinct tool ids |
| AccumulatorGate.GateIsInvisibleBelowCap | sidecar/src/stream-accumulator.ts:315-341 | below the cap the two orders lead to the very same state, also with repeated tool ids |
| AccumulatorGate.BufferKeepsNewest | sidecar/src/stream-accumulator.ts:327-335 | before session_init a push changes only the buffer, which holds exactly the newest events in order |
| AccumulatorGate.InitReplaysNewest | sidecar/src/stream-accumulator.ts:503-513 | session_init handles exactly the newest buffered events, in order, after itself |
| AccumulatorGate.BufferInvariant | sidecar/src/stream-accumulator.ts:327-335 | over every run an initialised accumulator has an empty buffer, and the buffer never exceeds its bound |
| AccumulatorText.TextIsConserved | sidecar/src/session-registry.ts:92-114 | over every run of emitSequenced the assistant text handled since the last reset, all of it, that under each parent and the thinking, is each what was evicted followed by what the visible blocks hold, in order, whatever deltas, skeleton segments, finalisations and other sessions come in between |
| AccumulatorText.EmitRunIsRun | sidecar/src/session-registry.ts:109-112 | the accumulator behind the filter is one that got everything but the text deltas |
| AccumulatorText.TextIsWholeBelowCap | sidecar/src/session-registry.ts:92-114 | as long as the cap is not reached the visible blocks hold all of it, under each parent, and all the thinking |
| AccumulatorText.UnfilteredDeltaDoublesText | sidecar/src/session-registry.ts:110-113 | in any open turn that ends in a text segment, a delta that reached the accumulator and the text event it belongs to would put the text there twice |
| AccumulatorText.TextOfDelta | sidecar/src/stream-accumulator.ts:641-671 | a delta to an open turn adds its text exactly if the turn ends in a text segment, under the parent of that; it adds its thinking if it has no text |
| AccumulatorText.TextPlain | sidecar/src/stream-accumulator.ts:515-527 | an event adds exactly its own text or thinking at the end, under its own parent |
| AccumulatorBlocks.BlocksFit | sidecar/src/stream-accumulator.ts:226-229 | over every run of push, finalize and reset, with other sessions drawing block numbers in between, push and block numbers grow along the finalised blocks and only the open turn streams |
| AccumulatorBlocks.VisibleIdsAreUnique | sidecar/src/stream-accumulator.ts:343-354 | over the same runs no two visible blocks share an id named after a push or a block number (assistant blocks have the ids of their messages), and only the last visible block can be streaming |
| AccumulatorEffects.StatusFollowsResult | sidecar/src/stream-accumulator.ts:539-584 | over every run a tool runs if and only if it has no result, has failed if and only if its result is an error, and is complete otherwise |
| AccumulatorEffects.ResultOfPush | sidecar/src/stream-accumulator.ts:552-562 | after the push of a result for an id in the index the execution found has its output cut to 100000, error and replay flags, and failed or complete accordingly; call, progress, summary and all other executions are as before |
| AccumulatorEffects.ResultArrives | sidecar/src/stream-accumulator.ts:552-562 | the same of the handler, which touches neither blocks nor index |
| AccumulatorEffects.ProgressArrives | sidecar/src/stream-accumulator.ts:564-571 | progress for an id in the index sets the elapsed time of that execution and nothing else of any |
| AccumulatorEffects.ProgressIsShown | sidecar/src/stream-accumulator.ts:573-583 | known or not, progress adds a block with time, task and parent |
| AccumulatorEffects.NobodyFound | sidecar/src/stream-accumulator.ts:552-584 | a result for an unknown id does nothing, and progress changes no execution |
| AccumulatorEffects.SummaryArrives | sidecar/src/stream-accumulator.ts:586-594 | a summary, cut to 10000, goes to the executions of the preceding ids that are in the index, to all of them and to no other |
| AccumulatorEffects.ToolStarts | sidecar/src/stream-accumulator.ts:539-550 | a started tool runs without result, is the last segment of the turn and the index entry of its id |
| AccumulatorEffects.TextArrives | sidecar/src/stream-accumulator.ts:515-527 | text goes to the last segment if that is text under the same parent, else to a new one |
| AccumulatorEffects.ThinkingArrives | sidecar/src/stream-accumulator.ts:529-532 | thinking is added behind what the turn has thought before |
| AccumulatorEffects.DeltaArrives | sidecar/src/stream-accumulator.ts:648-660 | a delta adds its text to a last text segment, or else its thinking, or does nothing |
| AccumulatorEffects.SkeletonArrives | sidecar/src/stream-accumulator.ts:643-647 | content_block_start adds an empty text segment |
| AccumulatorEffects.TurnEnds | sidecar/src/stream-accumulator.ts:491-639 | which events close the open turn first, and the block each adds: an echo, an error notice, a boundary with its success flag |
| AccumulatorEffects.BlocksArrive | sidecar/src/stream-accumulator.ts:366-489 | the blocks that all other events add, with their contents and numbers; the open turn is left alone |
| AccumulatorEffects.PlainArrives | sidecar/src/stream-accumulator.ts:366-489 | the events that are not about tools touch neither executions nor index |
| AccumulatorEffects.GateDecides | sidecar/src/stream-accumulator.ts:315-341 | an echo is handled at once, session_init with the waiting events, all else if the gate is open; otherwise it waits, and pushes out the oldest if the buffer is full |
| AccumulatorEffects.EvictedFromFront | sidecar/src/stream-accumulator.ts:291-306 | an eviction reduces a front part of the blocks to its turn boundaries and leaves the rest |
| StreamAccumulator.StreamAccumulator.HoldsTrimmedHistory | sidecar/src/stream-accumulator.ts:291-341 | the blocks, turns and executions the object holds are the whole history of all it went through, without what one trimming would have removed, if no push but perhaps the last evicted an id in use |
| StreamAccumulator.StreamAccumulator.SeesState | sidecar/src/stream-accumulator.ts:343-345 | every block, turn, segment and execution object has exactly the contents the specified state shows |
| StreamAccumulator.StreamAccumulator.StatusesFit | sidecar/src/stream-accumulator.ts:552-562 | the status of every execution object goes with its result, in the same way |
| StreamAccumulator.StreamAccumulator.Push | sidecar/src/stream-accumulator.ts:315-341 | the class after push is the specified state after push, and its history is longer by this push |
| StreamAccumulator.StreamAccumulator.Finalize | sidecar/src/stream-accumulator.ts:347-354 | the open turn, if any, is closed and becomes the last block; all blocks are returned and none is evicted |
| StreamAccumulator.StreamAccumulator.Reset | sidecar/src/stream-accumulator.ts:358-364 | blocks, open turn, buffer and index are emptied, the gate is shut; push counter and block counter go on |
| StreamAccumulator.StreamAccumulator.GetBlocks | sidecar/src/stream-accumulator.ts:343-345 | the finalised blocks and then the open turn, block by block what the specification makes visible |
| StreamAccumulator.StreamAccumulator.EnforceBlockCap | sidecar/src/stream-accumulator.ts:291-313 | the loop of splices evicts exactly the first expendable blocks and deletes exactly their ids |
| StreamAccumulator.StreamAccumulator.FindExpendable | sidecar/src/stream-accumulator.ts:296-297 | the first block that is no turn boundary, or -1 |
| StreamAccumulator.StreamAccumulator.FindToolExecution | sidecar/src/stream-accumulator.ts:695-700 | the very object in the index, or none; it is the execution at the position the specified index names |
| StreamAccumulator.StreamAccumulator.IndexIsShared | sidecar/src/stream-accumulator.ts:273-277 | every indexed object is the very object a segment of a visible block holds |
| StreamAccumulator.StreamAccumulator.HandleEvent | sidecar/src/stream-accumulator.ts:366-489 | every branch of the dispatch has the specified effect |
| StreamAccumulator.StreamAccumulator.HandleSessionInit | sidecar/src/stream-accumulator.ts:503-513 | the replay loop handles the whole buffer in order |
| StreamAccumulator.StreamAccumulator.HandleToolUseStart | sidecar/src/stream-accumulator.ts:539-550 | a new execution is shared by the open turn and the index |
| StreamAccumulator.StreamAccumulator.HandleToolUseResult | sidecar/src/stream-accumulator.ts:552-562 | the indexed object, if any, gets the clipped output with its flags, and failed or complete; progress and summary stay |
| StreamAccumulator.StreamAccumulator.HandleToolProgress | sidecar/src/stream-accumulator.ts:564-584 | the indexed object gets the elapsed time and keeps result, status and summary; a progress block is added either way |
| StreamAccumulator.StreamAccumulator.HandleToolSummary | sidecar/src/stream-accumulator.ts:586-594 | every preceding execution gets the summary, one after the other |
| StreamAccumulator.StreamAccumulator.HandleStreamDelta | sidecar/src/stream-accumulator.ts:641-671 | the four kinds of structural events |
| SessionRegistry.ControlSession.TextIsKept | sidecar/src/session-registry.ts:92-114 | what the blocks of a session's accumulator hold, in all, under each parent and as thinking, is that of all that was emitted since the last reset, without what was evicted at its front |
| SessionRegistry.ControlSession.EmitSequenced | sidecar/src/session-registry.ts:92-114 | every event is emitted once, after the accumulator took it in; content block deltas, and no other event, bypass the accumulator; session_init is remembered |
| PermissionSpec.FirstVerdictWins | sidecar/src/permission-handler.ts:73-215 | over any interleaving of requests, answers, timers, aborts and drains each promise is settled with the first verdict on its request, and the invariant of the maps holds |
| PermissionSpec.ExactlyOneMap | sidecar/src/permission-handler.ts:40-43 | a request is in one of the four maps, and in one only, if and only if it is unsettled |
| PermissionSpec.PendingIsUnsettled | sidecar/src/permission-handler.ts:305-307 | pendingCount is requests issued less requests settled, no promise is resolved twice, and timers run exactly for the waiting permissions |
| PermissionSpec.DrainAllSettlesEverything | sidecar/src/permission-handler.ts:276-290 | after drainAll nothing is unsettled |
| PermissionSpec.FateIsFinal | sidecar/src/permission-handler.ts:219-273 | what a promise was settled with never changes |
| PermissionSpec.PermissionNeedsYes | sidecar/src/permission-handler.ts:219-234 | a permission is allowed if and only if resolvePermission(id, true) found it waiting, and then with its original input |
| PermissionSpec.PlanNeedsYes | sidecar/src/permission-handler.ts:244-265 | a plan is allowed if and only if resolvePlan(id, true) found it waiting; its input is the original one, except that allowedPrompts is emptied if bypassPermissions is false |
| PermissionSpec.KindOf | sidecar/src/permission-handler.ts:55-69 | a question is AskUserQuestion, a plan is ExitPlanMode, an elicitation any other tool but the six standard ones with a non-empty prompt, and all else needs permission |
| PermissionSpec.SettledByTool | sidecar/src/permission-handler.ts:73-303 | over every run the promise of a tool call is settled with a result if and only if an operation found it waiting that settles calls of this tool so: which answers, aborts, timeouts and drains do, and what they carry, written out by tool name |
| PermissionSpec.ExitPlanModeNeedsYes | sidecar/src/permission-handler.ts:244-303 | the call of ExitPlanMode is allowed if and only if resolvePlan(id, true) found it waiting; no drain allows it |
| PermissionSpec.InvStep | sidecar/src/permission-handler.ts:176-303 | every operation keeps the invariant of maps, inputs, timers and counts |
| PermissionHandler.PermissionHandler.HandleCanUseTool | sidecar/src/permission-handler.ts:45-215 | a new promise waits in exactly one of the four maps, told by the tool name, and the other three are as before; a timer starts for a permission only |
| PermissionHandler.PermissionHandler.PromisesFollowTheRun | sidecar/src/permission-handler.ts:73-215 | every promise handed out is settled with the first verdict on its request, or open if there was none |
| PermissionHandler.PermissionHandler.PromisesByTool | sidecar/src/permission-handler.ts:73-303 | the promise object of a call is settled with a result if and only if an operation of the history found it waiting and settles calls of this tool so |
| PermissionHandler.PermissionHandler.PendingCount | sidecar/src/permission-handler.ts:305-307 | the size of the four maps is the number of open promises; zero means that all are settled |
| PermissionHandler.PermissionHandler.ResolvePermission | sidecar/src/permission-handler.ts:219-234 | true exactly if the request waited; the promise follows the run |
| PermissionHandler.PermissionHandler.ResolveQuestion | sidecar/src/permission-handler.ts:236-242 | true exactly if the request waited; the promise follows the run |
| PermissionHandler.PermissionHandler.ResolvePlan | sidecar/src/permission-handler.ts:244-265 | true exactly if the request waited; the promise follows the run |
| PermissionHandler.PermissionHandler.ResolveElicitation | sidecar/src/permission-handler.ts:267-273 | true exactly if the request waited; the promise follows the run |
| PermissionHandler.PermissionHandler.OnTimeout | sidecar/src/permission-handler.ts:176-181 | the timer of a permission denies it if it still waits |
| PermissionHandler.PermissionHandler.OnAbort | sidecar/src/permission-handler.ts:84-93 | an abort denies whatever still waits under the id |
| PermissionHandler.PermissionHandler.ResolveAll | sidecar/src/permission-handler.ts:277-290 | a drain loop settles every promise of a map once, in any order |
| PermissionHandler.PermissionHandler.DrainAll | sidecar/src/permission-handler.ts:276-290 | all four maps are drained |
| PermissionHandler.PermissionHandler.DrainInteractive | sidecar/src/permission-handler.ts:293-303 | all maps but the permissions are drained |
| MessageBridge.DeliveryIsByRank | sidecar/src/message-bridge.ts:16-54 | the k-th call to next settles with the k-th accepted push if there is one, with done if the bridge is closed and there is none, and is pending otherwise |
| MessageBridge.NeverBoth | sidecar/src/message-bridge.ts:16-38 | queue and waiters are never both non-empty, and a closed bridge has no waiters |
| MessageBridge.QueuedSurviveClose | sidecar/src/message-bridge.ts:26-44 | messages queued before close are still delivered, in order |
| MessageBridge.SettledForever | sidecar/src/message-bridge.ts:41-54 | a settled promise keeps its result |
| MessageBridge.DoneIsPermanent | sidecar/src/message-bridge.ts:41-50 | after one done every later call gets done |
| MessageBridge.MessageBridge.Push | sidecar/src/message-bridge.ts:16-24 | the class takes the push step |
| MessageBridge.MessageBridge.Close | sidecar/src/message-bridge.ts:27-38 | the loop settles every waiter with done |
| MessageBridge.MessageBridge.Next | sidecar/src/message-bridge.ts:41-54 | a new promise, settled at once if a message or the end is there |
| MessageBridge.MessageBridge.PromisesAreKept | sidecar/src/message-bridge.ts:41-54 | every promise that next returned is settled with exactly what its call is owed |
| Supervise.WindowBound | npx-cli/supervise.js:37-41 | for any clock, every half-open window of windowMs holds at most maxRestarts recorded crashes, and no more restarts than those |
| Supervise.RefusedExactly | npx-cli/supervise.js:84-103 | for any clock, a running child that crashes is refused a restart if and only if maxRestarts recorded crashes lie in the trailing window or ahead of the clock |
| Supervise.TrailingRuleFails | npx-cli/supervise.js:34-41 | this is not the rule of the trailing window if and only if fewer than maxRestarts lie in it and those ahead make up for the rest |
| Supervise.ClockSetBack | npx-cli/index.js:255-255 | a clock set back after which the supervisor gives up with no recorded crash in the trailing window |
| Supervise.RefusedOnlyWhenFull | npx-cli/supervise.js:84-103 | on a clock that never goes back, a running child that crashes is refused a restart if and only if maxRestarts recorded crashes lie in the trailing window |
| Supervise.LifeLine | npx-cli/supervise.js:57-105 | under any events from any child launched so far, every launch but the last caused exactly one restart, the last one none or the exit, in this order, and onExit fires at most once |
| Supervise.NothingAfterExit | npx-cli/supervise.js:65-73 | after onExit nothing is spawned and onExit does not fire again |
| Supervise.StopsAreFinal | npx-cli/supervise.js:84-103 | a clean exit, a SIGINT, SIGTERM or SIGHUP death and a failed spawn are passed on and never restarted |
| Supervise.ClassifyExit | npx-cli/supervise.js:24-29 | which exits are normal and which are user stops |
| Supervise.RecordedIsRestarted | npx-cli/supervise.js:77-97 | restarts are recorded crashes, and all of them if and only if no child acted on before crashed within the budget |
| Supervise.ErrorThenExit | npx-cli/supervise.js:77-97 | error and then a crash exit of one child records a crash time without a restart |
| Supervise.SuperviseServer.Settle | npx-cli/supervise.js:65-73 | the first call for a launch restarts or terminates, later ones do nothing |
| Supervise.SuperviseServer.OnError | npx-cli/supervise.js:77-82 | a spawn failure terminates with code 1 |
| Supervise.SuperviseServer.OnExit | npx-cli/supervise.js:84-104 | the class takes the exit step |
| Supervise.SuperviseServer.CrashCount | npx-cli/supervise.js:108-108 | at least the number of restarts, and equal to it exactly if no crash was recorded in vain |
| SessionSums.LastWinsExactly | crates/core/src/session_stats.rs:186-309 | every sum counts exactly the last line of each id and every line without an id, if and only if no message has an id made up for another |
| SessionSums.LostPlusLast | crates/core/src/session_stats.rs:186-309 | whatever the ids, a sum and what the messages lost to collisions have of it add up to the last line of each id and every line without one |
| SessionSums.LostIsCollision | crates/core/src/session_stats.rs:234-237 | a message is lost if and only if some message has an id made up for another |
| SessionSums.SumIsExact | crates/core/src/session_stats.rs:333-348 | a sum, of tokens for instance, is right if and only if every message lost has none of it |
| SessionSums.SumsAreLastLines | crates/core/src/session_stats.rs:333-348 | in particular without collisions |
| SessionSums.CollisionLosesMessage | crates/core/src/session_stats.rs:234-237 | a collision of a real and a made-up id loses a message |
| SessionSums.CollisionExample | crates/core/src/session_stats.rs:234-237 | two messages, the second with the id __anon_1, of which only the second counts |
| SessionSums.CompactKeepsSums | crates/core/src/session_stats.rs:299-308 | deleting every line with a later version changes no sum |
| SessionSums.RepeatKeepsSums | crates/core/src/session_stats.rs:299-308 | appending a last line again changes no sum |
| SessionSums.BaseOfKey | crates/core/src/session_stats.rs:433-445 | a skill or agent suffix never changes which tool a call is tallied under |
| SessionStats.ComputeStats | crates/core/src/session_stats.rs:180-424 | token totals, counts, per-model tallies, invocation counts, primary model and re-edited files are those of the report, which the rows of ReportColumns read name by name |
| SessionStats.ReportIsUnique | crates/core/src/session_stats.rs:333-402 | there is one such report: no map order can show in it |
| SessionStats.CountsDetermine | crates/core/src/session_stats.rs:334-380 | the statistics are determined by the sums they report |
| SessionStats.Collect | crates/core/src/session_stats.rs:201-331 | the first pass keeps the last snapshot of every key, and counts models and edits per line |
| SessionStats.Aggregate | crates/core/src/session_stats.rs:334-380 | the second pass, in any order of the map, adds up every measure of the last snapshots |
| SessionStats.PrimaryModel | crates/core/src/session_stats.rs:399-402 | the most frequent model, the lexicographically smallest on a tie, in any order of the map |
| SessionStats.PrimaryIsUnique | crates/core/src/session_stats.rs:399-402 | there is one such model |
| SessionStats.SupersededDoNotCount | crates/core/src/session_stats.rs:299-308 | deleting all earlier versions of messages changes no token total, turn, tool or thinking count, per-model tally or invocation count |
| SessionStats.RepeatsDoNotCount | crates/core/src/session_stats.rs:299-308 | nor does appending the last version again |
| SessionStats.TokensAddUp | crates/core/src/session_stats.rs:339-362 | a token total is the sum over the models plus the usage of messages without a model |
| SessionStats.ToolCallsAddUp | crates/core/src/session_stats.rs:366-368 | tool_call_count is the sum of the invocation counts |
| SessionStats.ReeditedCountsStreaming | crates/core/src/session_stats.rs:263-272 | the number of re-edited files is that of the last versions, unless some file was only streamed twice |
| SessionStats.StreamedEdit | crates/core/src/session_stats.rs:412-416 | one edit on two streamed lines counts as a re-edited file |
| ReportColumns.TokensByColumn | crates/core/src/session_stats.rs:339-348 | each of the six token totals is the sum of the usage field of the same name over the last lines, less that of lines lost to collisions, of which there are none without a collision |
| ReportColumns.TokensByModel | crates/core/src/session_stats.rs:350-361 | and so is each one of each model; a model without an entry has none |
| ReportColumns.ModelsAre | crates/core/src/session_stats.rs:350-352 | a model has an entry if and only if a last line that is not lost has it with usage |
| ReportColumns.LastLinesAre | crates/core/src/session_stats.rs:299-308 | the last lines are the assistant lines after which no assistant line has the same id |
| ReportColumns.CallsByTool | crates/core/src/session_stats.rs:334-380 | turns, thinking blocks, tool calls, calls by name and suffix, and the four kinds of calls are counted over the blocks of these lines, the tools of each kind written out |
| ReportColumns.KeyIs | crates/core/src/session_stats.rs:433-445 | a call is tallied as Skill:, Task: or Agent: with its non-empty skill or type, and as its name otherwise |
| ReportColumns.PrimaryIs | crates/core/src/session_stats.rs:399-402 | the primary model is on more lines than any other, or on as many and first in order |
| ReportColumns.ReeditedAre | crates/core/src/session_stats.rs:263-272 | the re-edited files are those with two Edit or Write calls or more over all lines |
| SessionSums.DecimalReads | crates/core/src/session_stats.rs:234-237 | the number in a made-up id is the decimal numeral, without leading zeros |
| AnalyticsRollup.ApplySession | crates/core/src/analytics_rollup.rs:142-193 | a session adds its first lines to the buckets of their dates, and itself once to each bucket it touched |
| AnalyticsRollup.CountSession | crates/core/src/analytics_rollup.rs:187-192 | the session counter of each touched date goes up by one, in any order |
| AnalyticsRollup.RebuildAll | crates/core/src/analytics_rollup.rs:126-140 | after a rebuild a bucket exists exactly where a session counts, carries its date and project, and holds the sum of the lines and the number of sessions there |
| AnalyticsRollup.RowOrderDoesNotMatter | crates/core/src/analytics_rollup.rs:126-140 | the rollup of the same rows in another order is the same |
| AnalyticsRollup.SortedBuckets | crates/core/src/analytics_rollup.rs:74-100 | exactly the accepted buckets, strictly sorted by date and project, in any order of the map |
| AnalyticsRollup.TotalsAreMatching | crates/core/src/analytics_rollup.rs:103-117 | sums over accepted buckets are sums over the matching lines of all sessions: no line is counted twice or left out |
| AnalyticsRollup.ProjectsAddUp | crates/core/src/analytics_rollup.rs:78-83 | the total over all projects is the sum of the totals of each, for any dates |
| RollupFeature.AnalyticsRollupFeature.Rebuild | crates/core/src/analytics_rollup.rs:126-140 | the stored map is the rollup of the catalog |
| RollupFeature.AnalyticsRollupFeature.DailySums | crates/core/src/analytics_rollup.rs:74-100 | a stored bucket is returned if and only if its project is the one asked for, if any, and its date lies in the range, both ends included; in the order of date and project |
| RollupFeature.AnalyticsRollupFeature.TotalSums | crates/core/src/analytics_rollup.rs:103-117 | each total is the sum of the usage field of the same name over the lines that count in the range; sessions count once for every day; and the number of buckets |
| RollupColumns.BucketsByName | crates/core/src/analytics_rollup.rs:149-192 | there is a bucket exactly where a line counts; it holds, field by field, what the lines that count on its day in its project have, and the number of sessions with such a line. A line counts if it is the first assistant line with usage of its id, or has no id, and has a date |
| RollupColumns.RowsMatch | crates/core/src/analytics_rollup.rs:103-117 | what matches a filter is what the lines that count have on the days kept |
| RollupColumns.RangeOfOneDay | crates/core/src/analytics_rollup.rs:84-93 | the totals from a day to itself are those of the lines that count on that day |
| RollupColumns.RangesAddUp | crates/core/src/analytics_rollup.rs:84-93 | the totals from a to c are those from a to b and those of the days after b up to c |
| LexOrder.FirstDifference | crates/core/src/analytics_rollup.rs:84-98 | strings are ordered by the first character in which they differ, a proper prefix first |
| CountingAgrees.FirstWinsIsLastWins | crates/core/src/analytics_rollup.rs:149-185 | first wins and last wins give the same sums if every message carries one usage and every line that may count has a date |
| CountingAgrees.TotalsAgree | crates/core/src/session_stats.rs:333-348 | then a token total of the rollup over all dates is that of the statistics plus the tokens lost to id collisions, so the two agree if and only if these are zero |
| CountingAgrees.ColumnsAgree | crates/core/src/session_stats.rs:333-348 | the same for input, output, cache-read and cache-creation tokens by name, both sides summed over lines |
| PromptClusters.DrainPartitions | crates/core/src/prompt_templates.rs:58-98 | before small groups are dropped every prompt of 2 to 40 tokens is in exactly one group, for any threshold, and each template is the generalisation of its group |
| PromptGroups.GroupsGeneralise | crates/core/src/prompt_templates.rs:76-98 | a template position is the common token if all members agree there and the wildcard otherwise |
| PromptGroups.LeastGeneral | crates/core/src/prompt_templates.rs:85-89 | the template covers every member and is the most specific pattern that does |
| PromptGroups.WildcardMeansDisagreement | crates/core/src/prompt_templates.rs:85-89 | a template has a wildcard if and only if members differ there or the first one has it there itself |
| PromptGroups.TwiceTheSame | crates/core/src/prompt_templates.rs:76-98 | the same prompt twice makes one group with its own tokens as the template, for any threshold below 1 |
| PromptGroups.FirstSimilar | crates/core/src/prompt_templates.rs:78-94 | the first group above the threshold, and none before it |
| PromptGroups.SimilarIs | crates/core/src/prompt_templates.rs:79-84 | tokens are similar to a template if and only if the number of positions where they agree exceeds the threshold times their number |
| PromptGroups.FirstAgrees | crates/core/src/prompt_templates.rs:78-94 | the group chosen is the first whose template agrees with the tokens at so many positions; a new one is made only if none does |
| PromptGroups.WidenInPlace | crates/core/src/prompt_templates.rs:85-89 | the loop overwrites exactly the tokens that differ |
| PromptGroups.GroupPrompts | crates/core/src/prompt_templates.rs:74-98 | the nested loops place every prompt greedily |
| PromptClusters.DrainCluster | crates/core/src/prompt_templates.rs:58-112 | the groups of two or more, by falling number of members, whatever the order of the lengths; PairClusters says which prompts these hold |
| PromptPairs.PairGroups | crates/core/src/prompt_templates.rs:74-98 | two prompts of n tokens form one group if and only if they agree at more than threshold times n positions, with the shared tokens and wildcards as its template, and two groups otherwise |
| PromptPairs.PairClusters | crates/core/src/prompt_templates.rs:58-112 | two prompts form one cluster if and only if they have the same number of tokens, 2 to 40, and agree at more than threshold times as many; and none otherwise |
| PromptClusters.JoinConcat | crates/core/src/prompt_templates.rs:102-105 | a template is its tokens in order with single blanks in between |
| PromptTemplates.SlotTemplates | crates/core/src/prompt_templates.rs:125-143 | the first layer finds the large slot groups and counts each of their prompts once |
| PromptTemplates.DetectTemplates | crates/core/src/prompt_templates.rs:115-178 | the templates are exactly the large slot groups and the large clusters of the rest, by falling frequency, with pattern, number of prompts, the first five of them and slots; no prompt is counted twice, frequencies are at least min_frequency and sum to at most the number of prompts |
| PromptPairs.PairTemplates | crates/core/src/prompt_templates.rs:146-176 | two prompts that normalise differently give one template of both if and only if they pair up at one half, with frequency 2, both examples and the slot * if the pattern contains a wildcard; and none otherwise |
| PromptTemplates.SlotsAreNamed | crates/core/src/prompt_templates.rs:129-133 | the slots of a pattern are exactly those of FILE, PATH, URL, UUID and NUM whose placeholder it contains |
| PromptTemplates.SlotsInOrder | crates/core/src/prompt_templates.rs:129-133 | in this order and each once |
| PromptTemplates.StarMeansDisagreement | crates/core/src/prompt_templates.rs:161-171 | a cluster has the slot * if and only if its members differ somewhere or some token of the first one contains the wildcard |
| PromptTemplates.LiteralWildcard | crates/core/src/prompt_templates.rs:161-171 | the same prompt twice, with a wildcard in it, has the slot * although nothing differs |
| StableSort.SortIsStable | crates/core/src/prompt_templates.rs:176-176 | the sort keeps the elements, orders them, and keeps the order of equals |
| MemoryFiles.ProbeEncodedPath | crates/core/src/memory_files.rs:281-335 | for any file system, a path found for a name without '/' exists, lies in directories and is a reading of the name; it encodes to the name if and only if no single dash before '@' was read as a slash |
| MemoryFiles.FoundIsSound | crates/core/src/memory_files.rs:289-334 | what is found exists and lies in directories, from any point of the probing |
| MemoryFiles.Extends | crates/core/src/memory_files.rs:289-334 | and it is what was read so far followed by a reading of the rest |
| MemoryFiles.ReadingEncodes | crates/core/src/memory_files.rs:295-319 | a reading of a name encodes to it if and only if no single dash before '@' was read as a slash |
| MemoryFiles.NoLooseMarkers | crates/core/src/memory_files.rs:281-335 | in particular for names in which '@' never comes right after a dash |
| MemoryFiles.MisreadName | crates/core/src/memory_files.rs:311-313 | a name for which a path is found that encodes to another one |
| MemoryFiles.RoundTrip | crates/core/src/memory_files.rs:281-335 | encoding and decoding any path at all is a round trip if and only if it is absolute, starts with a name, can be read, exists, its slashes are at directories and no dash the probing looks at is |
| MemoryFiles.ReadableExactly | crates/core/src/memory_files.rs:293-318 | a path can be read if and only if every slash is followed by something other than a slash or a dash and has an even number of dashes right before it |
| MemoryFiles.ClearEnough | crates/core/src/memory_files.rs:291-319 | the condition of the round trip holds if no part of the path in front of a dash is a directory |

## Left out

- Time stamps of blocks, log lines and the eviction warning: they change nothing that is modelled.
- Truncation of tool output, summaries and raw messages: parameters of `Config`; the code counts UTF-16 units where its
  comment speaks of UTF-8 bytes.
- Payloads of notices, interactions, system blocks and turn boundaries: copied, never looked into.
- The block counter is shared by all accumulators of the process: other sessions may advance it between two operations of
  a run (`Elsewhere`), but not between the pushes that AccumulatorGate.GateIsInvisible puts in another order, nor within
  one push, which nothing can interrupt.
- Ids are values (`UserId(n)`, `GeneratedId(n)`) instead of the strings `user-n` and `block-n`, and request ids numbers:
  that two random UUIDs differ is assumed as `FreshIds`.
- AccumulatorCap.CappedRefinesUncapped: the reference starts anew at a reset, as the program does, and updates the newest
  execution of an id; finalize trims nothing, so right after it k is what the last push took.
- AccumulatorGate.GateIsInvisible: is about the gate, the block numbers and what a reader sees, executions included; it
  does not compare the executions of evicted blocks.
- PermissionHandler.PermissionHandler.OnAbort: one method for the four abort listeners; the order in which a timer and an
  abort fire is left to the run.
- The events that permission requests emit, and the timeout value: I/O.
- Supervise.SuperviseServer.OnExit: the log text, and what `onExit` and `spawn` do, are not modelled.
- Widths of counters (u32, u64) are unbounded.
- The first and last time stamp, previews, branch, sidechain flag, user prompt count and skills of a session: simple
  first-wins or last-wins fields.
- SessionStats.ComputeStats: the fields just named are not part of its report.
- CountingAgrees.TotalsAgree: that all lines of a message carry one usage and that lines have dates are sufficient
  conditions; totals may agree by chance without them.
- The regular expressions that normalise prompts; the projects of a template are always empty.
- Similarity is computed over `real`, so rounding of the quotient is not modelled.
- `project_dir_to_display_name`: cuts off suffixes around the probing.
- Names with a slash, which no directory has: for them `ProbeEncodedPath` only promises what the loop computes.
- SessionRegistry timers, listing and closing; WebSocket, HTTP and SDK wiring; all front-end code.
