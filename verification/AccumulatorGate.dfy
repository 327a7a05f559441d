/** The gate in front of the accumulator: events that arrive before session_init wait, and a reader cannot tell. */
module AccumulatorGate {
  import opened Options
  import opened Conversation
  import opened AccumulatorSpec
  import opened AccumulatorIndex
  import opened AccumulatorCap

  function Pushes(es: seq<Incoming>): seq<Op> {
    seq(|es|, i requires 0 <= i < |es| => Op.Push(es[i]))
  }

  /** An event the gate holds back until session_init. */
  predicate Waits(e: Event) {
    !e.UserMessageEcho? && !e.SessionInit?
  }

  ghost predicate AllWait(es: seq<Incoming>) {
    forall i :: 0 <= i < |es| ==> Waits(es[i].event)
  }

  function Newest<T>(es: seq<T>, n: nat): seq<T> {
    if |es| <= n then es else es[|es| - n..]
  }

  // The buffer always takes the newest event, so its size is at least one.
  function Room(cfg: Config): nat {
    if cfg.maxBuffer == 0 then 1 else cfg.maxBuffer
  }

  ghost predicate Fresh(g: Gate) {
    !g.initialized && g.buffer == []
  }

  // ---- Rows of pushes ----

  ghost function PushAll(cfg: Config, s: State, es: seq<Incoming>): State {
    if es == [] then s else PushState(cfg, PushAll(cfg, s, es[..|es| - 1]), es[|es| - 1])
  }

  lemma RunAppend(cfg: Config, ids: nat, ops: seq<Op>, op: Op)
    ensures Run(cfg, ids, ops + [op]) == Step(cfg, Run(cfg, ids, ops), op)
    ensures RefRun(cfg, ids, ops + [op]) == RefStep(cfg, RefRun(cfg, ids, ops), op)
  {
    hide Step, RefStep;
    assert (ops + [op])[..|ops|] == ops;
  }

  lemma {:induction false} RunPushes(cfg: Config, ids: nat, ops: seq<Op>, es: seq<Incoming>)
    ensures Run(cfg, ids, ops + Pushes(es)) == PushAll(cfg, Run(cfg, ids, ops), es)
  {
    hide PushState;
    if es == [] {
      assert ops + Pushes(es) == ops;
    } else {
      var n := |es| - 1;
      RunPushes(cfg, ids, ops, es[..n]);
      assert ops + Pushes(es) == (ops + Pushes(es[..n])) + [Op.Push(es[n])];
      RunAppend(cfg, ids, ops + Pushes(es[..n]), Op.Push(es[n]));
    }
  }

  /** Over every run an initialised accumulator has an empty buffer, and no buffer exceeds its bound. */
  lemma {:induction false} BufferInvariant(cfg: Config, ids: nat, ops: seq<Op>)
    ensures var g := Run(cfg, ids, ops).gate;
      (g.initialized ==> g.buffer == []) && |g.buffer| <= Room(cfg) && AllWait(g.buffer)
  {
    if ops != [] {
      BufferInvariant(cfg, ids, ops[..|ops| - 1]);
    }
  }

  // ---- Waiting ----

  lemma HeldPush(cfg: Config, s: State, i: Incoming)
    requires Waits(i.event) && !s.gate.initialized
    ensures PushState(cfg, s, i) == s.(gate := Gate(s.gate.pushCounter + 1, false, Buffered(cfg, s.gate.buffer, i)))
  {}

  lemma BufferedIsNewest(cfg: Config, es: seq<Incoming>, i: Incoming)
    ensures Buffered(cfg, Newest(es, Room(cfg)), i) == Newest(es + [i], Room(cfg))
  {}

  /** Until session_init arrives, pushes change only the buffer: it holds the newest events, in order. */
  lemma {:induction false} BufferKeepsNewest(cfg: Config, s: State, es: seq<Incoming>)
    requires Fresh(s.gate) && AllWait(es)
    ensures PushAll(cfg, s, es) == s.(gate := Gate(s.gate.pushCounter + |es|, false, Newest(es, Room(cfg))))
  {
    hide PushState;
    if es != [] {
      var n := |es| - 1;
      BufferKeepsNewest(cfg, s, es[..n]);
      HeldPush(cfg, PushAll(cfg, s, es[..n]), es[n]);
      BufferedIsNewest(cfg, es[..n], es[n]);
      assert es == es[..n] + [es[n]];
    }
  }

  lemma InitPush(cfg: Config, s: State, init: Incoming)
    requires init.event.SessionInit?
    ensures var n := s.gate.pushCounter + 1;
      PushState(cfg, s, init) == State(Gate(n, true, []), Enforce(cfg, HandleAll(cfg, s.body,
        [Handled(init.event, init.raw, n)] + Stamp(s.gate.buffer, n))))
  {}

  /** On session_init exactly the newest buffered events are handled, in order, after it. */
  lemma {:induction false} InitReplaysNewest(cfg: Config, s: State, es: seq<Incoming>, init: Incoming)
    requires Fresh(s.gate) && AllWait(es) && init.event.SessionInit?
    ensures var n := s.gate.pushCounter + |es| + 1;
      PushState(cfg, PushAll(cfg, s, es), init) ==
      State(Gate(n, true, []), Enforce(cfg, HandleAll(cfg, s.body,
        [Handled(init.event, init.raw, n)] + Stamp(Newest(es, Room(cfg)), n))))
  {
    hide PushState, PushAll, HandleAll, Enforce, Newest;
    BufferKeepsNewest(cfg, s, es);
    InitPush(cfg, PushAll(cfg, s, es), init);
  }

  // ---- Handling one after the other ----

  lemma HandlePushNoIgnored(cfg: Config, b: Body, i: Incoming, m: nat, n: nat)
    requires !i.event.UserMessageEcho?
    ensures Handle(cfg, b, Handled(i.event, i.raw, m)) == Handle(cfg, b, Handled(i.event, i.raw, n))
  {}

  lemma {:induction false} HandleAllSnoc(cfg: Config, b: Body, hs: seq<Handled>, h: Handled)
    ensures HandleAll(cfg, b, hs + [h]) == Handle(cfg, HandleAll(cfg, b, hs), h)
    decreases |hs|
  {
    hide Handle;
    if hs == [] {
      assert hs + [h] == [h] && [h][1..] == [];
    } else {
      assert (hs + [h])[1..] == hs[1..] + [h];
      HandleAllSnoc(cfg, Handle(cfg, b, hs[0]), hs[1..], h);
    }
  }

  lemma HandleAllNil(cfg: Config, b: Body)
    ensures HandleAll(cfg, b, []) == b
  {}

  lemma HandleAllCons(cfg: Config, b: Body, h: Handled, hs: seq<Handled>)
    ensures HandleAll(cfg, b, [h] + hs) == HandleAll(cfg, Handle(cfg, b, h), hs)
    ensures HandleAll(cfg, b, [h]) == Handle(cfg, b, h)
  {
    hide Handle;
    assert ([h] + hs)[1..] == hs && [h][1..] == [];
  }

  // ---- A body that evicts on the way trails one that does not ----

  /** e looks like b without its first k expendable blocks. */
  ghost predicate Looks(e: Body, b: Body, k: nat) {
    && e.core == Without(b.core, k) && |e.execs| == |b.execs|
    && (forall h :: h in Live(e.core) ==> h < |b.execs| && e.execs[h] == b.execs[h])
  }

  ghost predicate SameCalls(e: Body, b: Body) {
    |e.execs| == |b.execs| && forall h :: 0 <= h < |b.execs| ==> e.execs[h].call == b.execs[h].call
  }

  /** And its index is that of b as far as it leads to visible executions. */
  ghost predicate SameIndex(e: Body, b: Body) {
    && (forall id :: id in e.index ==> id in b.index && b.index[id] == e.index[id])
    && (forall id :: id in b.index && b.index[id] in Live(e.core) ==> id in e.index)
  }

  ghost predicate Trails(e: Body, b: Body, k: nat) {
    && Sound(e) && Sound(b) && k <= Expendable(b.core.blocks)
    && Looks(e, b, k) && SameCalls(e, b) && SameIndex(e, b)
  }

  lemma TrailsSelf(b: Body)
    requires Sound(b)
    ensures Trails(b, b, 0)
  {}

  lemma TrailsTouch(e: Body, b: Body, k: nat, id: string, u: Update)
    requires Trails(e, b, k)
    ensures Trails(Touch(e, id, u), Touch(b, id, u), k)
  {
    hide Live, Drop, Expendable, Sound;
    TouchIsTouchAll(e, id, u);
    TouchIsTouchAll(b, id, u);
    SoundTouchAll(e, [id], u);
    SoundTouchAll(b, [id], u);
    TouchFinds(e, b, id);
  }

  // An entry of b that e has lost leads to nothing visible.
  lemma TouchFinds(e: Body, b: Body, id: string)
    requires Sound(e) && Sound(b) && SameIndex(e, b) && SameCalls(e, b)
    ensures id in e.index ==> id in b.index && b.index[id] == e.index[id] < |e.execs|
    ensures id !in e.index && id in b.index ==> b.index[id] !in Live(e.core)
  {}

  lemma {:induction false} TrailsTouchAll(e: Body, b: Body, k: nat, ids: seq<string>, u: Update)
    requires Trails(e, b, k)
    ensures Trails(TouchAll(e, ids, u), TouchAll(b, ids, u), k)
    decreases |ids|
  {
    if ids != [] {
      hide Trails, Touch;
      TrailsTouch(e, b, k, ids[0], u);
      TrailsTouchAll(Touch(e, ids[0], u), Touch(b, ids[0], u), k, ids[1..], u);
    }
  }

  lemma TrailsPlain(e: Body, b: Body, k: nat, ev: Event, raw: Option<Payload>, n: nat)
    requires Trails(e, b, k)
    ensures Trails(e.(core := HandlePlain(e.core, ev, raw, n)), b.(core := HandlePlain(b.core, ev, raw, n)), k)
  {
    hide Live, Drop, Expendable, Sound, HandlePlain;
    SoundPlain(e, ev, raw, n);
    SoundPlain(b, ev, raw, n);
    LivePlain(e.core, ev, raw, n);
    PlainWithout(b.core, ev, raw, n, k);
  }

  lemma TrailsStart(e: Body, b: Body, k: nat, call: ToolCall, messageId: string, raw: Option<Payload>)
    requires Trails(e, b, k)
    ensures Trails(StartTool(e, call, messageId, raw), StartTool(b, call, messageId, raw), k)
  {
    hide Live, Drop, Expendable, Sound;
    SoundStart(e, call, messageId, raw);
    SoundStart(b, call, messageId, raw);
    StartIsLive(e, call, messageId, raw);
    IndexInArena(b);
  }

  lemma StartIsLive(b: Body, call: ToolCall, messageId: string, raw: Option<Payload>)
    ensures Live(StartTool(b, call, messageId, raw).core) == Live(b.core) + [|b.execs|]
  {
    hide Live;
    LiveSegment(b.core, messageId, raw, ToolSegment(|b.execs|));
    assert Handles([ToolSegment(|b.execs|)]) == [|b.execs|];
  }

  lemma IndexInArena(b: Body)
    requires Sound(b)
    ensures forall id :: id in b.index ==> b.index[id] < |b.execs|
  {}

  lemma TrailsHandle(cfg: Config, e: Body, b: Body, k: nat, h: Handled)
    requires Trails(e, b, k)
    ensures Trails(Handle(cfg, e, h), Handle(cfg, b, h), k)
  {
    hide Trails, HandlePlain, StartTool, Touch, TouchAll;
    var raw := RawJson(cfg, h.raw);
    match h.event
    case ToolUseStart(call, messageId) => TrailsStart(e, b, k, call, messageId, raw);
    case ToolUseResult(id, output, isError, isReplay) =>
      TrailsTouch(e, b, k, id, SetResult(ToolResult(cfg.clip(output, MAX_TOOL_OUTPUT), isError, isReplay)));
    case ToolProgress(id, elapsed, _, _) =>
      TrailsTouch(e, b, k, id, SetProgress(elapsed));
      TrailsPlain(Touch(e, id, SetProgress(elapsed)), Touch(b, id, SetProgress(elapsed)), k, h.event, raw, h.pushNo);
    case ToolSummary(summary, ids) => TrailsTouchAll(e, b, k, ids, SetSummary(cfg.clip(summary, MAX_TOOL_SUMMARY)));
    case _ => TrailsPlain(e, b, k, h.event, raw, h.pushNo);
  }

  lemma ForgetGrows<A>(cfg: Config, bs: seq<Block<A>>, more: seq<Block<A>>)
    ensures |bs| <= |more| && Expendable(bs) <= Expendable(more) ==> Forget(cfg, bs) <= Forget(cfg, more)
  {}

  // No handler takes a block back.
  lemma HandleGrows(cfg: Config, b: Body, h: Handled)
    ensures Forget(cfg, b.core.blocks) <= Forget(cfg, Handle(cfg, b, h).core.blocks)
  {
    hide Drop, Expendable, HandlePlain, StartTool, TouchAll, Touch, RawJson, Forget;
    ForgetGrows(cfg, b.core.blocks, Handle(cfg, b, h).core.blocks);
    var raw := RawJson(cfg, h.raw);
    match h.event
    case ToolSummary(summary, ids) => TouchAllFrame(b, ids, SetSummary(cfg.clip(summary, MAX_TOOL_SUMMARY)));
    case ToolUseStart(call, messageId) => StartKeepsBlocks(b, call, messageId, raw);
    case ToolUseResult(id, output, isError, isReplay) =>
      TouchKeepsCore(b, id, SetResult(ToolResult(cfg.clip(output, MAX_TOOL_OUTPUT), isError, isReplay)));
    case ToolProgress(id, elapsed, _, _) =>
      TouchKeepsCore(b, id, SetProgress(elapsed));
      PlainGrows(b.core, h.event, raw, h.pushNo);
    case _ => PlainGrows(b.core, h.event, raw, h.pushNo);
  }

  lemma StartKeepsBlocks(b: Body, call: ToolCall, messageId: string, raw: Option<Payload>)
    ensures StartTool(b, call, messageId, raw).core.blocks == b.core.blocks
  {}

  lemma PlainGrows(c: Core<nat>, e: Event, raw: Option<Payload>, n: nat)
    ensures |c.blocks| <= |HandlePlain(c, e, raw, n).blocks|
    ensures Expendable(c.blocks) <= Expendable(HandlePlain(c, e, raw, n).blocks)
  {
    PlainWithout(c, e, raw, n, 0);
  }

  /** An eviction keeps the looks; if it spares what stays visible, the rest as well. */
  lemma TrailsEnforce(cfg: Config, e: Body, b: Body, k: nat)
    requires Trails(e, b, k) && k <= Forget(cfg, b.core.blocks)
    ensures Looks(Enforce(cfg, e), b, Forget(cfg, b.core.blocks))
    ensures Spares(cfg, e) ==> Trails(Enforce(cfg, e), b, Forget(cfg, b.core.blocks))
  {
    hide Live, Drop, Dropped, Expendable, Sound, IdsAt, BlockHandles;
    TrimOnce(cfg, b.core.blocks, k);
    SoundEnforce(cfg, e);
    LiveCut(e, Excess(cfg, |e.core.blocks|));
    assert forall h :: h in Live(Enforce(cfg, e).core) ==> h in Live(e.core);
  }

  // ---- The gate is invisible ----

  /** Every one of these pushes spares the executions that stay visible. */
  ghost predicate SparesAll(cfg: Config, s: State, es: seq<Incoming>) {
    forall n :: 0 <= n < |es| ==> SparesPush(cfg, PushAll(cfg, s, es[..n]), es[n])
  }

  /** The same gate, blocks, block numbers, executions and open turn. */
  ghost predicate SameToReader(a: State, b: State) {
    a.gate == b.gate && Resolve(a.body.execs, a.body.core) == Resolve(b.body.execs, b.body.core)
  }

  /** Events followed by session_init, or session_init followed by the same events. */
  ghost predicate Invisible(cfg: Config, s: State, es: seq<Incoming>, init: Incoming) {
    SameToReader(PushState(cfg, PushAll(cfg, s, es), init), PushAll(cfg, s, [init] + es))
  }

  /** What an accumulator before session_init can be like. */
  ghost predicate Ready(cfg: Config, s: State, es: seq<Incoming>, init: Incoming) {
    Sound(s.body) && Fresh(s.gate) && AllWait(es) && init.event.SessionInit?
  }

  // The pushes of the early order, without the last.
  function AllButLast(es: seq<Incoming>, init: Incoming): seq<Incoming> {
    ([init] + es)[..|es|]
  }

  lemma {:induction false} SparesPrefixOfAll(cfg: Config, s: State, es: seq<Incoming>, n: nat)
    requires SparesAll(cfg, s, es) && n <= |es|
    ensures SparesAll(cfg, s, es[..n])
  {
    hide SparesPush, PushAll;
    forall m | 0 <= m < n ensures SparesPush(cfg, PushAll(cfg, s, es[..n][..m]), es[..n][m]) {
      assert es[..n][..m] == es[..m];
    }
  }

  lemma {:induction false} SparesOneMore(cfg: Config, s: State, es: seq<Incoming>)
    requires es != []
    ensures SparesAll(cfg, s, es) <==>
      SparesAll(cfg, s, es[..|es| - 1]) && SparesPush(cfg, PushAll(cfg, s, es[..|es| - 1]), es[|es| - 1])
  {
    hide SparesPush, PushAll;
    var last := |es| - 1;
    forall m | 0 <= m < last ensures es[..last][..m] == es[..m] && es[..last][m] == es[m] {}
  }

  // What a delivered push evicts from.
  ghost function BeforeEviction(cfg: Config, s: State, i: Incoming): Body {
    HandleAll(cfg, s.body, Released(s.gate, i))
  }

  lemma OpenPush(cfg: Config, s: State, i: Incoming, n: nat)
    requires s.gate.initialized && s.gate.buffer == [] && Waits(i.event)
    ensures BeforeEviction(cfg, s, i) == Handle(cfg, s.body, Handled(i.event, i.raw, n))
    ensures PushState(cfg, s, i) ==
      State(Gate(s.gate.pushCounter + 1, true, []), Enforce(cfg, BeforeEviction(cfg, s, i)))
    ensures SparesPush(cfg, s, i) <==> Spares(cfg, BeforeEviction(cfg, s, i))
  {
    hide Handle, Enforce, Spares;
    var h := Handled(i.event, i.raw, s.gate.pushCounter + 1);
    HandlePushNoIgnored(cfg, s.body, i, s.gate.pushCounter + 1, n);
    assert Released(s.gate, i) == [h];
    HandleAllCons(cfg, s.body, h, []);
  }

  lemma FirstPush(cfg: Config, s: State, init: Incoming, n: nat)
    requires Fresh(s.gate) && init.event.SessionInit?
    ensures BeforeEviction(cfg, s, init) == Handle(cfg, s.body, Handled(init.event, init.raw, n))
    ensures PushState(cfg, s, init) ==
      State(Gate(s.gate.pushCounter + 1, true, []), Enforce(cfg, BeforeEviction(cfg, s, init)))
    ensures SparesPush(cfg, s, init) <==> Spares(cfg, BeforeEviction(cfg, s, init))
  {
    hide Handle, Enforce, Spares;
    var h := Handled(init.event, init.raw, s.gate.pushCounter + 1);
    HandlePushNoIgnored(cfg, s.body, init, s.gate.pushCounter + 1, n);
    assert Released(s.gate, init) == [h];
    HandleAllCons(cfg, s.body, h, []);
  }

  // All events handled, nothing evicted.
  function Replayed(cfg: Config, s: State, es: seq<Incoming>, init: Incoming, n: nat): Body {
    HandleAll(cfg, s.body, [Handled(init.event, init.raw, n)] + Stamp(es, n))
  }

  lemma ReplayedMore(cfg: Config, s: State, es: seq<Incoming>, init: Incoming, n: nat)
    ensures es == [] ==> Replayed(cfg, s, es, init, n) == Handle(cfg, s.body, Handled(init.event, init.raw, n))
    ensures es != [] ==> var i := es[|es| - 1];
      Replayed(cfg, s, es, init, n) ==
        Handle(cfg, Replayed(cfg, s, es[..|es| - 1], init, n), Handled(i.event, i.raw, n))
  {
    hide Handle, HandleAll;
    var first := Handled(init.event, init.raw, n);
    if es == [] {
      assert [first] + Stamp(es, n) == [first];
      HandleAllCons(cfg, s.body, first, []);
    } else {
      var m := |es| - 1;
      var h := Handled(es[m].event, es[m].raw, n);
      assert [first] + Stamp(es, n) == ([first] + Stamp(es[..m], n)) + [h];
      HandleAllSnoc(cfg, s.body, [first] + Stamp(es[..m], n), h);
    }
  }

  // The gate and the last body of the early order, just before its last eviction.
  ghost predicate Early(cfg: Config, s: State, es: seq<Incoming>, init: Incoming, last: Body) {
    PushAll(cfg, s, [init] + es) == State(Gate(s.gate.pushCounter + 1 + |es|, true, []), Enforce(cfg, last))
  }

  lemma {:induction false} EarlyTrails(cfg: Config, s: State, es: seq<Incoming>, init: Incoming, n: nat)
    returns (last: Body, k: nat)
    requires Ready(cfg, s, es, init) && SparesAll(cfg, s, AllButLast(es, init))
    ensures Early(cfg, s, es, init, last)
    ensures SparesAll(cfg, s, [init] + es) <==> Spares(cfg, last)
    ensures var b := Replayed(cfg, s, es, init, n); Trails(last, b, k) && k <= Forget(cfg, b.core.blocks)
  {
    hide Sound, Trails, Looks, SparesPush, Spares, PushState, Enforce, Handle, HandleAll, Replayed, BeforeEviction,
      Forget;
    var all := [init] + es;
    SparesOneMore(cfg, s, all);
    ReplayedMore(cfg, s, es, init, n);
    if es == [] {
      assert all[..0] == [] && all == [init];
      FirstPush(cfg, s, init, n);
      last, k := BeforeEviction(cfg, s, init), 0;
      TrailsSelf(s.body);
      TrailsHandle(cfg, s.body, s.body, 0, Handled(init.event, init.raw, n));
    } else {
      var m := |es| - 1;
      var before, i := es[..m], es[m];
      var b := Replayed(cfg, s, before, init, n);
      assert all[..|es|] == [init] + before;
      SparesPrefixOfAll(cfg, s, AllButLast(es, init), m);
      assert AllButLast(es, init)[..m] == AllButLast(before, init);
      var e, j := EarlyTrails(cfg, s, before, init, n);
      var s1 := PushAll(cfg, s, [init] + before);
      TrailsEnforce(cfg, e, b, j);
      OpenPush(cfg, s1, i, n);
      k := Forget(cfg, b.core.blocks);
      last := BeforeEviction(cfg, s1, i);
      TrailsHandle(cfg, s1.body, b, k, Handled(i.event, i.raw, n));
      HandleGrows(cfg, b, Handled(i.event, i.raw, n));
    }
  }

  lemma LooksSame(cfg: Config, e: Body, b: Body)
    requires Looks(e, b, Forget(cfg, b.core.blocks))
    ensures e.core == Enforce(cfg, b).core
    ensures Resolve(e.execs, e.core) == Resolve(b.execs, e.core)
  {
    hide Live, Drop, Expendable, Resolve;
    DropNoMore(b.core.blocks, Excess(cfg, |b.core.blocks|));
    ResolveAgrees(e.execs, b.execs, e.core);
  }

  lemma {:induction false} LateIsReplay(cfg: Config, s: State, es: seq<Incoming>, init: Incoming)
    requires Ready(cfg, s, es, init) && |es| <= Room(cfg)
    ensures var n := s.gate.pushCounter + |es| + 1;
      PushState(cfg, PushAll(cfg, s, es), init) ==
      State(Gate(n, true, []), Enforce(cfg, Replayed(cfg, s, es, init, n)))
  {
    hide PushState, PushAll, HandleAll, Enforce, Sound;
    InitReplaysNewest(cfg, s, es, init);
  }

  /** The init gate is invisible if, in the early order, no push but perhaps the last evicts an id that is still in use,
    * whatever else is evicted and whatever ids are repeated. */
  lemma {:induction false} GateIsInvisible(cfg: Config, s: State, es: seq<Incoming>, init: Incoming)
    requires Ready(cfg, s, es, init) && |es| <= Room(cfg)
    requires SparesAll(cfg, s, AllButLast(es, init))
    ensures Invisible(cfg, s, es, init)
  {
    hide Sound, Trails, Looks, PushState, PushAll, Enforce, Replayed, SparesPush, Resolve;
    var n := s.gate.pushCounter + |es| + 1;
    var b := Replayed(cfg, s, es, init, n);
    var last, k := EarlyTrails(cfg, s, es, init, n);
    TrailsEnforce(cfg, last, b, k);
    LooksSame(cfg, Enforce(cfg, last), b);
    LateIsReplay(cfg, s, es, init);
    EnforceKeepsArena(cfg, b);
  }

  // An event that tells apart a body which has lost an id from one which has not.
  function Telling(id: string, x: Execution): Event {
    ToolUseResult(id, "", !(x.result.Some? && x.result.value.isError), false)
  }

  lemma TellingTells(cfg: Config, b: Body, id: string, x: Execution, n: nat)
    requires id in b.index && b.index[id] < |b.execs|
    ensures var b' := Handle(cfg, b, Handled(Telling(id, x), None, n));
      b'.core == b.core && |b'.execs| == |b.execs| && b'.execs[b.index[id]] != x
  {}

  lemma TellingMissed(cfg: Config, b: Body, id: string, x: Execution, n: nat)
    requires id !in b.index
    ensures Handle(cfg, b, Handled(Telling(id, x), None, n)) == b
  {}

  lemma Harmed(cfg: Config, e: Body) returns (id: string)
    requires !Spares(cfg, e)
    ensures id in e.index && e.index[id] in Live(Enforce(cfg, e).core) && id !in Enforce(cfg, e).index
  {
    id :| id in IdsAt(e.execs, Evicted(cfg, e)) && id in e.index && e.index[id] in Live(Enforce(cfg, e).core);
  }

  lemma TrailsEntry(e: Body, b: Body, k: nat, id: string)
    requires Trails(e, b, k) && id in e.index
    ensures id in b.index && b.index[id] == e.index[id] < |e.execs| == |b.execs|
  {}

  // Once the cap is enforced, enforcing it again takes no more.
  lemma EnforceTwice(cfg: Config, e: Body)
    ensures Enforce(cfg, Enforce(cfg, e)).core == Enforce(cfg, e).core
  {
    var bs := e.core.blocks;
    var x := Excess(cfg, |bs|);
    DropNoMore(bs, x);
    TrimOnce(cfg, bs, Forget(cfg, bs));
  }

  // One more event, in the late order.
  lemma {:induction false} LateMore(cfg: Config, s: State, es: seq<Incoming>, init: Incoming, i: Incoming)
    requires Ready(cfg, s, es, init) && |es| < Room(cfg) && Waits(i.event)
    ensures var n := s.gate.pushCounter + |es| + 2;
      PushState(cfg, PushAll(cfg, s, es + [i]), init).body ==
      Enforce(cfg, Handle(cfg, Replayed(cfg, s, es, init, n), Handled(i.event, i.raw, n)))
  {
    hide Sound, PushState, PushAll, Enforce, Replayed, Handle;
    ReplayedMore(cfg, s, es + [i], init, s.gate.pushCounter + |es| + 2);
    assert (es + [i])[..|es|] == es;
    LateIsReplay(cfg, s, es + [i], init);
  }

  // One more event, in the early order.
  lemma EarlyMore(cfg: Config, s: State, es: seq<Incoming>, init: Incoming, i: Incoming, last: Body, n: nat)
    requires Ready(cfg, s, es, init) && Waits(i.event)
    requires var s1 := PushAll(cfg, s, [init] + es);
      s1.gate.initialized && s1.gate.buffer == [] && s1.body == Enforce(cfg, last)
    ensures PushAll(cfg, s, [init] + (es + [i])).body ==
      Enforce(cfg, Handle(cfg, Enforce(cfg, last), Handled(i.event, i.raw, n)))
  {
    hide Sound, PushState, Enforce, Handle;
    assert [init] + (es + [i]) == ([init] + es) + [i];
    assert ([init] + (es + [i]))[..|es| + 1] == [init] + es;
    OpenPush(cfg, PushAll(cfg, s, [init] + es), i, n);
  }

  /** If the last push of the early order evicts an id in use, there is an event that shows the gate when it comes
    * next. */
  lemma HarmShows(cfg: Config, s: State, es: seq<Incoming>, init: Incoming) returns (e: Event)
    requires Ready(cfg, s, es, init) && |es| < Room(cfg)
    requires SparesAll(cfg, s, AllButLast(es, init)) && !SparesAll(cfg, s, [init] + es)
    ensures Waits(e) && !Invisible(cfg, s, es + [Incoming(e, None)], init)
  {
    hide Sound, Trails, Looks, PushState, PushAll, Enforce, Replayed, SparesPush, Spares, Handle, Live, Resolve, Forget;
    var n := s.gate.pushCounter + |es| + 2;
    var b := Replayed(cfg, s, es, init, n);
    var last, k := EarlyTrails(cfg, s, es, init, n);
    var id := Harmed(cfg, last);
    var h := last.index[id];
    TrailsEntry(last, b, k, id);
    TrailsEnforce(cfg, last, b, k);
    LooksSame(cfg, Enforce(cfg, last), b);
    EnforceKeepsArena(cfg, last);
    var early := Enforce(cfg, last);
    e := Telling(id, early.execs[h]);
    // The late order changes the execution, and the early order does not find it.
    LateMore(cfg, s, es, init, Incoming(e, None));
    EarlyMore(cfg, s, es, init, Incoming(e, None), last, n);
    EnforceTwice(cfg, last);
    HarmDiffers(cfg, b, early, id, h, n);
  }

  lemma HarmDiffers(cfg: Config, b: Body, early: Body, id: string, h: nat, n: nat)
    requires id in b.index && b.index[id] == h < |early.execs| == |b.execs| && id !in early.index
    requires early.core == Enforce(cfg, b).core == Enforce(cfg, early).core && h in Live(early.core)
    ensures var i := Handled(Telling(id, early.execs[h]), None, n);
      var l, r := Enforce(cfg, Handle(cfg, b, i)), Enforce(cfg, Handle(cfg, early, i));
      Resolve(l.execs, l.core) != Resolve(r.execs, r.core)
  {
    hide Enforce, Handle, Resolve, Live;
    var x := early.execs[h];
    TellingTells(cfg, b, id, x, n);
    TellingMissed(cfg, early, id, x, n);
    var late := Handle(cfg, b, Handled(Telling(id, x), None, n));
    SameBlocksSameCore(cfg, b, late);
    EnforceKeepsArena(cfg, late);
    EnforceKeepsArena(cfg, early);
    ResolveDiffers(late.execs, early.execs, early.core, h);
  }

  lemma SameBlocksSameCore(cfg: Config, a: Body, b: Body)
    requires a.core == b.core
    ensures Enforce(cfg, a).core == Enforce(cfg, b).core
  {}

  // Whatever single event comes next after any of these events, the gate is invisible.
  ghost predicate InvisibleToNext(cfg: Config, s: State, es: seq<Incoming>, init: Incoming) {
    forall n, e :: 0 <= n <= |es| && Waits(e) ==> Invisible(cfg, s, es[..n] + [Incoming(e, None)], init)
  }

  /** Exactly: the gate stays invisible after each of these events, whatever event comes next, if and only if no push of
    * the early order evicts an id that is still in use. */
  lemma {:induction false} GateIsInvisibleExactly(cfg: Config, s: State, es: seq<Incoming>, init: Incoming)
    requires Ready(cfg, s, es, init) && |es| < Room(cfg)
    ensures InvisibleToNext(cfg, s, es, init) <==> SparesAll(cfg, s, [init] + es)
  {
    hide Invisible, Sound, PushAll, SparesPush;
    if SparesAll(cfg, s, [init] + es) {
      forall n, e | 0 <= n <= |es| && Waits(e) ensures Invisible(cfg, s, es[..n] + [Incoming(e, None)], init) {
        var more := es[..n] + [Incoming(e, None)];
        SparesPrefixOfAll(cfg, s, [init] + es, n + 1);
        assert ([init] + es)[..n + 1] == AllButLast(more, init);
        GateIsInvisible(cfg, s, more, init);
      }
    } else {
      var n := FirstHarm(cfg, s, [init] + es);
      var some := es[..n];
      assert ([init] + es)[..n] == AllButLast(some, init) && ([init] + es)[..n + 1] == [init] + some;
      var e := HarmShows(cfg, s, some, init);
    }
  }

  // The first push that harms.
  lemma {:induction false} FirstHarm(cfg: Config, s: State, es: seq<Incoming>) returns (n: nat)
    requires !SparesAll(cfg, s, es)
    ensures n < |es| && SparesAll(cfg, s, es[..n]) && !SparesAll(cfg, s, es[..n + 1])
  {
    hide SparesPush, PushAll;
    n := |es| - 1;
    if SparesAll(cfg, s, es[..n]) {
      assert es[..n + 1] == es;
    } else {
      n := FirstHarm(cfg, s, es[..n]);
      assert es[..|es| - 1][..n] == es[..n] && es[..|es| - 1][..n + 1] == es[..n + 1];
    }
  }

  /** In particular in every run with distinct tool ids. */
  lemma {:induction false} GateIsInvisibleDistinct(
    cfg: Config, ids: nat, ops: seq<Op>, es: seq<Incoming>, init: Incoming)
    requires Fresh(Run(cfg, ids, ops).gate) && |es| <= Room(cfg) && AllWait(es) && init.event.SessionInit?
    requires DistinctTools(cfg, ids, ops + Pushes([init] + es))
    ensures Invisible(cfg, Run(cfg, ids, ops), es, init)
  {
    hide Invisible, Sound, PushAll, SparesPush, Run, DistinctTools;
    var all := [init] + es;
    DistinctToolsSpare(cfg, ids, ops + Pushes(all));
    IndexEntriesAreVisible(cfg, ids, ops);
    forall n | 0 <= n < |all| ensures SparesPush(cfg, PushAll(cfg, Run(cfg, ids, ops), all[..n]), all[n]) {
      RunPushes(cfg, ids, ops, all[..n]);
      assert (ops + Pushes(all))[..|ops| + n] == ops + Pushes(all[..n]);
      assert (ops + Pushes(all))[|ops| + n] == Op.Push(all[n]);
    }
    SparesPrefixOfAll(cfg, Run(cfg, ids, ops), all, |es|);
    GateIsInvisible(cfg, Run(cfg, ids, ops), es, init);
  }

  // ---- Repeated tool ids, below the cap ----

  lemma NothingToEnforce(cfg: Config, b: Body)
    requires |b.core.blocks| <= cfg.maxBlocks
    ensures Enforce(cfg, b) == b
  {
    assert BlockHandles(Dropped(b.core.blocks, 0)) == [];
    assert IdsAt(b.execs, []) == {};
  }

  lemma {:induction false} BlocksGrow(cfg: Config, b: Body, hs: seq<Handled>)
    ensures |b.core.blocks| <= |HandleAll(cfg, b, hs).core.blocks|
    decreases |hs|
  {
    if hs != [] {
      if hs[0].event.ToolSummary? {
        var h := hs[0].event;
        TouchAllFrame(b, h.precedingToolUseIds, SetSummary(cfg.clip(h.summary, MAX_TOOL_SUMMARY)));
      }
      BlocksGrow(cfg, Handle(cfg, b, hs[0]), hs[1..]);
    }
  }

  lemma StateDirectPush(cfg: Config, s: State, i: Incoming, n: nat)
    requires s.gate.initialized && s.gate.buffer == [] && Waits(i.event)
    requires |Handle(cfg, s.body, Handled(i.event, i.raw, n)).core.blocks| <= cfg.maxBlocks
    ensures PushState(cfg, s, i) ==
      State(Gate(s.gate.pushCounter + 1, true, []), Handle(cfg, s.body, Handled(i.event, i.raw, n)))
  {
    hide Handle, Enforce;
    var h := Handled(i.event, i.raw, s.gate.pushCounter + 1);
    HandlePushNoIgnored(cfg, s.body, i, s.gate.pushCounter + 1, n);
    assert Released(s.gate, i) == [h];
    HandleAllCons(cfg, s.body, h, []);
    NothingToEnforce(cfg, Handle(cfg, s.body, h));
  }

  lemma {:induction false} StateDirectPushes(cfg: Config, s: State, es: seq<Incoming>, n: nat)
    requires s.gate.initialized && s.gate.buffer == [] && AllWait(es)
    requires |HandleAll(cfg, s.body, Stamp(es, n)).core.blocks| <= cfg.maxBlocks
    ensures PushAll(cfg, s, es) ==
      State(Gate(s.gate.pushCounter + |es|, true, []), HandleAll(cfg, s.body, Stamp(es, n)))
  {
    hide PushState, Handle;
    if es != [] {
      var m := |es| - 1;
      var h := Handled(es[m].event, es[m].raw, n);
      assert Stamp(es, n) == Stamp(es[..m], n) + [h];
      HandleAllSnoc(cfg, s.body, Stamp(es[..m], n), h);
      var b := HandleAll(cfg, s.body, Stamp(es[..m], n));
      HandleAllCons(cfg, b, h, []);
      BlocksGrow(cfg, b, [h]);
      StateDirectPushes(cfg, s, es[..m], n);
      StateDirectPush(cfg, PushAll(cfg, s, es[..m]), es[m], n);
    }
  }

  /** The same with repeated tool ids, as long as the session fits under the cap: the very same state. */
  lemma {:induction false} GateIsInvisibleBelowCap(cfg: Config, s: State, es: seq<Incoming>, init: Incoming)
    requires Fresh(s.gate) && |es| <= Room(cfg) && AllWait(es) && init.event.SessionInit?
    requires |PushState(cfg, PushAll(cfg, s, es), init).body.core.blocks| < cfg.maxBlocks
    ensures PushState(cfg, PushAll(cfg, s, es), init) == PushAll(cfg, PushState(cfg, s, init), es)
  {
    hide PushState, HandleAll, Handle;
    var n := s.gate.pushCounter + |es| + 1;
    var m := s.gate.pushCounter + 1;
    var h, h' := Handled(init.event, init.raw, n), Handled(init.event, init.raw, m);
    var b := Handle(cfg, s.body, h);
    var all := HandleAll(cfg, b, Stamp(es, n));
    InitReplaysNewest(cfg, s, es, init);
    HandleAllCons(cfg, s.body, h, Stamp(es, n));
    DropCounts(all.core.blocks, Excess(cfg, |all.core.blocks|));
    NothingToEnforce(cfg, all);
    BlocksGrow(cfg, b, Stamp(es, n));
    InitPush(cfg, s, init);
    assert [h'] + Stamp(s.gate.buffer, m) == [h'];
    HandleAllCons(cfg, s.body, h', []);
    HandlePushNoIgnored(cfg, s.body, init, m, n);
    NothingToEnforce(cfg, b);
    StateDirectPushes(cfg, State(Gate(m, true, []), b), es, n);
  }
}
