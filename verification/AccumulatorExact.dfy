/** When exactly the bounded accumulator refines the reference. */
module AccumulatorExact {
  import opened Options
  import opened Conversation
  import opened AccumulatorSpec
  import opened AccumulatorIndex
  import opened AccumulatorCap
  import opened AccumulatorGate

  // Before session_init there are no tools.
  lemma {:induction false} NoToolsBeforeInit(cfg: Config, ids: nat, ops: seq<Op>)
    ensures !Run(cfg, ids, ops).gate.initialized ==> Run(cfg, ids, ops).body.index == map[]
  {
    if ops != [] {
      hide Run, PushState;
      NoToolsBeforeInit(cfg, ids, ops[..|ops| - 1]);
      RunLast(cfg, ids, ops, |ops| - 1);
      assert ops[..|ops|] == ops;
      match ops[|ops| - 1]
      case Push(i) => EchoStartsNothing(cfg, Run(cfg, ids, ops[..|ops| - 1]), i);
      case _ =>
    } else {
      RunNothing(cfg, ids);
    }
  }

  // Before session_init only echoes are handled.
  lemma EchoKeepsIndex(cfg: Config, s: State, i: Incoming)
    ensures !PushState(cfg, s, i).gate.initialized && !IsHeld(s.gate, i.event) ==>
      !s.gate.initialized && HandleAll(cfg, s.body, Released(s.gate, i)).index == s.body.index
  {
    hide Enforce, HandlePlain, HandleAll;
    if i.event.UserMessageEcho? {
      var h := Handled(i.event, i.raw, s.gate.pushCounter + 1);
      assert Released(s.gate, i) == [h];
      HandleAllCons(cfg, s.body, h, []);
      HandleAllNil(cfg, Handle(cfg, s.body, h));
    }
  }

  lemma EchoStartsNothing(cfg: Config, s: State, i: Incoming)
    requires !s.gate.initialized ==> s.body.index == map[]
    ensures !PushState(cfg, s, i).gate.initialized ==> PushState(cfg, s, i).body.index == map[]
  {
    hide IdsAt, HandleAll, Drop, Dropped;
    EchoKeepsIndex(cfg, s, i);
  }

  // The execution whose entry was deleted is the newest visible one of its id.
  lemma HarmedIsNewest(cfg: Config, b: Body, id: string)
    requires Sound(b) && IndexComplete(b) && id in b.index && b.index[id] in Live(Enforce(cfg, b).core)
    ensures NewestOf(b.execs, Live(Enforce(cfg, b).core), id, b.index[id])
  {
    hide Live, BlockHandles, IndexComplete;
    var left := Live(Enforce(cfg, b).core);
    LiveCut(b, Excess(cfg, |b.core.blocks|));
    LookupIsScan(b, id);
    ScanIsNewest(b.execs, Live(b.core), id);
    forall h | h in left ensures h in Live(b.core) {}
  }

  // What the reference does with the event that tells.
  lemma RefTelling(cfg: Config, r: Ref, id: string, x: Execution, k: nat)
    requires r.gate.initialized
    ensures var r' := RefPush(cfg, r, Incoming(Telling(id, x), None));
      exists u :: Apply(u, x) != x && Without(r'.core, k) == SearchCore(id, u, Without(r.core, k))
        && Forget(cfg, r'.core.blocks) == Forget(cfg, r.core.blocks)
  {
    hide SearchCore, Without;
    var e := Telling(id, x);
    var h := Handled(e, None, r.gate.pushCounter + 1);
    var r1 := r.(gate := Through(cfg, r.gate, Incoming(e, None)));
    assert Released(r.gate, Incoming(e, None)) == [h];
    assert RefHandleAll(cfg, r1, [h]) == RefHandleAll(cfg, RefHandleOne(cfg, r1, h), []) == RefHandleOne(cfg, r1, h);
    var u := SetResult(ToolResult(cfg.clip("", MAX_TOOL_OUTPUT), e.isError, e.isReplay));
    SearchWithout(id, u, r.core, k);
    assert Apply(u, x).result != x.result;
  }

  // The bounded accumulator does not find the execution, the reference does.
  lemma TellingTellsApart(cfg: Config, s: State, r: Ref, b: Body, id: string)
    requires Sound(b) && IndexComplete(b) && s.body == Enforce(cfg, b) && s.gate.initialized && s.gate.buffer == []
    requires id in b.index && b.index[id] in Live(s.body.core) && id !in s.body.index
    requires Tracks(cfg, s, r, Forget(cfg, r.core.blocks))
    ensures var i := Incoming(Telling(id, b.execs[b.index[id]]), None);
      var s', r' := PushState(cfg, s, i), RefPush(cfg, r, i);
      Resolve(s'.body.execs, s'.body.core) != Without(r'.core, Forget(cfg, r'.core.blocks))
  {
    hide Enforce, IndexComplete, Live, Resolve, Without, Handle, Forget, PushState, RefPush, SearchCore;
    var h, n, k := b.index[id], s.gate.pushCounter + 1, Forget(cfg, r.core.blocks);
    var x := b.execs[h];
    var i := Incoming(Telling(id, x), None);
    EnforceKeepsArena(cfg, b);
    OpenPush(cfg, s, i, n);
    TellingMissed(cfg, s.body, id, x, n);
    EnforceTwice(cfg, b);
    EnforceKeepsArena(cfg, s.body);
    RefTelling(cfg, r, id, x, k);
    var u :| Apply(u, x) != x
      && Without(RefPush(cfg, r, i).core, k) == SearchCore(id, u, Without(r.core, k));
    HarmedIsNewest(cfg, b, id);
    SearchCoreAt(b.execs, s.body.core, id, u, h);
    ResolveDiffers(b.execs[h := Apply(u, x)], b.execs, s.body.core, h);
  }

  // The body before the eviction that does harm.
  lemma {:induction false} BeforeHarm(cfg: Config, ids: nat, ops: seq<Op>, i: Incoming) returns (b: Body)
    requires SparesRun(cfg, ids, ops) && !SparesPush(cfg, Run(cfg, ids, ops), i)
    ensures var s := Run(cfg, ids, ops + [Op.Push(i)]);
      && Sound(b) && IndexComplete(b) && s.body == Enforce(cfg, b) && !Spares(cfg, b)
      && (!s.gate.initialized ==> b.index == map[])
  {
    hide Run, Enforce, Spares, SparesRun, Sound, IndexComplete, Handle, HandlePlain;
    var s := Run(cfg, ids, ops);
    b := HandleAll(cfg, s.body, Released(s.gate, i));
    RunAppend(cfg, ids, ops, Op.Push(i));
    IndexEntriesAreVisible(cfg, ids, ops);
    CompleteRun(cfg, ids, ops);
    SoundHandleAll(cfg, s.body, Released(s.gate, i));
    HandleAllKeepsIndexComplete(cfg, s.body, Released(s.gate, i));
    NoToolsBeforeInit(cfg, ids, ops);
    EchoKeepsIndex(cfg, s, i);
  }

  /** If a push evicts an id that is still in use, there is an event after which the loss can be seen. */
  lemma {:induction false} LossShows(cfg: Config, ids: nat, ops: seq<Op>, i: Incoming) returns (e: Event)
    requires SparesRun(cfg, ids, ops) && !SparesPush(cfg, Run(cfg, ids, ops), i)
    ensures !Refines(cfg, ids, ops + [Op.Push(i)] + [Op.Push(Incoming(e, None))])
  {
    hide Run, RefRun, Enforce, Spares, SparesPush, SparesRun, Sound, IndexComplete, Live, Resolve, Forget, Tracks,
      Without, PushState, RefPush;
    var more := ops + [Op.Push(i)];
    var s, r := Run(cfg, ids, more), RefRun(cfg, ids, more);
    var b := BeforeHarm(cfg, ids, ops, i);
    var id := Harmed(cfg, b);
    BufferInvariant(cfg, ids, more);
    assert more[..|more| - 1] == ops;
    RunTracks(cfg, ids, more);
    LastForgotten(cfg, ids, more);
    EntryInArena(b, id);
    e := Telling(id, b.execs[b.index[id]]);
    TellingTellsApart(cfg, s, r, b, id);
    RunAppend(cfg, ids, more, Op.Push(Incoming(e, None)));
    LastForgotten(cfg, ids, more + [Op.Push(Incoming(e, None))]);
    WithoutIs(RefRun(cfg, ids, more + [Op.Push(Incoming(e, None))]).core);
  }

  lemma EntryInArena(b: Body, id: string)
    requires Sound(b) && id in b.index
    ensures b.index[id] < |b.execs|
  {}

  lemma WithoutIs(c: Core<Execution>)
    ensures forall k: nat :: Without(c, k) == c.(blocks := Drop(c.blocks, k))
  {}

  // Whatever event comes next after any of these operations, the bounded accumulator refines the reference.
  ghost predicate RefinesToNext(cfg: Config, ids: nat, ops: seq<Op>) {
    forall n, e :: 0 <= n <= |ops| ==> Refines(cfg, ids, ops[..n] + [Op.Push(Incoming(e, None))])
  }

  /** Exactly: the bounded accumulator refines the reference after each of these operations, whatever event comes next,
    * if and only if no push evicts an id that is still in use. */
  lemma {:induction false} CappedRefinesExactly(cfg: Config, ids: nat, ops: seq<Op>)
    ensures RefinesToNext(cfg, ids, ops) <==> SparesRun(cfg, ids, ops)
  {
    hide Refines, SparesRun, SparesPush, Run;
    if SparesRun(cfg, ids, ops) {
      forall n, e | 0 <= n <= |ops| ensures Refines(cfg, ids, ops[..n] + [Op.Push(Incoming(e, None))]) {
        var more := ops[..n] + [Op.Push(Incoming(e, None))];
        SparesPrefixes(cfg, ids, ops, n);
        assert more[..|more| - 1] == ops[..n];
        CappedRefinesUncapped(cfg, ids, more);
      }
    } else {
      var n := FirstLoss(cfg, ids, ops);
      var e := LossShows(cfg, ids, ops[..n], ops[n].incoming);
      assert ops[..n + 1] == ops[..n] + [Op.Push(ops[n].incoming)];
    }
  }

  lemma SparesPrefixes(cfg: Config, ids: nat, ops: seq<Op>, n: nat)
    requires SparesRun(cfg, ids, ops) && n <= |ops|
    ensures SparesRun(cfg, ids, ops[..n])
  {
    hide SparesPush, Run;
    forall m | 0 <= m < n && ops[..n][m].Push?
      ensures SparesPush(cfg, Run(cfg, ids, ops[..n][..m]), ops[..n][m].incoming)
    {
      assert ops[..n][..m] == ops[..m];
    }
  }

  lemma {:induction false} FirstLoss(cfg: Config, ids: nat, ops: seq<Op>) returns (n: nat)
    requires !SparesRun(cfg, ids, ops)
    ensures n < |ops| && ops[n].Push? && SparesRun(cfg, ids, ops[..n])
    ensures !SparesPush(cfg, Run(cfg, ids, ops[..n]), ops[n].incoming)
  {
    hide SparesPush, Run;
    n := |ops| - 1;
    if SparesRun(cfg, ids, ops[..n]) {
      forall m | 0 <= m < n && ops[m].Push? ensures SparesPush(cfg, Run(cfg, ids, ops[..m]), ops[m].incoming) {
        assert ops[..n][..m] == ops[..m] && ops[..n][m] == ops[m];
      }
    } else {
      n := FirstLoss(cfg, ids, ops[..n]);
      assert ops[..|ops| - 1][..n] == ops[..n];
    }
  }
}
