/** Runs that use a tool id twice, and a run whose index outgrows the cap. */
module AccumulatorExamples {
  import opened Options
  import opened Conversation
  import opened AccumulatorSpec
  import opened AccumulatorIndex
  import opened AccumulatorCap
  import opened AccumulatorGate
  import opened AccumulatorTwins

  function Call(): ToolCall {
    ToolCall("Bash", "", "t", None)
  }

  function Started(): Block<Assistant<nat>> {
    SystemBlock(GeneratedId(1), SessionInitialized, "", None)
  }

  function Turn(h: nat, streaming: bool): Assistant<nat> {
    Assistant("m", [ToolSegment(h)], None, streaming, None)
  }

  function Boundary(): Block<Assistant<nat>> {
    TurnBoundary(GeneratedId(2), true, "")
  }

  function RateLimited(): Block<Assistant<nat>> {
    NoticeBlock(GeneratedId(3), RateLimit, "")
  }

  // The state after each of the five pushes.
  function After(n: nat): State {
    var e := Start(Call());
    if n == 0 then Initial(0)
    else State(Gate(n, true, []),
      if n == 1 then Body(Core([Started()], None, 1), [], map[])
      else if n == 2 then Body(Core([Started()], Some(Turn(0, true)), 1), [e], map["t" := 0])
      else if n == 3 then Body(Core([AssistantBlock(Turn(0, false)), Boundary()], None, 2), [e], map["t" := 0])
      else if n == 4 then
        Body(Core([AssistantBlock(Turn(0, false)), Boundary()], Some(Turn(1, true)), 2), [e, e], map["t" := 1])
      else Body(Core([Boundary(), RateLimited()], Some(Turn(1, true)), 3), [e, e], map[]))
  }

  function Events(): seq<Event> {
    [SessionInit(""), ToolUseStart(Call(), "m"), TurnComplete(""), ToolUseStart(Call(), "m"), Notice(RateLimit, "")]
  }

  lemma First(cfg: Config)
    requires cfg.maxBlocks == 2
    ensures PushState(cfg, After(0), Incoming(Events()[0], None)) == After(1)
  {
    hide Enforce;
    var h := Handled(SessionInit(""), None, 1);
    assert Released(EMPTY_GATE, Incoming(SessionInit(""), None)) == [h];
    assert [h][1..] == [];
    assert Handle(cfg, After(0).body, h) == After(1).body;
    assert HandleAll(cfg, After(0).body, [h]) == HandleAll(cfg, After(1).body, []) == After(1).body;
    NothingToEnforce(cfg, After(1).body);
  }

  lemma Second(cfg: Config)
    requires cfg.maxBlocks == 2
    ensures PushState(cfg, After(1), Incoming(Events()[1], None)) == After(2)
  {
    hide Enforce;
    OpenPush(cfg, After(1), Incoming(Events()[1], None), 2);
    var b := Handle(cfg, After(1).body, Handled(Events()[1], None, 2));
    assert b.execs == After(2).body.execs && b.index == After(2).body.index;
    assert b.core.current.value.segments == [ToolSegment(0)];
    NothingToEnforce(cfg, After(2).body);
  }

  // Three blocks, one too many.
  lemma OneEvicted(cfg: Config, b: Body)
    requires cfg.maxBlocks == 2 && |b.core.blocks| == 3 && !b.core.blocks[0].TurnBoundary?
    ensures Enforce(cfg, b) == b.(
      core := b.core.(blocks := b.core.blocks[1..]),
      index := b.index - IdsAt(b.execs, BlockHandles([b.core.blocks[0]])))
  {
    hide IdsAt, BlockHandles;
    var bs := b.core.blocks;
    assert Drop(bs, 1) == Drop(bs[1..], 0) == bs[1..];
    assert Dropped(bs, 1) == [bs[0]] + Dropped(bs[1..], 0) == [bs[0]];
  }

  lemma ThirdHandled(cfg: Config)
    ensures Handle(cfg, After(2).body, Handled(Events()[2], None, 3)) ==
      Body(Core([Started(), AssistantBlock(Turn(0, false)), Boundary()], None, 2), [Start(Call())], map["t" := 0])
  {}

  lemma Third(cfg: Config)
    requires cfg.maxBlocks == 2
    ensures PushState(cfg, After(2), Incoming(Events()[2], None)) == After(3)
  {
    hide Enforce, Handle, IdsAt, BlockHandles;
    OpenPush(cfg, After(2), Incoming(Events()[2], None), 3);
    ThirdHandled(cfg);
    var b := Handle(cfg, After(2).body, Handled(Events()[2], None, 3));
    OneEvicted(cfg, b);
    NoHandles([Started()]);
    assert IdsAt(b.execs, []) == {} && b.index - {} == b.index by { NoIds(b.execs, b.index); }
  }

  lemma NoIds(execs: seq<Execution>, index: map<string, nat>)
    ensures IdsAt(execs, []) == {} && index - {} == index
  {}

  lemma Fourth(cfg: Config)
    requires cfg.maxBlocks == 2
    ensures PushState(cfg, After(3), Incoming(Events()[3], None)) == After(4)
  {
    hide Enforce;
    OpenPush(cfg, After(3), Incoming(Events()[3], None), 4);
    var b := Handle(cfg, After(3).body, Handled(Events()[3], None, 4));
    assert b.execs == After(4).body.execs && b.index == After(4).body.index;
    assert b.core.current.value.segments == [ToolSegment(1)];
    NothingToEnforce(cfg, After(4).body);
  }

  lemma FifthHandled(cfg: Config)
    ensures Handle(cfg, After(4).body, Handled(Events()[4], None, 5)) ==
      After(4).body.(core := Core([AssistantBlock(Turn(0, false)), Boundary(), RateLimited()], Some(Turn(1, true)), 3))
  {}

  lemma Fifth(cfg: Config)
    requires cfg.maxBlocks == 2
    ensures PushState(cfg, After(4), Incoming(Events()[4], None)) == After(5)
  {
    hide Enforce, Handle, IdsAt, BlockHandles;
    OpenPush(cfg, After(4), Incoming(Events()[4], None), 5);
    FifthHandled(cfg);
    var b := Handle(cfg, After(4).body, Handled(Events()[4], None, 5));
    OneEvicted(cfg, b);
    FirstHandles(b.execs);
    assert b.index - {"t"} == map[];
  }

  lemma FirstHandles(execs: seq<Execution>)
    requires execs != [] && execs[0].call.toolUseId == "t"
    ensures IdsAt(execs, BlockHandles([AssistantBlock(Turn(0, false))])) == {"t"}
  {
    var a := AssistantBlock(Turn(0, false));
    assert [a][1..] == [] && a.assistant.segments[1..] == [];
    assert BlockHandles([a]) == [0];
    assert execs[[0][0]].call.toolUseId == "t";
  }

  lemma {:induction false} RunIs(cfg: Config, ops: seq<Op>, n: nat)
    requires cfg.maxBlocks == 2 && n <= 5 && |ops| == 5
    requires forall i :: 0 <= i < 5 ==> ops[i] == Push(Incoming(Events()[i], None))
    ensures Run(cfg, 0, ops[..n]) == After(n)
  {
    hide PushState, Events;
    if n > 0 {
      RunIs(cfg, ops, n - 1);
      assert ops[..n][..n - 1] == ops[..n - 1];
      First(cfg);
      Second(cfg);
      Third(cfg);
      Fourth(cfg);
      Fifth(cfg);
    }
  }

  lemma Outcome()
    ensures var b := After(5).body;
      Live(b.core) == [1] && Carries(b.execs, 1, "t") && "t" !in b.index && !IndexComplete(b)
  {
    var b := After(5).body;
    var last := AssistantBlock(Turn(1, true));
    assert b.core.Visible() == [Boundary(), RateLimited(), last];
    assert b.core.Visible()[1..] == [RateLimited(), last] && [RateLimited(), last][1..] == [last];
    assert [last][1..] == [] && last.assistant.segments[1..] == [];
    assert Live(b.core) == [1];
    assert Lookup(b, "t") == None && Scan(b.execs, [1], "t") == Some(1);
  }

  /** The first block of the tool is evicted while the second execution with its id is still visible: the index has
    * forgotten the second one. */
  lemma {:induction false} ReusedIdIsForgotten(cfg: Config, ops: seq<Op>)
    requires cfg.maxBlocks == 2 && |ops| == 5
    requires forall i :: 0 <= i < 5 ==> ops[i] == Push(Incoming(Events()[i], None))
    ensures var b := Run(cfg, 0, ops).body;
      Live(b.core) == [1] && Carries(b.execs, 1, "t") && "t" !in b.index && !IndexComplete(b)
  {
    hide PushState, After, Run, IndexComplete, Carries, Live, Events;
    RunIs(cfg, ops, 5);
    assert ops[..5] == ops;
    Outcome();
  }

  // ---- The gate can be seen ----

  function Answer(): Event {
    ToolUseResult("t", "", false, false)
  }

  // The events between session_init and the last, and the last.
  function Waiting(): seq<Incoming> {
    [Incoming(Events()[1], None), Incoming(Events()[2], None), Incoming(Events()[3], None),
     Incoming(Events()[4], None), Incoming(Answer(), None)]
  }

  function Init(): Incoming {
    Incoming(Events()[0], None)
  }

  function Answered(cfg: Config): Execution {
    Apply(SetResult(ToolResult(cfg.clip("", MAX_TOOL_OUTPUT), false, false)), Start(Call()))
  }

  // The body after the first n waiting events, when nothing is evicted on the way.
  function Whole(cfg: Config, n: nat): Body {
    var e := Start(Call());
    if n == 0 then Body(Core([Started()], None, 1), [], map[])
    else if n == 1 then Body(Core([Started()], Some(Turn(0, true)), 1), [e], map["t" := 0])
    else if n == 2 then
      Body(Core([Started(), AssistantBlock(Turn(0, false)), Boundary()], None, 2), [e], map["t" := 0])
    else if n == 3 then
      Body(Core([Started(), AssistantBlock(Turn(0, false)), Boundary()], Some(Turn(1, true)), 2), [e, e], map["t" := 1])
    else
      Body(Core([Started(), AssistantBlock(Turn(0, false)), Boundary(), RateLimited()], Some(Turn(1, true)), 3),
           if n == 4 then [e, e] else [e, Answered(cfg)], map["t" := 1])
  }

  lemma WholeStep(cfg: Config, n: nat)
    requires n < 5
    ensures Handle(cfg, Whole(cfg, n), Handled(Waiting()[n].event, None, 6)) == Whole(cfg, n + 1)
  {
    var b := Handle(cfg, Whole(cfg, n), Handled(Waiting()[n].event, None, 6));
    if n == 0 || n == 2 {
      assert b.execs == Whole(cfg, n + 1).execs && b.index == Whole(cfg, n + 1).index;
      assert b.core.current.value.segments == Whole(cfg, n + 1).core.current.value.segments;
    } else if n == 1 || n == 3 {
      assert b.core.blocks == Whole(cfg, n + 1).core.blocks;
    } else {
      assert b.execs == Whole(cfg, n + 1).execs;
    }
  }

  lemma {:induction false} WholeIsReplayed(cfg: Config, n: nat)
    requires n <= 5
    ensures Replayed(cfg, Initial(0), Waiting()[..n], Init(), 6) == Whole(cfg, n)
  {
    hide Replayed, Handle, Whole, Waiting;
    FiveWait();
    ReplayedMore(cfg, Initial(0), Waiting()[..n], Init(), 6);
    if n == 0 {
      InitHandled(cfg, 6);
      assert Whole(cfg, 0) == After(1).body by { WholeAtFirst(cfg); }
    } else {
      assert Waiting()[..n][..n - 1] == Waiting()[..n - 1];
      WholeIsReplayed(cfg, n - 1);
      WholeStep(cfg, n - 1);
    }
  }

  lemma FiveWait()
    ensures |Waiting()| == 5 && AllWait(Waiting())
    ensures forall n :: 0 <= n < 5 ==> Waiting()[n].raw == None
  {}

  lemma WholeAtFirst(cfg: Config)
    ensures Whole(cfg, 0) == After(1).body
  {}

  lemma InitHandled(cfg: Config, n: nat)
    ensures Handle(cfg, Initial(0).body, Handled(Init().event, Init().raw, n)) == After(1).body
  {
    assert Init() == Incoming(SessionInit(""), None);
  }

  // What is evicted at the end.
  lemma WholeEvicted(cfg: Config)
    requires cfg.maxBlocks == 2
    ensures var e := Enforce(cfg, Whole(cfg, 5)); e.core == After(5).body.core && e.execs == Whole(cfg, 5).execs
  {
    var a := AssistantBlock(Turn(0, false));
    var bs := Whole(cfg, 5).core.blocks;
    assert bs == [Started(), a, Boundary(), RateLimited()];
    assert bs[1..] == [a, Boundary(), RateLimited()] && bs[1..][1..] == [Boundary(), RateLimited()];
    assert Drop(bs, 2) == Drop(bs[1..], 1) == Drop(bs[1..][1..], 0) == [Boundary(), RateLimited()];
    assert Excess(cfg, 4) == 2;
  }

  lemma AnswerMissed(cfg: Config)
    requires cfg.maxBlocks == 2
    ensures PushState(cfg, After(5), Incoming(Answer(), None)).body == After(5).body
    ensures PushState(cfg, After(5), Incoming(Answer(), None)).gate == Gate(6, true, [])
  {
    hide Enforce;
    OpenPush(cfg, After(5), Incoming(Answer(), None), 6);
    assert Handle(cfg, After(5).body, Handled(Answer(), None, 6)) == After(5).body;
    NothingToEnforce(cfg, After(5).body);
  }

  lemma {:induction false} EarlyRun(cfg: Config, n: nat)
    requires cfg.maxBlocks == 2 && n <= 5
    ensures PushAll(cfg, Initial(0), ([Init()] + Waiting())[..n]) == After(n)
  {
    hide PushState, Waiting, Events;
    var es := [Init()] + Waiting();
    FiveWait();
    if n > 0 {
      EarlyRun(cfg, n - 1);
      assert es[..n][..n - 1] == es[..n - 1];
      EarlyEvent(n - 1);
      First(cfg);
      Second(cfg);
      Third(cfg);
      Fourth(cfg);
      Fifth(cfg);
    }
  }

  lemma EarlyEvent(n: nat)
    requires n < 5
    ensures |Events()| == 5 && ([Init()] + Waiting())[n] == Incoming(Events()[n], None)
  {}

  /** The gate can be seen. A tool id is used twice, the first execution is evicted, and then the second one gets its
    * result. If session_init came first, the eviction has deleted the entry and the result is lost; if the events
    * waited for it, they are handled before anything is evicted and the result arrives. */
  lemma {:induction false} GateShows(cfg: Config)
    requires cfg.maxBlocks == 2 && Room(cfg) >= 5
    ensures var late := PushState(cfg, PushAll(cfg, Initial(0), Waiting()), Init()).body;
      var early := PushAll(cfg, Initial(0), [Init()] + Waiting()).body;
      && Live(late.core) == Live(early.core) == [1] && |late.execs| == |early.execs| == 2
      && late.execs[1].status == Complete && early.execs[1].status == Running
    ensures !Invisible(cfg, Initial(0), Waiting(), Init())
  {
    hide PushState, PushAll, Enforce, Replayed, Whole, Waiting, Live, Resolve, Handle;
    var es := [Init()] + Waiting();
    FiveWait();
    NothingSound();
    LateIsReplay(cfg, Initial(0), Waiting(), Init());
    WholeIsReplayed(cfg, 5);
    assert Waiting()[..5] == Waiting();
    WholeEvicted(cfg);
    EarlyRun(cfg, 5);
    AnswerMissed(cfg);
    LastPush(cfg);
    Outcome();
    Statuses(cfg);
    ResolveDiffers(Whole(cfg, 5).execs, After(5).body.execs, After(5).body.core, 1);
  }

  lemma NothingSound()
    ensures Sound(Initial(0).body) && Init().event.SessionInit?
  {
    hide Sound;
    EmptySound(0);
  }

  lemma LastPush(cfg: Config)
    ensures var es := [Init()] + Waiting();
      PushAll(cfg, Initial(0), es) == PushState(cfg, PushAll(cfg, Initial(0), es[..5]), Incoming(Answer(), None))
  {
    hide PushState;
  }

  lemma Statuses(cfg: Config)
    ensures |Whole(cfg, 5).execs| == |After(5).body.execs| == 2
    ensures Whole(cfg, 5).execs[1].status == Complete && After(5).body.execs[1].status == Running
  {}

  // ---- The late order loses more ----

  // A tool id is used again only after its first execution is evicted.
  function Spread(): seq<Incoming> {
    [Incoming(Events()[1], None), Incoming(Events()[2], None), Incoming(Events()[4], None), Incoming(Events()[3], None)]
  }

  // The body before the eviction of each push of the early order.
  function Full(n: nat): Body {
    var a, e := AssistantBlock(Turn(0, false)), Start(Call());
    if n < 2 then After(n + 1).body
    else if n == 2 then Body(Core([Started(), a, Boundary()], None, 2), [e], map["t" := 0])
    else if n == 3 then Body(Core([a, Boundary(), RateLimited()], None, 3), [e], map["t" := 0])
    else Body(Core([Boundary(), RateLimited()], Some(Turn(1, true)), 3), [e, e], map["t" := 1])
  }

  // The body after it.
  function Kept(n: nat): Body {
    if n < 3 then After(n + 1).body
    else if n == 3 then Body(Core([Boundary(), RateLimited()], None, 3), [Start(Call())], map[])
    else Full(n)
  }

  lemma FullStep(cfg: Config, n: nat)
    requires 0 < n < 5
    ensures Handle(cfg, Kept(n - 1), Handled(Spread()[n - 1].event, None, 6)) == Full(n)
  {
    var b := Handle(cfg, Kept(n - 1), Handled(Spread()[n - 1].event, None, 6));
    if n == 1 || n == 4 {
      assert b.execs == Full(n).execs && b.index == Full(n).index;
      assert b.core.current.value.segments == Full(n).core.current.value.segments;
    } else {
      assert b.core.blocks == Full(n).core.blocks;
    }
  }

  lemma NothingEvicted(cfg: Config, b: Body)
    requires |b.core.blocks| <= cfg.maxBlocks
    ensures Enforce(cfg, b) == b && Spares(cfg, b)
  {
    NothingToEnforce(cfg, b);
    assert Dropped(b.core.blocks, 0) == [];
  }

  lemma KeptSpares(cfg: Config, n: nat)
    requires cfg.maxBlocks == 2 && n < 5
    ensures Enforce(cfg, Full(n)) == Kept(n) && Spares(cfg, Full(n))
  {
    hide IdsAt, BlockHandles, Live, Enforce, Spares;
    var b := Full(n);
    if n < 2 || n == 4 {
      NothingEvicted(cfg, b);
    } else {
      OneEvicted(cfg, b);
      OneSpared(cfg, b);
      assert b.core.blocks[1..] == Kept(n).core.blocks;
      if n == 2 {
        NoHandles([Started()]);
        NoIds(b.execs, b.index);
      } else {
        FirstHandles(b.execs);
        assert b.index - {"t"} == map[];
        NothingLeft();
      }
    }
  }

  // Three blocks, of which the first is evicted.
  lemma OneSpared(cfg: Config, b: Body)
    requires cfg.maxBlocks == 2 && |b.core.blocks| == 3 && !b.core.blocks[0].TurnBoundary?
    ensures Spares(cfg, b) <==>
      forall id :: id in IdsAt(b.execs, BlockHandles([b.core.blocks[0]])) && id in b.index ==>
        b.index[id] !in Live(Enforce(cfg, b).core)
  {
    hide IdsAt, BlockHandles, Live, Enforce;
    var bs := b.core.blocks;
    assert Dropped(bs, 1) == [bs[0]] + Dropped(bs[1..], 0) == [bs[0]];
  }

  lemma NothingLeft()
    ensures Live(Kept(3).core) == []
  {
    NoHandles(Kept(3).core.Visible());
  }

  lemma {:induction false} SpreadRun(cfg: Config, n: nat)
    requires cfg.maxBlocks == 2 && n < 5
    ensures var es := [Init()] + Spread();
      && PushAll(cfg, Initial(0), es[..n + 1]) == State(Gate(n + 1, true, []), Kept(n))
      && SparesPush(cfg, PushAll(cfg, Initial(0), es[..n]), es[n])
  {
    hide PushState, Full, Kept, Enforce, Spares, Handle, Spread, SparesPush;
    var es := [Init()] + Spread();
    FourSpread();
    assert es[..n + 1][..n] == es[..n];
    KeptSpares(cfg, n);
    if n == 0 {
      FirstPush(cfg, Initial(0), Init(), 6);
      InitHandled(cfg, 6);
      assert Full(0) == After(1).body by { PiledAtFirst(); }
      assert es[..0] == [];
    } else {
      SpreadRun(cfg, n - 1);
      FullStep(cfg, n);
      OpenPush(cfg, PushAll(cfg, Initial(0), es[..n]), es[n], 6);
    }
  }

  lemma FourSpread()
    ensures |Spread()| == 4 && AllWait(Spread()) && forall n :: 0 <= n < 4 ==> Spread()[n].raw == None
  {}

  // What the late order evicts from.
  function Piled(n: nat): Body {
    var a, e := AssistantBlock(Turn(0, false)), Start(Call());
    if n < 3 then Full(n)
    else if n == 3 then Body(Core([Started(), a, Boundary(), RateLimited()], None, 3), [e], map["t" := 0])
    else Body(Core([Started(), a, Boundary(), RateLimited()], Some(Turn(1, true)), 3), [e, e], map["t" := 1])
  }

  lemma PiledAtFirst()
    ensures Piled(0) == Full(0) == After(1).body
  {}

  lemma PiledStep(cfg: Config, n: nat)
    requires 0 < n < 5
    ensures Handle(cfg, Piled(n - 1), Handled(Spread()[n - 1].event, None, 5)) == Piled(n)
  {
    var b := Handle(cfg, Piled(n - 1), Handled(Spread()[n - 1].event, None, 5));
    if n == 1 || n == 4 {
      assert b.execs == Piled(n).execs && b.index == Piled(n).index;
      assert b.core.current.value.segments == Piled(n).core.current.value.segments;
    } else {
      assert b.core.blocks == Piled(n).core.blocks;
    }
  }

  lemma {:induction false} PiledIsReplayed(cfg: Config, n: nat)
    requires n < 5
    ensures Replayed(cfg, Initial(0), Spread()[..n], Init(), 5) == Piled(n)
  {
    hide Replayed, Handle, Piled, Spread;
    FourSpread();
    ReplayedMore(cfg, Initial(0), Spread()[..n], Init(), 5);
    if n == 0 {
      InitHandled(cfg, 5);
      PiledAtFirst();
    } else {
      assert Spread()[..n][..n - 1] == Spread()[..n - 1];
      PiledIsReplayed(cfg, n - 1);
      PiledStep(cfg, n);
    }
  }

  lemma PiledHarms(cfg: Config)
    requires cfg.maxBlocks == 2
    ensures !Spares(cfg, Piled(4))
  {
    hide IdsAt, BlockHandles, Live;
    var b, a := Piled(4), AssistantBlock(Turn(0, false));
    var bs := b.core.blocks;
    assert bs == [Started(), a, Boundary(), RateLimited()];
    assert bs[1..] == [a, Boundary(), RateLimited()] && bs[1..][1..] == [Boundary(), RateLimited()];
    assert Drop(bs, 2) == Drop(bs[1..], 1) == Drop(bs[1..][1..], 0) == [Boundary(), RateLimited()];
    assert Dropped(bs, 2) == [Started()] + Dropped(bs[1..], 1);
    assert Dropped(bs[1..], 1) == [a] + Dropped(bs[1..][1..], 0) == [a];
    NoHandles([Started()]);
    BlockHandlesConcat([Started()], [a]);
    assert [] + BlockHandles([a]) == BlockHandles([a]);
    FirstHandles(b.execs);
    Outcome();
    assert Enforce(cfg, b).core == After(5).body.core;
  }

  lemma EarlySpares(cfg: Config)
    requires cfg.maxBlocks == 2
    ensures SparesAll(cfg, Initial(0), [Init()] + Spread())
  {
    hide SparesPush, PushAll, Spread, Kept;
    var es := [Init()] + Spread();
    FourSpread();
    forall n | 0 <= n < |es| ensures SparesPush(cfg, PushAll(cfg, Initial(0), es[..n]), es[n]) {
      SpreadRun(cfg, n);
    }
  }

  lemma SpreadReady(cfg: Config)
    ensures Ready(cfg, Initial(0), Spread(), Init()) && |Spread()| == 4
  {
    hide Sound;
    NothingSound();
  }

  /** The early order evicts nothing in use: the first execution of the tool id is gone before the second one starts.
    * The late order evicts it when the second one is there, and a result for that one tells the two apart. */
  lemma LateLoses(cfg: Config)
    requires cfg.maxBlocks == 2 && Room(cfg) >= 4
    ensures SparesAll(cfg, Initial(0), [Init()] + Spread())
    ensures Invisible(cfg, Initial(0), Spread(), Init()) && !InvisibleForEver(cfg, Initial(0), Spread(), Init())
  {
    hide SparesPush, PushAll, Piled, Spread, Replayed, Spares, Invisible, InvisibleForEver, Init, SparesAll, Ready;
    var es := [Init()] + Spread();
    SpreadReady(cfg);
    EarlySpares(cfg);
    SparesPrefixOfAll(cfg, Initial(0), es, 4);
    GateIsInvisible(cfg, Initial(0), Spread(), Init());
    GateIsInvisibleForEver(cfg, Initial(0), Spread(), Init());
    LateSpares(cfg, Initial(0), Spread(), Init());
    PiledIsReplayed(cfg, 4);
    assert Spread()[..4] == Spread();
    PiledHarms(cfg);
  }

  // ---- The index can outgrow the cap ----

  function Tick(n: nat): string {
    if n == 0 then "" else Tick(n - 1) + "i"
  }

  lemma {:induction false} TickLength(n: nat)
    ensures |Tick(n)| == n
  {
    if n > 0 {
      TickLength(n - 1);
    }
  }

  function Tool(n: nat): Incoming {
    Incoming(ToolUseStart(ToolCall("Bash", "", Tick(n), None), "m"), None)
  }

  // session_init, and tools with ids of growing length in one turn.
  function OneTurn(n: nat): seq<Op> {
    if n == 0 then [Push(Init())]
    else OneTurn(n - 1) + [Push(Tool(n - 1))]
  }

  // At most the init block is finalised, and an entry was added for each tool.
  ghost predicate Grown(s: State, n: nat) {
    && s.gate.initialized && s.gate.buffer == []
    && BlockHandles(s.body.core.blocks) == []
    && |s.body.index| == n && (forall id :: id in s.body.index ==> |id| < n)
  }

  // Without executions in its finalised blocks, an eviction deletes nothing from the index.
  lemma NothingToDelete(cfg: Config, b: Body)
    requires BlockHandles(b.core.blocks) == []
    ensures Enforce(cfg, b).index == b.index && BlockHandles(Enforce(cfg, b).core.blocks) == []
  {
    hide BlockHandles, IdsAt;
    DropHandles(b.core.blocks, Excess(cfg, |b.core.blocks|));
    NoIds(b.execs, b.index);
  }

  lemma {:induction false} OneTurnGrows(cfg: Config, ids: nat, n: nat)
    ensures Grown(Run(cfg, ids, OneTurn(n)), n)
  {
    hide PushState, Run, Grown;
    var ops := OneTurn(n);
    assert ops[..|ops|] == ops;
    RunLast(cfg, ids, ops, |ops| - 1);
    if n == 0 {
      RunNothing(cfg, ids);
      GrownInit(cfg, ids);
    } else {
      assert ops[..|ops| - 1] == OneTurn(n - 1);
      OneTurnGrows(cfg, ids, n - 1);
      GrownTool(cfg, Run(cfg, ids, OneTurn(n - 1)), n - 1);
    }
  }

  lemma GrownInit(cfg: Config, ids: nat)
    ensures Grown(PushState(cfg, Initial(ids), Init()), 0)
  {
    hide Enforce, BlockHandles;
    var b := Handle(cfg, Initial(ids).body, Handled(Init().event, Init().raw, 0));
    FirstPush(cfg, Initial(ids), Init(), 0);
    assert |b.core.blocks| == 1 && !b.core.blocks[0].AssistantBlock?;
    NoHandles(b.core.blocks);
    NothingToDelete(cfg, b);
  }

  lemma GrownTool(cfg: Config, s: State, n: nat)
    requires Grown(s, n)
    ensures Grown(PushState(cfg, s, Tool(n)), n + 1)
  {
    hide Enforce, BlockHandles;
    var b := Handle(cfg, s.body, Handled(Tool(n).event, Tool(n).raw, 0));
    OpenPush(cfg, s, Tool(n), 0);
    TickLength(n);
    assert b.index.Keys == s.body.index.Keys + {Tick(n)};
    assert |b.index.Keys| == |s.body.index.Keys| + 1;
    NothingToDelete(cfg, b);
  }

  /** However large the cap, the index can grow larger: the executions of an open turn are not evicted. */
  lemma IndexOutgrowsCap(cfg: Config, ids: nat)
    ensures |Run(cfg, ids, OneTurn(cfg.maxBlocks + 1)).body.index| > cfg.maxBlocks
  {
    hide Run, OneTurn;
    OneTurnGrows(cfg, ids, cfg.maxBlocks + 1);
  }
}
