/** The bounded accumulator refines the reference: what it shows is the full history with its oldest expendable
  * blocks left out, and nothing else differs. */
module AccumulatorCap {
  import opened Options
  import opened Conversation
  import opened AccumulatorSpec
  import opened AccumulatorIndex

  // ---- Dropping blocks ----

  function Min(a: nat, b: nat): nat {
    if a < b then a else b
  }

  lemma {:induction false} DropCounts<A>(bs: seq<Block<A>>, k: nat)
    ensures |Drop(bs, k)| == |bs| - Min(k, Expendable(bs))
    ensures Expendable(Drop(bs, k)) == Expendable(bs) - Min(k, Expendable(bs))
    ensures Expendable(bs) <= |bs|
  {
    if k != 0 && bs != [] {
      var k' := if bs[0].TurnBoundary? then k else k - 1;
      DropCounts(bs[1..], k');
      assert ([bs[0]] + Drop(bs[1..], k'))[1..] == Drop(bs[1..], k');
    } else if bs != [] {
      DropCounts(bs[1..], 0);
    }
  }

  lemma {:induction false} DropAppend<A>(bs: seq<Block<A>>, cs: seq<Block<A>>, k: nat)
    requires k <= Expendable(bs)
    ensures Drop(bs + cs, k) == Drop(bs, k) + cs
    ensures Expendable(bs + cs) == Expendable(bs) + Expendable(cs)
  {
    if bs == [] {
      assert bs + cs == cs;
    } else {
      assert (bs + cs)[1..] == bs[1..] + cs;
      DropAppend(bs[1..], cs, if bs[0].TurnBoundary? then Min(k, Expendable(bs[1..])) else if k == 0 then 0 else k - 1);
    }
  }

  lemma {:induction false} DropDrop<A>(bs: seq<Block<A>>, i: nat, j: nat)
    ensures Drop(Drop(bs, i), j) == Drop(bs, i + j)
  {
    if i != 0 && bs != [] {
      var i' := if bs[0].TurnBoundary? then i else i - 1;
      DropDrop(bs[1..], i', j);
      assert ([bs[0]] + Drop(bs[1..], i'))[1..] == Drop(bs[1..], i');
    }
  }

  lemma {:induction false} DropNoMore<A>(bs: seq<Block<A>>, k: nat)
    ensures Drop(bs, k) == Drop(bs, Min(k, Expendable(bs)))
  {
    if k != 0 && bs != [] {
      DropNoMore(bs[1..], if bs[0].TurnBoundary? then k else k - 1);
      if bs[0].TurnBoundary? {
        DropNoMore(bs[1..], k);
      }
      if Min(k, Expendable(bs)) == 0 {
        NothingExpendable(bs, k);
      }
    }
  }

  lemma {:induction false} NothingExpendable<A>(bs: seq<Block<A>>, k: nat)
    requires Expendable(bs) == 0
    ensures Drop(bs, k) == bs
  {
    if bs != [] {
      NothingExpendable(bs[1..], k);
    }
  }

  lemma {:induction false} DroppedNothing<A>(bs: seq<Block<A>>, k: nat)
    requires k == 0 || Expendable(bs) == 0
    ensures Dropped(bs, k) == []
  {
    if k != 0 && bs != [] {
      DroppedNothing(bs[1..], k);
    }
  }

  // Two lists of blocks with turn boundaries in the same places.
  ghost predicate SameShape<A, B>(a: seq<Block<A>>, b: seq<Block<B>>) {
    |a| == |b| && forall i :: 0 <= i < |a| ==> a[i].TurnBoundary? == b[i].TurnBoundary?
  }

  lemma {:induction false} ShapeExpendable<A, B>(a: seq<Block<A>>, b: seq<Block<B>>)
    requires SameShape(a, b)
    ensures Expendable(a) == Expendable(b)
  {
    if a != [] {
      ShapeExpendable(a[1..], b[1..]);
    }
  }

  lemma {:induction false} DropResolve(execs: seq<Execution>, bs: seq<Block<Assistant<nat>>>, k: nat)
    ensures Drop(ResolveBlocks(execs, bs), k) == ResolveBlocks(execs, Drop(bs, k))
  {
    if k != 0 && bs != [] {
      assert ResolveBlocks(execs, bs)[1..] == ResolveBlocks(execs, bs[1..]);
      DropResolve(execs, bs[1..], if bs[0].TurnBoundary? then k else k - 1);
    }
  }

  // Boundaries stay where they are.
  lemma {:induction false} SearchShape(id: string, u: Update, bs: seq<Block<Assistant<Execution>>>)
    ensures SameShape(bs, SearchBlocks(id, u, bs))
  {
    if bs != [] {
      SearchShape(id, u, bs[1..]);
    }
  }

  lemma {:induction false} NoTool(id: string, u: Update, ss: seq<Segment<Execution>>)
    requires !HasTool(id, ss)
    ensures SearchSegments(id, u, ss) == ss
  {}

  lemma {:induction false} NoToolInBlocks(id: string, u: Update, bs: seq<Block<Assistant<Execution>>>)
    requires !BlocksHaveTool(id, bs)
    ensures SearchBlocks(id, u, bs) == bs
  {
    if bs != [] {
      if bs[0].AssistantBlock? {
        NoTool(id, u, bs[0].assistant.segments);
      }
      assert SearchBlock(id, u, bs[0]) == bs[0];
    }
  }

  lemma {:induction false} DropHasNoMore(id: string, bs: seq<Block<Assistant<Execution>>>, k: nat)
    requires !BlocksHaveTool(id, bs)
    ensures !BlocksHaveTool(id, Drop(bs, k))
  {
    if k != 0 && bs != [] {
      var k' := if bs[0].TurnBoundary? then k else k - 1;
      DropHasNoMore(id, bs[1..], k');
      assert ([bs[0]] + Drop(bs[1..], k'))[1..] == Drop(bs[1..], k');
    }
  }

  // The newest execution of an id is among the last blocks, so dropping the first ones and searching commute.
  lemma {:induction false} DropSearch(id: string, u: Update, bs: seq<Block<Assistant<Execution>>>, k: nat)
    ensures Drop(SearchBlocks(id, u, bs), k) == SearchBlocks(id, u, Drop(bs, k))
  {
    if k != 0 && bs != [] {
      var rest := bs[1..];
      var k' := if bs[0].TurnBoundary? then k else k - 1;
      DropSearch(id, u, rest, k');
      if !BlocksHaveTool(id, rest) {
        DropHasNoMore(id, rest, k');
        NoToolInBlocks(id, u, rest);
      }
      if !BlocksHaveTool(id, Drop(rest, k')) {
        NoToolInBlocks(id, u, Drop(rest, k'));
      }
      assert ([bs[0]] + Drop(rest, k'))[1..] == Drop(rest, k');
      assert ([bs[0]] + SearchBlocks(id, u, rest))[1..] == SearchBlocks(id, u, rest);
      assert ([SearchBlock(id, u, bs[0])] + rest)[1..] == rest;
    }
  }

  // ---- Handlers do not look at the finalised blocks, except to find executions ----

  function Without<A>(c: Core<A>, k: nat): Core<A> {
    c.(blocks := Drop(c.blocks, k))
  }

  lemma PlainWithout<T>(c: Core<T>, e: Event, raw: Option<Payload>, n: nat, k: nat)
    requires k <= Expendable(c.blocks)
    ensures var c' := HandlePlain(c, e, raw, n);
      HandlePlain(Without(c, k), e, raw, n) == Without(c', k) && Expendable(c.blocks) <= Expendable(c'.blocks)
      && |c.blocks| <= |c'.blocks|
  {
    hide Drop, Expendable, Edit, Notes, Numbers;
    var c1 := if Closes(e) then c.Closed() else c;
    if Closes(e) && c.current.Some? {
      DropAppend(c.blocks, [AssistantBlock(c.current.value.(streaming := false))], k);
    }
    DropAppend(c1.blocks, Notes(e, raw, n, c.ids), k);
  }

  lemma SearchWithout(id: string, u: Update, c: Core<Execution>, k: nat)
    ensures SearchCore(id, u, Without(c, k)) == Without(SearchCore(id, u, c), k)
    ensures Expendable(SearchCore(id, u, c).blocks) == Expendable(c.blocks)
    ensures |SearchCore(id, u, c).blocks| == |c.blocks|
  {
    DropSearch(id, u, c.blocks, k);
    SearchShape(id, u, c.blocks);
    ShapeExpendable(c.blocks, SearchBlocks(id, u, c.blocks));
  }

  lemma {:induction false} SearchEachWithout(ids: seq<string>, u: Update, c: Core<Execution>, k: nat)
    ensures SearchEach(ids, u, Without(c, k)) == Without(SearchEach(ids, u, c), k)
    ensures Expendable(SearchEach(ids, u, c).blocks) == Expendable(c.blocks)
    ensures |SearchEach(ids, u, c).blocks| == |c.blocks|
    decreases |ids|
  {
    if ids != [] {
      SearchWithout(ids[0], u, c, k);
      SearchEachWithout(ids[1..], u, SearchCore(ids[0], u, c), k);
    }
  }

  lemma HandleWithout(cfg: Config, c: Core<Execution>, h: Handled, k: nat)
    requires k <= Expendable(c.blocks)
    ensures var c' := RefHandle(cfg, c, h);
      RefHandle(cfg, Without(c, k), h) == Without(c', k) && Expendable(c.blocks) <= Expendable(c'.blocks)
      && |c.blocks| <= |c'.blocks|
  {
    hide Drop, Expendable, HandlePlain, SearchCore, SearchEach;
    var raw := RawJson(cfg, h.raw);
    match h.event
    case ToolUseStart(_, _) =>
    case ToolUseResult(id, output, isError, isReplay) =>
      SearchWithout(id, SetResult(ToolResult(cfg.clip(output, MAX_TOOL_OUTPUT), isError, isReplay)), c, k);
    case ToolProgress(id, elapsed, _, _) =>
      SearchWithout(id, SetProgress(elapsed), c, k);
      PlainWithout(SearchCore(id, SetProgress(elapsed), c), h.event, raw, h.pushNo, k);
    case ToolSummary(summary, ids) => SearchEachWithout(ids, SetSummary(cfg.clip(summary, MAX_TOOL_SUMMARY)), c, k);
    case _ => PlainWithout(c, h.event, raw, h.pushNo, k);
  }

  // ---- Handling by position and handling by value agree ----

  lemma ResolveEdit(execs: seq<Execution>, a: Assistant<nat>, e: Event)
    requires Edits(e)
    ensures ResolveAssistant(execs, Edit(a, e)) == Edit(ResolveAssistant(execs, a), e)
  {}

  lemma ResolveConcat(execs: seq<Execution>, a: seq<Block<Assistant<nat>>>, b: seq<Block<Assistant<nat>>>)
    ensures ResolveBlocks(execs, a + b) == ResolveBlocks(execs, a) + ResolveBlocks(execs, b)
  {}

  lemma ResolveClosed(execs: seq<Execution>, c: Core<nat>)
    ensures Resolve(execs, c.Closed()) == Resolve(execs, c).Closed()
  {
    if c.current.Some? {
      var a := c.current.value.(streaming := false);
      assert ResolveAssistant(execs, a) == ResolveAssistant(execs, c.current.value).(streaming := false);
      ResolveConcat(execs, c.blocks, [AssistantBlock(a)]);
      assert ResolveBlocks(execs, [AssistantBlock(a)]) == [AssistantBlock(ResolveAssistant(execs, a))];
    }
  }

  lemma ResolveOpened(execs: seq<Execution>, c: Core<nat>, messageId: string, raw: Option<Payload>)
    ensures ResolveAssistant(execs, c.Opened(messageId, raw)) == Resolve(execs, c).Opened(messageId, raw)
  {}

  lemma ResolveNotes(execs: seq<Execution>, e: Event, raw: Option<Payload>, n: nat, ids: nat)
    ensures ResolveBlocks(execs, Notes(e, raw, n, ids)) == Notes(e, raw, n, ids)
  {}

  lemma ResolvePlain(execs: seq<Execution>, c: Core<nat>, e: Event, raw: Option<Payload>, n: nat)
    ensures Resolve(execs, HandlePlain(c, e, raw, n)) == HandlePlain(Resolve(execs, c), e, raw, n)
  {
    var c1 := if Closes(e) then c.Closed() else c;
    ResolveClosed(execs, c);
    if Edits(e) {
      ResolveOpened(execs, c1, e.messageId, raw);
      ResolveEdit(execs, c1.Opened(e.messageId, raw), e);
    }
    ResolveNotes(execs, e, raw, n, c.ids);
    ResolveConcat(execs, c1.blocks, Notes(e, raw, n, c.ids));
  }

  // ---- Updating through the index and updating by search agree ----

  lemma {:induction false} SegmentHandles(ss: seq<Segment<nat>>, i: nat)
    requires i < |ss| && ss[i].ToolSegment?
    ensures ss[i].execution in Handles(ss)
  {
    if i > 0 {
      SegmentHandles(ss[1..], i - 1);
    }
  }

  lemma {:induction false} BlockHandlesMember(bs: seq<Block<Assistant<nat>>>, i: nat, h: nat)
    requires i < |bs| && bs[i].AssistantBlock? && h in Handles(bs[i].assistant.segments)
    ensures h in BlockHandles(bs)
  {
    if i > 0 {
      BlockHandlesMember(bs[1..], i - 1, h);
    }
  }

  ghost predicate Faithful(b: Body) {
    Sound(b) && IndexComplete(b)
  }

  ghost predicate InArena(execs: seq<Execution>, hs: seq<nat>) {
    forall h :: h in hs ==> h < |execs|
  }

  /** Of these executions, n is the newest with this id. */
  ghost predicate NewestOf(execs: seq<Execution>, hs: seq<nat>, id: string, n: nat) {
    n in hs && Carries(execs, n, id) && forall h :: h in hs && Carries(execs, h, id) ==> h <= n
  }

  lemma InArenaSplit(execs: seq<Execution>, s: seq<nat>, t: seq<nat>)
    requires InArena(execs, s + t)
    ensures InArena(execs, s) && InArena(execs, t)
  {
    assert forall h :: h in s ==> h in s + t;
    assert forall h :: h in t ==> h in s + t;
  }

  // The newest is in the later half, or there is none in it.
  lemma NewestSplit(execs: seq<Execution>, s: seq<nat>, t: seq<nat>, id: string, n: nat)
    requires Increasing(s + t) && NewestOf(execs, s + t, id, n)
    ensures Increasing(s) && Increasing(t)
    ensures n in t ==> n !in s && NewestOf(execs, t, id, n)
    ensures n !in t ==> NewestOf(execs, s, id, n) && forall h :: h in t ==> !Carries(execs, h, id)
  {
    IncreasingSplit(s, t);
    assert forall h :: h in s + t <==> h in s || h in t;
  }

  // Changing an execution that a list does not hold.
  lemma {:induction false} ResolveElsewhere(execs: seq<Execution>, ss: seq<Segment<nat>>, n: nat, x: Execution)
    requires n < |execs| && n !in Handles(ss)
    ensures ResolveSegments(execs[n := x], ss) == ResolveSegments(execs, ss)
  {
    forall i | 0 <= i < |ss| ensures ResolveSegment(execs[n := x], ss[i]) == ResolveSegment(execs, ss[i]) {
      if ss[i].ToolSegment? {
        SegmentHandles(ss, i);
      }
    }
  }

  lemma {:induction false} ResolveBlocksElsewhere(
    execs: seq<Execution>, bs: seq<Block<Assistant<nat>>>, n: nat, x: Execution)
    requires n < |execs| && n !in BlockHandles(bs)
    ensures ResolveBlocks(execs[n := x], bs) == ResolveBlocks(execs, bs)
  {
    forall i | 0 <= i < |bs| ensures ResolveBlock(execs[n := x], bs[i]) == ResolveBlock(execs, bs[i]) {
      if bs[i].AssistantBlock? {
        if n in Handles(bs[i].assistant.segments) {
          BlockHandlesMember(bs, i, n);
        }
        ResolveElsewhere(execs, bs[i].assistant.segments, n, x);
      }
    }
  }

  ghost predicate Carried(execs: seq<Execution>, hs: seq<nat>, id: string) {
    exists h :: h in hs && Carries(execs, h, id)
  }

  lemma CarriedSplit(execs: seq<Execution>, s: seq<nat>, t: seq<nat>, id: string)
    ensures Carried(execs, s + t, id) <==> Carried(execs, s, id) || Carried(execs, t, id)
  {
    assert forall h :: h in s + t <==> h in s || h in t;
  }

  lemma {:induction false} HasToolCarries(execs: seq<Execution>, ss: seq<Segment<nat>>, id: string)
    requires InArena(execs, Handles(ss))
    ensures HasTool(id, ResolveSegments(execs, ss)) <==> Carried(execs, Handles(ss), id)
  {
    if ss != [] {
      hide Carried, InArena, Carries;
      var hd, rest := if ss[0].ToolSegment? then [ss[0].execution] else [], Handles(ss[1..]);
      assert ResolveSegments(execs, ss)[1..] == ResolveSegments(execs, ss[1..]);
      InArenaSplit(execs, hd, rest);
      HasToolCarries(execs, ss[1..], id);
      CarriedSplit(execs, hd, rest, id);
      HeadCarried(execs, ss[0], id);
    }
  }

  lemma HeadCarried(execs: seq<Execution>, s: Segment<nat>, id: string)
    requires InArena(execs, if s.ToolSegment? then [s.execution] else [])
    ensures s.ToolSegment? ==> s.execution < |execs|
    ensures Carried(execs, if s.ToolSegment? then [s.execution] else [], id) <==>
      s.ToolSegment? && execs[s.execution].call.toolUseId == id
  {
    if s.ToolSegment? {
      assert s.execution in [s.execution];
    }
  }

  lemma {:induction false} SearchSegmentsAt(execs: seq<Execution>, ss: seq<Segment<nat>>, id: string, u: Update, n: nat)
    requires InArena(execs, Handles(ss)) && Increasing(Handles(ss)) && NewestOf(execs, Handles(ss), id, n)
    ensures SearchSegments(id, u, ResolveSegments(execs, ss)) ==
      ResolveSegments(execs[n := Apply(u, execs[n])], ss)
  {
    hide InArena, Increasing, NewestOf, HasTool;
    NewestIn(execs, Handles(ss), id, n);
    var x := Apply(u, execs[n]);
    var hd, rest := if ss[0].ToolSegment? then [ss[0].execution] else [], Handles(ss[1..]);
    assert ResolveSegments(execs, ss)[1..] == ResolveSegments(execs, ss[1..]);
    InArenaSplit(execs, hd, rest);
    NewestSplit(execs, hd, rest, id, n);
    HasToolCarries(execs, ss[1..], id);
    if n in rest {
      SearchSegmentsAt(execs, ss[1..], id, u, n);
    } else {
      ResolveElsewhere(execs, ss[1..], n, x);
    }
    assert ResolveSegments(execs[n := x], ss)[1..] == ResolveSegments(execs[n := x], ss[1..]);
  }

  lemma NewestIn(execs: seq<Execution>, hs: seq<nat>, id: string, n: nat)
    requires NewestOf(execs, hs, id, n)
    ensures n in hs && n < |execs| && Carries(execs, n, id)
  {}

  function HeadHandles(bs: seq<Block<Assistant<nat>>>): seq<nat>
    requires bs != []
  {
    if bs[0].AssistantBlock? then Handles(bs[0].assistant.segments) else []
  }

  lemma {:induction false} BlocksHaveToolCarries(execs: seq<Execution>, bs: seq<Block<Assistant<nat>>>, id: string)
    requires InArena(execs, BlockHandles(bs))
    ensures BlocksHaveTool(id, ResolveBlocks(execs, bs)) <==> Carried(execs, BlockHandles(bs), id)
  {
    if bs != [] {
      hide Handles, HasTool, InArena;
      var hd, rest := HeadHandles(bs), BlockHandles(bs[1..]);
      assert ResolveBlocks(execs, bs)[1..] == ResolveBlocks(execs, bs[1..]);
      InArenaSplit(execs, hd, rest);
      BlocksHaveToolCarries(execs, bs[1..], id);
      if bs[0].AssistantBlock? {
        HasToolCarries(execs, bs[0].assistant.segments, id);
      }
      CarriedSplit(execs, hd, rest, id);
    }
  }

  // The first block of a list, when its newest execution of an id is changed.
  lemma SearchFirst(execs: seq<Execution>, b: Block<Assistant<nat>>, id: string, u: Update, n: nat)
    requires b.AssistantBlock?
    requires var hs := Handles(b.assistant.segments);
      InArena(execs, hs) && Increasing(hs) && NewestOf(execs, hs, id, n)
    ensures SearchBlock(id, u, ResolveBlock(execs, b)) == ResolveBlock(execs[n := Apply(u, execs[n])], b)
  {
    hide InArena, Increasing, NewestOf, Handles, HasTool;
    SearchSegmentsAt(execs, b.assistant.segments, id, u, n);
  }

  lemma ResolveBlockElsewhere(execs: seq<Execution>, b: Block<Assistant<nat>>, n: nat, x: Execution)
    requires n < |execs| && n !in HeadHandles([b])
    ensures ResolveBlock(execs[n := x], b) == ResolveBlock(execs, b)
  {
    if b.AssistantBlock? {
      ResolveElsewhere(execs, b.assistant.segments, n, x);
    }
  }

  lemma {:induction false} SearchBlocksAt(
    execs: seq<Execution>, bs: seq<Block<Assistant<nat>>>, id: string, u: Update, n: nat)
    requires InArena(execs, BlockHandles(bs)) && Increasing(BlockHandles(bs))
    requires NewestOf(execs, BlockHandles(bs), id, n)
    ensures SearchBlocks(id, u, ResolveBlocks(execs, bs)) == ResolveBlocks(execs[n := Apply(u, execs[n])], bs)
  {
    hide InArena, Increasing, NewestOf, Handles, HasTool, BlocksHaveTool, SearchBlock, ResolveBlock;
    NewestIn(execs, BlockHandles(bs), id, n);
    var x := Apply(u, execs[n]);
    var hd, rest := HeadHandles(bs), BlockHandles(bs[1..]);
    assert ResolveBlocks(execs, bs)[1..] == ResolveBlocks(execs, bs[1..]);
    InArenaSplit(execs, hd, rest);
    NewestSplit(execs, hd, rest, id, n);
    BlocksHaveToolCarries(execs, bs[1..], id);
    if n in rest {
      SearchBlocksAt(execs, bs[1..], id, u, n);
      ResolveBlockElsewhere(execs, bs[0], n, x);
    } else {
      NewestIn(execs, hd, id, n);
      ResolveBlocksElsewhere(execs, bs[1..], n, x);
      SearchFirst(execs, bs[0], id, u, n);
    }
    assert ResolveBlocks(execs[n := x], bs)[1..] == ResolveBlocks(execs[n := x], bs[1..]);
  }

  // Searching a core for an execution it does not hold.
  lemma SearchNothing(execs: seq<Execution>, c: Core<nat>, id: string, u: Update)
    requires InArena(execs, Live(c)) && forall h :: h in Live(c) ==> !Carries(execs, h, id)
    ensures SearchCore(id, u, Resolve(execs, c)) == Resolve(execs, c)
  {
    hide Live, BlockHandles, HasTool, BlocksHaveTool, InArena;
    var hd, rest := BlockHandles(c.blocks), CurrentHandles(c);
    LiveSplit(c);
    InArenaSplit(execs, hd, rest);
    assert forall h :: h in hd + rest <==> h in hd || h in rest;
    BlocksHaveToolCarries(execs, c.blocks, id);
    NoToolInBlocks(id, u, ResolveBlocks(execs, c.blocks));
    if c.current.Some? {
      HasToolCarries(execs, c.current.value.segments, id);
    }
  }

  lemma SearchCoreAt(execs: seq<Execution>, c: Core<nat>, id: string, u: Update, n: nat)
    requires InArena(execs, Live(c)) && Increasing(Live(c)) && NewestOf(execs, Live(c), id, n)
    ensures SearchCore(id, u, Resolve(execs, c)) == Resolve(execs[n := Apply(u, execs[n])], c)
  {
    hide Live, BlockHandles, Handles, HasTool, BlocksHaveTool, SearchSegments, SearchBlocks, ResolveSegments,
      ResolveBlocks, InArena, Increasing, NewestOf;
    NewestIn(execs, Live(c), id, n);
    var x := Apply(u, execs[n]);
    var hd, rest := BlockHandles(c.blocks), CurrentHandles(c);
    LiveSplit(c);
    InArenaSplit(execs, hd, rest);
    NewestSplit(execs, hd, rest, id, n);
    if c.current.Some? {
      HasToolCarries(execs, c.current.value.segments, id);
    }
    if n in rest {
      NewestIn(execs, rest, id, n);
      ResolveBlocksElsewhere(execs, c.blocks, n, x);
      SearchSegmentsAt(execs, c.current.value.segments, id, u, n);
    } else {
      SearchBlocksAt(execs, c.blocks, id, u, n);
      if c.current.Some? {
        ResolveElsewhere(execs, c.current.value.segments, n, x);
      }
    }
  }

  /** The index leads to the newest visible execution of an id. */
  lemma ResolveTouch(b: Body, id: string, u: Update)
    requires Faithful(b)
    ensures Resolve(Touch(b, id, u).execs, b.core) == SearchCore(id, u, Resolve(b.execs, b.core))
  {
    hide Live, Resolve, SearchCore;
    LookupIsScan(b, id);
    ScanIsNewest(b.execs, Live(b.core), id);
    if id in b.index {
      SearchCoreAt(b.execs, b.core, id, u, b.index[id]);
    } else {
      SearchNothing(b.execs, b.core, id, u);
    }
  }

  lemma FaithfulTouch(b: Body, id: string, u: Update)
    requires Faithful(b)
    ensures Faithful(Touch(b, id, u))
  {
    TouchIsTouchAll(b, id, u);
    SoundTouchAll(b, [id], u);
    CompleteTouchAll(b, [id], u);
  }

  lemma {:induction false} ResolveTouchAll(b: Body, ids: seq<string>, u: Update)
    requires Faithful(b)
    ensures Resolve(TouchAll(b, ids, u).execs, b.core) == SearchEach(ids, u, Resolve(b.execs, b.core))
    decreases |ids|
  {
    if ids != [] {
      hide Faithful, SearchCore, Resolve;
      ResolveTouch(b, ids[0], u);
      FaithfulTouch(b, ids[0], u);
      TouchKeepsCore(b, ids[0], u);
      ResolveTouchAll(Touch(b, ids[0], u), ids[1..], u);
    }
  }

  lemma TouchKeepsCore(b: Body, id: string, u: Update)
    ensures Touch(b, id, u).core == b.core
  {}

  lemma SegmentsAgree(execs: seq<Execution>, execs': seq<Execution>, ss: seq<Segment<nat>>)
    requires forall h :: h in Handles(ss) ==> h < |execs| && h < |execs'| && execs[h] == execs'[h]
    ensures ResolveSegments(execs, ss) == ResolveSegments(execs', ss)
  {
    forall i | 0 <= i < |ss| ensures ResolveSegment(execs, ss[i]) == ResolveSegment(execs', ss[i]) {
      if ss[i].ToolSegment? {
        SegmentHandles(ss, i);
      }
    }
  }

  lemma BlocksAgree(execs: seq<Execution>, execs': seq<Execution>, bs: seq<Block<Assistant<nat>>>)
    requires forall h :: h in BlockHandles(bs) ==> h < |execs| && h < |execs'| && execs[h] == execs'[h]
    ensures ResolveBlocks(execs, bs) == ResolveBlocks(execs', bs)
  {
    hide Handles, BlockHandles;
    forall i | 0 <= i < |bs| ensures ResolveBlock(execs, bs[i]) == ResolveBlock(execs', bs[i]) {
      if bs[i].AssistantBlock? {
        forall h | h in Handles(bs[i].assistant.segments) ensures h in BlockHandles(bs) {
          BlockHandlesMember(bs, i, h);
        }
        SegmentsAgree(execs, execs', bs[i].assistant.segments);
      }
    }
  }

  /** Only the visible executions matter to a reader. */
  lemma ResolveAgrees(execs: seq<Execution>, execs': seq<Execution>, c: Core<nat>)
    requires forall h :: h in Live(c) ==> h < |execs| && h < |execs'| && execs[h] == execs'[h]
    ensures Resolve(execs, c) == Resolve(execs', c)
  {
    hide Live, Handles, BlockHandles, ResolveSegments, ResolveBlocks;
    LiveSplit(c);
    assert forall h :: h in BlockHandles(c.blocks) ==> h in Live(c);
    assert forall h :: h in CurrentHandles(c) ==> h in Live(c);
    BlocksAgree(execs, execs', c.blocks);
    if c.current.Some? {
      SegmentsAgree(execs, execs', c.current.value.segments);
    }
  }

  /** And all of them do. */
  lemma ResolveDiffers(execs: seq<Execution>, execs': seq<Execution>, c: Core<nat>, h: nat)
    requires h in Live(c) && h < |execs| && h < |execs'| && execs[h] != execs'[h]
    ensures Resolve(execs, c) != Resolve(execs', c)
  {
    hide Handles, BlockHandles;
    var v := c.Visible();
    var i := BlockOfHandle(v, h);
    var j := HandleSegment(v[i].assistant.segments, h);
    var ss := v[i].assistant.segments;
    assert ResolveSegments(execs, ss)[j] != ResolveSegments(execs', ss)[j];
    if i < |c.blocks| {
      assert ResolveBlocks(execs, c.blocks)[i] != ResolveBlocks(execs', c.blocks)[i];
    }
  }

  // A longer arena shows the same blocks.
  lemma ResolveExtended(b: Body, x: Execution)
    requires Sound(b)
    ensures Resolve(b.execs + [x], b.core) == Resolve(b.execs, b.core)
  {
    hide Live, Resolve;
    ResolveAgrees(b.execs + [x], b.execs, b.core);
  }

  lemma ResolveStart(b: Body, call: ToolCall, messageId: string, raw: Option<Payload>)
    requires Sound(b)
    ensures var t := StartTool(b, call, messageId, raw);
      Resolve(t.execs, t.core) == Resolve(b.execs, b.core).AddSegment(messageId, raw, ToolSegment(Start(call)))
  {
    var execs := b.execs + [Start(call)];
    ResolveExtended(b, Start(call));
    ResolveOpened(execs, b.core, messageId, raw);
    var a := b.core.Opened(messageId, raw);
    assert ResolveAssistant(execs, a.(segments := a.segments + [ToolSegment(|b.execs|)])).segments
        == ResolveAssistant(execs, a).segments + [ToolSegment(Start(call))];
  }

  lemma ResolveHandle(cfg: Config, b: Body, h: Handled)
    requires Faithful(b)
    ensures Resolve(Handle(cfg, b, h).execs, Handle(cfg, b, h).core) == RefHandle(cfg, Resolve(b.execs, b.core), h)
  {
    hide Resolve, HandlePlain, SearchCore, StartTool;
    var raw := RawJson(cfg, h.raw);
    match h.event
    case ToolUseStart(call, messageId) => ResolveStart(b, call, messageId, raw);
    case ToolUseResult(id, output, isError, isReplay) =>
      ResolveTouch(b, id, SetResult(ToolResult(cfg.clip(output, MAX_TOOL_OUTPUT), isError, isReplay)));
    case ToolProgress(id, elapsed, _, _) =>
      ResolveTouch(b, id, SetProgress(elapsed));
      ResolvePlain(Touch(b, id, SetProgress(elapsed)).execs, b.core, h.event, raw, h.pushNo);
    case ToolSummary(summary, ids) =>
      ResolveTouchAll(b, ids, SetSummary(cfg.clip(summary, MAX_TOOL_SUMMARY)));
      TouchAllFrame(b, ids, SetSummary(cfg.clip(summary, MAX_TOOL_SUMMARY)));
    case _ => ResolvePlain(b.execs, b.core, h.event, raw, h.pushNo);
  }

  // ---- Runs ----

  /** How many blocks a history of this shape has lost once it is trimmed to the cap. */
  function Forget<A>(cfg: Config, bs: seq<Block<A>>): nat {
    Min(Expendable(bs), Excess(cfg, |bs|))
  }

  /** The same for a whole run: only a push trims. */
  function Forgotten(cfg: Config, ids: nat, ops: seq<Op>): nat {
    if ops == [] then 0
    else match ops[|ops| - 1]
      case Push(_) => Forget(cfg, RefRun(cfg, ids, ops).core.blocks)
      case Reset => 0
      case _ => Forgotten(cfg, ids, ops[..|ops| - 1])
  }

  // What a body shows is the reference without its first k expendable blocks.
  ghost predicate Shows(b: Body, r: Ref, k: nat) {
    Sound(b) && k <= Expendable(r.core.blocks) && Resolve(b.execs, b.core) == Without(r.core, k)
  }

  lemma {:induction false} ShowsHandleAll(cfg: Config, b: Body, r: Ref, hs: seq<Handled>, k: nat)
    requires Shows(b, r, k) && IndexComplete(b)
    ensures Shows(HandleAll(cfg, b, hs), RefHandleAll(cfg, r, hs), k) && IndexComplete(HandleAll(cfg, b, hs))
    ensures |r.core.blocks| <= |RefHandleAll(cfg, r, hs).core.blocks|
    ensures Expendable(r.core.blocks) <= Expendable(RefHandleAll(cfg, r, hs).core.blocks)
    decreases |hs|
  {
    if hs != [] {
      SoundHandle(cfg, b, hs[0]);
      HandleKeepsIndexComplete(cfg, b, hs[0]);
      ResolveHandle(cfg, b, hs[0]);
      HandleWithout(cfg, r.core, hs[0], k);
      ShowsHandleAll(cfg, Handle(cfg, b, hs[0]), RefHandleOne(cfg, r, hs[0]), hs[1..], k);
    }
  }

  /** Trimming what is left of a history gives what trimming the whole history once would have given. */
  lemma TrimOnce<A>(cfg: Config, bs: seq<Block<A>>, k: nat)
    requires k <= Forget(cfg, bs)
    ensures var left := Drop(bs, k);
      Drop(left, Excess(cfg, |left|)) == Drop(bs, Forget(cfg, bs))
  {
    var x := Excess(cfg, |Drop(bs, k)|);
    DropCounts(bs, k);
    DropDrop(bs, k, x);
    DropNoMore(bs, k + x);
    assert Min(k + x, Expendable(bs)) == Forget(cfg, bs);
  }

  lemma ShowsEnforce(cfg: Config, b: Body, r: Ref, k: nat)
    requires Shows(b, r, k) && k <= Forget(cfg, r.core.blocks)
    ensures Shows(Enforce(cfg, b), r, Forget(cfg, r.core.blocks))
  {
    hide Sound, Drop, Dropped, Expendable, IdsAt, BlockHandles;
    SoundEnforce(cfg, b);
    DropResolve(b.execs, b.core.blocks, Excess(cfg, |b.core.blocks|));
    assert |Resolve(b.execs, b.core).blocks| == |b.core.blocks|;
    TrimOnce(cfg, r.core.blocks, k);
  }

  ghost predicate Tracks(cfg: Config, s: State, r: Ref, k: nat) {
    && Shows(s.body, r, k)
    && s.gate == r.gate
    && k <= Forget(cfg, r.core.blocks)
    && (!r.gate.initialized ==> k == Forget(cfg, r.core.blocks) && r.core.current == None)
  }

  lemma {:induction false} RefKeepsGate(cfg: Config, r: Ref, hs: seq<Handled>)
    ensures RefHandleAll(cfg, r, hs).gate == r.gate
    decreases |hs|
  {
    if hs != [] {
      RefKeepsGate(cfg, RefHandleOne(cfg, r, hs[0]), hs[1..]);
    }
  }

  // A push keeps track, whatever it evicts.
  lemma TracksPush(cfg: Config, s: State, r: Ref, k: nat, i: Incoming)
    requires Tracks(cfg, s, r, k) && IndexComplete(s.body)
    ensures Tracks(cfg, PushState(cfg, s, i), RefPush(cfg, r, i), Forget(cfg, RefPush(cfg, r, i).core.blocks))
  {
    hide Enforce, IndexComplete;
    var g := Through(cfg, s.gate, i);
    var hs := Released(s.gate, i);
    var r1 := r.(gate := g);
    if !IsHeld(s.gate, i.event) {
      var b := HandleAll(cfg, s.body, hs);
      ShowsHandleAll(cfg, s.body, r1, hs, k);
      ShowsEnforce(cfg, b, RefHandleAll(cfg, r1, hs), k);
      RefKeepsGate(cfg, r1, hs);
      if !g.initialized {
        assert hs == [hs[0]] && hs[0].event.UserMessageEcho?;
        assert RefHandleAll(cfg, r1, hs) == RefHandleOne(cfg, r1, hs[0]);
      }
    }
  }

  lemma TracksFinalize(cfg: Config, s: State, r: Ref, k: nat)
    requires Tracks(cfg, s, r, k)
    ensures Tracks(cfg, FinalizeState(s), r.(core := r.core.Closed()), k)
  {
    LiveClosed(s.body.core);
    ResolveClosed(s.body.execs, s.body.core);
    if r.core.current.Some? {
      DropAppend(r.core.blocks, [AssistantBlock(r.core.current.value.(streaming := false))], k);
    }
  }

  lemma TracksElsewhere(cfg: Config, s: State, r: Ref, k: nat, n: nat)
    requires Tracks(cfg, s, r, k)
    ensures Tracks(cfg, Step(cfg, s, Elsewhere(n)), RefStep(cfg, r, Elsewhere(n)), k)
  {
    LiveIds(s.body.core, s.body.core.ids + n);
  }

  /** The last push of a run may evict what it likes. */
  ghost predicate SparesBefore(cfg: Config, ids: nat, ops: seq<Op>) {
    ops != [] ==> SparesRun(cfg, ids, ops[..|ops| - 1])
  }

  lemma {:induction false} RunTracks(cfg: Config, ids: nat, ops: seq<Op>)
    requires SparesBefore(cfg, ids, ops)
    ensures Tracks(cfg, Run(cfg, ids, ops), RefRun(cfg, ids, ops), Forgotten(cfg, ids, ops))
  {
    hide SparesRun, PushState, RefPush, Forget, IndexComplete;
    if ops == [] {
      NoneForgotten(cfg, ids);
    } else {
      var prefix := ops[..|ops| - 1];
      if prefix != [] {
        SparesPrefix(cfg, ids, prefix);
      }
      RunTracks(cfg, ids, prefix);
      CompleteRun(cfg, ids, prefix);
      var s, r, k := Run(cfg, ids, prefix), RefRun(cfg, ids, prefix), Forgotten(cfg, ids, prefix);
      match ops[|ops| - 1]
      case Push(i) => TracksPush(cfg, s, r, k, i);
      case Finalize => TracksFinalize(cfg, s, r, k);
      case Reset => NoneForgotten(cfg, s.body.core.ids);
      case Elsewhere(n) => TracksElsewhere(cfg, s, r, k, n);
    }
  }

  lemma NoneForgotten(cfg: Config, ids: nat)
    ensures Forget<Assistant<Execution>>(cfg, []) == 0
    ensures Shows(Initial(ids).body, Ref(EMPTY_GATE, Core([], None, ids), []), 0)
  {
    assert Live(Initial(ids).body.core) == [];
  }

  // Up to the last push, lookup is a search.
  lemma {:induction false} CompleteRun(cfg: Config, ids: nat, ops: seq<Op>)
    requires SparesRun(cfg, ids, ops)
    ensures IndexComplete(Run(cfg, ids, ops).body)
  {
    hide IndexComplete, SparesRun, Run, CompleteThroughout;
    IndexIsSearch(cfg, ids, ops);
  }

  /** A reader of the bounded accumulator sees the full history of the reference, executions and open turn included,
    * without its first `Forgotten` expendable blocks. */
  ghost predicate Refines(cfg: Config, ids: nat, ops: seq<Op>) {
    var s, r := Run(cfg, ids, ops), RefRun(cfg, ids, ops);
    Resolve(s.body.execs, s.body.core) == r.core.(blocks := Drop(r.core.blocks, Forgotten(cfg, ids, ops)))
  }

  /** Main result. Over every run whose evictions, before the last push, spare every tool id in use, repeated ids or
    * not, the bounded accumulator refines the reference. After a push it has lost what a single trim of the whole
    * history would remove. */
  lemma CappedRefinesUncapped(cfg: Config, ids: nat, ops: seq<Op>)
    requires SparesBefore(cfg, ids, ops)
    ensures Refines(cfg, ids, ops)
    ensures ops != [] && ops[|ops| - 1].Push? ==>
      Forgotten(cfg, ids, ops) == Forget(cfg, RefRun(cfg, ids, ops).core.blocks)
  {
    hide SparesBefore, Run, RefRun, Forget;
    RunTracks(cfg, ids, ops);
    LastForgotten(cfg, ids, ops);
  }

  lemma LastForgotten(cfg: Config, ids: nat, ops: seq<Op>)
    ensures ops != [] && ops[|ops| - 1].Push? ==>
      Forgotten(cfg, ids, ops) == Forget(cfg, RefRun(cfg, ids, ops).core.blocks)
  {}

  /** In particular over every run with distinct tool ids. */
  lemma CappedRefinesDistinct(cfg: Config, ids: nat, ops: seq<Op>)
    requires DistinctTools(cfg, ids, ops)
    ensures Refines(cfg, ids, ops)
  {
    hide SparesRun, Refines, DistinctTools;
    DistinctToolsSpare(cfg, ids, ops);
    if ops != [] {
      SparesPrefix(cfg, ids, ops);
    }
    CappedRefinesUncapped(cfg, ids, ops);
  }

  /** After a push at most maxBlocks blocks are kept, or all that are kept are turn boundaries. */
  lemma CapHolds(cfg: Config, s: State, i: Incoming)
    requires !IsHeld(s.gate, i.event)
    ensures var bs := PushState(cfg, s, i).body.core.blocks;
      |bs| <= cfg.maxBlocks || forall j :: 0 <= j < |bs| ==> bs[j].TurnBoundary?
  {
    var b := HandleAll(cfg, s.body, Released(s.gate, i));
    var bs := Enforce(cfg, b).core.blocks;
    DropCounts(b.core.blocks, Excess(cfg, |b.core.blocks|));
    if |bs| > cfg.maxBlocks {
      OnlyBoundaries(bs);
    }
  }

  lemma {:induction false} OnlyBoundaries<A>(bs: seq<Block<A>>)
    requires Expendable(bs) == 0
    ensures forall j :: 0 <= j < |bs| ==> bs[j].TurnBoundary?
  {
    if bs != [] {
      OnlyBoundaries(bs[1..]);
    }
  }
}
