/** What holds of the visible blocks of the bounded accumulator after every run: ids and streaming flags. */
module AccumulatorBlocks {
  import opened Options
  import opened Conversation
  import opened AccumulatorSpec
  import opened AccumulatorIndex
  import opened AccumulatorCap
  import opened AccumulatorGate
  import opened AccumulatorText

  type Blocks = seq<Block<Assistant<nat>>>

  /** The id of a block that is named after a push or a block number; an assistant block has its message's id. */
  function IdOf(b: Block<Assistant<nat>>): Option<BlockId> {
    if b.AssistantBlock? then None else Some(b.id)
  }

  predicate Before(a: Option<BlockId>, b: Option<BlockId>) {
    && (a.Some? && b.Some? && a.value.UserId? && b.value.UserId? ==> a.value.n < b.value.n)
    && (a.Some? && b.Some? && a.value.GeneratedId? && b.value.GeneratedId? ==> a.value.n < b.value.n)
  }

  /** Push and block numbers grow along the blocks. */
  predicate Ordered(bs: Blocks) {
    forall i, j :: 0 <= i < j < |bs| ==> Before(IdOf(bs[i]), IdOf(bs[j]))
  }

  predicate AtMost(b: Block<Assistant<nat>>, users: nat, ids: nat) {
    var id := IdOf(b);
    && (id.Some? && id.value.UserId? ==> id.value.n <= users)
    && (id.Some? && id.value.GeneratedId? ==> id.value.n <= ids)
  }

  predicate Settled(b: Block<Assistant<nat>>) {
    b.AssistantBlock? ==> !b.assistant.streaming
  }

  /** Ids were handed out in order and up to a bound; only the open turn streams. */
  ghost predicate Fits(c: Core<nat>, users: nat) {
    && Ordered(c.blocks)
    && (forall b :: b in c.blocks ==> AtMost(b, users, c.ids) && Settled(b))
    && (c.current.Some? ==> c.current.value.streaming)
  }

  lemma {:induction false} DropIsPart(bs: Blocks, k: nat)
    ensures forall b :: b in Drop(bs, k) ==> b in bs
    ensures Ordered(bs) ==> Ordered(Drop(bs, k))
  {
    hide Before, IdOf;
    if k > 0 && bs != [] {
      if bs[0].TurnBoundary? {
        var rest := Drop(bs[1..], k);
        DropIsPart(bs[1..], k);
        forall j | Ordered(bs) && 0 <= j < |rest| ensures Before(IdOf(bs[0]), IdOf(rest[j])) {
          assert rest[j] in bs[1..];
        }
      } else {
        DropIsPart(bs[1..], k - 1);
      }
    }
  }

  lemma FitsCut(b: Body, k: nat, users: nat)
    requires Fits(b.core, users)
    ensures Fits(Cut(b, k).core, users)
  {
    hide AtMost, Settled, Ordered;
    DropIsPart(b.core.blocks, k);
  }

  lemma FitsMore(c: Core<nat>, users: nat, b: Block<Assistant<nat>>, users': nat, ids': nat)
    requires Fits(c, users) && users <= users' && c.ids <= ids'
    requires Settled(b) && AtMost(b, users', ids')
    requires var id := IdOf(b); id.Some? ==> if id.value.UserId? then users < id.value.n else c.ids < id.value.n
    ensures Fits(c.(blocks := c.blocks + [b], ids := ids'), users')
  {
    forall i | 0 <= i < |c.blocks| ensures Before(IdOf(c.blocks[i]), IdOf(b)) {
      assert c.blocks[i] in c.blocks;
    }
  }

  lemma FitsClosed(c: Core<nat>, users: nat)
    requires Fits(c, users)
    ensures Fits(c.Closed(), users)
  {
    if c.current.Some? {
      FitsMore(c, users, AssistantBlock(c.current.value.(streaming := false)), users, c.ids);
    }
  }

  lemma EditStreams(a: Assistant<nat>, e: Event)
    requires Edits(e)
    ensures Edit(a, e).streaming == a.streaming
  {}

  // The notes of an event, one after the other.
  lemma FitsNotes(c: Core<nat>, users: nat, e: Event, raw: Option<Payload>, pushNo: nat)
    requires Fits(c, users) && (e.UserMessageEcho? ==> users < pushNo)
    ensures Fits(c.(blocks := c.blocks + Notes(e, raw, pushNo, c.ids), ids := c.ids + Numbers(e)),
                 if e.UserMessageEcho? then pushNo else users)
  {
    hide Fits;
    var notes: Blocks := Notes(e, raw, pushNo, c.ids);
    var users' := if e.UserMessageEcho? then pushNo else users;
    var more := c.(blocks := c.blocks + notes, ids := c.ids + Numbers(e));
    if |notes| == 0 {
      assert more == c;
    } else if |notes| == 1 {
      FitsMore(c, users, notes[0], users', c.ids + Numbers(e));
      assert more == c.(blocks := c.blocks + [notes[0]], ids := c.ids + Numbers(e));
    } else {
      FitsMore(c, users, notes[0], users', c.ids + 1);
      var c' := c.(blocks := c.blocks + [notes[0]], ids := c.ids + 1);
      FitsMore(c', users', notes[1], users', c.ids + 2);
      assert c'.blocks + [notes[1]] == c.blocks + notes;
    }
  }

  lemma FitsPlain(c: Core<nat>, users: nat, e: Event, raw: Option<Payload>, pushNo: nat)
    requires Fits(c, users) && (e.UserMessageEcho? ==> users < pushNo)
    ensures Fits(HandlePlain(c, e, raw, pushNo), if e.UserMessageEcho? then pushNo else users)
  {
    hide Edit, Notes, Numbers;
    FitsClosed(c, users);
    var c1 := if Closes(e) then c.Closed() else c;
    if Edits(e) {
      EditStreams(c1.Opened(e.messageId, raw), e);
    }
    var c2 := if Edits(e) then c1.(current := Some(Edit(c1.Opened(e.messageId, raw), e))) else c1;
    FitsNotes(c2, users, e, raw, pushNo);
  }

  lemma FitsHandle(cfg: Config, b: Body, users: nat, h: Handled)
    requires Fits(b.core, users) && (h.event.UserMessageEcho? ==> users < h.pushNo)
    ensures Fits(Handle(cfg, b, h).core, if h.event.UserMessageEcho? then h.pushNo else users)
  {
    hide Fits, Touch, HandlePlain;
    var raw := RawJson(cfg, h.raw);
    match h.event
    case ToolUseStart(call, messageId) => FitsStart(b, users, call, messageId, raw);
    case ToolUseResult(id, output, isError, isReplay) =>
      TouchKeepsCore(b, id, SetResult(ToolResult(cfg.clip(output, MAX_TOOL_OUTPUT), isError, isReplay)));
    case ToolProgress(id, elapsed, _, _) =>
      TouchKeepsCore(b, id, SetProgress(elapsed));
      FitsPlain(b.core, users, h.event, raw, h.pushNo);
    case ToolSummary(summary, ids) => TouchAllFrame(b, ids, SetSummary(cfg.clip(summary, MAX_TOOL_SUMMARY)));
    case _ => FitsPlain(b.core, users, h.event, raw, h.pushNo);
  }

  lemma FitsStart(b: Body, users: nat, call: ToolCall, messageId: string, raw: Option<Payload>)
    requires Fits(b.core, users)
    ensures Fits(StartTool(b, call, messageId, raw).core, users)
  {
    hide Ordered, AtMost, Settled;
  }

  lemma {:induction false} FitsHandleAll(cfg: Config, b: Body, users: nat, hs: seq<Handled>)
    requires Fits(b.core, users) && forall i :: 0 <= i < |hs| ==> !hs[i].event.UserMessageEcho?
    ensures Fits(HandleAll(cfg, b, hs).core, users)
    decreases |hs|
  {
    hide Fits, Handle;
    if hs != [] {
      FitsHandle(cfg, b, users, hs[0]);
      FitsHandleAll(cfg, Handle(cfg, b, hs[0]), users, hs[1..]);
    }
  }

  lemma FitsPush(cfg: Config, s: State, i: Incoming)
    requires Fits(s.body.core, s.gate.pushCounter) && AllWait(s.gate.buffer)
    ensures var s' := PushState(cfg, s, i); Fits(s'.body.core, s'.gate.pushCounter)
  {
    hide Fits, Handle, Cut;
    var n := s.gate.pushCounter;
    var hs := Released(s.gate, i);
    if IsHeld(s.gate, i.event) {
      FitsLater(s.body.core, n, n + 1, 0);
    } else {
      if i.event.UserMessageEcho? {
        assert hs == [hs[0]] && hs[1..] == [];
        FitsHandle(cfg, s.body, n, hs[0]);
        assert HandleAll(cfg, s.body, hs) == HandleAll(cfg, Handle(cfg, s.body, hs[0]), []);
      } else {
        FitsHandleAll(cfg, s.body, n, hs);
        FitsLater(HandleAll(cfg, s.body, hs).core, n, n + 1, 0);
      }
      var b := HandleAll(cfg, s.body, hs);
      FitsCut(b, Excess(cfg, |b.core.blocks|), n + 1);
    }
  }

  // Pushes that add no user block, and numbers that other sessions draw.
  lemma FitsLater(c: Core<nat>, users: nat, users': nat, more: nat)
    requires Fits(c, users) && users <= users'
    ensures Fits(c.(ids := c.ids + more), users')
  {
    hide Ordered, Settled;
  }

  /** After every run of pushes, finalisations and resets, with other sessions drawing from the same counter in between,
    * the numbers in the ids of the finalised blocks grow along the list, no block has a number not yet handed out,
    * every finalised turn has stopped streaming and an open one streams. */
  lemma {:induction false} BlocksFit(cfg: Config, ids: nat, ops: seq<Op>)
    ensures var s := Run(cfg, ids, ops); Fits(s.body.core, s.gate.pushCounter)
  {
    if ops != [] {
      hide Fits, PushState;
      var prefix := ops[..|ops| - 1];
      var s := Run(cfg, ids, prefix);
      BlocksFit(cfg, ids, prefix);
      match ops[|ops| - 1]
      case Push(i) =>
        BufferInvariant(cfg, ids, prefix);
        FitsPush(cfg, s, i);
      case Finalize => FitsClosed(s.body.core, s.gate.pushCounter);
      case Reset => FitsEmpty(s.body.core.ids, s.gate.pushCounter);
      case Elsewhere(n) => FitsLater(s.body.core, s.gate.pushCounter, s.gate.pushCounter, n);
    }
  }

  lemma FitsEmpty(ids: nat, users: nat)
    ensures Fits(Core([], None, ids), users)
  {}

  /** No other visible block has the id of a visible block that is named after a push or a block number, and at most the
    * last visible block streams. Assistant blocks are left out of the first claim: two turns of the same message have
    * the same id. */
  lemma VisibleIdsAreUnique(cfg: Config, ids: nat, ops: seq<Op>)
    ensures var bs := Run(cfg, ids, ops).body.core.Visible();
      && (forall i, j :: 0 <= i < j < |bs| && IdOf(bs[i]).Some? ==> IdOf(bs[i]) != IdOf(bs[j]))
      && (forall i :: 0 <= i < |bs| && bs[i].AssistantBlock? && bs[i].assistant.streaming ==> i == |bs| - 1)
  {
    hide Run;
    BlocksFit(cfg, ids, ops);
    var c := Run(cfg, ids, ops).body.core;
    var bs := c.Visible();
    forall i | 0 <= i < |c.blocks| ensures Settled(bs[i]) {
      assert bs[i] in c.blocks;
    }
    forall i, j | 0 <= i < j < |bs| && IdOf(bs[i]).Some? ensures IdOf(bs[i]) != IdOf(bs[j]) {
      if j < |c.blocks| {
        assert Before(IdOf(c.blocks[i]), IdOf(c.blocks[j]));
      }
    }
  }
}
