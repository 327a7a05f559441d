/** emitSequenced: what a session does with one event. */
module SessionRegistry {
  import opened Options
  import opened Conversation
  import opened AccumulatorSpec
  import opened AccumulatorText
  import opened StreamAccumulator

  lemma ForwardedAppend(ops: seq<Op>, op: Op)
    ensures Forwarded(ops + [op]) == Forwarded(ops) + if op.Push? && IsTextDelta(op.incoming.event) then [] else [op]
  {
    assert (ops + [op])[..|ops|] == ops;
  }

  /** The part of a control session that emitSequenced touches. `emitted` is what its listeners received, and `seen`
    * the state of the accumulator at each of those moments. */
  class ControlSession {
    const accumulator: StreamAccumulator
    var lastSessionInit: Option<Event>
    var emitted: seq<Event>
    ghost var seen: seq<State>

    // What the accumulator went through before, and all that the session was asked to emit since.
    ghost const prior: seq<Op>
    ghost var history: seq<Op>

    ghost predicate Valid()
      reads this, accumulator, accumulator.Repr
    {
      && this !in accumulator.Repr && accumulator.Valid() && |seen| == |emitted|
      && accumulator.history == prior + Forwarded(history)
    }

    constructor (accumulator: StreamAccumulator)
      requires accumulator.Valid()
      ensures Valid() && this.accumulator == accumulator && prior == accumulator.history && history == []
      ensures emitted == [] && seen == [] && lastSessionInit == None
    {
      this.accumulator := accumulator;
      lastSessionInit, emitted, seen := None, [], [];
      prior, history := accumulator.history, [];
    }

    lemma Apart()
      requires Valid()
      ensures this !in accumulator.Repr
    {
      hide StreamAccumulator.Valid, Forwarded;
    }

    // Hand an event on to the accumulator.
    method Forward(event: Event, raw: Option<Payload>)
      requires Valid() && !IsTextDelta(event)
      modifies this`history, accumulator.Repr
      ensures Valid() && fresh(accumulator.Repr - old(accumulator.Repr))
      ensures accumulator.View() == PushState(accumulator.cfg, old(accumulator.View()), Incoming(event, raw))
      ensures history == old(history) + [Elsewhere(old(accumulator.Moved())), Op.Push(Incoming(event, raw))]
    {
      hide StreamAccumulator.Valid, PushState, IsTextDelta;
      ghost var moved, op := Elsewhere(accumulator.Moved()), Op.Push(Incoming(event, raw));
      ForwardedAppend(history, moved);
      ForwardedAppend(history + [moved], op);
      assert history + [moved] + [op] == history + [moved, op];
      accumulator.Push(event, raw);
      history := history + [moved, op];
    }

    // A text delta is only recorded.
    method Filter(event: Event, raw: Option<Payload>)
      requires Valid() && IsTextDelta(event)
      modifies this`history
      ensures Valid() && history == old(history) + [Op.Push(Incoming(event, raw))]
    {
      hide StreamAccumulator.Valid, IsTextDelta;
      ghost var op := Op.Push(Incoming(event, raw));
      ForwardedAppend(history, op);
      history := history + [op];
    }

    // The listeners are told.
    method Tell(event: Event)
      requires Valid()
      modifies this`emitted, this`seen
      ensures Valid() && emitted == old(emitted) + [event] && seen == old(seen) + [accumulator.View()]
    {
      hide StreamAccumulator.Valid, Forwarded;
      emitted := emitted + [event];
      seen := seen + [accumulator.View()];
    }

    method Remember(event: Event)
      requires Valid()
      modifies this`lastSessionInit
      ensures Valid() && lastSessionInit == if event.SessionInit? then Some(event) else old(lastSessionInit)
    {
      hide StreamAccumulator.Valid, Forwarded;
      if event.SessionInit? {
        lastSessionInit := Some(event);
      }
    }

    /** Every event is passed on exactly once, after the accumulator took it in; only content block deltas, whatever
      * they carry, bypass the accumulator. */
    method EmitSequenced(event: Event, raw: Option<Payload>)
      requires Valid()
      modifies this, accumulator.Repr
      ensures Valid() && fresh(accumulator.Repr - old(accumulator.Repr))
      ensures accumulator.View() == Emit(accumulator.cfg, old(accumulator.View()), Incoming(event, raw))
      ensures accumulator.View() ==
        match event
        case StreamDelta(ContentBlockDelta, _, _, _, _) => old(accumulator.View())
        case _ => PushState(accumulator.cfg, old(accumulator.View()), Incoming(event, raw))
      ensures emitted == old(emitted) + [event] && seen == old(seen) + [accumulator.View()]
      ensures lastSessionInit == if event.SessionInit? then Some(event) else old(lastSessionInit)
      ensures history == old(history) +
        (if IsTextDelta(event) then [] else [Elsewhere(old(accumulator.Moved()))]) + [Op.Push(Incoming(event, raw))]
    {
      hide Valid, PushState;
      Apart();
      Remember(event);
      var isTextDelta := event.StreamDelta? && event.delta.ContentBlockDelta?;
      if isTextDelta {
        Filter(event, raw);
      } else {
        Forward(event, raw);
      }
      Tell(event);
    }

    /** Of a session with an accumulator of its own: what the blocks of the accumulator hold is the text handled since
      * the last reset, without the evicted text at its front; likewise the text under one parent, and the thinking. */
    lemma TextIsKept(w: Strand) returns (c: Core<Execution>)
      requires Valid() && prior == []
      ensures accumulator.ReaderSees(c)
      ensures var cfg, start := accumulator.cfg, accumulator.start;
        HandledText(cfg, start, history, w) == LostText(cfg, start, history, w) + Text(c, w)
    {
      hide StreamAccumulator.Consistent, Text, HandledText, LostText, EmitRun, Run, Resolve;
      var cfg, start := accumulator.cfg, accumulator.start;
      c := Resolve(accumulator.st.body.execs, accumulator.ViewCore());
      accumulator.SeesState();
      assert [] + Forwarded(history) == Forwarded(history);
      EmitRunIsRun(cfg, start, history);
      TextIsConserved(cfg, start, history, w);
      TextResolved(accumulator.st.body.execs, accumulator.ViewCore(), w);
      TextIds(accumulator.ViewCore(), accumulator.counted, w);
    }
  }
}
