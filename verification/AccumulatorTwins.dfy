/** Events before or after session_init: when a reader can never tell, whatever happens later. */
module AccumulatorTwins {
  import opened Options
  import opened Conversation
  import opened AccumulatorSpec
  import opened AccumulatorIndex
  import opened AccumulatorCap
  import opened AccumulatorGate

  /** The state after some operations, from any state. */
  ghost function Continue(cfg: Config, s: State, ops: seq<Op>): State {
    if ops == [] then s else Step(cfg, Continue(cfg, s, ops[..|ops| - 1]), ops[|ops| - 1])
  }

  /** Two accumulators that differ in executions nobody can see, if at all. */
  ghost predicate Twins(s: State, t: State) {
    s.gate == t.gate && Trails(s.body, t.body, 0)
  }

  lemma TwinsAgree(a: Body, b: Body)
    requires Trails(a, b, 0)
    ensures a.core == b.core && a.index == b.index
    ensures Resolve(a.execs, a.core) == Resolve(b.execs, b.core)
  {
    hide Live, Resolve;
    assert a.core == b.core;
    forall id ensures id in a.index <==> id in b.index {}
    ResolveAgrees(a.execs, b.execs, a.core);
  }

  lemma {:induction false} TwinsHandleAll(cfg: Config, a: Body, b: Body, hs: seq<Handled>)
    requires Trails(a, b, 0)
    ensures Trails(HandleAll(cfg, a, hs), HandleAll(cfg, b, hs), 0)
    decreases |hs|
  {
    hide Trails, Handle;
    if hs != [] {
      TrailsHandle(cfg, a, b, 0, hs[0]);
      TwinsHandleAll(cfg, Handle(cfg, a, hs[0]), Handle(cfg, b, hs[0]), hs[1..]);
    }
  }

  lemma SameIdsAt(execs: seq<Execution>, execs': seq<Execution>, hs: seq<nat>)
    requires |execs| == |execs'| && forall h :: 0 <= h < |execs| ==> execs[h].call == execs'[h].call
    ensures IdsAt(execs, hs) == IdsAt(execs', hs)
  {}

  // Twins evict the same.
  lemma TwinsEnforce(cfg: Config, a: Body, b: Body)
    requires Trails(a, b, 0)
    ensures Trails(Enforce(cfg, a), Enforce(cfg, b), 0)
  {
    hide Live, Drop, Dropped, Expendable, Sound, IdsAt, BlockHandles, Resolve;
    TwinsAgree(a, b);
    SoundEnforce(cfg, a);
    SoundEnforce(cfg, b);
    LiveCut(a, Excess(cfg, |a.core.blocks|));
    SameIdsAt(a.execs, b.execs, Evicted(cfg, a));
    assert forall h :: h in Live(Enforce(cfg, a).core) ==> h in Live(a.core);
    TwinsIf(Enforce(cfg, a), Enforce(cfg, b));
  }

  // Looks without anything left out.
  lemma TwinsIf(a: Body, b: Body)
    requires Sound(a) && Sound(b) && SameCalls(a, b) && a.core == b.core && a.index == b.index
    requires forall h :: h in Live(a.core) ==> h < |b.execs| && a.execs[h] == b.execs[h]
    ensures Trails(a, b, 0)
  {
    hide Live;
  }

  lemma TwinsStep(cfg: Config, s: State, t: State, op: Op)
    requires Twins(s, t)
    ensures Twins(Step(cfg, s, op), Step(cfg, t, op))
  {
    hide Trails, HandleAll, Enforce;
    match op
    case Push(i) =>
      if !IsHeld(s.gate, i.event) {
        var hs := Released(s.gate, i);
        TwinsHandleAll(cfg, s.body, t.body, hs);
        TwinsEnforce(cfg, HandleAll(cfg, s.body, hs), HandleAll(cfg, t.body, hs));
      }
    case Finalize => TwinsCore(s.body, t.body, s.body.core.Closed()) by { LiveClosed(s.body.core); }
    case Reset => TwinsReset(s.body, t.body);
    case Elsewhere(n) =>
      TwinsCore(s.body, t.body, s.body.core.(ids := s.body.core.ids + n)) by {
        LiveIds(s.body.core, s.body.core.ids + n);
      }
  }

  lemma TwinsReset(a: Body, b: Body)
    requires Trails(a, b, 0)
    ensures a.core.ids == b.core.ids
    ensures Trails(Body(Core([], None, a.core.ids), [], map[]), Body(Core([], None, b.core.ids), [], map[]), 0)
  {
    TwinsAgree(a, b);
    hide Trails, Sound;
    EmptySound(a.core.ids);
    TrailsSelf(Initial(a.core.ids).body);
  }

  // Both cores change in the same way, and show the same executions.
  lemma TwinsCore(a: Body, b: Body, c: Core<nat>)
    requires Trails(a, b, 0) && Live(c) == Live(a.core)
    ensures a.core == b.core && Trails(a.(core := c), b.(core := c), 0)
  {
    hide Live, Resolve;
    TwinsAgree(a, b);
    TwinsIf(a.(core := c), b.(core := c));
  }

  lemma {:induction false} TwinsContinue(cfg: Config, s: State, t: State, ops: seq<Op>)
    requires Twins(s, t)
    ensures Twins(Continue(cfg, s, ops), Continue(cfg, t, ops))
    ensures SameToReader(Continue(cfg, s, ops), Continue(cfg, t, ops))
  {
    hide Twins, Step, Resolve;
    if ops != [] {
      TwinsContinue(cfg, s, t, ops[..|ops| - 1]);
      TwinsStep(cfg, Continue(cfg, s, ops[..|ops| - 1]), Continue(cfg, t, ops[..|ops| - 1]), ops[|ops| - 1]);
    }
    TwinsLook(Continue(cfg, s, ops), Continue(cfg, t, ops));
  }

  lemma TwinsLook(s: State, t: State)
    requires Twins(s, t)
    ensures SameToReader(s, t)
  {
    TwinsAgree(s.body, t.body);
  }

  // ---- Accumulators that look alike but are no twins ----

  /** Two open accumulators that show the same, within the cap. */
  ghost predicate Alike(cfg: Config, s: State, t: State) {
    && s.gate == t.gate && s.gate.initialized && s.gate.buffer == []
    && Sound(s.body) && Sound(t.body) && SameCalls(s.body, t.body) && s.body.core == t.body.core
    && (forall h :: h in Live(s.body.core) ==> h < |t.body.execs| && s.body.execs[h] == t.body.execs[h])
    && Enforce(cfg, s.body).core == s.body.core && Enforce(cfg, t.body).core == t.body.core
  }

  // Different entries for an id.
  ghost predicate Parts(a: Body, b: Body, id: string) {
    id in a.index && (id !in b.index || b.index[id] != a.index[id])
  }

  lemma PartsTell(cfg: Config, s: State, t: State, id: string) returns (i: Incoming)
    requires Alike(cfg, s, t) && Parts(s.body, t.body, id)
    ensures Waits(i.event)
    ensures var s', t' := PushState(cfg, s, i), PushState(cfg, t, i);
      Resolve(s'.body.execs, s'.body.core) != Resolve(t'.body.execs, t'.body.core)
  {
    hide Live, Resolve, Enforce, Handle, PushState;
    var h, n := s.body.index[id], s.gate.pushCounter + 1;
    EntryIsThere(s.body, id);
    var x := s.body.execs[h];
    i := Incoming(Telling(id, x), None);
    var told, other := Handle(cfg, s.body, Handled(i.event, None, n)), Handle(cfg, t.body, Handled(i.event, None, n));
    OpenPush(cfg, s, i, n);
    OpenPush(cfg, t, i, n);
    TellingTells(cfg, s.body, id, x, n);
    TellingElsewhere(cfg, t.body, id, x, n, h);
    SameBlocksSameCore(cfg, s.body, told);
    SameBlocksSameCore(cfg, t.body, other);
    EnforceKeepsArena(cfg, told);
    EnforceKeepsArena(cfg, other);
    ResolveDiffers(told.execs, other.execs, s.body.core, h);
  }

  lemma EntryIsThere(b: Body, id: string)
    requires Sound(b) && id in b.index
    ensures b.index[id] < |b.execs| && b.index[id] in Live(b.core)
  {
    hide Live;
  }

  lemma TellingElsewhere(cfg: Config, b: Body, id: string, x: Execution, n: nat, h: nat)
    requires h < |b.execs| && (id in b.index ==> b.index[id] != h)
    ensures var b' := Handle(cfg, b, Handled(Telling(id, x), None, n));
      b'.core == b.core && |b'.execs| == |b.execs| && b'.execs[h] == b.execs[h]
  {}

  /** A reader can never tell them apart, whatever happens. */
  ghost predicate SameForEver(cfg: Config, s: State, t: State) {
    forall ops :: SameToReader(Continue(cfg, s, ops), Continue(cfg, t, ops))
  }

  lemma OnePush(cfg: Config, s: State, i: Incoming)
    ensures Continue(cfg, s, [Op.Push(i)]) == PushState(cfg, s, i)
  {
    hide PushState;
    var ops := [Op.Push(i)];
    assert ops[..0] == [] && Continue(cfg, s, ops[..0]) == s;
  }

  lemma PartsAreSeen(cfg: Config, s: State, t: State, id: string)
    requires Alike(cfg, s, t) && (Parts(s.body, t.body, id) || Parts(t.body, s.body, id))
    ensures !SameForEver(cfg, s, t)
  {
    hide Live, Continue, PushState, Enforce, Resolve, Sound;
    var i: Incoming;
    if Parts(s.body, t.body, id) {
      i := PartsTell(cfg, s, t, id);
    } else {
      i := PartsTell(cfg, t, s, id);
    }
    OnePush(cfg, s, i);
    OnePush(cfg, t, i);
    assert !SameToReader(Continue(cfg, s, [Op.Push(i)]), Continue(cfg, t, [Op.Push(i)]));
  }

  /** Of two accumulators that show the same: nobody can ever tell them apart if and only if their indexes are equal. */
  lemma AlikeForEver(cfg: Config, s: State, t: State)
    requires Alike(cfg, s, t)
    ensures SameForEver(cfg, s, t) <==> s.body.index == t.body.index
  {
    hide Continue, Live, Enforce, SameToReader;
    if s.body.index == t.body.index {
      TwinsIf(s.body, t.body);
      forall ops ensures SameToReader(Continue(cfg, s, ops), Continue(cfg, t, ops)) {
        TwinsContinue(cfg, s, t, ops);
      }
    } else {
      var id := Parting(s.body.index, t.body.index);
      PartsAreSeen(cfg, s, t, id);
    }
  }

  lemma Parting(a: map<string, nat>, b: map<string, nat>) returns (id: string)
    requires a != b
    ensures (id in a && (id !in b || b[id] != a[id])) || (id in b && (id !in a || a[id] != b[id]))
  {
    if !(forall id :: id in a <==> id in b) {
      id :| (id in a) != (id in b);
    } else {
      assert a.Keys == b.Keys;
      id :| id in a && a[id] != b[id];
    }
  }

  // ---- The two orders ----

  /** Events, and then session_init. */
  ghost function Late(cfg: Config, s: State, es: seq<Incoming>, init: Incoming): State {
    PushState(cfg, PushAll(cfg, s, es), init)
  }

  /** The gate is invisible for ever: a reader cannot tell from anything that happens later which came first. */
  ghost predicate InvisibleForEver(cfg: Config, s: State, es: seq<Incoming>, init: Incoming) {
    SameForEver(cfg, Late(cfg, s, es, init), PushAll(cfg, s, [init] + es))
  }

  // The bodies of both orders before their last evictions, and what they share.
  lemma {:induction false} BothOrders(cfg: Config, s: State, es: seq<Incoming>, init: Incoming)
    returns (b: Body, last: Body, k: nat)
    requires Ready(cfg, s, es, init) && |es| <= Room(cfg) && SparesAll(cfg, s, AllButLast(es, init))
    ensures Trails(last, b, k) && k <= Forget(cfg, b.core.blocks)
    ensures var g := Gate(s.gate.pushCounter + |es| + 1, true, []);
      && Late(cfg, s, es, init) == State(g, Enforce(cfg, b))
      && PushAll(cfg, s, [init] + es) == State(g, Enforce(cfg, last))
    ensures Spares(cfg, b) <==> SparesPush(cfg, PushAll(cfg, s, es), init)
    ensures Spares(cfg, last) <==> SparesAll(cfg, s, [init] + es)
  {
    hide Sound, Trails, PushState, PushAll, Enforce, Replayed, SparesPush, Spares, Forget;
    var n := s.gate.pushCounter + |es| + 1;
    b := Replayed(cfg, s, es, init, n);
    last, k := EarlyTrails(cfg, s, es, init, n);
    LateIsReplay(cfg, s, es, init);
    LateSpares(cfg, s, es, init);
  }

  lemma {:induction false} LateSpares(cfg: Config, s: State, es: seq<Incoming>, init: Incoming)
    requires Ready(cfg, s, es, init) && |es| <= Room(cfg)
    ensures SparesPush(cfg, PushAll(cfg, s, es), init) <==>
      Spares(cfg, Replayed(cfg, s, es, init, s.gate.pushCounter + |es| + 1))
  {
    hide Sound, PushAll, HandleAll, Spares;
    BufferKeepsNewest(cfg, s, es);
  }

  // Both orders show the same after their last evictions.
  lemma OrdersAreAlike(cfg: Config, g: Gate, b: Body, last: Body, k: nat)
    requires Trails(last, b, k) && k <= Forget(cfg, b.core.blocks) && g.initialized && g.buffer == []
    ensures Alike(cfg, State(g, Enforce(cfg, b)), State(g, Enforce(cfg, last)))
  {
    hide Looks, Live, Enforce, Forget, Sound, Resolve;
    TrailsEnforce(cfg, last, b, k);
    LooksSame(cfg, Enforce(cfg, last), b);
    SoundEnforce(cfg, b);
    SoundEnforce(cfg, last);
    EnforceKeepsArena(cfg, b);
    EnforceKeepsArena(cfg, last);
    EnforceTwice(cfg, b);
    EnforceTwice(cfg, last);
    LooksAtLive(Enforce(cfg, last), b, Forget(cfg, b.core.blocks));
  }

  lemma LooksAtLive(e: Body, b: Body, k: nat)
    requires Looks(e, b, k)
    ensures |e.execs| == |b.execs|
    ensures forall h :: h in Live(e.core) ==> h < |b.execs| && e.execs[h] == b.execs[h]
  {
    hide Live;
  }

  /** If no push of the early order but perhaps the last evicts an id in use, both orders show the same, and go on to do
    * so whatever happens if and only if they end up with the same index. */
  lemma {:induction false} InvisibleForEverExactly(cfg: Config, s: State, es: seq<Incoming>, init: Incoming)
    requires Ready(cfg, s, es, init) && |es| <= Room(cfg) && SparesAll(cfg, s, AllButLast(es, init))
    ensures InvisibleForEver(cfg, s, es, init) <==>
      Late(cfg, s, es, init).body.index == PushAll(cfg, s, [init] + es).body.index
  {
    hide Ready, Trails, Forget, SparesAll, SparesPush, Spares, Late, PushAll, Enforce, SameForEver, Alike;
    var b, last, k := BothOrders(cfg, s, es, init);
    var g := Gate(s.gate.pushCounter + |es| + 1, true, []);
    OrdersAreAlike(cfg, g, b, last, k);
    AlikeForEver(cfg, State(g, Enforce(cfg, b)), State(g, Enforce(cfg, last)));
  }

  // What is left in the index once an eviction spared the ids in use.
  lemma SparedIndex(cfg: Config, e: Body, b: Body, k: nat, id: string)
    requires Trails(e, b, k) && k <= Forget(cfg, b.core.blocks) && Spares(cfg, e)
    ensures Sound(Enforce(cfg, e))
    ensures var e' := Enforce(cfg, e);
      && (id in e'.index <==> id in b.index && b.index[id] in Live(e'.core))
      && (id in e'.index ==> e'.index[id] == b.index[id])
  {
    hide Live, Enforce, Forget, Spares;
    TrailsEnforce(cfg, e, b, k);
  }

  /** If no push of the early order evicts an id in use, the gate stays invisible for ever if and only if neither does
    * the one push of the late order. */
  lemma {:induction false} GateIsInvisibleForEver(cfg: Config, s: State, es: seq<Incoming>, init: Incoming)
    requires Ready(cfg, s, es, init) && |es| <= Room(cfg) && SparesAll(cfg, s, [init] + es)
    ensures InvisibleForEver(cfg, s, es, init) <==> SparesPush(cfg, PushAll(cfg, s, es), init)
  {
    hide Trails, Forget, SparesAll, SparesPush, Spares, Late, PushAll, Enforce, InvisibleForEver, Looks, Sound;
    SparesPrefixOfAll(cfg, s, [init] + es, |es|);
    InvisibleForEverExactly(cfg, s, es, init);
    var b, last, k := BothOrders(cfg, s, es, init);
    SameIndexes(cfg, b, last, k);
  }

  lemma SameIndexes(cfg: Config, b: Body, last: Body, k: nat)
    requires Trails(last, b, k) && k <= Forget(cfg, b.core.blocks) && Spares(cfg, last)
    ensures Enforce(cfg, b).index == Enforce(cfg, last).index <==> Spares(cfg, b)
  {
    hide Live, Enforce, Forget, Spares, Looks, Sound, Drop, Expendable;
    var e, l := Enforce(cfg, b), Enforce(cfg, last);
    TrailsEnforce(cfg, last, b, k);
    LooksSame(cfg, l, b);
    if Spares(cfg, b) {
      TrailsSelf(b);
      forall id
        ensures id in e.index <==> id in l.index
        ensures id in e.index ==> e.index[id] == l.index[id]
      {
        SparedIndex(cfg, last, b, k, id);
        SparedIndex(cfg, b, b, 0, id);
      }
      assert e.index == l.index;
    } else {
      var id := Harmed(cfg, b);
      SparedIndex(cfg, last, b, k, id);
    }
  }
}
