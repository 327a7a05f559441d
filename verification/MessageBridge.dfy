/** A queue between push() and next(), with close(): the async iterator the SDK consumes (AsyncIterator interface,
  * section 27.1.1.4 of ECMA-262, 15th edition). */
module MessageBridge {
  import opened Options

  datatype IteratorResult<M> = Message(value: M) | Done

  datatype Op<M> = Push(msg: M) | Close | Next

  /** `outcomes[k]` is what the promise of the k-th call to next is settled with, if it is; a waiter is the number of
    * its call. */
  datatype Bridge<M> = Bridge(queue: seq<M>, waiters: seq<nat>, closed: bool,
                              outcomes: seq<Option<IteratorResult<M>>>)

  function New<M>(): Bridge<M> {
    Bridge([], [], false, [])
  }

  function SettleAll<M>(outcomes: seq<Option<IteratorResult<M>>>, ks: seq<nat>, r: IteratorResult<M>)
    : seq<Option<IteratorResult<M>>>
  {
    seq(|outcomes|, k requires 0 <= k < |outcomes| => if k in ks then Some(r) else outcomes[k])
  }

  function Step<M>(b: Bridge<M>, op: Op<M>): Bridge<M> {
    match op
    case Push(msg) =>
      if b.closed then b
      else if |b.waiters| > 0
      then b.(waiters := b.waiters[1..], outcomes := SettleAll(b.outcomes, [b.waiters[0]], Message(msg)))
      else b.(queue := b.queue + [msg])
    case Close =>
      if b.closed then b
      else b.(closed := true, waiters := [], outcomes := SettleAll(b.outcomes, b.waiters, Done))
    case Next =>
      if |b.queue| > 0 then b.(queue := b.queue[1..], outcomes := b.outcomes + [Some(Message(b.queue[0]))])
      else if b.closed then b.(outcomes := b.outcomes + [Some(Done)])
      else b.(waiters := b.waiters + [|b.outcomes|], outcomes := b.outcomes + [None])
  }

  function Run<M>(ops: seq<Op<M>>): Bridge<M> {
    if ops == [] then New() else Step(Run(ops[..|ops| - 1]), ops[|ops| - 1])
  }

  // ---- What a run should do, read off its operations ----

  predicate IsClosed<M>(ops: seq<Op<M>>) {
    exists i :: 0 <= i < |ops| && ops[i].Close?
  }

  /** The messages pushed before the first close. */
  function Accepted<M>(ops: seq<Op<M>>): seq<M> {
    if ops == [] then []
    else
      var prefix, op := ops[..|ops| - 1], ops[|ops| - 1];
      Accepted(prefix) + if op.Push? && !IsClosed(prefix) then [op.msg] else []
  }

  function Calls<M>(ops: seq<Op<M>>): nat {
    if ops == [] then 0
    else Calls(ops[..|ops| - 1]) + if ops[|ops| - 1].Next? then 1 else 0
  }

  /** What the k-th call to next is owed. */
  function Owed<M>(ops: seq<Op<M>>, k: nat): Option<IteratorResult<M>> {
    if k < |Accepted(ops)| then Some(Message(Accepted(ops)[k]))
    else if IsClosed(ops) then Some(Done)
    else None
  }

  // The numbers from lo up to, not including, hi.
  function Range(lo: nat, hi: nat): seq<nat> {
    if lo < hi then seq(hi - lo, i requires 0 <= i => lo + i) else []
  }

  ghost predicate ByRank<M>(b: Bridge<M>, ops: seq<Op<M>>) {
    var n, c := |Accepted(ops)|, Calls(ops);
    && b.closed == IsClosed(ops)
    && |b.outcomes| == c
    && (forall k :: 0 <= k < c ==> b.outcomes[k] == Owed(ops, k))
    && b.queue == (if c < n then Accepted(ops)[c..] else [])
    && b.waiters == (if b.closed then [] else Range(n, c))
  }

  lemma ClosedAppend<M>(ops: seq<Op<M>>)
    requires ops != []
    ensures IsClosed(ops) <==> IsClosed(ops[..|ops| - 1]) || ops[|ops| - 1].Close?
  {
    var prefix := ops[..|ops| - 1];
    if IsClosed(prefix) {
      var i :| 0 <= i < |prefix| && prefix[i].Close?;
      assert ops[i].Close?;
    }
  }

  lemma RankPush<M>(b: Bridge<M>, ops: seq<Op<M>>)
    requires ops != [] && ops[|ops| - 1].Push? && ByRank(b, ops[..|ops| - 1])
    ensures ByRank(Step(b, ops[|ops| - 1]), ops)
  {
    hide IsClosed;
    ClosedAppend(ops);
    var n, c := |Accepted(ops[..|ops| - 1])|, Calls(ops[..|ops| - 1]);
    if !b.closed && n < c {
      assert Range(n, c)[1..] == Range(n + 1, c);
    }
  }

  lemma RankClose<M>(b: Bridge<M>, ops: seq<Op<M>>)
    requires ops != [] && ops[|ops| - 1].Close? && ByRank(b, ops[..|ops| - 1])
    ensures ByRank(Step(b, ops[|ops| - 1]), ops)
  {
    ClosedAppend(ops);
    var n, c := |Accepted(ops[..|ops| - 1])|, Calls(ops[..|ops| - 1]);
    forall k | n <= k < c && !b.closed ensures k in b.waiters {
      assert Range(n, c)[k - n] == k;
    }
  }

  lemma RankNext<M>(b: Bridge<M>, ops: seq<Op<M>>)
    requires ops != [] && ops[|ops| - 1].Next? && ByRank(b, ops[..|ops| - 1])
    ensures ByRank(Step(b, ops[|ops| - 1]), ops)
  {
    hide IsClosed;
    ClosedAppend(ops);
    var n, c := |Accepted(ops[..|ops| - 1])|, Calls(ops[..|ops| - 1]);
    if !b.closed && n <= c {
      assert Range(n, c) + [c] == Range(n, c + 1);
    }
  }

  /** Over every run, the k-th call to next settles with the k-th accepted message if there is one, with done if the
    * bridge is closed and there is none, and is pending otherwise. */
  lemma {:induction false} DeliveryIsByRank<M>(ops: seq<Op<M>>)
    ensures ByRank(Run(ops), ops)
  {
    if ops != [] {
      DeliveryIsByRank(ops[..|ops| - 1]);
      match ops[|ops| - 1]
      case Push(_) => RankPush(Run(ops[..|ops| - 1]), ops);
      case Close => RankClose(Run(ops[..|ops| - 1]), ops);
      case Next => RankNext(Run(ops[..|ops| - 1]), ops);
    }
  }

  /** A bridge never holds a message and a waiting consumer at once, and a closed one makes nobody wait. */
  lemma NeverBoth<M>(ops: seq<Op<M>>)
    ensures Run(ops).queue == [] || Run(ops).waiters == []
    ensures IsClosed(ops) ==> Run(ops).waiters == []
  {
    DeliveryIsByRank(ops);
  }

  /** Messages queued when the bridge closes are still delivered, in order, before the first done. */
  lemma QueuedSurviveClose<M>(ops: seq<Op<M>>, k: nat)
    requires k < |Accepted(ops)| && Calls(ops) <= k
    ensures var q := Run(ops + [Op.Close]).queue;
      q == Run(ops).queue && k - Calls(ops) < |q| && q[k - Calls(ops)] == Accepted(ops)[k]
  {
    DeliveryIsByRank(ops);
    assert (ops + [Op.Close])[..|ops|] == ops;
  }

  lemma {:induction false} AcceptedGrows<M>(ops: seq<Op<M>>, more: seq<Op<M>>)
    ensures Accepted(ops) <= Accepted(ops + more) && Calls(ops) <= Calls(ops + more)
    ensures IsClosed(ops) ==> IsClosed(ops + more) && Accepted(ops) == Accepted(ops + more)
  {
    if more == [] {
      assert ops + more == ops;
    } else {
      var init := more[..|more| - 1];
      AcceptedGrows(ops, init);
      assert (ops + more)[..|ops + more| - 1] == ops + init;
      ClosedAppend(ops + more);
    }
  }

  /** A settled promise keeps its result, whatever happens next. */
  lemma SettledForever<M>(ops: seq<Op<M>>, more: seq<Op<M>>, k: nat)
    requires k < |Run(ops).outcomes| && Run(ops).outcomes[k].Some?
    ensures k < |Run(ops + more).outcomes| && Run(ops + more).outcomes[k] == Run(ops).outcomes[k]
  {
    DeliveryIsByRank(ops);
    DeliveryIsByRank(ops + more);
    AcceptedGrows(ops, more);
  }

  /** Once a call got done, every later call gets done. */
  lemma DoneIsPermanent<M>(ops: seq<Op<M>>, more: seq<Op<M>>, j: nat, k: nat)
    requires j < |Run(ops).outcomes| && Run(ops).outcomes[j] == Some(Done)
    requires j <= k < |Run(ops + more).outcomes|
    ensures Run(ops + more).outcomes[k] == Some(Done)
  {
    DeliveryIsByRank(ops);
    DeliveryIsByRank(ops + more);
    AcceptedGrows(ops, more);
  }

  // ---- The class ----

  /** A promise and its resolve function. */
  class Deferred<M(0)> {
    var outcome: Option<IteratorResult<M>>

    constructor (outcome: Option<IteratorResult<M>>)
      ensures this.outcome == outcome
    {
      this.outcome := outcome;
    }

    // Callers may resolve a promise only once.
    method Resolve(r: IteratorResult<M>)
      requires outcome == None
      modifies this
      ensures outcome == Some(r)
    {
      outcome := Some(r);
    }
  }

  lemma RunAppend<M>(ops: seq<Op<M>>, op: Op<M>)
    ensures Run(ops + [op]) == Step(Run(ops), op)
  {
    assert (ops + [op])[..|ops|] == ops;
  }

  class MessageBridge<M(0)> {
    var queue: seq<M>
    var waiters: seq<Deferred<M>>
    var closed: bool

    // The promises handed out by next, in order, and the operations so far.
    ghost var calls: seq<Deferred<M>>
    ghost var history: seq<Op<M>>

    ghost predicate Matches(st: Bridge<M>)
      reads this, calls
    {
      && queue == st.queue && closed == st.closed
      && |calls| == |st.outcomes|
      && (forall k :: 0 <= k < |calls| ==> calls[k].outcome == st.outcomes[k])
      && (forall j, k :: 0 <= j < k < |calls| ==> calls[j] != calls[k])
      && |waiters| == |st.waiters|
      && (forall i :: 0 <= i < |waiters| ==>
            st.waiters[i] < |calls| && waiters[i] == calls[st.waiters[i]] && st.outcomes[st.waiters[i]] == None)
      && (forall i, j :: 0 <= i < j < |waiters| ==> st.waiters[i] != st.waiters[j])
    }

    ghost predicate Valid()
      reads this, calls
    {
      Matches(Run(history))
    }

    constructor ()
      ensures Valid() && history == [] && calls == []
    {
      queue, waiters, closed := [], [], false;
      calls, history := [], [];
    }

    /** Every promise that next returned is settled with what its call is owed, no more and no less. */
    lemma PromisesAreKept(k: nat)
      requires Valid() && k < |calls|
      ensures |calls| == Calls(history) && calls[k].outcome == Owed(history, k)
    {
      DeliveryIsByRank(history);
    }

    method Push(msg: M)
      requires Valid()
      modifies this, calls
      ensures Valid() && calls == old(calls)
      ensures history == old(history) + [Op.Push(msg)]
    {
      hide Run;
      RunAppend(history, Op.Push(msg));
      history := history + [Op.Push(msg)];
      if closed {
        return;
      }
      if |waiters| > 0 {
        var resolve := waiters[0];
        waiters := waiters[1..];
        resolve.Resolve(Message(msg));
      } else {
        queue := queue + [msg];
      }
    }

    method Close()
      requires Valid()
      modifies this, calls
      ensures Valid() && calls == old(calls)
      ensures history == old(history) + [Op.Close]
    {
      hide Run;
      ghost var st := Run(history);
      RunAppend(history, Op.Close);
      history := history + [Op.Close];
      if closed {
        return;
      }
      closed := true;
      var n := 0;
      while n < |waiters|
        invariant 0 <= n <= |waiters| && closed
        invariant waiters == old(waiters) && calls == old(calls) && queue == old(queue)
        invariant history == old(history) + [Op.Close]
        invariant forall k :: 0 <= k < |calls| ==>
          calls[k].outcome == if k in st.waiters[..n] then Some(Done) else st.outcomes[k]
      {
        waiters[n].Resolve(Done);
        n := n + 1;
      }
      assert st.waiters[..n] == st.waiters;
      waiters := [];
    }

    method Next() returns (p: Deferred<M>)
      requires Valid()
      modifies this
      ensures Valid() && fresh(p) && calls == old(calls) + [p]
      ensures history == old(history) + [Op.Next]
    {
      hide Run;
      RunAppend(history, Op.Next);
      history := history + [Op.Next];
      if |queue| > 0 {
        p := new Deferred(Some(Message(queue[0])));
        queue := queue[1..];
      } else if closed {
        p := new Deferred(Some(Done));
      } else {
        p := new Deferred(None);
        waiters := waiters + [p];
      }
      calls := calls + [p];
    }
  }
}
