/** The permission handler as the program has it: four maps of waiting requests, each with the promise it settles. */
module PermissionHandler {
  import opened Options
  import opened PermissionSpec

  /** A promise and its resolve function. */
  class Deferred {
    var outcome: Option<Result>

    constructor ()
      ensures outcome == None
    {
      outcome := None;
    }

    // Callers may resolve a promise only once.
    method Resolve(r: Result)
      requires outcome == None
      modifies this
      ensures outcome == Some(r)
    {
      outcome := Some(r);
    }
  }

  datatype Pending = Pending(promise: Deferred, originalInput: Input)

  function Promises(m: map<RequestId, Pending>): map<RequestId, Deferred> {
    map id | id in m :: m[id].promise
  }

  /** The fields of a handler, as a value. */
  datatype Maps = Maps(
    permissions: map<RequestId, Pending>, questions: map<RequestId, Deferred>, plans: map<RequestId, Pending>,
    elicitations: map<RequestId, Deferred>, timers: set<RequestId>)
  {
    function With(k: Kind, id: RequestId, p: Pending): Maps {
      match k
      case Permission => this.(permissions := permissions[id := p], timers := timers + {id})
      case Question => this.(questions := questions[id := p.promise])
      case Plan => this.(plans := plans[id := p])
      case Elicitation => this.(elicitations := elicitations[id := p.promise])
    }

    function Without(k: Kind, ids: set<RequestId>): Maps {
      match k
      case Permission => this.(permissions := permissions - ids, timers := timers - ids)
      case Question => this.(questions := questions - ids)
      case Plan => this.(plans := plans - ids)
      case Elicitation => this.(elicitations := elicitations - ids)
    }
  }

  lemma Emptied(m: Maps)
    ensures m.Without(Permission, m.permissions.Keys) ==
      m.(permissions := map[], timers := m.timers - m.permissions.Keys)
    ensures m.Without(Question, m.questions.Keys) == m.(questions := map[])
    ensures m.Without(Plan, m.plans.Keys) == m.(plans := map[])
    ensures m.Without(Elicitation, m.elicitations.Keys) == m.(elicitations := map[])
  {}

  ghost predicate Plainly(m: map<RequestId, Deferred>, promises: map<RequestId, Deferred>, ids: set<RequestId>) {
    m.Keys == ids && forall id :: id in m ==> id in promises && m[id] == promises[id]
  }

  ghost predicate WithInput(
    m: map<RequestId, Pending>, promises: map<RequestId, Deferred>, inputs: map<RequestId, Input>)
  {
    m.Keys == inputs.Keys && forall id :: id in m ==> id in promises && m[id] == Pending(promises[id], inputs[id])
  }

  /** The maps hold the promises of the requests that wait. */
  ghost predicate Holds(m: Maps, promises: map<RequestId, Deferred>, st: Handler) {
    && WithInput(m.permissions, promises, st.permissions) && Plainly(m.questions, promises, st.questions)
    && WithInput(m.plans, promises, st.plans) && Plainly(m.elicitations, promises, st.elicitations)
    && m.timers == st.timers
  }

  ghost predicate Separate(promises: map<RequestId, Deferred>) {
    forall i, j :: i in promises && j in promises && i != j ==> promises[i] != promises[j]
  }

  /** Each promise has been settled with what the specification says, or not at all. */
  ghost predicate Told(outcomes: map<RequestId, Option<Result>>, st: Handler) {
    outcomes.Keys == st.issued.Keys && forall id :: id in outcomes ==> outcomes[id] == Settled(st, id)
  }

  lemma ToldSettle(
    before: map<RequestId, Option<Result>>, after: map<RequestId, Option<Result>>, st: Handler, k: Kind,
    ids: set<RequestId>, r: Result)
    requires Told(before, st) && after.Keys == before.Keys
    requires forall id :: id in before ==> after[id] == if id in ids then Some(r) else before[id]
    ensures Told(after, st.Settle(k, ids, r))
  {
    SettledBySettle(st, k, ids, r, 0);
    forall id | id in after ensures after[id] == Settled(st.Settle(k, ids, r), id) {
      SettledBySettle(st, k, ids, r, id);
    }
  }

  // The promises of the waiting permissions, or plans, and the keys of all the maps.
  lemma Held(m: Maps, promises: map<RequestId, Deferred>, st: Handler)
    requires Holds(m, promises, st)
    ensures Promises(m.permissions).Keys == m.permissions.Keys == st.In(Permission)
    ensures Plainly(Promises(m.permissions), promises, m.permissions.Keys)
    ensures m.questions.Keys == st.In(Question) && Plainly(m.questions, promises, m.questions.Keys)
    ensures Promises(m.plans).Keys == m.plans.Keys == st.In(Plan)
    ensures Plainly(Promises(m.plans), promises, m.plans.Keys)
    ensures m.elicitations.Keys == st.In(Elicitation) && Plainly(m.elicitations, promises, m.elicitations.Keys)
  {}

  lemma HoldsSettle(
    m: Maps, promises: map<RequestId, Deferred>, st: Handler, k: Kind, ids: set<RequestId>, r: Result)
    requires Holds(m, promises, st)
    ensures Holds(m.Without(k, ids), promises, st.Settle(k, ids, r))
  {}

  lemma SameIfNoFewer<T>(a: map<RequestId, T>, b: map<RequestId, Request>)
    requires a.Keys <= b.Keys && |a| == |b|
    ensures a.Keys == b.Keys
  {
    assert b.Keys == a.Keys + (b.Keys - a.Keys);
    assert |b.Keys| == |a.Keys| + |b.Keys - a.Keys|;
  }

  lemma HoldsWith(
    m: Maps, promises: map<RequestId, Deferred>, st: Handler, k: Kind, id: RequestId, input: Input, p: Deferred)
    requires Holds(m, promises, st) && id !in promises
    ensures Holds(m.With(k, id, Pending(p, input)), promises[id := p], st.With(k, id, input))
  {
    hide WithInput, Plainly;
    InputsGrow(m.permissions, promises, st.permissions, id, p, input);
    InputsGrow(m.plans, promises, st.plans, id, p, input);
    PlainGrow(m.questions, promises, st.questions, id, p);
    PlainGrow(m.elicitations, promises, st.elicitations, id, p);
  }

  lemma {:induction false} HoldsAsk(
    m: Maps, promises: map<RequestId, Deferred>, st: Handler, id: RequestId, q: Request, p: Deferred)
    requires Holds(m, promises, st) && id !in promises
    ensures Holds(m.With(q.kind, id, Pending(p, q.input)), promises[id := p], Asked(st, id, q))
  {
    hide Handler.With, Maps.With;
    HoldsWith(m, promises, st.(issued := st.issued[id := q]), q.kind, id, q.input, p);
  }

  lemma InputsGrow(
    m: map<RequestId, Pending>, promises: map<RequestId, Deferred>, inputs: map<RequestId, Input>, id: RequestId,
    p: Deferred, input: Input)
    requires WithInput(m, promises, inputs) && id !in promises
    ensures WithInput(m, promises[id := p], inputs)
    ensures WithInput(m[id := Pending(p, input)], promises[id := p], inputs[id := input])
  {}

  lemma PlainGrow(
    m: map<RequestId, Deferred>, promises: map<RequestId, Deferred>, ids: set<RequestId>, id: RequestId, p: Deferred)
    requires Plainly(m, promises, ids) && id !in promises
    ensures Plainly(m, promises[id := p], ids)
    ensures Plainly(m[id := p], promises[id := p], ids + {id})
  {}

  lemma SeparateAsk(promises: map<RequestId, Deferred>, id: RequestId, p: Deferred)
    requires Separate(promises) && forall i :: i in promises ==> promises[i] != p
    ensures Separate(promises[id := p])
  {}

  lemma {:induction false} ToldAsk(outcomes: map<RequestId, Option<Result>>, st: Handler, id: RequestId, q: Request)
    requires Told(outcomes, st) && Inv(st) && id !in st.issued
    ensures Told(outcomes[id := None], Asked(st, id, q))
  {
    hide Inv;
    InvKept(st);
  }

  lemma AbortIs(st: Handler, id: RequestId)
    ensures id in st.In(Permission) ==> Step(st, Abort(id)) == st.Settle(Permission, {id}, Aborted(Permission))
    ensures id !in st.In(Permission) && id in st.In(Question) ==>
      Step(st, Abort(id)) == st.Settle(Question, {id}, Aborted(Question))
    ensures id !in st.In(Permission) && id !in st.In(Question) && id in st.In(Plan) ==>
      Step(st, Abort(id)) == st.Settle(Plan, {id}, Aborted(Plan))
    ensures id !in st.In(Permission) && id !in st.In(Question) && id !in st.In(Plan) && id in st.In(Elicitation) ==>
      Step(st, Abort(id)) == st.Settle(Elicitation, {id}, Aborted(Elicitation))
    ensures id !in st.In(Permission) && id !in st.In(Question) && id !in st.In(Plan) && id !in st.In(Elicitation) ==>
      Step(st, Abort(id)) == st
  {}

  lemma DrainsAre(st: Handler)
    ensures var why := "Frontend disconnected";
      Step(st, DrainInteractive) == Drain(Drain(Drain(st, Question, why), Plan, why), Elicitation, why)
    ensures var why := "Session closing";
      Step(st, DrainAll) == Drain(Drain(Drain(Drain(st, Permission, why), Question, why), Plan, why), Elicitation, why)
  {
    hide Drain;
  }

  /** Which map gains the call of a tool; only a permission gets a timer. */
  ghost predicate WaitsIn(
    before: Maps, after: Maps, id: RequestId, toolName: string, input: Input, p: Deferred)
  {
    after ==
      if toolName == "AskUserQuestion" then before.(questions := before.questions[id := p])
      else if toolName == "ExitPlanMode" then before.(plans := before.plans[id := Pending(p, input)])
      else if NeedsPermission(toolName, input) then
        before.(permissions := before.permissions[id := Pending(p, input)], timers := before.timers + {id})
      else before.(elicitations := before.elicitations[id := p])
  }

  lemma WithIsWaiting(m: Maps, id: RequestId, toolName: string, input: Input, p: Deferred)
    ensures WaitsIn(m, m.With(KindOf(toolName, input), id, Pending(p, input)), id, toolName, input, p)
  {
    hide Prompts;
  }

  class PermissionHandler {
    var permissions: map<RequestId, Pending>
    var questions: map<RequestId, Deferred>
    var plans: map<RequestId, Pending>
    var elicitations: map<RequestId, Deferred>
    var timers: set<RequestId>

    // Every promise handed out, by request id, and the operations so far.
    ghost var promises: map<RequestId, Deferred>
    ghost var history: seq<Op>

    ghost function Fields(): Maps
      reads this`permissions, this`questions, this`plans, this`elicitations, this`timers
    {
      Maps(permissions, questions, plans, elicitations, timers)
    }

    // What the promises have been settled with so far.
    ghost function Outcomes(): map<RequestId, Option<Result>>
      reads this`promises, promises.Values
    {
      map id | id in promises :: promises[id].outcome
    }

    ghost predicate Matches(st: Handler)
      reads this`permissions, this`questions, this`plans, this`elicitations, this`timers
      reads this`promises, promises.Values
    {
      Holds(Fields(), promises, st) && Told(Outcomes(), st) && Separate(promises)
    }

    ghost predicate Valid()
      reads this, promises.Values
    {
      FreshIds(history) && ByTool(history) && Matches(Run(history))
    }

    constructor ()
      ensures Valid() && history == [] && promises == map[]
    {
      permissions, questions, plans, elicitations, timers := map[], map[], map[], map[], {};
      promises, history := map[], [];
    }

    /** Each promise is settled with the first verdict on its request, or waits if there was none. */
    lemma PromisesFollowTheRun(id: RequestId)
      requires Valid()
      ensures id in promises <==> id in Issued(history)
      ensures id in promises ==> promises[id].outcome == Fate(history, id)
    {
      FirstVerdictWins(history);
    }

    /** What it is settled with, by tool: exactly what the first operation that concerns a call of this tool gives. */
    lemma PromisesByTool(id: RequestId, r: Result)
      requires Valid() && id in promises
      ensures id in Issued(history)
      ensures var q := Issued(history)[id];
        promises[id].outcome == Some(r) <==>
          exists i: nat :: WaitsAt(history, i, id) && SettlesWith(history[i], id, q.toolName, q.input, r)
    {
      hide Matches, Run, FreshIds, ByTool, Issued, Fate, SettlesWith;
      PromisesFollowTheRun(id);
      SettledByTool(history, id, r);
    }

    /** The size of the four maps is the number of promises still open. */
    method PendingCount() returns (n: nat)
      requires Valid()
      ensures n == |Run(history).issued| - |Run(history).settled|
      ensures n == 0 ==> forall id :: id in promises ==> promises[id].outcome.Some?
    {
      hide Inv, Run, Told;
      n := |permissions| + |questions| + |plans| + |elicitations|;
      PendingIsUnsettled(history);
      assert n == Run(history).PendingCount();
      if n == 0 {
        NoneWaiting();
      }
    }

    lemma NoneWaiting()
      requires Valid() && Run(history).PendingCount() == 0
      ensures forall id :: id in promises ==> promises[id].outcome.Some?
    {
      hide Run, Inv, Separate, Holds;
      var st := Run(history);
      FirstVerdictWins(history);
      PendingIsUnsettled(history);
      InvKept(st);
      SameIfNoFewer(st.settled, st.issued);
      forall id | id in promises ensures promises[id].outcome.Some? {
        assert id in Outcomes();
        assert Outcomes()[id] == Settled(st, id);
      }
    }

    lemma StillOpen(st: Handler, k: Kind, id: RequestId)
      requires Matches(st) && Inv(st) && id in st.In(k)
      ensures id in promises && promises[id].outcome == None
    {
      hide Separate, Holds, Inv;
      InvPlaced(st);
      PlacedAt(st, k, id);
      assert id in Outcomes();
    }

    lemma KeysMatch(st: Handler)
      requires Matches(st)
      ensures permissions.Keys == st.In(Permission) && questions.Keys == st.In(Question)
      ensures plans.Keys == st.In(Plan) && elicitations.Keys == st.In(Elicitation)
      ensures forall id :: id in permissions ==> permissions[id].originalInput == st.permissions[id]
      ensures forall id :: id in plans ==> plans[id].originalInput == st.plans[id]
    {
      hide Told, Separate;
      Held(Fields(), promises, st);
    }

    // ---- Settling promises ----

    method ResolveOne(p: Deferred, r: Result, ghost st: Handler, ghost k: Kind, ghost id: RequestId)
      requires Told(Outcomes(), st) && Separate(promises)
      requires id in promises && promises[id] == p && p.outcome == None
      modifies p
      ensures Told(Outcomes(), st.Settle(k, {id}, r))
    {
      hide Told;
      ghost var before := Outcomes();
      p.Resolve(r);
      ghost var after := Outcomes();
      assert after == before[id := Some(r)];
      ToldSettle(before, after, st, k, {id}, r);
    }

    /** Settle all the promises of a map, in whatever order the map is traversed. */
    method ResolveAll(m: map<RequestId, Deferred>, r: Result, ghost st: Handler, ghost k: Kind)
      requires Told(Outcomes(), st) && Separate(promises) && Plainly(m, promises, m.Keys)
      requires forall id :: id in m ==> m[id].outcome == None
      modifies m.Values
      ensures Told(Outcomes(), st.Settle(k, m.Keys, r))
    {
      hide Told;
      ghost var before := Outcomes();
      var rest := m.Keys;
      while rest != {}
        invariant rest <= m.Keys
        invariant forall id :: id in promises ==>
          promises[id].outcome == if id in m.Keys - rest then Some(r) else before[id]
        decreases rest
      {
        var id :| id in rest;
        rest := rest - {id};
        m[id].Resolve(r);
      }
      ToldSettle(before, Outcomes(), st, k, m.Keys, r);
    }

    method SettlePermission(id: RequestId, r: Result, ghost st: Handler)
      requires Matches(st) && Inv(st) && id in permissions
      modifies this`permissions, this`timers, promises.Values
      ensures Matches(st.Settle(Permission, {id}, r))
    {
      hide Handler.Settle, Inv, Told, Separate;
      HoldsSettle(Fields(), promises, st, Permission, {id}, r);
      StillOpen(st, Permission, id);
      var pending := permissions[id];
      timers := timers - {id};
      permissions := permissions - {id};
      ResolveOne(pending.promise, r, st, Permission, id);
    }

    method SettleQuestion(id: RequestId, r: Result, ghost st: Handler)
      requires Matches(st) && Inv(st) && id in questions
      modifies this`questions, promises.Values
      ensures Matches(st.Settle(Question, {id}, r))
    {
      hide Handler.Settle, Inv, Told, Separate;
      HoldsSettle(Fields(), promises, st, Question, {id}, r);
      StillOpen(st, Question, id);
      var pending := questions[id];
      questions := questions - {id};
      ResolveOne(pending, r, st, Question, id);
    }

    method SettlePlan(id: RequestId, r: Result, ghost st: Handler)
      requires Matches(st) && Inv(st) && id in plans
      modifies this`plans, promises.Values
      ensures Matches(st.Settle(Plan, {id}, r))
    {
      hide Handler.Settle, Inv, Told, Separate;
      HoldsSettle(Fields(), promises, st, Plan, {id}, r);
      StillOpen(st, Plan, id);
      var pending := plans[id];
      plans := plans - {id};
      ResolveOne(pending.promise, r, st, Plan, id);
    }

    method SettleElicitation(id: RequestId, r: Result, ghost st: Handler)
      requires Matches(st) && Inv(st) && id in elicitations
      modifies this`elicitations, promises.Values
      ensures Matches(st.Settle(Elicitation, {id}, r))
    {
      hide Handler.Settle, Inv, Told, Separate;
      HoldsSettle(Fields(), promises, st, Elicitation, {id}, r);
      StillOpen(st, Elicitation, id);
      var pending := elicitations[id];
      elicitations := elicitations - {id};
      ResolveOne(pending, r, st, Elicitation, id);
    }

    // The maps of one kind hold open promises.
    lemma AllOpen(st: Handler, k: Kind, m: map<RequestId, Deferred>)
      requires Matches(st) && Inv(st) && m.Keys == st.In(k) && Plainly(m, promises, m.Keys)
      ensures forall id :: id in m ==> m[id].outcome == None
    {
      hide Inv, Told, Separate, Holds;
      forall id | id in m ensures m[id].outcome == None {
        StillOpen(st, k, id);
      }
    }

    method DrainPermissions(why: string, ghost st: Handler)
      requires Matches(st) && Inv(st)
      modifies this`permissions, this`timers, promises.Values
      ensures Matches(Drain(st, Permission, why)) && Inv(Drain(st, Permission, why))
    {
      hide Handler.Settle, Maps.Without, Inv, Told, Separate, Holds, Plainly, Promises;
      ghost var m := Fields();
      Held(m, promises, st);
      var waiting := Promises(permissions);
      AllOpen(st, Permission, waiting);
      InvDrain(st, Permission, why);
      HoldsSettle(m, promises, st, Permission, waiting.Keys, Deny(why));
      timers := timers - permissions.Keys;
      ResolveAll(waiting, Deny(why), st, Permission);
      permissions := map[];
      Emptied(m);
    }

    method DrainQuestions(ghost why: string, ghost st: Handler)
      requires Matches(st) && Inv(st)
      modifies this`questions, promises.Values
      ensures Matches(Drain(st, Question, why)) && Inv(Drain(st, Question, why))
    {
      hide Handler.Settle, Maps.Without, Inv, Told, Separate, Holds, Plainly, Promises;
      ghost var m := Fields();
      Held(m, promises, st);
      AllOpen(st, Question, questions);
      InvDrain(st, Question, why);
      var empty := Allow(Answers(map[]), None);
      HoldsSettle(m, promises, st, Question, questions.Keys, empty);
      ResolveAll(questions, empty, st, Question);
      questions := map[];
      Emptied(m);
    }

    method DrainPlans(why: string, ghost st: Handler)
      requires Matches(st) && Inv(st)
      modifies this`plans, promises.Values
      ensures Matches(Drain(st, Plan, why)) && Inv(Drain(st, Plan, why))
    {
      hide Handler.Settle, Maps.Without, Inv, Told, Separate, Holds, Plainly, Promises;
      ghost var m := Fields();
      Held(m, promises, st);
      var waiting := Promises(plans);
      AllOpen(st, Plan, waiting);
      InvDrain(st, Plan, why);
      HoldsSettle(m, promises, st, Plan, waiting.Keys, Deny(why));
      ResolveAll(waiting, Deny(why), st, Plan);
      plans := map[];
      Emptied(m);
    }

    method DrainElicitations(ghost why: string, ghost st: Handler)
      requires Matches(st) && Inv(st)
      modifies this`elicitations, promises.Values
      ensures Matches(Drain(st, Elicitation, why)) && Inv(Drain(st, Elicitation, why))
    {
      hide Handler.Settle, Maps.Without, Inv, Told, Separate, Holds, Plainly, Promises;
      ghost var m := Fields();
      Held(m, promises, st);
      AllOpen(st, Elicitation, elicitations);
      InvDrain(st, Elicitation, why);
      var empty := Allow(Response(""), None);
      HoldsSettle(m, promises, st, Elicitation, elicitations.Keys, empty);
      ResolveAll(elicitations, empty, st, Elicitation);
      elicitations := map[];
      Emptied(m);
    }

    // ---- The operations ----

    lemma Extend(op: Op)
      requires Valid() && (op.Ask? ==> op.id !in promises)
      requires op.Ask? ==> op.request.kind == KindOf(op.request.toolName, op.request.input)
      ensures FreshIds(history + [op]) && ByTool(history + [op])
      ensures Run(history + [op]) == Step(Run(history), op)
      ensures Matches(Run(history)) && Inv(Run(history))
      ensures op.Ask? ==> op.id !in Run(history).issued
    {
      FirstVerdictWins(history);
      assert (history + [op])[..|history|] == history;
    }

    // Put a new promise in the map of its kind; a permission also starts a timer.
    method Remember(k: Kind, id: RequestId, pending: Pending)
      modifies this`permissions, this`questions, this`plans, this`elicitations, this`timers
      ensures Fields() == old(Fields()).With(k, id, pending)
    {
      match k
      case Permission =>
        timers := timers + {id};
        permissions := permissions[id := pending];
      case Question => questions := questions[id := pending.promise];
      case Plan => plans := plans[id := pending];
      case Elicitation => elicitations := elicitations[id := pending.promise];
    }

    method HandleCanUseTool(id: RequestId, toolName: string, input: Input) returns (p: Deferred)
      requires Valid() && id !in promises
      modifies this
      ensures Valid() && fresh(p) && promises == old(promises)[id := p]
      ensures history == old(history) + [Ask(id, Request(KindOf(toolName, input), toolName, input))]
      ensures WaitsIn(old(Fields()), Fields(), id, toolName, input, p)
    {
      hide Inv, Run, FreshIds, ByTool, Told, Separate, Holds, Asked, Maps.With, WaitsIn, KindOf;
      ghost var st, m, q := Run(history), Fields(), Request(KindOf(toolName, input), toolName, input);
      Extend(Ask(id, q));
      p := new Deferred();
      HoldsAsk(m, promises, st, id, q, p);
      ghost var outcomes := Outcomes();
      ToldAsk(outcomes, st, id, q);
      SeparateAsk(promises, id, p);
      history := history + [Ask(id, q)];
      WithIsWaiting(m, id, toolName, input, p);
      Remember(KindOf(toolName, input), id, Pending(p, input));
      promises := promises[id := p];
      assert Outcomes() == outcomes[id := None];
    }

    method OnTimeout(id: RequestId, toolName: string)
      requires Valid() && id in Issued(history) && Issued(history)[id].toolName == toolName
      modifies this, promises.Values
      ensures Valid() && promises == old(promises)
      ensures history == old(history) + [Timeout(id)]
    {
      hide Inv, Run, FreshIds, ByTool, Matches, Issued, Handler.Settle;
      ghost var st := Run(history);
      FirstVerdictWins(history);
      Extend(Timeout(id));
      KeysMatch(st);
      if id in permissions {
        SettlePermission(id, TimedOut(toolName), st);
      }
      history := history + [Timeout(id)];
    }

    method OnAbort(id: RequestId)
      requires Valid()
      modifies this, promises.Values
      ensures Valid() && promises == old(promises)
      ensures history == old(history) + [Abort(id)]
    {
      hide Inv, Run, FreshIds, ByTool, Matches, Handler.Settle, Handler.In, Aborted, Step;
      ghost var st := Run(history);
      Extend(Abort(id));
      KeysMatch(st);
      AbortIs(st, id);
      if id in permissions {
        SettlePermission(id, Aborted(Permission), st);
      } else if id in questions {
        SettleQuestion(id, Aborted(Question), st);
      } else if id in plans {
        SettlePlan(id, Aborted(Plan), st);
      } else if id in elicitations {
        SettleElicitation(id, Aborted(Elicitation), st);
      }
      history := history + [Abort(id)];
    }

    method ResolvePermission(id: RequestId, allowed: bool, updatedPermissions: Option<Json>) returns (ok: bool)
      requires Valid()
      modifies this, promises.Values
      ensures Valid() && promises == old(promises) && ok == old(id in permissions)
      ensures history == old(history) + [Op.ResolvePermission(id, allowed, updatedPermissions)]
    {
      hide Inv, Run, FreshIds, ByTool, Matches, Handler.Settle, PermissionAnswer;
      ghost var st, op := Run(history), Op.ResolvePermission(id, allowed, updatedPermissions);
      Extend(op);
      KeysMatch(st);
      ok := id in permissions;
      if ok {
        SettlePermission(id, PermissionAnswer(permissions[id].originalInput, allowed, updatedPermissions), st);
      }
      history := history + [op];
    }

    method ResolveQuestion(id: RequestId, answers: Input) returns (ok: bool)
      requires Valid()
      modifies this, promises.Values
      ensures Valid() && promises == old(promises) && ok == old(id in questions)
      ensures history == old(history) + [Op.ResolveQuestion(id, answers)]
    {
      hide Inv, Run, FreshIds, ByTool, Matches, Handler.Settle;
      ghost var st, op := Run(history), Op.ResolveQuestion(id, answers);
      Extend(op);
      KeysMatch(st);
      ok := id in questions;
      if ok {
        SettleQuestion(id, Allow(Answers(answers), None), st);
      }
      history := history + [op];
    }

    method ResolvePlan(id: RequestId, approved: bool, feedback: Option<string>, bypassPermissions: Option<bool>)
      returns (ok: bool)
      requires Valid()
      modifies this, promises.Values
      ensures Valid() && promises == old(promises) && ok == old(id in plans)
      ensures history == old(history) + [Op.ResolvePlan(id, approved, feedback, bypassPermissions)]
    {
      hide Inv, Run, FreshIds, ByTool, Matches, Handler.Settle, PlanAnswer;
      ghost var st, op := Run(history), Op.ResolvePlan(id, approved, feedback, bypassPermissions);
      Extend(op);
      KeysMatch(st);
      ok := id in plans;
      if ok {
        SettlePlan(id, PlanAnswer(plans[id].originalInput, approved, feedback, bypassPermissions), st);
      }
      history := history + [op];
    }

    method ResolveElicitation(id: RequestId, response: string) returns (ok: bool)
      requires Valid()
      modifies this, promises.Values
      ensures Valid() && promises == old(promises) && ok == old(id in elicitations)
      ensures history == old(history) + [Op.ResolveElicitation(id, response)]
    {
      hide Inv, Run, FreshIds, ByTool, Matches, Handler.Settle;
      ghost var st, op := Run(history), Op.ResolveElicitation(id, response);
      Extend(op);
      KeysMatch(st);
      ok := id in elicitations;
      if ok {
        SettleElicitation(id, Allow(Response(response), None), st);
      }
      history := history + [op];
    }

    method DrainInteractive()
      requires Valid()
      modifies this, promises.Values
      ensures Valid() && promises == old(promises)
      ensures history == old(history) + [Op.DrainInteractive]
    {
      hide Inv, Run, FreshIds, ByTool, Matches, Drain, Step;
      ghost var st := Run(history);
      Extend(Op.DrainInteractive);
      DrainsAre(st);
      var why := "Frontend disconnected";
      DrainQuestions(why, st);
      DrainPlans(why, Drain(st, Question, why));
      DrainElicitations(why, Drain(Drain(st, Question, why), Plan, why));
      history := history + [Op.DrainInteractive];
    }

    method DrainAll()
      requires Valid()
      modifies this, promises.Values
      ensures Valid() && promises == old(promises)
      ensures history == old(history) + [Op.DrainAll]
    {
      hide Inv, Run, FreshIds, ByTool, Matches, Drain, Step;
      ghost var st := Run(history);
      Extend(Op.DrainAll);
      DrainsAre(st);
      var why := "Session closing";
      DrainPermissions(why, st);
      DrainQuestions(why, Drain(st, Permission, why));
      DrainPlans(why, Drain(Drain(st, Permission, why), Question, why));
      DrainElicitations(why, Drain(Drain(Drain(st, Permission, why), Question, why), Plan, why));
      history := history + [Op.DrainAll];
    }
  }
}
