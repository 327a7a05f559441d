/** Permission requests, questions, plan approvals and elicitations that wait for a user. Each is a promise in one of
  * four maps; answers, timers, aborts and drains race to settle it. */
module PermissionSpec {
  import opened Options

  datatype Json =
    | Null | Bool(b: bool) | Number(n: real) | String(s: string) | Array(items: seq<Json>)
    | Object(fields: map<string, Json>)

  type Input = map<string, Json>

  // A random UUID: all that matters is that no two requests share one.
  type RequestId = nat

  datatype Kind = Permission | Question | Plan | Elicitation

  datatype Result = Allow(updatedInput: Input, updatedPermissions: Option<Json>) | Deny(message: string)

  predicate IsStandardTool(name: string) {
    name in {"Read", "Edit", "Write", "Bash", "Grep", "Glob"}
  }

  /** Whether an input asks for an answer: it has a prompt, and that is not empty. */
  ghost predicate Prompts(input: Input) {
    exists s: string :: s != "" && "prompt" in input && input["prompt"] == String(s)
  }

  /** Which of the four handlers takes a tool call. */
  function KindOf(toolName: string, input: Input): (k: Kind)
    ensures k == Question <==> toolName == "AskUserQuestion"
    ensures k == Plan <==> toolName == "ExitPlanMode"
    ensures k == Elicitation <==>
      && toolName != "AskUserQuestion" && toolName != "ExitPlanMode"
      && toolName != "Read" && toolName != "Edit" && toolName != "Write"
      && toolName != "Bash" && toolName != "Grep" && toolName != "Glob"
      && Prompts(input)
  {
    if toolName == "AskUserQuestion" then Question
    else if toolName == "ExitPlanMode" then Plan
    else if "prompt" in input && input["prompt"].String? && input["prompt"].s != "" && !IsStandardTool(toolName)
    then Elicitation
    else Permission
  }

  datatype Request = Request(kind: Kind, toolName: string, input: Input)

  datatype Op =
    | Ask(id: RequestId, request: Request)
    | Timeout(id: RequestId)
    | Abort(id: RequestId)
    | ResolvePermission(id: RequestId, allowed: bool, updatedPermissions: Option<Json>)
    | ResolveQuestion(id: RequestId, answers: Input)
    | ResolvePlan(id: RequestId, approved: bool, feedback: Option<string>, bypassPermissions: Option<bool>)
    | ResolveElicitation(id: RequestId, response: string)
    | DrainAll
    | DrainInteractive

  function Each(ids: set<RequestId>, r: Result): map<RequestId, Result> {
    map id | id in ids :: r
  }

  /** `permissions` and `plans` keep the original input; `timers` are the requests with a running timer. `issued` and
    * `settled` are the history: what was asked, and what each promise was settled with. `resolves` counts the calls
    * of resolve functions. */
  datatype Handler = Handler(
    permissions: map<RequestId, Input>, questions: set<RequestId>, plans: map<RequestId, Input>,
    elicitations: set<RequestId>, timers: set<RequestId>,
    issued: map<RequestId, Request>, settled: map<RequestId, Result>, resolves: nat)
  {
    /** The requests waiting in the map of one kind. */
    function In(k: Kind): set<RequestId> {
      match k
      case Permission => permissions.Keys
      case Question => questions
      case Plan => plans.Keys
      case Elicitation => elicitations
    }

    function With(k: Kind, id: RequestId, input: Input): Handler {
      match k
      case Permission => this.(permissions := permissions[id := input], timers := timers + {id})
      case Question => this.(questions := questions + {id})
      case Plan => this.(plans := plans[id := input])
      case Elicitation => this.(elicitations := elicitations + {id})
    }

    function Without(k: Kind, ids: set<RequestId>): Handler {
      match k
      case Permission => this.(permissions := permissions - ids, timers := timers - ids)
      case Question => this.(questions := questions - ids)
      case Plan => this.(plans := plans - ids)
      case Elicitation => this.(elicitations := elicitations - ids)
    }

    /** Take some requests out of their map and settle them all the same way. */
    function Settle(k: Kind, ids: set<RequestId>, r: Result): Handler {
      Without(k, ids).(settled := settled + Each(ids, r), resolves := resolves + |ids|)
    }

    function PendingCount(): nat {
      |permissions| + |questions| + |plans| + |elicitations|
    }
  }

  function Idle(): Handler {
    Handler(map[], {}, map[], {}, {}, map[], map[], 0)
  }

  function Asked(h: Handler, id: RequestId, q: Request): Handler {
    h.(issued := h.issued[id := q]).With(q.kind, id, q.input)
  }

  function Answers(answers: Input): Input {
    map["answers" := Object(answers)]
  }

  function Response(response: string): Input {
    map["response" := String(response)]
  }

  /** What an approved plan runs with: "manually approve edits" clears the allowed prompts. */
  function PlanInput(original: Input, bypassPermissions: Option<bool>): Input {
    if bypassPermissions == Some(false) then original["allowedPrompts" := Array([])] else original
  }

  function PermissionAnswer(original: Input, allowed: bool, updatedPermissions: Option<Json>): Result {
    if allowed then Allow(original, updatedPermissions) else Deny("User denied")
  }

  function PlanAnswer(original: Input, approved: bool, feedback: Option<string>, bypass: Option<bool>): Result {
    if approved then Allow(PlanInput(original, bypass), None) else Deny(feedback.GetOr("Plan rejected"))
  }

  function TimedOut(toolName: string): Result {
    Deny("Permission for " + toolName + " timed out")
  }

  // What an abort settles a request with.
  function Aborted(k: Kind): Result {
    match k
    case Permission => Deny("Request aborted")
    case Question => Deny("Question aborted")
    case Plan => Deny("Plan approval aborted")
    case Elicitation => Deny("Elicitation aborted")
  }

  // What a drain settles a request with: permissions and plans are denied, the others get an empty answer.
  function Drained(k: Kind, reason: string): Result {
    match k
    case Question => Allow(Answers(map[]), None)
    case Elicitation => Allow(Response(""), None)
    case _ => Deny(reason)
  }

  function Drain(h: Handler, k: Kind, reason: string): Handler {
    h.Settle(k, h.In(k), Drained(k, reason))
  }

  function Step(h: Handler, op: Op): Handler {
    match op
    case Ask(id, q) => Asked(h, id, q)
    case Timeout(id) =>
      if id in h.permissions && id in h.issued
      then h.Settle(Permission, {id}, TimedOut(h.issued[id].toolName)) else h
    case Abort(id) =>
      if id in h.permissions then h.Settle(Permission, {id}, Aborted(Permission))
      else if id in h.questions then h.Settle(Question, {id}, Aborted(Question))
      else if id in h.plans then h.Settle(Plan, {id}, Aborted(Plan))
      else if id in h.elicitations then h.Settle(Elicitation, {id}, Aborted(Elicitation))
      else h
    case ResolvePermission(id, allowed, updated) =>
      if id in h.permissions
      then h.Settle(Permission, {id}, PermissionAnswer(h.permissions[id], allowed, updated)) else h
    case ResolveQuestion(id, answers) =>
      if id in h.questions then h.Settle(Question, {id}, Allow(Answers(answers), None)) else h
    case ResolvePlan(id, approved, feedback, bypass) =>
      if id in h.plans then h.Settle(Plan, {id}, PlanAnswer(h.plans[id], approved, feedback, bypass)) else h
    case ResolveElicitation(id, response) =>
      if id in h.elicitations then h.Settle(Elicitation, {id}, Allow(Response(response), None)) else h
    case DrainAll =>
      var why := "Session closing";
      Drain(Drain(Drain(Drain(h, Permission, why), Question, why), Plan, why), Elicitation, why)
    case DrainInteractive =>
      var why := "Frontend disconnected";
      Drain(Drain(Drain(h, Question, why), Plan, why), Elicitation, why)
  }

  function Run(ops: seq<Op>): Handler {
    if ops == [] then Idle() else Step(Run(ops[..|ops| - 1]), ops[|ops| - 1])
  }

  /** The requests of a run, by id. */
  function Issued(ops: seq<Op>): map<RequestId, Request> {
    if ops == [] then map[]
    else
      var m, op := Issued(ops[..|ops| - 1]), ops[|ops| - 1];
      if op.Ask? then m[op.id := op.request] else m
  }

  /** Request ids are never reused. Answers, timers, aborts and drains may come in any order and for any id. */
  predicate FreshIds(ops: seq<Op>) {
    ops == []
    || (FreshIds(ops[..|ops| - 1])
        && (ops[|ops| - 1].Ask? ==> ops[|ops| - 1].id !in Issued(ops[..|ops| - 1])))
  }

  // ---- The invariant ----

  ghost predicate Waits(h: Handler, id: RequestId, k: Kind) {
    id in h.issued && h.issued[id].kind == k && id !in h.settled
  }

  /** Where a request waits is decided by its kind, and it waits there exactly until it is settled. */
  ghost predicate Placed(h: Handler) {
    forall k, id :: id in h.In(k) <==> Waits(h, id, k)
  }

  // Waiting permissions and plans still have the input they were asked with.
  ghost predicate Kept(h: Handler) {
    && (forall id :: id in h.permissions ==> id in h.issued && h.permissions[id] == h.issued[id].input)
    && (forall id :: id in h.plans ==> id in h.issued && h.plans[id] == h.issued[id].input)
  }

  // A timer runs exactly for the waiting permissions, and no promise was resolved twice.
  ghost predicate Counted(h: Handler) {
    && h.settled.Keys <= h.issued.Keys
    && h.timers == h.permissions.Keys
    && h.resolves == |h.settled|
  }

  ghost predicate Inv(h: Handler) {
    Placed(h) && Kept(h) && Counted(h)
  }

  lemma UnionSize(m: map<RequestId, Result>, n: map<RequestId, Result>)
    requires m.Keys !! n.Keys
    ensures |m + n| == |m| + |n|
  {
    assert (m + n).Keys == m.Keys + n.Keys;
    assert |(m + n).Keys| == |m + n|;
  }

  lemma AllSettled(ids: set<RequestId>, r: Result)
    ensures Each(ids, r).Keys == ids && |Each(ids, r)| == |ids|
  {
    assert Each(ids, r).Keys == ids;
  }

  lemma InSettle(h: Handler, k: Kind, ids: set<RequestId>, r: Result, j: Kind, id: RequestId)
    ensures id in h.Settle(k, ids, r).In(j) <==> id in h.In(j) && !(j == k && id in ids)
  {}

  lemma WaitsSettle(h: Handler, k: Kind, ids: set<RequestId>, r: Result, j: Kind, id: RequestId)
    ensures Waits(h.Settle(k, ids, r), id, j) <==> Waits(h, id, j) && id !in ids
  {}

  lemma PlacedSettle(h: Handler, k: Kind, ids: set<RequestId>, r: Result)
    requires Placed(h) && ids <= h.In(k)
    ensures Placed(h.Settle(k, ids, r))
  {
    hide Waits;
    var g := h.Settle(k, ids, r);
    forall j, id ensures id in g.In(j) <==> Waits(g, id, j) {
      hide *;
      InSettle(h, k, ids, r, j, id);
      WaitsSettle(h, k, ids, r, j, id);
      PlacedAt(h, j, id);
      PlacedAt(h, k, id);
      if id in ids && id in h.In(j) {
        OneKind(h, id, j, k);
      }
    }
  }

  lemma OneKind(h: Handler, id: RequestId, j: Kind, k: Kind)
    requires Waits(h, id, j) && Waits(h, id, k)
    ensures j == k
  {}

  lemma PlacedAt(h: Handler, k: Kind, id: RequestId)
    requires Placed(h)
    ensures id in h.In(k) <==> Waits(h, id, k)
  {
    hide Waits;
  }

  lemma KeptSettle(h: Handler, k: Kind, ids: set<RequestId>, r: Result)
    requires Kept(h)
    ensures Kept(h.Settle(k, ids, r))
  {}

  lemma TimersSettle(h: Handler, k: Kind, ids: set<RequestId>, r: Result)
    requires h.timers == h.permissions.Keys
    ensures var g := h.Settle(k, ids, r); g.timers == g.permissions.Keys
  {
    assert (h.permissions - ids).Keys == h.permissions.Keys - ids;
  }

  lemma SettledSize(h: Handler, k: Kind, ids: set<RequestId>, r: Result)
    requires h.settled.Keys !! ids
    ensures var g := h.Settle(k, ids, r); g.settled.Keys == h.settled.Keys + ids && |g.settled| == |h.settled| + |ids|
  {
    hide Each;
    AllSettled(ids, r);
    UnionSize(h.settled, Each(ids, r));
    assert (h.settled + Each(ids, r)).Keys == h.settled.Keys + ids;
  }

  lemma PlacedIds(h: Handler, k: Kind, ids: set<RequestId>)
    requires Placed(h) && ids <= h.In(k)
    ensures ids <= h.issued.Keys && h.settled.Keys !! ids
  {
    hide Placed;
    forall id | id in ids ensures id in h.issued && id !in h.settled {
      PlacedAt(h, k, id);
    }
  }

  lemma {:induction false} CountedSettle(h: Handler, k: Kind, ids: set<RequestId>, r: Result)
    requires Placed(h) && Counted(h) && ids <= h.In(k)
    ensures Counted(h.Settle(k, ids, r))
  {
    hide Placed;
    PlacedIds(h, k, ids);
    SettledSize(h, k, ids, r);
    TimersSettle(h, k, ids, r);
  }

  /** Settling requests that wait keeps the invariant. */
  lemma {:induction false} InvSettle(h: Handler, k: Kind, ids: set<RequestId>, r: Result)
    requires Inv(h) && ids <= h.In(k)
    ensures Inv(h.Settle(k, ids, r))
  {
    hide Placed, Kept, Counted;
    PlacedSettle(h, k, ids, r);
    KeptSettle(h, k, ids, r);
    CountedSettle(h, k, ids, r);
  }

  lemma InAsked(h: Handler, id: RequestId, q: Request, j: Kind, x: RequestId)
    ensures x in Asked(h, id, q).In(j) <==> x in h.In(j) || (x == id && j == q.kind)
  {}

  lemma WaitsAsked(h: Handler, id: RequestId, q: Request, j: Kind, x: RequestId)
    requires id !in h.settled
    ensures Waits(Asked(h, id, q), x, j) <==> if x == id then j == q.kind else Waits(h, x, j)
  {}

  lemma PlacedAsked(h: Handler, id: RequestId, q: Request)
    requires Placed(h) && id !in h.issued && id !in h.settled
    ensures Placed(Asked(h, id, q))
  {
    hide Waits, Asked;
    var g := Asked(h, id, q);
    forall j, x ensures x in g.In(j) <==> Waits(g, x, j) {
      InAsked(h, id, q, j, x);
      WaitsAsked(h, id, q, j, x);
      PlacedAt(h, j, x);
      NotWaiting(h, j, id);
    }
  }

  lemma NotWaiting(h: Handler, j: Kind, id: RequestId)
    requires id !in h.issued
    ensures !Waits(h, id, j)
  {}

  lemma {:induction false} InvAsked(h: Handler, id: RequestId, q: Request)
    requires Inv(h) && id !in h.issued
    ensures Inv(Asked(h, id, q))
  {
    hide Placed, Kept, Counted;
    NotYetSettled(h, id);
    PlacedAsked(h, id, q);
    KeptAsked(h, id, q);
    CountedAsked(h, id, q);
  }

  lemma NotYetSettled(h: Handler, id: RequestId)
    requires Counted(h) && id !in h.issued
    ensures id !in h.settled
  {}

  lemma KeptAsked(h: Handler, id: RequestId, q: Request)
    requires Kept(h) && id !in h.issued
    ensures Kept(Asked(h, id, q))
  {
    hide Kept, Asked;
    var g := Asked(h, id, q);
    forall x
      ensures x in g.permissions ==> x in g.issued && g.permissions[x] == g.issued[x].input
      ensures x in g.plans ==> x in g.issued && g.plans[x] == g.issued[x].input
    {
      KeptAt(h, x);
      AskedAt(h, id, q, x);
    }
    KeptIf(g);
  }

  // The maps with an input, after a request.
  lemma AskedAt(h: Handler, id: RequestId, q: Request, x: RequestId)
    ensures var g := Asked(h, id, q);
      && g.issued == h.issued[id := q]
      && (x in g.permissions ==> if x == id && q.kind == Permission then g.permissions[x] == q.input
           else x in h.permissions && g.permissions[x] == h.permissions[x])
      && (x in g.plans ==> if x == id && q.kind == Plan then g.plans[x] == q.input
           else x in h.plans && g.plans[x] == h.plans[x])
  {
    hide Handler.With;
    WithAt(h.(issued := h.issued[id := q]), q.kind, id, q.input, x);
  }

  lemma WithAt(h: Handler, k: Kind, id: RequestId, input: Input, x: RequestId)
    ensures var g := h.With(k, id, input);
      && g.issued == h.issued
      && (x in g.permissions ==> if x == id && k == Permission then g.permissions[x] == input
           else x in h.permissions && g.permissions[x] == h.permissions[x])
      && (x in g.plans ==> if x == id && k == Plan then g.plans[x] == input
           else x in h.plans && g.plans[x] == h.plans[x])
  {}

  lemma KeptAt(h: Handler, x: RequestId)
    requires Kept(h)
    ensures x in h.permissions ==> x in h.issued && h.permissions[x] == h.issued[x].input
    ensures x in h.plans ==> x in h.issued && h.plans[x] == h.issued[x].input
  {}

  lemma KeptIf(h: Handler)
    requires forall x :: x in h.permissions ==> x in h.issued && h.permissions[x] == h.issued[x].input
    requires forall x :: x in h.plans ==> x in h.issued && h.plans[x] == h.issued[x].input
    ensures Kept(h)
  {}

  lemma {:induction false} CountedAsked(h: Handler, id: RequestId, q: Request)
    requires Counted(h)
    ensures Counted(Asked(h, id, q))
  {
    if q.kind == Permission {
      assert Asked(h, id, q).timers == Asked(h, id, q).permissions.Keys;
    } else {
      assert Asked(h, id, q).timers == h.timers && Asked(h, id, q).permissions == h.permissions;
    }
  }

  lemma {:induction false} InvStep(h: Handler, op: Op)
    requires Inv(h) && (op.Ask? ==> op.id !in h.issued)
    ensures Inv(Step(h, op))
  {
    hide Inv, Asked, Drain, TimedOut, Aborted, PermissionAnswer, PlanAnswer, Answers, Response;
    hide Handler.Settle;
    match op
    case Ask(id, q) => InvAsked(h, id, q);
    case Timeout(id) =>
      if id in h.permissions && id in h.issued {
        InvSettle(h, Permission, {id}, TimedOut(h.issued[id].toolName));
      }
    case Abort(id) =>
      if id in h.In(Permission) {
        InvSettle(h, Permission, {id}, Aborted(Permission));
      } else if id in h.In(Question) {
        InvSettle(h, Question, {id}, Aborted(Question));
      } else if id in h.In(Plan) {
        InvSettle(h, Plan, {id}, Aborted(Plan));
      } else if id in h.In(Elicitation) {
        InvSettle(h, Elicitation, {id}, Aborted(Elicitation));
      }
    case ResolvePermission(id, allowed, updated) =>
      if id in h.permissions {
        InvSettle(h, Permission, {id}, PermissionAnswer(h.permissions[id], allowed, updated));
      }
    case ResolveQuestion(id, answers) =>
      if id in h.questions {
        InvSettle(h, Question, {id}, Allow(Answers(answers), None));
      }
    case ResolvePlan(id, approved, feedback, bypass) =>
      if id in h.plans {
        InvSettle(h, Plan, {id}, PlanAnswer(h.plans[id], approved, feedback, bypass));
      }
    case ResolveElicitation(id, response) =>
      if id in h.elicitations {
        InvSettle(h, Elicitation, {id}, Allow(Response(response), None));
      }
    case DrainAll =>
      var why := "Session closing";
      InvDrain(h, Permission, why);
      InvDrain(Drain(h, Permission, why), Question, why);
      InvDrain(Drain(Drain(h, Permission, why), Question, why), Plan, why);
      InvDrain(Drain(Drain(Drain(h, Permission, why), Question, why), Plan, why), Elicitation, why);
    case DrainInteractive =>
      var why := "Frontend disconnected";
      InvDrain(h, Question, why);
      InvDrain(Drain(h, Question, why), Plan, why);
      InvDrain(Drain(Drain(h, Question, why), Plan, why), Elicitation, why);
  }

  lemma {:induction false} InvDrain(h: Handler, k: Kind, why: string)
    requires Inv(h)
    ensures Inv(Drain(h, k, why))
  {
    InvSettle(h, k, h.In(k), Drained(k, why));
  }

  // ---- What a run should do, read off its operations ----

  /** What an operation says about a waiting request, if it concerns it at all. */
  function Verdict(op: Op, id: RequestId, q: Request): Option<Result> {
    match op
    case Ask(_, _) => None
    case Timeout(i) => if i == id && q.kind == Permission then Some(TimedOut(q.toolName)) else None
    case Abort(i) => if i == id then Some(Aborted(q.kind)) else None
    case ResolvePermission(i, allowed, updated) =>
      if i == id && q.kind == Permission then Some(PermissionAnswer(q.input, allowed, updated)) else None
    case ResolveQuestion(i, answers) =>
      if i == id && q.kind == Question then Some(Allow(Answers(answers), None)) else None
    case ResolvePlan(i, approved, feedback, bypass) =>
      if i == id && q.kind == Plan then Some(PlanAnswer(q.input, approved, feedback, bypass)) else None
    case ResolveElicitation(i, response) =>
      if i == id && q.kind == Elicitation then Some(Allow(Response(response), None)) else None
    case DrainAll => Some(Drained(q.kind, "Session closing"))
    case DrainInteractive =>
      if q.kind != Permission then Some(Drained(q.kind, "Frontend disconnected")) else None
  }

  /** The first verdict on a request after it was asked. */
  function Fate(ops: seq<Op>, id: RequestId): Option<Result> {
    if ops == [] then None
    else
      var prefix, op := ops[..|ops| - 1], ops[|ops| - 1];
      if Fate(prefix, id).Some? then Fate(prefix, id)
      else if id in Issued(prefix) then Verdict(op, id, Issued(prefix)[id])
      else None
  }

  function Settled(h: Handler, id: RequestId): Option<Result> {
    if id in h.settled then Some(h.settled[id]) else None
  }

  // Settling a set of waiting requests, for one request.
  lemma SettledBySettle(h: Handler, k: Kind, ids: set<RequestId>, r: Result, id: RequestId)
    ensures Settled(h.Settle(k, ids, r), id) == if id in ids then Some(r) else Settled(h, id)
    ensures h.Settle(k, ids, r).issued == h.issued
  {}

  lemma {:induction false} SettledByDrain(h: Handler, k: Kind, why: string, id: RequestId)
    requires Inv(h)
    ensures Settled(Drain(h, k, why), id) ==
      if Waits(h, id, k) then Some(Drained(k, why)) else Settled(h, id)
    ensures Inv(Drain(h, k, why)) && Drain(h, k, why).issued == h.issued
  {
    hide Inv, Waits;
    PlacedAt(h, k, id) by { assert Placed(h) by { InvPlaced(h); } }
    SettledBySettle(h, k, h.In(k), Drained(k, why), id);
    InvDrain(h, k, why);
  }

  lemma InvPlaced(h: Handler)
    requires Inv(h)
    ensures Placed(h)
  {}

  /** One operation settles what waits and has its verdict, and nothing else. */
  lemma {:induction false} StepSettles(h: Handler, op: Op, id: RequestId)
    requires Inv(h) && (op.Ask? ==> op.id !in h.issued)
    ensures Settled(Step(h, op), id) ==
      if Settled(h, id).Some? then Settled(h, id)
      else if id in h.issued then Verdict(op, id, h.issued[id])
      else None
    ensures Step(h, op).issued == if op.Ask? then h.issued[op.id := op.request] else h.issued
  {
    hide Verdict, Inv, Step;
    match op
    case Ask(_, _) => AskSettles(h, op, id);
    case DrainAll => DrainAllSettles(h, id);
    case DrainInteractive => DrainInteractiveSettles(h, id);
    case _ => AnswerSettles(h, op, id);
  }

  lemma AskSettles(h: Handler, op: Op, id: RequestId)
    requires Inv(h) && op.Ask?
    ensures Settled(Step(h, op), id) == Settled(h, id)
    ensures forall q :: Verdict(op, id, q) == None
    ensures Step(h, op).issued == h.issued[op.id := op.request]
    ensures id in h.settled ==> id in h.issued
  {
    hide Inv, Handler.With;
    InvKept(h);
    WithKeeps(h.(issued := h.issued[op.id := op.request]), op.request.kind, op.id, op.request.input);
  }

  lemma WithKeeps(h: Handler, k: Kind, id: RequestId, input: Input)
    ensures h.With(k, id, input).settled == h.settled && h.With(k, id, input).issued == h.issued
  {}

  lemma AnswerSettles(h: Handler, op: Op, id: RequestId)
    requires Inv(h) && !op.Ask? && !op.DrainAll? && !op.DrainInteractive?
    ensures Settled(Step(h, op), id) ==
      if Settled(h, id).Some? then Settled(h, id)
      else if id in h.issued then Verdict(op, id, h.issued[id])
      else None
    ensures Step(h, op).issued == h.issued
  {
    hide Inv, Placed, TimedOut, Answers, Response, PermissionAnswer, PlanAnswer, Aborted;
    InvPlaced(h);
    InvKept(h);
    PlacedAt(h, Permission, op.id);
    PlacedAt(h, Question, op.id);
    PlacedAt(h, Plan, op.id);
    PlacedAt(h, Elicitation, op.id);
    KeptAt(h, op.id);
  }

  lemma InvKept(h: Handler)
    requires Inv(h)
    ensures Kept(h) && h.settled.Keys <= h.issued.Keys
  {}

  lemma DrainInteractiveSettles(h: Handler, id: RequestId)
    requires Inv(h)
    ensures Settled(Step(h, DrainInteractive), id) ==
      if Settled(h, id).Some? then Settled(h, id)
      else if id in h.issued then Verdict(DrainInteractive, id, h.issued[id])
      else None
    ensures Step(h, DrainInteractive).issued == h.issued
  {
    hide Inv, Drain, Drained;
    var why := "Frontend disconnected";
    InvKept(h);
    SettledByDrain(h, Question, why, id);
    var h1 := Drain(h, Question, why);
    SettledByDrain(h1, Plan, why, id);
    var h2 := Drain(h1, Plan, why);
    SettledByDrain(h2, Elicitation, why, id);
  }

  lemma DrainAllSettles(h: Handler, id: RequestId)
    requires Inv(h)
    ensures Settled(Step(h, DrainAll), id) ==
      if Settled(h, id).Some? then Settled(h, id)
      else if id in h.issued then Verdict(DrainAll, id, h.issued[id])
      else None
    ensures Step(h, DrainAll).issued == h.issued
  {
    hide Inv, Drain, Drained;
    var why := "Session closing";
    InvKept(h);
    SettledByDrain(h, Permission, why, id);
    var h1 := Drain(h, Permission, why);
    SettledByDrain(h1, Question, why, id);
    var h2 := Drain(h1, Question, why);
    SettledByDrain(h2, Plan, why, id);
    var h3 := Drain(h2, Plan, why);
    SettledByDrain(h3, Elicitation, why, id);
  }

  /** Over every run, whatever the interleaving, a promise is settled with the first verdict on its request, and the
    * four maps, the timers and the count of resolve calls agree with that. */
  lemma {:induction false} FirstVerdictWins(ops: seq<Op>)
    requires FreshIds(ops)
    ensures Inv(Run(ops)) && Run(ops).issued == Issued(ops)
    ensures forall id :: Settled(Run(ops), id) == Fate(ops, id)
  {
    hide Inv, Step, Verdict;
    if ops == [] {
      InvIdle();
    } else {
      var prefix, op := ops[..|ops| - 1], ops[|ops| - 1];
      FirstVerdictWins(prefix);
      InvStep(Run(prefix), op);
      StepSettles(Run(prefix), op, 0);
      forall id ensures Settled(Run(ops), id) == Fate(ops, id) {
        StepSettles(Run(prefix), op, id);
      }
    }
  }

  lemma InvIdle()
    ensures Inv(Idle())
  {}

  // ---- Consequences ----

  /** Unsettled requests wait in exactly one of the four maps; settled ones in none. */
  lemma ExactlyOneMap(ops: seq<Op>, id: RequestId)
    requires FreshIds(ops)
    ensures id in Issued(ops) && Fate(ops, id) == None <==> exists k :: id in Run(ops).In(k)
    ensures forall j, k :: id in Run(ops).In(j) && id in Run(ops).In(k) ==> j == k
  {
    hide Inv, Run, Fate, Placed;
    var h := Run(ops);
    FirstVerdictWins(ops);
    InvPlaced(h);
    assert Settled(h, id) == Fate(ops, id);
    forall k ensures id in h.In(k) <==> Waits(h, id, k) {
      PlacedAt(h, k, id);
    }
    if id in Issued(ops) && Fate(ops, id) == None {
      assert Waits(h, id, h.issued[id].kind);
    }
  }

  /** pendingCount is what was issued less what was settled, and every promise was resolved at most once. */
  lemma PendingIsUnsettled(ops: seq<Op>)
    requires FreshIds(ops)
    ensures var h := Run(ops);
      && h.PendingCount() == |h.issued| - |h.settled|
      && h.resolves == |h.settled|
      && h.timers == h.permissions.Keys
  {
    hide Inv, Run;
    FirstVerdictWins(ops);
    CountPending(Run(ops));
    InvCounted(Run(ops));
  }

  lemma InvCounted(h: Handler)
    requires Inv(h)
    ensures Counted(h)
  {}

  lemma CountPending(h: Handler)
    requires Inv(h)
    ensures h.PendingCount() == |h.issued| - |h.settled|
  {
    hide Inv, Placed, Waits;
    InvPlaced(h);
    InvKept(h);
    forall id {
      WhichMap(h, id);
    }
    Partition(h.In(Permission), h.In(Question), h.In(Plan), h.In(Elicitation), h.issued.Keys, h.settled.Keys);
  }

  predicate AtMostOne(a: bool, b: bool, c: bool, d: bool) {
    !(a && b) && !((a || b) && c) && !((a || b || c) && d)
  }

  lemma WhichMap(h: Handler, id: RequestId)
    requires Placed(h)
    ensures (id in h.In(Permission) || id in h.In(Question) || id in h.In(Plan) || id in h.In(Elicitation)) <==>
      id in h.issued && id !in h.settled
    ensures AtMostOne(id in h.In(Permission), id in h.In(Question), id in h.In(Plan), id in h.In(Elicitation))
  {
    hide Placed;
    PlacedAt(h, Permission, id);
    PlacedAt(h, Question, id);
    PlacedAt(h, Plan, id);
    PlacedAt(h, Elicitation, id);
  }

  lemma Partition(a: set<nat>, b: set<nat>, c: set<nat>, d: set<nat>, all: set<nat>, gone: set<nat>)
    requires gone <= all
    requires forall id :: (id in a || id in b || id in c || id in d) <==> id in all && id !in gone
    requires forall id :: AtMostOne(id in a, id in b, id in c, id in d)
    ensures |a| + |b| + |c| + |d| == |all| - |gone|
  {
    assert a !! b && (a + b) !! c && (a + b + c) !! d by {
      forall id ensures AtMostOne(id in a, id in b, id in c, id in d) {}
    }
    assert |a + b| == |a| + |b|;
    assert |a + b + c| == |a + b| + |c|;
    assert |a + b + c + d| == |a + b + c| + |d|;
    assert all == gone + (a + b + c + d);
    assert |all| == |gone| + |a + b + c + d|;
  }

  /** After drainAll nothing is left unsettled. */
  lemma {:induction false} DrainAllSettlesEverything(ops: seq<Op>)
    requires FreshIds(ops) && ops != [] && ops[|ops| - 1] == DrainAll
    ensures forall id :: id in Issued(ops) ==> Fate(ops, id).Some?
    ensures Run(ops).PendingCount() == 0
  {
    hide Run, Verdict, FreshIds;
    var prefix := ops[..|ops| - 1];
    forall id | id in Issued(ops) ensures Fate(ops, id).Some? {
      HasVerdict(id, Issued(prefix)[id]);
    }
    FirstVerdictWins(ops);
    PendingIsUnsettled(ops);
    assert Run(ops).settled.Keys == Run(ops).issued.Keys by {
      NoneLeft(ops);
    }
    assert |Run(ops).settled.Keys| == |Run(ops).issued.Keys|;
  }

  lemma HasVerdict(id: RequestId, q: Request)
    ensures Verdict(DrainAll, id, q).Some?
  {}

  lemma NoneLeft(ops: seq<Op>)
    requires FreshIds(ops)
    requires forall id :: id in Issued(ops) ==> Fate(ops, id).Some?
    ensures Run(ops).settled.Keys == Run(ops).issued.Keys
  {
    hide Run, FreshIds, Issued, Fate, Inv;
    FirstVerdictWins(ops);
    InvKept(Run(ops));
    forall id | id in Run(ops).issued ensures id in Run(ops).settled {
      assert Settled(Run(ops), id).Some?;
    }
  }

  lemma {:induction false} FateIsFinal(ops: seq<Op>, more: seq<Op>, id: RequestId)
    requires Fate(ops, id).Some?
    ensures Fate(ops + more, id) == Fate(ops, id)
  {
    if more == [] {
      assert ops + more == ops;
    } else {
      assert (ops + more)[..|ops + more| - 1] == ops + more[..|more| - 1];
      FateIsFinal(ops, more[..|more| - 1], id);
    }
  }

  /** The operation at i finds the request waiting. */
  ghost predicate WaitsAt(ops: seq<Op>, i: nat, id: RequestId) {
    i < |ops| && id in Issued(ops[..i]) && Fate(ops[..i], id) == None
  }

  lemma {:induction false} IssuedStays(ops: seq<Op>, i: nat, id: RequestId)
    requires FreshIds(ops) && i <= |ops| && id in Issued(ops[..i])
    ensures id in Issued(ops) && Issued(ops)[id] == Issued(ops[..i])[id]
  {
    if i == |ops| {
      assert ops[..i] == ops;
    } else {
      var prefix := ops[..|ops| - 1];
      assert prefix[..i] == ops[..i];
      IssuedStays(prefix, i, id);
    }
  }

  // A settled request was settled by one operation that found it waiting.
  lemma {:induction false} SettledBy(ops: seq<Op>, id: RequestId) returns (i: nat)
    requires Fate(ops, id).Some?
    ensures WaitsAt(ops, i, id) && Verdict(ops[i], id, Issued(ops[..i])[id]) == Fate(ops, id)
  {
    hide Verdict, Issued;
    var prefix := ops[..|ops| - 1];
    if Fate(prefix, id).Some? {
      i := SettledBy(prefix, id);
      assert prefix[..i] == ops[..i];
    } else {
      i := |ops| - 1;
    }
  }

  // An operation that finds the request waiting and has a verdict on it settles it.
  lemma Settles(ops: seq<Op>, i: nat, id: RequestId)
    requires WaitsAt(ops, i, id) && Verdict(ops[i], id, Issued(ops[..i])[id]).Some?
    ensures Fate(ops, id) == Verdict(ops[i], id, Issued(ops[..i])[id])
  {
    hide Verdict, Issued;
    var prefix := ops[..i + 1];
    assert prefix[..i] == ops[..i];
    assert Fate(prefix, id) == Verdict(ops[i], id, Issued(ops[..i])[id]);
    FateIsFinal(prefix, ops[i + 1..], id);
    assert prefix + ops[i + 1..] == ops;
  }

  // The operation at i answers a waiting permission with yes.
  ghost predicate SaysYes(ops: seq<Op>, i: nat, id: RequestId) {
    WaitsAt(ops, i, id) && ops[i].ResolvePermission? && ops[i].id == id && ops[i].allowed
  }

  /** A permission is allowed exactly if an explicit yes arrived while it waited; it then runs with its original
    * input. */
  lemma PermissionNeedsYes(ops: seq<Op>, id: RequestId)
    requires FreshIds(ops) && id in Issued(ops) && Issued(ops)[id].kind == Permission
    ensures (Fate(ops, id).Some? && Fate(ops, id).value.Allow?) <==> exists i: nat :: SaysYes(ops, i, id)
    ensures forall i: nat :: SaysYes(ops, i, id) ==>
      Fate(ops, id) == Some(Allow(Issued(ops)[id].input, ops[i].updatedPermissions))
  {
    hide Issued, Fate, FreshIds;
    forall i: nat | SaysYes(ops, i, id)
      ensures Fate(ops, id) == Some(Allow(Issued(ops)[id].input, ops[i].updatedPermissions))
    {
      IssuedStays(ops, i, id);
      Settles(ops, i, id);
    }
    if Fate(ops, id).Some? && Fate(ops, id).value.Allow? {
      var i := SettledBy(ops, id);
      IssuedStays(ops, i, id);
      assert SaysYes(ops, i, id);
    }
  }

  // The operation at i approves a waiting plan.
  ghost predicate Approves(ops: seq<Op>, i: nat, id: RequestId) {
    WaitsAt(ops, i, id) && ops[i].ResolvePlan? && ops[i].id == id && ops[i].approved
  }

  /** A plan is allowed exactly if an explicit approval arrived while it waited; it then runs with its original input,
    * except that allowedPrompts is emptied if the user wants to approve edits manually. */
  lemma PlanNeedsYes(ops: seq<Op>, id: RequestId)
    requires FreshIds(ops) && id in Issued(ops) && Issued(ops)[id].kind == Plan
    ensures (Fate(ops, id).Some? && Fate(ops, id).value.Allow?) <==> exists i: nat :: Approves(ops, i, id)
    ensures forall i: nat :: Approves(ops, i, id) ==>
      && Fate(ops, id).Some? && Fate(ops, id).value.Allow? && Fate(ops, id).value.updatedPermissions == None
      && var before, after := Issued(ops)[id].input, Fate(ops, id).value.updatedInput;
      && (ops[i].bypassPermissions != Some(false) ==> after == before)
      && (ops[i].bypassPermissions == Some(false) ==>
            && "allowedPrompts" in after && after["allowedPrompts"] == Array([])
            && after - {"allowedPrompts"} == before - {"allowedPrompts"})
  {
    hide Issued, Fate, FreshIds;
    forall i: nat | Approves(ops, i, id)
      ensures Fate(ops, id) == Some(Allow(PlanInput(Issued(ops)[id].input, ops[i].bypassPermissions), None))
    {
      IssuedStays(ops, i, id);
      Settles(ops, i, id);
    }
    if Fate(ops, id).Some? && Fate(ops, id).value.Allow? {
      var i := SettledBy(ops, id);
      IssuedStays(ops, i, id);
      assert Approves(ops, i, id);
    }
  }

  // ---- Tool by tool ----

  /** Every request went to the handler of its tool. */
  ghost predicate ByTool(ops: seq<Op>) {
    forall i :: 0 <= i < |ops| && ops[i].Ask? ==>
      ops[i].request.kind == KindOf(ops[i].request.toolName, ops[i].request.input)
  }

  lemma {:induction false} IssuedByTool(ops: seq<Op>, id: RequestId)
    requires ByTool(ops) && id in Issued(ops)
    ensures Issued(ops)[id].kind == KindOf(Issued(ops)[id].toolName, Issued(ops)[id].input)
  {
    var prefix, op := ops[..|ops| - 1], ops[|ops| - 1];
    if !(op.Ask? && op.id == id) {
      IssuedByTool(prefix, id);
    }
  }

  /** A tool that a user is asked for, without being one that asks the user something. */
  ghost predicate NeedsPermission(toolName: string, input: Input) {
    && toolName != "AskUserQuestion" && toolName != "ExitPlanMode"
    && (toolName in {"Read", "Edit", "Write", "Bash", "Grep", "Glob"} || !Prompts(input))
  }

  /** What an operation that finds the call of a tool waiting settles it with, if anything. */
  ghost predicate SettlesWith(op: Op, id: RequestId, toolName: string, input: Input, r: Result) {
    var asks := !NeedsPermission(toolName, input) && toolName != "AskUserQuestion" && toolName != "ExitPlanMode";
    match op
    case Ask(_, _) => false
    case Timeout(i) =>
      i == id && NeedsPermission(toolName, input) && r == Deny("Permission for " + toolName + " timed out")
    case Abort(i) =>
      && i == id
      && r == Deny(
        if toolName == "AskUserQuestion" then "Question aborted"
        else if toolName == "ExitPlanMode" then "Plan approval aborted"
        else if asks then "Elicitation aborted"
        else "Request aborted")
    case ResolvePermission(i, allowed, updated) =>
      i == id && NeedsPermission(toolName, input) && r == if allowed then Allow(input, updated) else Deny("User denied")
    case ResolveQuestion(i, answers) =>
      i == id && toolName == "AskUserQuestion" && r == Allow(map["answers" := Object(answers)], None)
    case ResolvePlan(i, approved, feedback, bypass) =>
      && i == id && toolName == "ExitPlanMode"
      && r ==
        if approved then Allow(if bypass == Some(false) then input["allowedPrompts" := Array([])] else input, None)
        else Deny(if feedback.Some? then feedback.value else "Plan rejected")
    case ResolveElicitation(i, response) =>
      i == id && asks && r == Allow(map["response" := String(response)], None)
    case DrainAll =>
      r ==
        if toolName == "AskUserQuestion" then Allow(map["answers" := Object(map[])], None)
        else if asks then Allow(map["response" := String("")], None)
        else Deny("Session closing")
    case DrainInteractive =>
      && !NeedsPermission(toolName, input)
      && r ==
        if toolName == "AskUserQuestion" then Allow(map["answers" := Object(map[])], None)
        else if asks then Allow(map["response" := String("")], None)
        else Deny("Frontend disconnected")
  }

  lemma VerdictByTool(op: Op, id: RequestId, q: Request, r: Result)
    requires q.kind == KindOf(q.toolName, q.input)
    ensures Verdict(op, id, q) == Some(r) <==> SettlesWith(op, id, q.toolName, q.input, r)
  {
    hide Prompts;
  }

  /** Over every run: the promise of a tool call is settled with r if and only if some operation found it waiting and
    * settles the call of this tool with r. */
  lemma SettledByTool(ops: seq<Op>, id: RequestId, r: Result)
    requires FreshIds(ops) && ByTool(ops) && id in Issued(ops)
    ensures var q := Issued(ops)[id];
      Fate(ops, id) == Some(r) <==>
        exists i: nat :: WaitsAt(ops, i, id) && SettlesWith(ops[i], id, q.toolName, q.input, r)
  {
    hide Issued, Fate, FreshIds, ByTool, Verdict, SettlesWith;
    var q := Issued(ops)[id];
    IssuedByTool(ops, id);
    forall i: nat | WaitsAt(ops, i, id)
      ensures SettlesWith(ops[i], id, q.toolName, q.input, r) ==> Fate(ops, id) == Some(r)
    {
      IssuedStays(ops, i, id);
      VerdictByTool(ops[i], id, q, r);
      if SettlesWith(ops[i], id, q.toolName, q.input, r) {
        Settles(ops, i, id);
      }
    }
    if Fate(ops, id) == Some(r) {
      var i := SettledBy(ops, id);
      IssuedStays(ops, i, id);
      VerdictByTool(ops[i], id, q, r);
    }
  }

  /** The plan of an ExitPlanMode call is allowed if and only if resolvePlan(id, true) found it waiting: neither an
    * answer of another kind nor a drain allows it. */
  lemma ExitPlanModeNeedsYes(ops: seq<Op>, id: RequestId)
    requires FreshIds(ops) && ByTool(ops) && id in Issued(ops) && Issued(ops)[id].toolName == "ExitPlanMode"
    ensures (Fate(ops, id).Some? && Fate(ops, id).value.Allow?) <==>
      exists i: nat :: WaitsAt(ops, i, id) && ops[i].ResolvePlan? && ops[i].id == id && ops[i].approved
  {
    hide Fate, FreshIds, ByTool, Issued;
    IssuedByTool(ops, id);
    PlanNeedsYes(ops, id);
    if i: nat :| Approves(ops, i, id) {
      assert WaitsAt(ops, i, id) && ops[i].ResolvePlan? && ops[i].id == id && ops[i].approved;
    }
    if i: nat :| WaitsAt(ops, i, id) && ops[i].ResolvePlan? && ops[i].id == id && ops[i].approved {
      assert Approves(ops, i, id);
    }
  }
}
