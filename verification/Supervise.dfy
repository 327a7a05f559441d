/** The crash supervisor of the launcher: restart the server after a crash, but only so often in any window of time. */
module Supervise {
  import opened Options

  datatype ExitClass = Normal | UserStop | Crash

  /** Why a child ended. A code is missing when a signal killed it, and a signal is missing otherwise. */
  datatype Disposition = Disposition(code: Option<int>, signal: Option<string>)

  predicate IsUserStop(signal: string) {
    signal in {"SIGINT", "SIGTERM", "SIGHUP"}
  }

  // An empty signal name counts as no signal.
  function ClassifyExit(d: Disposition): (c: ExitClass)
    ensures c == Normal <==> d.code == Some(0) && (d.signal == None || d.signal == Some(""))
    ensures c == UserStop <==> d.signal == Some("SIGINT") || d.signal == Some("SIGTERM") || d.signal == Some("SIGHUP")
  {
    if d.signal.Some? && d.signal.value != "" then
      if IsUserStop(d.signal.value) then UserStop else Crash
    else if d.code == Some(0) then Normal
    else Crash
  }

  function Recent(crashTimes: seq<int>, now: int, windowMs: int): seq<int> {
    if crashTimes == [] then []
    else
      var rest, t := Recent(crashTimes[..|crashTimes| - 1], now, windowMs), crashTimes[|crashTimes| - 1];
      if now - t < windowMs then rest + [t] else rest
  }

  predicate ShouldRestart(exitClass: ExitClass, crashTimes: seq<int>, now: int, maxRestarts: int, windowMs: int) {
    exitClass == Crash && |Recent(crashTimes, now, windowMs)| < maxRestarts
  }

  /** What a child launched so far may emit, in any number and order, and what the clock shows then. */
  datatype Event =
    | Error(launch: nat)
    | Exit(launch: nat, disposition: Disposition, now: int)

  datatype Config = Config(maxRestarts: int, windowMs: int)

  /** `settled` has a flag for each launch and `exits` the calls of onExit. The history holds the time of each restart
    * and, in order, the launches that caused a restart or the exit. */
  datatype Supervisor = Supervisor(
    crashTimes: seq<int>, settled: seq<bool>, exits: seq<Disposition>, restarts: seq<int>, acted: seq<nat>)
  {
    predicate Emits(launch: nat) {
      launch < |settled|
    }

    function Terminate(launch: nat, d: Disposition): Supervisor
      requires Emits(launch)
    {
      if settled[launch] then this
      else this.(settled := settled[launch := true], exits := exits + [d], acted := acted + [launch])
    }

    function Restart(launch: nat, now: int): Supervisor
      requires Emits(launch)
    {
      if settled[launch] then this
      else this.(
        settled := settled[launch := true] + [false], restarts := restarts + [now], acted := acted + [launch])
    }
  }

  function Launched(): Supervisor {
    Supervisor([], [false], [], [], [])
  }

  predicate Restartable(cfg: Config, s: Supervisor, e: Event) {
    e.Exit? && ShouldRestart(ClassifyExit(e.disposition), s.crashTimes, e.now, cfg.maxRestarts, cfg.windowMs)
  }

  // A child that was never launched emits nothing.
  function Step(cfg: Config, s: Supervisor, e: Event): Supervisor {
    if !s.Emits(e.launch) then s
    else match e
      case Error(launch) => s.Terminate(launch, Disposition(Some(1), None))
      case Exit(launch, d, now) =>
        if Restartable(cfg, s, e) then s.(crashTimes := s.crashTimes + [now]).Restart(launch, now)
        else s.Terminate(launch, d)
  }

  function Run(cfg: Config, events: seq<Event>): Supervisor {
    if events == [] then Launched() else Step(cfg, Run(cfg, events[..|events| - 1]), events[|events| - 1])
  }

  // ---- One life line ----

  /** Every launch but the last is settled, and the last one is settled exactly once onExit was called. Each launch
    * caused one restart or the exit at most, in the order of the launches. */
  ghost predicate OneLifeLine(s: Supervisor) {
    && |s.exits| <= 1
    && |s.settled| == 1 + |s.restarts|
    && (forall i :: 0 <= i < |s.settled| - 1 ==> s.settled[i])
    && (s.settled[|s.settled| - 1] <==> |s.exits| == 1)
    && |s.acted| == |s.restarts| + |s.exits|
    && (forall i :: 0 <= i < |s.acted| ==> s.acted[i] == i)
    && |s.restarts| <= |s.crashTimes|
  }

  lemma StepKeepsLifeLine(cfg: Config, s: Supervisor, e: Event)
    requires OneLifeLine(s)
    ensures OneLifeLine(Step(cfg, s, e))
  {
    hide Restartable;
  }

  lemma {:induction false} LifeLine(cfg: Config, events: seq<Event>)
    ensures OneLifeLine(Run(cfg, events))
  {
    hide Step;
    if events != [] {
      LifeLine(cfg, events[..|events| - 1]);
      StepKeepsLifeLine(cfg, Run(cfg, events[..|events| - 1]), events[|events| - 1]);
    }
  }

  lemma RunAppend(cfg: Config, events: seq<Event>, e: Event)
    ensures Run(cfg, events + [e]) == Step(cfg, Run(cfg, events), e)
  {
    assert (events + [e])[..|events|] == events;
  }

  /** After onExit nothing is spawned and onExit is not called again. */
  lemma {:induction false} NothingAfterExit(cfg: Config, events: seq<Event>, more: seq<Event>)
    requires Run(cfg, events).exits != []
    ensures Run(cfg, events + more).exits == Run(cfg, events).exits
    ensures Run(cfg, events + more).settled == Run(cfg, events).settled
  {
    if more == [] {
      assert events + more == events;
    } else {
      var prefix, e := more[..|more| - 1], more[|more| - 1];
      NothingAfterExit(cfg, events, prefix);
      LifeLine(cfg, events + prefix);
      RunAppend(cfg, events + prefix, e);
      assert events + prefix + [e] == events + more;
    }
  }

  /** A clean exit and a deliberate stop are passed on and end the life line; so does a failed spawn. */
  lemma StopsAreFinal(cfg: Config, events: seq<Event>, e: Event, more: seq<Event>)
    requires var s := Run(cfg, events); s.Emits(e.launch) && !s.settled[e.launch]
    requires e.Exit? ==> ClassifyExit(e.disposition) != Crash
    ensures Run(cfg, events + [e] + more).exits == [if e.Exit? then e.disposition else Disposition(Some(1), None)]
    ensures |Run(cfg, events + [e] + more).settled| == |Run(cfg, events).settled|
  {
    LifeLine(cfg, events);
    RunAppend(cfg, events, e);
    NothingAfterExit(cfg, events + [e], more);
  }

  // ---- The sliding window ----

  /** The times in [from, to). */
  function Within(times: seq<int>, from: int, to: int): seq<int> {
    if times == [] then []
    else
      var rest, t := Within(times[..|times| - 1], from, to), times[|times| - 1];
      if from <= t < to then rest + [t] else rest
  }

  lemma {:induction false} WindowIsRecent(times: seq<int>, from: int, windowMs: int, now: int)
    requires from <= now < from + windowMs
    ensures |Within(times, from, from + windowMs)| <= |Recent(times, now, windowMs)|
  {
    if times != [] {
      WindowIsRecent(times[..|times| - 1], from, windowMs, now);
    }
  }

  function AtLeastZero(n: int): nat {
    if n < 0 then 0 else n
  }

  lemma WithinAppend(times: seq<int>, t: int, from: int, to: int)
    ensures |Within(times + [t], from, to)| == |Within(times, from, to)| + if from <= t < to then 1 else 0
  {
    assert (times + [t])[..|times|] == times;
  }

  // A step records at most one crash, only within the budget, and restarts only what it records.
  lemma StepRecords(cfg: Config, s: Supervisor, e: Event)
    ensures var s' := Step(cfg, s, e);
      || (s'.crashTimes == s.crashTimes && s'.restarts == s.restarts)
      || (e.Exit? && |Recent(s.crashTimes, e.now, cfg.windowMs)| < cfg.maxRestarts
          && s'.crashTimes == s.crashTimes + [e.now]
          && (s'.restarts == s.restarts || s'.restarts == s.restarts + [e.now]))
  {
    hide Recent, ClassifyExit;
  }

  /** Whatever the clock does, every window of windowMs holds at most maxRestarts recorded crashes, and no more
    * restarts than recorded crashes. */
  lemma {:induction false} WindowBound(cfg: Config, events: seq<Event>, from: int)
    ensures var s, to := Run(cfg, events), from + cfg.windowMs;
      |Within(s.restarts, from, to)| <= |Within(s.crashTimes, from, to)| <= AtLeastZero(cfg.maxRestarts)
  {
    if events != [] {
      hide Run, Step, Within, Recent;
      var s, e, to := Run(cfg, events[..|events| - 1]), events[|events| - 1], from + cfg.windowMs;
      WindowBound(cfg, events[..|events| - 1], from);
      RunLast(cfg, events);
      StepRecords(cfg, s, e);
      if e.Exit? {
        WithinAppend(s.crashTimes, e.now, from, to);
        WithinAppend(s.restarts, e.now, from, to);
        if from <= e.now < to {
          WindowIsRecent(s.crashTimes, from, cfg.windowMs, e.now);
        }
      }
    }
  }

  lemma RunLast(cfg: Config, events: seq<Event>)
    requires events != []
    ensures Run(cfg, events) == Step(cfg, Run(cfg, events[..|events| - 1]), events[|events| - 1])
  {}

  ghost predicate ClockNeverGoesBack(events: seq<Event>) {
    forall i, j :: 0 <= i < j < |events| && events[i].Exit? && events[j].Exit? ==> events[i].now <= events[j].now
  }

  lemma {:induction false} RecordedAreSeen(cfg: Config, events: seq<Event>)
    ensures forall t :: t in Run(cfg, events).crashTimes ==>
      exists i :: 0 <= i < |events| && events[i].Exit? && events[i].now == t
  {
    if events != [] {
      hide Step, Run;
      var n := |events| - 1;
      RecordedAreSeen(cfg, events[..n]);
      RunLast(cfg, events);
      StepRecords(cfg, Run(cfg, events[..n]), events[n]);
      forall t | t in Run(cfg, events).crashTimes
        ensures exists i :: 0 <= i < |events| && events[i].Exit? && events[i].now == t
      {
        if t in Run(cfg, events[..n]).crashTimes {
          var i :| 0 <= i < n && events[..n][i].Exit? && events[..n][i].now == t;
          assert events[i].now == t;
        } else {
          assert events[n].now == t;
        }
      }
    }
  }

  function Max(a: int, b: int): int {
    if a > b then a else b
  }

  /** The times at or after some time. */
  function Since(times: seq<int>, from: int): seq<int> {
    if times == [] then []
    else
      var rest, t := Since(times[..|times| - 1], from), times[|times| - 1];
      if from <= t then rest + [t] else rest
  }

  /** The recorded crashes in the trailing window: less than windowMs ago. */
  function Trailing(cfg: Config, times: seq<int>, now: int): nat {
    |Within(times, now - cfg.windowMs + 1, now + 1)|
  }

  /** The recorded crashes that, on a clock that was set back, lie ahead. */
  function Ahead(cfg: Config, times: seq<int>, now: int): nat {
    |Since(times, Max(now - cfg.windowMs, now) + 1)|
  }

  // What shouldRestart counts.
  lemma {:induction false} RecentSplits(cfg: Config, times: seq<int>, now: int)
    ensures |Recent(times, now, cfg.windowMs)| == Trailing(cfg, times, now) + Ahead(cfg, times, now)
  {
    if times != [] {
      RecentSplits(cfg, times[..|times| - 1], now);
    }
  }

  lemma {:induction false} NothingSince(times: seq<int>, from: int)
    requires forall i :: 0 <= i < |times| ==> times[i] < from
    ensures Since(times, from) == []
  {
    if times != [] {
      NothingSince(times[..|times| - 1], from);
    }
  }

  lemma NoneAhead(cfg: Config, events: seq<Event>, e: Event)
    requires e.Exit? && ClockNeverGoesBack(events + [e])
    ensures Ahead(cfg, Run(cfg, events).crashTimes, e.now) == 0
  {
    hide Run;
    RecordedAreSeen(cfg, events);
    var times := Run(cfg, events).crashTimes;
    forall k | 0 <= k < |times| ensures times[k] <= e.now {
      assert times[k] in times;
      var i :| 0 <= i < |events| && events[i].Exit? && events[i].now == times[k];
      assert (events + [e])[i] == events[i] && (events + [e])[|events|] == e;
    }
    NothingSince(times, Max(e.now - cfg.windowMs, e.now) + 1);
  }

  /** A child that nothing was done about yet crashes. */
  ghost predicate Crashes(cfg: Config, events: seq<Event>, e: Event) {
    && e.Exit? && ClassifyExit(e.disposition) == Crash
    && var s := Run(cfg, events);
    && s.Emits(e.launch) && !s.settled[e.launch]
  }

  /** The supervisor gives up and passes the crash on. */
  ghost predicate GivesUp(cfg: Config, events: seq<Event>, e: Event)
    requires e.Exit?
  {
    Run(cfg, events + [e]).exits == Run(cfg, events).exits + [e.disposition]
  }

  /** Whatever the clock does: a crash is passed on if and only if maxRestarts recorded crashes lie in the trailing
    * window or ahead. Otherwise the child is restarted, and the crash recorded. */
  lemma RefusedExactly(cfg: Config, events: seq<Event>, e: Event)
    requires Crashes(cfg, events, e)
    ensures var s, s' := Run(cfg, events), Run(cfg, events + [e]);
      var full := Trailing(cfg, s.crashTimes, e.now) + Ahead(cfg, s.crashTimes, e.now) >= cfg.maxRestarts;
      && (full <==> GivesUp(cfg, events, e))
      && (!full <==> |s'.settled| == |s.settled| + 1)
      && (!full ==> s'.crashTimes == s.crashTimes + [e.now] && s'.restarts == s.restarts + [e.now])
  {
    hide Run, ClassifyExit, Recent, Trailing, Ahead;
    var s := Run(cfg, events);
    LifeLine(cfg, events);
    RunAppend(cfg, events, e);
    RecentSplits(cfg, s.crashTimes, e.now);
  }

  /** On a clock that never goes back nothing lies ahead: a crash is passed on if and only if maxRestarts recorded
    * crashes lie in the trailing window. */
  lemma RefusedOnlyWhenFull(cfg: Config, events: seq<Event>, e: Event)
    requires Crashes(cfg, events, e) && ClockNeverGoesBack(events + [e])
    ensures var s, s' := Run(cfg, events), Run(cfg, events + [e]);
      var full := Trailing(cfg, s.crashTimes, e.now) >= cfg.maxRestarts;
      && (full <==> GivesUp(cfg, events, e))
      && (!full <==> |s'.settled| == |s.settled| + 1)
      && (!full ==> s'.crashTimes == s.crashTimes + [e.now] && s'.restarts == s.restarts + [e.now])
  {
    hide Run, GivesUp, ClockNeverGoesBack, Trailing, Ahead, ClassifyExit;
    RefusedExactly(cfg, events, e);
    NoneAhead(cfg, events, e);
  }

  /** The decision is not the one by the trailing window alone if and only if the crashes ahead fill up a window that
    * is not full. */
  lemma TrailingRuleFails(cfg: Config, events: seq<Event>, e: Event)
    requires Crashes(cfg, events, e)
    ensures var times := Run(cfg, events).crashTimes;
      var trailing, ahead := Trailing(cfg, times, e.now), Ahead(cfg, times, e.now);
      (GivesUp(cfg, events, e) <==> trailing >= cfg.maxRestarts) <==> !(trailing < cfg.maxRestarts <= trailing + ahead)
  {
    hide Run, Crashes, GivesUp, Trailing, Ahead;
    RefusedExactly(cfg, events, e);
  }

  /** A clock set back from 100 to 50: with one restart in 10 ms the supervisor gives up, although no recorded crash
    * lies in the trailing window. */
  lemma ClockSetBack(d: Disposition)
    requires ClassifyExit(d) == Crash
    ensures var cfg, events, e := Config(1, 10), [Exit(0, d, 100)], Exit(1, d, 50);
      && Crashes(cfg, events, e) && GivesUp(cfg, events, e)
      && Trailing(cfg, Run(cfg, events).crashTimes, e.now) == 0 && Ahead(cfg, Run(cfg, events).crashTimes, e.now) == 1
  {
    hide ClassifyExit;
    var cfg, events, e := Config(1, 10), [Exit(0, d, 100)], Exit(1, d, 50);
    assert events[..0] == [] && [100][..0] == [];
    assert Run(cfg, events) == Step(cfg, Launched(), events[0]);
    assert Run(cfg, events).crashTimes == [100] && Run(cfg, events).settled == [true, false];
    RefusedExactly(cfg, events, e);
  }

  // ---- Crashes recorded without a restart ----

  /** The event at i is a crash, within the budget, of a child that had already been acted on. */
  ghost predicate Wasted(cfg: Config, events: seq<Event>, i: nat) {
    && i < |events|
    && var s := Run(cfg, events[..i]);
    && s.Emits(events[i].launch) && s.settled[events[i].launch] && Restartable(cfg, s, events[i])
  }

  /** The recorded crashes are the restarts, unless a child that had already been acted on crashes again. */
  lemma {:induction false} RecordedIsRestarted(cfg: Config, events: seq<Event>)
    ensures |Run(cfg, events).restarts| <= |Run(cfg, events).crashTimes|
    ensures |Run(cfg, events).restarts| == |Run(cfg, events).crashTimes| <==> !exists i: nat :: Wasted(cfg, events, i)
  {
    if events != [] {
      hide Restartable, Run;
      var n := |events| - 1;
      RunLast(cfg, events);
      RecordedIsRestarted(cfg, events[..n]);
      forall i: nat | i < n ensures Wasted(cfg, events, i) <==> Wasted(cfg, events[..n], i) {
        assert events[..n][..i] == events[..i];
      }
      if i: nat :| Wasted(cfg, events[..n], i) {
        assert Wasted(cfg, events, i);
      }
      assert Wasted(cfg, events, n) <==>
        |Run(cfg, events).restarts| - |Run(cfg, events[..n]).restarts| <
        |Run(cfg, events).crashTimes| - |Run(cfg, events[..n]).crashTimes|;
    } else {
      assert forall i: nat :: !Wasted(cfg, events, i);
    }
  }

  /** A spawn that fails with 'error' and then 'exit' uses up a restart although nothing is restarted. */
  lemma ErrorThenExit(cfg: Config, d: Disposition, now: int)
    requires cfg.maxRestarts > 0 && ClassifyExit(d) == Crash
    ensures var s := Run(cfg, [Error(0), Exit(0, d, now)]);
      s.crashTimes == [now] && s.restarts == [] && |s.settled| == 1 && s.exits == [Disposition(Some(1), None)]
  {
    var events := [Error(0), Exit(0, d, now)];
    assert events[..1] == [Error(0)] && [Error(0)][..0] == [];
    assert Run(cfg, [Error(0)]) == Step(cfg, Launched(), Error(0));
    assert Run(cfg, events) == Step(cfg, Run(cfg, [Error(0)]), events[1]);
  }

  // ---- The runtime loop ----

  /** The supervisor as it runs. `child` is the launch whose child is current. */
  class SuperviseServer {
    const maxRestarts: int
    const windowMs: int
    var crashTimes: seq<int>
    var settled: seq<bool>
    var child: nat
    var exits: seq<Disposition>
    ghost var restarts: seq<int>
    ghost var acted: seq<nat>
    ghost var history: seq<Event>

    ghost function Cfg(): Config {
      Config(maxRestarts, windowMs)
    }

    ghost function View(): Supervisor
      reads this
    {
      Supervisor(crashTimes, settled, exits, restarts, acted)
    }

    ghost predicate Valid()
      reads this
    {
      View() == Run(Cfg(), history) && |settled| == child + 1
    }

    constructor (maxRestarts: int, windowMs: int)
      ensures Valid() && history == []
      ensures this.maxRestarts == maxRestarts && this.windowMs == windowMs
    {
      this.maxRestarts, this.windowMs := maxRestarts, windowMs;
      crashTimes, settled, exits, child := [], [], [], 0;
      restarts, acted, history := [], [], [];
      new;
      Launch();
    }

    method Launch()
      modifies this`settled, this`child
      ensures settled == old(settled) + [false] && |settled| == child + 1
    {
      settled := settled + [false];
      child := |settled| - 1;
    }

    method Settle(launch: nat, disposition: Disposition, restart: bool, ghost now: int)
      requires View().Emits(launch) && |settled| == child + 1
      modifies this`settled, this`child, this`exits, this`restarts, this`acted
      ensures View() == if restart then old(View()).Restart(launch, now) else old(View()).Terminate(launch, disposition)
      ensures |settled| == child + 1
    {
      if settled[launch] {
        return;
      }
      settled := settled[launch := true];
      acted := acted + [launch];
      if restart {
        restarts := restarts + [now];
        Launch();
      } else {
        exits := exits + [disposition];
      }
    }

    method OnError(launch: nat)
      requires Valid() && View().Emits(launch)
      modifies this
      ensures Valid() && history == old(history) + [Error(launch)]
      ensures View() == old(View()).Terminate(launch, Disposition(Some(1), None))
    {
      RunAppend(Cfg(), history, Error(launch));
      Settle(launch, Disposition(Some(1), None), false, 0);
      history := history + [Error(launch)];
    }

    method OnExit(launch: nat, code: Option<int>, signal: Option<string>, now: int)
      requires Valid() && View().Emits(launch)
      modifies this
      ensures Valid() && history == old(history) + [Exit(launch, Disposition(code, signal), now)]
    {
      var d := Disposition(code, signal);
      ghost var e := Exit(launch, d, now);
      RunAppend(Cfg(), history, e);
      history := history + [e];
      var exitClass := ClassifyExit(d);
      if exitClass == Crash {
        if ShouldRestart(exitClass, crashTimes, now, maxRestarts, windowMs) {
          crashTimes := crashTimes + [now];
          Settle(launch, d, true, now);
          return;
        }
      }
      Settle(launch, d, false, now);
    }

    method CrashCount() returns (n: nat)
      requires Valid()
      ensures |settled| - 1 <= n
      ensures n == |settled| - 1 <==> !exists i: nat :: Wasted(Cfg(), history, i)
    {
      n := |crashTimes|;
      LifeLine(Cfg(), history);
      RecordedIsRestarted(Cfg(), history);
    }
  }
}
