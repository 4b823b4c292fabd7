/** apps/worker/src/symbol-run-scheduler.ts as a step system. One step is one synchronous stretch
    of the code: a call of schedule or stop, a timer callback, or the settling of a run. */
module SymbolScheduler {
  import opened Numbers
  import opened Text
  import opened Wrappers

  /** Where a call of drain() is. Active: its code is executing inside the current step. */
  datatype Phase = Active | Sleeping(wakeAt: int) | Running(startedAt: int) | Finished

  datatype Drain = Drain(symbol: string, phase: Phase) {
    predicate Live() { !phase.Finished? }
  }

  datatype Event = Scheduled(symbol: string, at: int) | Started(symbol: string, at: int) | StopCalled(at: int)

  /** now is what Date.now() returns; tasks are all drain() calls so far, by number; stops holds,
      for every stop() call, the drains its Promise.all awaits. */
  datatype State = State(now: int, minInterval: int, stopped: bool, queued: set<string>, running: set<string>,
                         lastStart: map<string, int>, drains: set<nat>, tasks: seq<Drain>,
                         stops: seq<set<nat>>, log: seq<Event>)

  function Init(minIntervalMs: Option<int>, now: int): State {
    State(now, Max(0, minIntervalMs.UnwrapOr(0)), false, {}, {}, map[], {}, [], [], [])
  }

  // ---------------------------------------------------------------- the steps

  function WaitMs(s: State, symbol: string): int {
    if s.minInterval == 0 || symbol !in s.lastStart || s.lastStart[symbol] == 0 then 0
    else Max(0, s.minInterval - (s.now - s.lastStart[symbol]))
  }

  function SetPhase(s: State, id: nat, p: Phase): State
    requires id < |s.tasks|
  {
    s.(tasks := s.tasks[id := s.tasks[id].(phase := p)])
  }

  function StartRun(s: State, id: nat): State
    requires id < |s.tasks|
  {
    var symbol := s.tasks[id].symbol;
    SetPhase(s, id, Running(s.now)).(queued := s.queued - {symbol},
      lastStart := s.lastStart[symbol := s.now], log := s.log + [Started(symbol, s.now)])
  }

  /** The top of the while loop in drain(). */
  function LoopHead(s: State, id: nat): State
    requires id < |s.tasks|
    decreases if s.tasks[id].symbol in s.queued && !s.stopped then 0 else 2, 0
  {
    var symbol := s.tasks[id].symbol;
    if symbol !in s.queued then Leave(s, id)
    else if WaitMs(s, symbol) > 0 then SetPhase(s, id, Sleeping(s.now + WaitMs(s, symbol)))
    else if s.stopped then Leave(s, id)
    else StartRun(s, id)
  }

  /** After the sleep. */
  function AfterSleep(s: State, id: nat): State
    requires id < |s.tasks|
  {
    if s.stopped then Leave(s, id) else StartRun(s, id)
  }

  /** The finally block of drain(). */
  function Leave(s: State, id: nat): State
    requires id < |s.tasks|
    decreases 1, 0
  {
    var symbol := s.tasks[id].symbol;
    var left := SetPhase(s, id, Finished).(running := s.running - {symbol});
    if !s.stopped && symbol in s.queued then Launch(left.(running := s.running + {symbol}), symbol) else left
  }

  /** launchDrain. The promise joins `drains` in the same synchronous stretch. */
  function Launch(s: State, symbol: string): State
    requires symbol in s.queued && !s.stopped
    decreases 0, 1
  {
    var id := |s.tasks|;
    LoopHead(s.(tasks := s.tasks + [Drain(symbol, Active)], drains := s.drains + {id}), id)
  }

  function ScheduleStep(s: State, symbol: string): State {
    if s.stopped then s else
    var up := ToUpper(symbol);
    var q := s.(queued := s.queued + {up}, log := s.log + [Scheduled(up, s.now)]);
    if up in s.running then q else Launch(q.(running := s.running + {up}), up)
  }

  function StopStep(s: State): State {
    s.(stopped := true, queued := {}, stops := s.stops + [s.drains], log := s.log + [StopCalled(s.now)])
  }

  function WakeStep(s: State, id: nat): State
    requires id < |s.tasks|
  {
    AfterSleep(SetPhase(s, id, Active), id)
  }

  function SettleStep(s: State, id: nat, failed: bool): State
    requires id < |s.tasks|
  {
    if failed then Leave(SetPhase(s, id, Active), id) else LoopHead(SetPhase(s, id, Active), id)
  }

  datatype Action =
    | Tick(to: int)                       // time passes
    | Schedule(symbol: string)
    | Stop
    | Wake(id: nat)                       // the timer of a sleeping drain fires, never early
    | Settle(id: nat, failed: bool)       // runSymbol resolves or rejects
    | Remove(id: nat)                     // the .finally callback of a finished drain

  predicate Enabled(s: State, a: Action) {
    match a
    case Tick(to) => to >= s.now
    case Schedule(_) => true
    case Stop => true
    case Wake(id) => id < |s.tasks| && s.tasks[id].phase.Sleeping? && s.now >= s.tasks[id].phase.wakeAt
    case Settle(id, _) => id < |s.tasks| && s.tasks[id].phase.Running?
    case Remove(id) => id < |s.tasks| && s.tasks[id].phase.Finished? && id in s.drains
  }

  function Next(s: State, a: Action): State
    requires Enabled(s, a)
  {
    match a
    case Tick(to) => s.(now := to)
    case Schedule(symbol) => ScheduleStep(s, symbol)
    case Stop => StopStep(s)
    case Wake(id) => WakeStep(s, id)
    case Settle(id, failed) => SettleStep(s, id, failed)
    case Remove(id) => s.(drains := s.drains - {id})
  }

  /** Any interleaving: a sequence of actions each enabled when it happens. */
  predicate Feasible(s: State, actions: seq<Action>)
    decreases |actions|
  {
    actions == [] || (Enabled(s, actions[0]) && Feasible(Next(s, actions[0]), actions[1..]))
  }

  function Run(s: State, actions: seq<Action>): State
    requires Feasible(s, actions)
    decreases |actions|
  {
    if actions == [] then s else Run(Next(s, actions[0]), actions[1..])
  }

  // ---------------------------------------------------------------- the code

  /** The class itself. Each method is one synchronous stretch; a suspended drain() is a task. */
  class SymbolRunScheduler {
    var runningSymbols: set<string>
    var queuedSymbols: set<string>
    var lastRunStartedAt: map<string, int>
    var drains: set<nat>
    var stopped: bool
    const minIntervalMs: Option<int>
    var tasks: seq<Drain>
    var now: int
    ghost var stops: seq<set<nat>>
    ghost var log: seq<Event>

    ghost function View(): State
      reads this
    {
      State(now, Max(0, minIntervalMs.UnwrapOr(0)), stopped, queuedSymbols, runningSymbols,
            lastRunStartedAt, drains, tasks, stops, log)
    }

    constructor (minIntervalMs: Option<int>, now: int)
      ensures View() == Init(minIntervalMs, now)
    {
      this.minIntervalMs := minIntervalMs;
      this.now := now;
      runningSymbols, queuedSymbols, lastRunStartedAt, drains, stopped := {}, {}, map[], {}, false;
      tasks, stops, log := [], [], [];
    }

    method Schedule(symbol: string)
      modifies this
      ensures View() == ScheduleStep(old(View()), symbol)
    {
      if stopped { return; }
      var normalizedSymbol := ToUpper(symbol);
      queuedSymbols := queuedSymbols + {normalizedSymbol};
      log := log + [Scheduled(normalizedSymbol, now)];
      if normalizedSymbol in runningSymbols { return; }
      runningSymbols := runningSymbols + {normalizedSymbol};
      LaunchDrain(normalizedSymbol);
    }

    /** stop() up to its await; `awaited` are the drains Promise.all waits for. */
    method Stop() returns (awaited: set<nat>)
      modifies this
      ensures View() == StopStep(old(View())) && awaited == old(drains)
    {
      stopped := true;
      queuedSymbols := {};
      awaited := drains;
      stops := stops + [drains];
      log := log + [StopCalled(now)];
    }

    method LaunchDrain(symbol: string)
      requires symbol in queuedSymbols && !stopped
      modifies this
      ensures View() == Launch(old(View()), symbol)
      decreases 0, 1
    {
      var id := |tasks|;
      tasks := tasks + [Drain(symbol, Active)];
      drains := drains + {id};
      DrainLoop(id);
    }

    /** Waiting the result brings the clock to the end of the interval, and there is nothing to wait for
        exactly when no interval is set, the symbol has not started yet, or its interval is over. */
    method GetWaitMs(symbol: string) returns (wait: int)
      ensures wait >= 0
      ensures wait > 0 ==> symbol in lastRunStartedAt
      ensures wait > 0 ==> now + wait == lastRunStartedAt[symbol] + Max(0, minIntervalMs.UnwrapOr(0))
      ensures wait == 0 <==> minIntervalMs.UnwrapOr(0) <= 0 || symbol !in lastRunStartedAt || lastRunStartedAt[symbol] == 0
                             || now >= lastRunStartedAt[symbol] + minIntervalMs.UnwrapOr(0)
    {
      var interval := Max(0, minIntervalMs.UnwrapOr(0));
      if interval == 0 || symbol !in lastRunStartedAt || lastRunStartedAt[symbol] == 0 { return 0; }
      wait := Max(0, interval - (now - lastRunStartedAt[symbol]));
    }

    method DrainLoop(id: nat)
      requires id < |tasks|
      modifies this
      ensures View() == LoopHead(old(View()), id)
      decreases if tasks[id].symbol in queuedSymbols && !stopped then 0 else 2, 0
    {
      var symbol := tasks[id].symbol;
      if symbol in queuedSymbols {
        var waitMs := GetWaitMs(symbol);
        assert waitMs == WaitMs(View(), symbol);
        if waitMs > 0 {
          tasks := tasks[id := tasks[id].(phase := Sleeping(now + waitMs))];
          return;
        }
        if !stopped {
          BeginRun(id);
          return;
        }
      }
      Finally(id);
    }

    method BeginRun(id: nat)
      requires id < |tasks|
      modifies this
      ensures View() == StartRun(old(View()), id)
    {
      var symbol := tasks[id].symbol;
      queuedSymbols := queuedSymbols - {symbol};
      lastRunStartedAt := lastRunStartedAt[symbol := now];
      tasks := tasks[id := tasks[id].(phase := Running(now))];
      log := log + [Started(symbol, now)];
    }

    method Finally(id: nat)
      requires id < |tasks|
      modifies this
      ensures View() == Leave(old(View()), id)
      decreases 1, 0
    {
      var symbol := tasks[id].symbol;
      tasks := tasks[id := tasks[id].(phase := Finished)];
      runningSymbols := runningSymbols - {symbol};
      if !stopped && symbol in queuedSymbols {
        assert old(runningSymbols) - {symbol} + {symbol} == old(runningSymbols) + {symbol};
        runningSymbols := runningSymbols + {symbol};
        LaunchDrain(symbol);
      }
    }

    /** The sleep of a drain is over. */
    method OnWake(id: nat)
      requires id < |tasks| && tasks[id].phase.Sleeping?
      modifies this
      ensures View() == WakeStep(old(View()), id)
    {
      tasks := tasks[id := tasks[id].(phase := Active)];
      if stopped { Finally(id); } else { BeginRun(id); }
    }

    /** runSymbol resolved, or rejected into the catch block. */
    method OnSettled(id: nat, failed: bool)
      requires id < |tasks| && tasks[id].phase.Running?
      modifies this
      ensures View() == SettleStep(old(View()), id, failed)
    {
      tasks := tasks[id := tasks[id].(phase := Active)];
      if failed { Finally(id); } else { DrainLoop(id); }
    }
  }
}
