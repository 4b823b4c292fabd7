/** What holds in every state of every run of the scheduler. */
module SchedulerSafety {
  import opened SymbolScheduler
  import opened Text

  ghost predicate LiveFor(s: State, id: nat, symbol: string) {
    id < |s.tasks| && s.tasks[id].Live() && s.tasks[id].symbol == symbol
  }

  /** At most one drain per symbol is alive, it is registered, and `running` lists exactly its symbol. */
  ghost predicate TasksOk(s: State) {
    && (forall i :: i in s.drains ==> i < |s.tasks|)
    && (forall i :: 0 <= i < |s.tasks| && s.tasks[i].Live() ==> s.tasks[i].symbol in s.running && i in s.drains)
    && (forall i, j :: 0 <= i < j < |s.tasks| && s.tasks[i].Live() && s.tasks[j].Live() ==> s.tasks[i].symbol != s.tasks[j].symbol)
    && (forall symbol :: symbol in s.running ==> exists i: nat :: LiveFor(s, i, symbol))
  }

  /** A queued symbol always has a drain; stop() empties the queue for good. */
  ghost predicate QueueOk(s: State) {
    && (s.stopped ==> s.queued == {})
    && s.queued <= s.running
    && (forall i :: 0 <= i < |s.tasks| && s.tasks[i].phase.Sleeping? && !s.stopped ==> s.tasks[i].symbol in s.queued)
  }

  ghost predicate ClockOk(s: State) {
    && 0 < s.now && 0 <= s.minInterval
    && (forall symbol :: symbol in s.lastStart ==> 0 < s.lastStart[symbol] <= s.now)
    && (forall i :: 0 <= i < |s.tasks| && s.tasks[i].phase.Sleeping? ==>
          s.tasks[i].symbol in s.lastStart && s.tasks[i].phase.wakeAt == s.lastStart[s.tasks[i].symbol] + s.minInterval)
  }

  ghost predicate StartOf(e: Event, symbol: string) { e.Started? && e.symbol == symbol }

  /** Starts of one symbol are at least minInterval apart, and none follows a stop. */
  ghost predicate StartsOk(s: State) {
    && (forall i :: 0 <= i < |s.log| && s.log[i].Started? ==>
          s.log[i].symbol in s.lastStart && s.log[i].at <= s.lastStart[s.log[i].symbol])
    && (forall i, j :: 0 <= i < j < |s.log| && s.log[i].Started? && s.log[j].Started? && s.log[i].symbol == s.log[j].symbol ==>
          s.log[j].at - s.log[i].at >= s.minInterval)
    && (forall i, j :: 0 <= i < j < |s.log| && s.log[i].StopCalled? ==> !s.log[j].Started?)
    && (!s.stopped ==> forall i :: 0 <= i < |s.log| ==> !s.log[i].StopCalled?)
  }

  ghost predicate StartedAfter(log: seq<Event>, i: nat, symbol: string) {
    exists j :: i < j < |log| && StartOf(log[j], symbol)
  }

  /** Every accepted schedule call is followed by a start of its symbol, or still queued, or was cut off by a stop. */
  ghost predicate SignalsOk(s: State) {
    forall i :: 0 <= i < |s.log| && s.log[i].Scheduled? ==>
      StartedAfter(s.log, i, s.log[i].symbol) || s.log[i].symbol in s.queued || s.stopped
  }

  /** Every live drain is among those each stop() call awaits. */
  ghost predicate StopsOk(s: State) {
    && (s.stopped <==> s.stops != [])
    && (forall k, i :: 0 <= k < |s.stops| && 0 <= i < |s.tasks| && s.tasks[i].Live() ==> i in s.stops[k])
  }

  ghost predicate Inv(s: State) {
    TasksOk(s) && QueueOk(s) && ClockOk(s) && StartsOk(s) && SignalsOk(s) && StopsOk(s)
  }

  /** No drain is in the middle of a step. */
  ghost predicate AtRest(s: State) {
    forall i :: 0 <= i < |s.tasks| ==> !s.tasks[i].phase.Active?
  }

  ghost predicate OnlyActive(s: State, id: nat) {
    && id < |s.tasks| && s.tasks[id].phase.Active?
    && (forall i :: 0 <= i < |s.tasks| && i != id ==> !s.tasks[i].phase.Active?)
  }

  // ---------------------------------------------------------------- one stretch

  lemma SetPhaseTasks(s: State, id: nat, p: Phase)
    requires TasksOk(s) && StopsOk(s) && id < |s.tasks| && s.tasks[id].Live() && !p.Finished?
    ensures TasksOk(SetPhase(s, id, p)) && StopsOk(SetPhase(s, id, p))
  {
    var t := SetPhase(s, id, p);
    forall symbol | symbol in s.running ensures exists i: nat :: LiveFor(t, i, symbol) {
      var i: nat :| LiveFor(s, i, symbol);
      assert LiveFor(t, i, symbol);
    }
  }

  /** A run may start once its symbol's interval has passed. */
  ghost predicate MayStart(s: State, symbol: string) {
    !s.stopped && (symbol in s.lastStart ==> s.now - s.lastStart[symbol] >= s.minInterval)
  }

  lemma StartRunTasks(s: State, id: nat)
    requires Inv(s) && OnlyActive(s, id)
    ensures TasksOk(StartRun(s, id)) && StopsOk(StartRun(s, id)) && AtRest(StartRun(s, id))
  {
    hide QueueOk, ClockOk, StartsOk, SignalsOk;
    var p, t := SetPhase(s, id, Running(s.now)), StartRun(s, id);
    SetPhaseTasks(s, id, Running(s.now));
    forall x | x in t.running ensures exists i: nat :: LiveFor(t, i, x) {
      var i: nat :| LiveFor(p, i, x);
      assert LiveFor(t, i, x);
    }
  }

  lemma StartRunClock(s: State, id: nat)
    requires Inv(s) && OnlyActive(s, id) && !s.stopped
    ensures QueueOk(StartRun(s, id)) && ClockOk(StartRun(s, id))
  {
    hide StartsOk, SignalsOk, StopsOk;
    var t := StartRun(s, id);
    forall i | 0 <= i < |t.tasks| && t.tasks[i].phase.Sleeping?
      ensures t.tasks[i] == s.tasks[i] && t.tasks[i].symbol != s.tasks[id].symbol
    {
    }
  }

  lemma StartRunStarts(s: State, id: nat)
    requires Inv(s) && id < |s.tasks| && MayStart(s, s.tasks[id].symbol)
    ensures StartsOk(StartRun(s, id))
  {
    hide TasksOk, QueueOk, SignalsOk, StopsOk;
  }

  lemma StartRunSignals(s: State, id: nat)
    requires Inv(s) && id < |s.tasks|
    ensures SignalsOk(StartRun(s, id))
  {
    hide TasksOk, QueueOk, ClockOk, StartsOk, StopsOk;
    var symbol, t := s.tasks[id].symbol, StartRun(s, id);
    forall i | 0 <= i < |t.log| && t.log[i].Scheduled?
      ensures StartedAfter(t.log, i, t.log[i].symbol) || t.log[i].symbol in t.queued || t.stopped
    {
      assert t.log[i] == s.log[i];
      if StartedAfter(s.log, i, s.log[i].symbol) {
        LaterStartKept(s.log, i, s.log[i].symbol, Started(symbol, s.now));
      } else if s.log[i].symbol == symbol {
        assert StartOf(t.log[|s.log|], symbol);
      }
    }
  }

  lemma LaterStartKept(log: seq<Event>, i: nat, symbol: string, e: Event)
    requires StartedAfter(log, i, symbol)
    ensures StartedAfter(log + [e], i, symbol)
  {
    var j :| i < j < |log| && StartOf(log[j], symbol);
    assert (log + [e])[j] == log[j];
  }

  lemma StartRunKeeps(s: State, id: nat)
    requires Inv(s) && OnlyActive(s, id) && MayStart(s, s.tasks[id].symbol)
    ensures Inv(StartRun(s, id)) && AtRest(StartRun(s, id))
  {
    hide TasksOk, QueueOk, ClockOk, StartsOk, SignalsOk, StopsOk, StartRun, AtRest;
    StartRunTasks(s, id);
    StartRunClock(s, id);
    StartRunStarts(s, id);
    StartRunSignals(s, id);
  }

  lemma SleepKeeps(s: State, id: nat)
    requires Inv(s) && OnlyActive(s, id) && s.tasks[id].symbol in s.queued && WaitMs(s, s.tasks[id].symbol) > 0
    ensures var t := SetPhase(s, id, Sleeping(s.now + WaitMs(s, s.tasks[id].symbol))); Inv(t) && AtRest(t)
  {
    hide TasksOk;
    SetPhaseTasks(s, id, Sleeping(s.now + WaitMs(s, s.tasks[id].symbol)));
  }

  lemma LoopHeadKeeps(s: State, id: nat)
    requires Inv(s) && OnlyActive(s, id) && !s.stopped && s.tasks[id].symbol in s.queued
    ensures Inv(LoopHead(s, id)) && AtRest(LoopHead(s, id))
  {
    hide TasksOk, QueueOk, StartsOk, SignalsOk, StopsOk, StartRun;
    if WaitMs(s, s.tasks[id].symbol) > 0 {
      SleepKeeps(s, id);
    } else {
      StartRunKeeps(s, id);
    }
  }

  /** Adding a fresh drain for a symbol that has none. */
  lemma FreshDrainTasks(s: State, symbol: string)
    requires TasksOk(s.(running := s.running - {symbol})) && StopsOk(s) && !s.stopped && symbol in s.running
    requires forall i :: 0 <= i < |s.tasks| && s.tasks[i].Live() ==> s.tasks[i].symbol != symbol
    ensures var t := s.(tasks := s.tasks + [Drain(symbol, Active)], drains := s.drains + {|s.tasks|}); TasksOk(t) && StopsOk(t)
  {
    var before := s.(running := s.running - {symbol});
    var t := s.(tasks := s.tasks + [Drain(symbol, Active)], drains := s.drains + {|s.tasks|});
    forall x | x in t.running ensures exists i: nat :: LiveFor(t, i, x) {
      if x == symbol {
        assert LiveFor(t, |s.tasks|, x);
      } else {
        assert x in before.running;
        var i: nat :| LiveFor(before, i, x);
        assert t.tasks[i] == s.tasks[i] && LiveFor(t, i, x);
      }
    }
  }

  lemma LaunchKeeps(s: State, symbol: string)
    requires symbol in s.queued && !s.stopped && QueueOk(s) && ClockOk(s) && StartsOk(s) && SignalsOk(s) && StopsOk(s) && AtRest(s)
    requires TasksOk(s.(running := s.running - {symbol})) && symbol in s.running
    requires forall i :: 0 <= i < |s.tasks| && s.tasks[i].Live() ==> s.tasks[i].symbol != symbol
    ensures Inv(Launch(s, symbol)) && AtRest(Launch(s, symbol))
  {
    hide TasksOk, StopsOk, LoopHead;
    var id := |s.tasks|;
    var t := s.(tasks := s.tasks + [Drain(symbol, Active)], drains := s.drains + {id});
    FreshDrainTasks(s, symbol);
    LoopHeadKeeps(t, id);
  }

  lemma FinishTasks(s: State, id: nat)
    requires TasksOk(s) && StopsOk(s) && id < |s.tasks| && s.tasks[id].Live()
    ensures var t := SetPhase(s, id, Finished).(running := s.running - {s.tasks[id].symbol}); TasksOk(t) && StopsOk(t)
  {
    var symbol := s.tasks[id].symbol;
    var t := SetPhase(s, id, Finished).(running := s.running - {symbol});
    forall x | x in t.running ensures exists i: nat :: LiveFor(t, i, x) {
      var i: nat :| LiveFor(s, i, x);
      assert LiveFor(t, i, x);
    }
  }

  lemma FinishRest(s: State, id: nat)
    requires Inv(s) && OnlyActive(s, id)
    ensures var t := SetPhase(s, id, Finished).(running := s.running - {s.tasks[id].symbol});
      && ClockOk(t) && StartsOk(t) && SignalsOk(t) && AtRest(t)
      && (forall i :: 0 <= i < |t.tasks| && t.tasks[i].Live() ==> t.tasks[i].symbol != s.tasks[id].symbol)
  {
    hide StopsOk, StartedAfter;
  }

  lemma FinishQueue(s: State, id: nat)
    requires QueueOk(s) && id < |s.tasks|
    ensures var symbol := s.tasks[id].symbol; var t := SetPhase(s, id, Finished);
      && QueueOk(t) && (s.stopped || symbol !in s.queued ==> QueueOk(t.(running := s.running - {symbol})))
      && (symbol in s.queued ==> QueueOk(t.(running := s.running - {symbol} + {symbol})))
  {
  }

  lemma LeaveKeeps(s: State, id: nat)
    requires Inv(s) && OnlyActive(s, id)
    ensures Inv(Leave(s, id)) && AtRest(Leave(s, id))
  {
    hide TasksOk, QueueOk, ClockOk, StartsOk, SignalsOk, StopsOk, AtRest;
    var symbol := s.tasks[id].symbol;
    var left := SetPhase(s, id, Finished).(running := s.running - {symbol});
    FinishTasks(s, id);
    FinishRest(s, id);
    FinishQueue(s, id);
    if !s.stopped && symbol in s.queued {
      assert left.running + {symbol} == s.running + {symbol};
      RunsAgain(left, symbol);
      LaunchKeeps(left.(running := left.running + {symbol}), symbol);
    }
  }

  /** Marking a symbol as running again is all that changes when its drain is relaunched. */
  lemma RunsAgain(left: State, symbol: string)
    requires TasksOk(left) && ClockOk(left) && StartsOk(left) && SignalsOk(left) && StopsOk(left) && AtRest(left)
    requires symbol !in left.running
    ensures var again := left.(running := left.running + {symbol});
      && ClockOk(again) && StartsOk(again) && SignalsOk(again) && StopsOk(again) && AtRest(again)
      && TasksOk(again.(running := again.running - {symbol}))
  {
    hide TasksOk, StartedAfter;
    var again := left.(running := left.running + {symbol});
    assert again.running - {symbol} == left.running;
    assert again.(running := again.running - {symbol}) == left;
  }

  /** Waking a drain that is not running any code. */
  lemma ActivateKeeps(s: State, id: nat)
    requires Inv(s) && AtRest(s) && id < |s.tasks| && s.tasks[id].Live()
    ensures var t := SetPhase(s, id, Active); Inv(t) && OnlyActive(t, id)
  {
    SetPhaseTasks(s, id, Active);
    hide TasksOk, StopsOk, StartedAfter;
  }

  lemma SleeperMayStart(s: State, id: nat)
    requires Inv(s) && Enabled(s, Wake(id)) && !s.stopped
    ensures MayStart(SetPhase(s, id, Active), s.tasks[id].symbol)
  {
    hide TasksOk, QueueOk, StartsOk, SignalsOk, StopsOk;
  }

  lemma WakeKeeps(s: State, id: nat)
    requires Inv(s) && AtRest(s) && Enabled(s, Wake(id))
    ensures Inv(WakeStep(s, id)) && AtRest(WakeStep(s, id))
  {
    ActivateKeeps(s, id);
    hide TasksOk, QueueOk, ClockOk, StartsOk, SignalsOk, StopsOk, Inv, AtRest, OnlyActive, MayStart, Leave, StartRun;
    var t := SetPhase(s, id, Active);
    if s.stopped {
      LeaveKeeps(t, id);
    } else {
      SleeperMayStart(s, id);
      StartRunKeeps(t, id);
    }
  }

  lemma SettleKeeps(s: State, id: nat, failed: bool)
    requires Inv(s) && AtRest(s) && Enabled(s, Settle(id, failed))
    ensures Inv(SettleStep(s, id, failed)) && AtRest(SettleStep(s, id, failed))
  {
    ActivateKeeps(s, id);
    StoppedIsEmpty(s);
    hide TasksOk, QueueOk, ClockOk, StartsOk, SignalsOk, StopsOk, Inv, AtRest, OnlyActive, Leave, StartRun;
    var t := SetPhase(s, id, Active);
    if failed || t.tasks[id].symbol !in s.queued {
      LeaveKeeps(t, id);
    } else {
      LoopHeadKeeps(t, id);
    }
  }

  lemma StoppedIsEmpty(s: State)
    requires Inv(s)
    ensures s.stopped ==> s.queued == {}
  {
  }

  /** What the drains are does not depend on the queue, the log, the clock or the stop calls. */
  lemma TasksFrame(s: State, t: State)
    requires TasksOk(s) && t.tasks == s.tasks && t.running == s.running && t.drains == s.drains
    ensures TasksOk(t)
  {
    forall x | x in t.running ensures exists i: nat :: LiveFor(t, i, x) {
      var i: nat :| LiveFor(s, i, x);
      assert LiveFor(t, i, x);
    }
  }

  lemma EnqueueSignals(s: State, symbol: string)
    requires SignalsOk(s) && !s.stopped
    ensures SignalsOk(s.(queued := s.queued + {symbol}, log := s.log + [Scheduled(symbol, s.now)]))
  {
    var q := s.(queued := s.queued + {symbol}, log := s.log + [Scheduled(symbol, s.now)]);
    forall i | 0 <= i < |q.log| && q.log[i].Scheduled?
      ensures StartedAfter(q.log, i, q.log[i].symbol) || q.log[i].symbol in q.queued
    {
      if i < |s.log| && StartedAfter(s.log, i, s.log[i].symbol) {
        LaterStartKept(s.log, i, s.log[i].symbol, Scheduled(symbol, s.now));
      }
    }
  }

  lemma EnqueueRest(s: State, symbol: string)
    requires Inv(s) && AtRest(s) && !s.stopped
    ensures var q := s.(queued := s.queued + {symbol}, log := s.log + [Scheduled(symbol, s.now)]);
      && ClockOk(q) && StartsOk(q) && StopsOk(q) && AtRest(q)
      && QueueOk(q.(running := q.running + {symbol})) && (symbol in s.running ==> QueueOk(q))
  {
    hide TasksOk, SignalsOk;
  }

  lemma NotRunning(s: State, symbol: string)
    requires TasksOk(s) && symbol !in s.running
    ensures forall i :: 0 <= i < |s.tasks| && s.tasks[i].Live() ==> s.tasks[i].symbol != symbol
  {
  }

  lemma ScheduleKeeps(s: State, symbol: string)
    requires Inv(s) && AtRest(s)
    ensures Inv(ScheduleStep(s, symbol)) && AtRest(ScheduleStep(s, symbol))
  {
    hide ToUpper, Launch, TasksOk, QueueOk, ClockOk, StartsOk, SignalsOk, StopsOk, AtRest;
    if !s.stopped {
      var up := ToUpper(symbol);
      var q := s.(queued := s.queued + {up}, log := s.log + [Scheduled(up, s.now)]);
      TasksFrame(s, q);
      EnqueueSignals(s, up);
      EnqueueRest(s, up);
      if up !in s.running {
        NotRunning(s, up);
        RunsAgain(q, up);
        LaunchKeeps(q.(running := q.running + {up}), up);
      }
    }
  }

  lemma StopStarts(s: State)
    requires StartsOk(s)
    ensures StartsOk(StopStep(s))
  {
  }

  lemma StopRest(s: State)
    requires Inv(s) && AtRest(s)
    ensures var t := StopStep(s); QueueOk(t) && ClockOk(t) && SignalsOk(t) && StopsOk(t) && AtRest(t)
  {
    hide StartsOk, StartedAfter;
  }

  lemma StopKeeps(s: State)
    requires Inv(s) && AtRest(s)
    ensures Inv(StopStep(s)) && AtRest(StopStep(s))
  {
    hide TasksOk, QueueOk, ClockOk, StartsOk, SignalsOk, StopsOk, AtRest;
    TasksFrame(s, StopStep(s));
    StopStarts(s);
    StopRest(s);
  }

  lemma TickKeeps(s: State, to: int)
    requires Inv(s) && AtRest(s) && to >= s.now
    ensures Inv(s.(now := to)) && AtRest(s.(now := to))
  {
    TasksFrame(s, s.(now := to));
    hide TasksOk;
  }

  /** A finished drain is in nobody's way. */
  lemma RemoveTasks(s: State, id: nat)
    requires TasksOk(s) && id < |s.tasks| && !s.tasks[id].Live()
    ensures TasksOk(s.(drains := s.drains - {id}))
  {
    var t := s.(drains := s.drains - {id});
    forall x | x in t.running ensures exists i: nat :: LiveFor(t, i, x) {
      var i: nat :| LiveFor(s, i, x);
      assert LiveFor(t, i, x);
    }
  }

  lemma RemoveKeeps(s: State, id: nat)
    requires Inv(s) && AtRest(s) && id < |s.tasks| && !s.tasks[id].Live()
    ensures var t := s.(drains := s.drains - {id}); Inv(t) && AtRest(t)
  {
    RemoveTasks(s, id);
    hide TasksOk, StartedAfter;
  }

  lemma NextKeeps(s: State, a: Action)
    requires Inv(s) && AtRest(s) && Enabled(s, a)
    ensures Inv(Next(s, a)) && AtRest(Next(s, a))
  {
    hide Inv, AtRest, ScheduleStep, StopStep, WakeStep, SettleStep;
    match a
    case Schedule(symbol) => ScheduleKeeps(s, symbol);
    case Stop => StopKeeps(s);
    case Wake(id) => WakeKeeps(s, id);
    case Settle(id, failed) => SettleKeeps(s, id, failed);
    case Tick(to) => TickKeeps(s, to);
    case Remove(id) => RemoveKeeps(s, id);
  }
}
