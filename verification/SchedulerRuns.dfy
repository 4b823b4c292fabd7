/** The scheduler's guarantees over all interleavings. */
module SchedulerRuns {
  import opened SymbolScheduler
  import opened SchedulerSafety
  import opened SchedulerSignals
  import opened Text
  import opened Wrappers

  lemma {:induction false} RunKeeps(s: State, actions: seq<Action>)
    requires Inv(s) && AtRest(s) && Feasible(s, actions)
    ensures Inv(Run(s, actions)) && AtRest(Run(s, actions))
    decreases |actions|
  {
    hide Inv, AtRest, Next;
    if actions != [] {
      NextKeeps(s, actions[0]);
      RunKeeps(Next(s, actions[0]), actions[1..]);
    }
  }

  ghost predicate InFlight(s: State, id: nat, symbol: string) {
    id < |s.tasks| && s.tasks[id].phase.Running? && s.tasks[id].symbol == symbol
  }

  lemma InitInv(minIntervalMs: Option<int>, now: int)
    requires now > 0
    ensures Inv(Init(minIntervalMs, now)) && AtRest(Init(minIntervalMs, now))
  {
  }

  // ---------------------------------------------------------------- what one step leaves alone

  /** A step that executes inside the drain `id` of `symbol` leaves the rest of the state alone. */
  ghost predicate Frame(s: State, t: State, id: nat, symbol: string) {
    && t.stopped == s.stopped && t.stops == s.stops && t.minInterval == s.minInterval && t.now == s.now
    && s.log <= t.log && |s.tasks| <= |t.tasks| && s.queued - {symbol} <= t.queued
    && (forall i :: 0 <= i < |s.tasks| && i != id ==> t.tasks[i] == s.tasks[i])
    && (s.stopped ==> t.log == s.log && |t.tasks| == |s.tasks|
                      && (id < |t.tasks| && t.tasks[id].Live() && s.queued == {} ==> id < |s.tasks| && s.tasks[id].Live()))
  }

  /** Launching for a queued symbol ends in a run or in a sleep for the rest of its interval. */
  ghost predicate StartsOrSleeps(s: State, t: State, symbol: string) {
    || t.log == s.log + [Started(symbol, s.now)]
    || (symbol in t.queued && exists j: nat :: LiveFor(t, j, symbol) && t.tasks[j].phase.Sleeping?)
  }

  lemma LoopHeadQueued(s: State, id: nat)
    requires id < |s.tasks| && s.tasks[id].symbol in s.queued && !s.stopped
    ensures Frame(s, LoopHead(s, id), id, s.tasks[id].symbol) && StartsOrSleeps(s, LoopHead(s, id), s.tasks[id].symbol)
  {
    assert WaitMs(s, s.tasks[id].symbol) > 0 ==> LiveFor(LoopHead(s, id), id, s.tasks[id].symbol);
  }

  lemma LaunchFrame(s: State, symbol: string, id: nat)
    requires symbol in s.queued && !s.stopped
    ensures Frame(s, Launch(s, symbol), id, symbol) && StartsOrSleeps(s, Launch(s, symbol), symbol)
  {
    var t := s.(tasks := s.tasks + [Drain(symbol, Active)], drains := s.drains + {|s.tasks|});
    LoopHeadQueued(t, |s.tasks|);
  }

  lemma LeaveFrame(s: State, id: nat)
    requires id < |s.tasks|
    ensures Frame(s, Leave(s, id), id, s.tasks[id].symbol)
    ensures !s.stopped && s.tasks[id].symbol in s.queued ==> StartsOrSleeps(s, Leave(s, id), s.tasks[id].symbol)
  {
    var symbol := s.tasks[id].symbol;
    if !s.stopped && symbol in s.queued {
      LaunchFrame(SetPhase(s, id, Finished).(running := s.running - {symbol}).(running := s.running + {symbol}), symbol, id);
    }
  }

  lemma StartRunFrame(s: State, id: nat)
    requires id < |s.tasks| && !s.stopped
    ensures Frame(s, StartRun(s, id), id, s.tasks[id].symbol) && StartsOrSleeps(s, StartRun(s, id), s.tasks[id].symbol)
  {
  }

  lemma LoopHeadFrame(s: State, id: nat)
    requires id < |s.tasks|
    ensures Frame(s, LoopHead(s, id), id, s.tasks[id].symbol)
  {
    if s.tasks[id].symbol in s.queued && !s.stopped {
      LoopHeadQueued(s, id);
    } else {
      LeaveFrame(s, id);
    }
  }

  lemma ResumeFrame(s: State, a: Action)
    requires Enabled(s, a) && (a.Wake? || a.Settle?)
    ensures Frame(s, Next(s, a), a.id, s.tasks[a.id].symbol)
    ensures !s.stopped && s.tasks[a.id].symbol in s.queued ==> StartsOrSleeps(s, Next(s, a), s.tasks[a.id].symbol)
  {
    hide LoopHead, Leave, Frame, StartsOrSleeps;
    var t := SetPhase(s, a.id, Active);
    if a.Settle? && !a.failed {
      LoopHeadFrame(t, a.id);
      if !s.stopped && s.tasks[a.id].symbol in s.queued { LoopHeadQueued(t, a.id); }
    } else if a.Wake? && !s.stopped {
      StartRunFrame(t, a.id);
    } else {
      LeaveFrame(t, a.id);
    }
    ResumeFrameShift(s, t, Next(s, a), a.id);
  }

  lemma ResumeFrameShift(s: State, t: State, u: State, id: nat)
    requires id < |s.tasks| && s.tasks[id].Live() && t == SetPhase(s, id, Active)
    ensures Frame(t, u, id, s.tasks[id].symbol) ==> Frame(s, u, id, s.tasks[id].symbol)
    ensures StartsOrSleeps(t, u, s.tasks[id].symbol) ==> StartsOrSleeps(s, u, s.tasks[id].symbol)
  {
  }

  lemma ScheduleFrame(s: State, symbol: string)
    ensures var t, up := ScheduleStep(s, symbol), ToUpper(symbol);
      && t.stopped == s.stopped && t.minInterval == s.minInterval && s.log <= t.log && s.queued - {up} <= t.queued
      && |s.tasks| <= |t.tasks| && (forall i :: 0 <= i < |s.tasks| ==> t.tasks[i] == s.tasks[i])
      && (!s.stopped ==> up in t.queued || t.log[|s.log|..] == [Scheduled(up, s.now), Started(up, s.now)])
  {
    hide ToUpper;
    var up := ToUpper(symbol);
    if !s.stopped && up !in s.running {
      var q := s.(queued := s.queued + {up}, log := s.log + [Scheduled(up, s.now)], running := s.running + {up});
      LaunchFrame(q, up, |q.tasks|);
    }
  }

  lemma NextGrows(s: State, a: Action)
    requires Enabled(s, a)
    ensures Next(s, a).minInterval == s.minInterval && s.log <= Next(s, a).log && (s.stopped ==> Next(s, a).stopped)
  {
    hide LoopHead, Leave, ToUpper;
    if a.Wake? || a.Settle? { ResumeFrame(s, a); }
    if a.Schedule? { ScheduleFrame(s, a.symbol); }
  }

  lemma {:induction false} RunGrows(s: State, actions: seq<Action>)
    requires Feasible(s, actions)
    ensures Run(s, actions).minInterval == s.minInterval && s.log <= Run(s, actions).log && (s.stopped ==> Run(s, actions).stopped)
    decreases |actions|
  {
    hide Next;
    if actions != [] {
      NextGrows(s, actions[0]);
      RunGrows(Next(s, actions[0]), actions[1..]);
    }
  }

  /** From a fresh scheduler, under any interleaving and any failures: at most one run per symbol is in
      flight; starts of a symbol are at least minIntervalMs apart; a queued symbol has a live drain;
      and every accepted schedule call is followed by a start of its symbol, or still queued, or
      cut off by stop(). */
  lemma Safety(minIntervalMs: Option<int>, now: int, actions: seq<Action>)
    requires now > 0 && Feasible(Init(minIntervalMs, now), actions)
    ensures var s := Run(Init(minIntervalMs, now), actions);
      && (forall symbol, i: nat, j: nat :: InFlight(s, i, symbol) && InFlight(s, j, symbol) ==> i == j)
      && (forall i, j :: 0 <= i < j < |s.log| && s.log[i].Started? && s.log[j].Started? && s.log[i].symbol == s.log[j].symbol ==>
            s.log[j].at - s.log[i].at >= minIntervalMs.UnwrapOr(0))
      && (!s.stopped ==> forall symbol :: symbol in s.queued ==> exists i: nat :: LiveFor(s, i, symbol))
      && SignalsOk(s)
      && StartsPaid(s.log) && (forall symbol :: CountStarts(s.log, symbol) <= CountSignals(s.log, symbol))
      && (forall i :: 0 <= i < |s.tasks| && s.tasks[i].phase.Sleeping? ==>
            s.tasks[i].symbol in s.lastStart && s.tasks[i].phase.wakeAt == s.lastStart[s.tasks[i].symbol] + s.minInterval)
  {
    var s := Run(Init(minIntervalMs, now), actions);
    InitInv(minIntervalMs, now);
    RunKeeps(Init(minIntervalMs, now), actions);
    RunGrows(Init(minIntervalMs, now), actions);
    RunPaid(Init(minIntervalMs, now), actions);
    hide Run, StartsPaid, CountStarts, CountSignals;
    forall symbol: string ensures CountStarts(s.log, symbol) <= CountSignals(s.log, symbol) {
      StartsWithinSignals(s.log, symbol);
    }
  }

  /** A call for a symbol that is not running and whose interval is over starts it in the same stretch. */
  lemma PromptStart(s: State, symbol: string)
    requires !s.stopped && ToUpper(symbol) !in s.running
    requires ToUpper(symbol) in s.lastStart ==> s.now >= s.lastStart[ToUpper(symbol)] + s.minInterval
    ensures var t, up := ScheduleStep(s, symbol), ToUpper(symbol);
      && t.log == s.log + [Scheduled(up, s.now), Started(up, s.now)]
      && up in t.running && up !in t.queued && up in t.lastStart && t.lastStart[up] == s.now
  {
    hide ToUpper, Leave;
    var up := ToUpper(symbol);
    var q := s.(queued := s.queued + {up}, log := s.log + [Scheduled(up, s.now)], running := s.running + {up});
    assert WaitMs(q, up) == 0;
    var r := q.(tasks := q.tasks + [Drain(up, Active)], drains := q.drains + {|q.tasks|});
    assert Launch(q, up) == LoopHead(r, |q.tasks|) == StartRun(r, |q.tasks|);
  }

  // ---------------------------------------------------------------- shutdown

  ghost predicate NoStartSince(log: seq<Event>, n: nat) {
    forall i :: n <= i < |log| ==> !log[i].Started?
  }

  /** A stopped scheduler only winds down: no start, no new drain, no drain comes back to life. */
  ghost predicate WindsDown(s: State, t: State) {
    && t.stopped && |t.tasks| == |s.tasks| && s.log <= t.log && NoStartSince(t.log, |s.log|)
    && (forall i :: 0 <= i < |s.tasks| && t.tasks[i].Live() ==> s.tasks[i].Live())
    && s.stops <= t.stops
  }

  lemma StepWindsDown(s: State, a: Action)
    requires Inv(s) && AtRest(s) && s.stopped && Enabled(s, a)
    ensures WindsDown(s, Next(s, a))
  {
    hide TasksOk, ClockOk, StartsOk, SignalsOk, LoopHead, Leave;
    if a.Wake? || a.Settle? { ResumeFrame(s, a); }
  }

  /** After stop() is called no run ever starts again, whatever schedule calls still arrive. */
  lemma {:induction false} StoppedForGood(s: State, actions: seq<Action>)
    requires Inv(s) && AtRest(s) && s.stopped && Feasible(s, actions)
    ensures WindsDown(s, Run(s, actions))
    decreases |actions|
  {
    hide Inv, AtRest, Next;
    if actions != [] {
      var m := Next(s, actions[0]);
      StepWindsDown(s, actions[0]);
      NextKeeps(s, actions[0]);
      StoppedForGood(m, actions[1..]);
    }
  }

  /** The Promise.all of the k-th stop() call has resolved: each awaited promise is gone. */
  ghost predicate StopResolved(s: State, k: nat) {
    k < |s.stops| && s.stops[k] !! s.drains
  }

  /** When a stop() call resolves, no drain is alive, now or in any later state. */
  lemma QuietForever(s: State, k: nat, actions: seq<Action>)
    requires Inv(s) && AtRest(s) && StopResolved(s, k) && Feasible(s, actions)
    ensures var t := Run(s, actions);
      NoStartSince(t.log, |s.log|) && forall i :: 0 <= i < |t.tasks| ==> !t.tasks[i].Live()
  {
    assert forall i :: 0 <= i < |s.tasks| && s.tasks[i].Live() ==> i in s.stops[k] * s.drains;
    StoppedForGood(s, actions);
  }

  /** The same from a fresh scheduler: once some stop() has resolved, nothing runs, now or later. */
  lemma Shutdown(minIntervalMs: Option<int>, now: int, before: seq<Action>, k: nat, after: seq<Action>)
    requires now > 0 && Feasible(Init(minIntervalMs, now), before)
    requires var s := Run(Init(minIntervalMs, now), before); StopResolved(s, k) && Feasible(s, after)
    ensures var s := Run(Init(minIntervalMs, now), before);
      NoStartSince(Run(s, after).log, |s.log|) && forall id: nat, symbol :: !InFlight(Run(s, after), id, symbol)
  {
    InitInv(minIntervalMs, now);
    RunKeeps(Init(minIntervalMs, now), before);
    QuietForever(Run(Init(minIntervalMs, now), before), k, after);
  }

  // ---------------------------------------------------------------- progress

  predicate Moves(s: State, a: Action, symbol: string)
    requires Enabled(s, a)
  {
    (a.Wake? || a.Settle?) && s.tasks[a.id].symbol == symbol
  }

  /** How many of the actions resume the drain of `symbol`. */
  function Resumes(s: State, actions: seq<Action>, symbol: string): nat
    requires Feasible(s, actions)
    decreases |actions|
  {
    if actions == [] then 0
    else (if Moves(s, actions[0], symbol) then 1 else 0) + Resumes(Next(s, actions[0]), actions[1..], symbol)
  }

  /** Resumptions the drain of a queued symbol still needs before it starts a run. */
  ghost predicate Owes(s: State, symbol: string, n: nat) {
    n >= 1 && exists i: nat :: LiveFor(s, i, symbol) && (s.tasks[i].phase.Sleeping? || n >= 2)
  }

  ghost predicate StartedSince(log: seq<Event>, n: nat, symbol: string) {
    exists j :: n <= j < |log| && StartOf(log[j], symbol)
  }

  /** One step of the argument: a resumption of the symbol's drain either starts a run or leaves it
      one step closer; no other step sets it back. */
  lemma StepProgress(s: State, a: Action, symbol: string, n: nat)
    requires Inv(s) && AtRest(s) && Enabled(s, a) && !Next(s, a).stopped
    requires symbol in s.queued && Owes(s, symbol, n)
    ensures var t := Next(s, a);
      StartedSince(t.log, |s.log|, symbol) ||
      (symbol in t.queued && if Moves(s, a, symbol) then n >= 2 && Owes(t, symbol, n - 1) else Owes(t, symbol, n))
  {
    hide ClockOk, StartsOk, SignalsOk, StopsOk, LoopHead, Leave, ToUpper, WaitMs;
    var i: nat :| LiveFor(s, i, symbol) && (s.tasks[i].phase.Sleeping? || n >= 2);
    var t := Next(s, a);
    if a.Wake? || a.Settle? {
      NextGrows(s, a);
      ResumeFrame(s, a);
      if Moves(s, a, symbol) {
        assert a.id == i;
        if a.Wake? || t.log == s.log + [Started(symbol, s.now)] {
          assert StartOf(t.log[|s.log|], symbol);
        }
      } else {
        assert LiveFor(t, i, symbol);
      }
    } else if a.Schedule? {
      ScheduleFrame(s, a.symbol);
      assert LiveFor(t, i, symbol);
    } else {
      assert LiveFor(t, i, symbol);
    }
  }

  /** No signal is lost: in any run that does not stop, once the drain of a queued symbol has been
      resumed twice, a run of that symbol has started. */
  lemma {:induction false} Progress(s: State, actions: seq<Action>, symbol: string, n: nat)
    requires Inv(s) && AtRest(s) && Feasible(s, actions) && !Run(s, actions).stopped
    requires symbol in s.queued && Owes(s, symbol, n) && Resumes(s, actions, symbol) >= n
    ensures StartedSince(Run(s, actions).log, |s.log|, symbol)
    decreases |actions|
  {
    hide Inv, AtRest, Next;
    if actions == [] {
      assert false;
    } else {
      var a, rest := actions[0], actions[1..];
      var t := Next(s, a);
      RunGrows(t, rest);
      StepProgress(s, a, symbol, n);
      NextKeeps(s, a);
      NextGrows(s, a);
      if StartedSince(t.log, |s.log|, symbol) {
        var j :| |s.log| <= j < |t.log| && StartOf(t.log[j], symbol);
        assert StartOf(Run(t, rest).log[j], symbol);
      } else {
        Progress(t, rest, symbol, if Moves(s, a, symbol) then n - 1 else n);
        var j :| |t.log| <= j < |Run(t, rest).log| && StartOf(Run(t, rest).log[j], symbol);
        assert |s.log| <= j;
      }
    }
  }

  /** Every queued symbol is at most two resumptions away from a start. */
  lemma QueuedOwesTwo(s: State, symbol: string)
    requires Inv(s) && symbol in s.queued
    ensures Owes(s, symbol, 2)
  {
    var i: nat :| LiveFor(s, i, symbol);
  }

  /** End to end: a schedule call accepted in any reachable state is followed by a start of its symbol
      once the symbol's drain has been resumed twice, unless the scheduler is stopped. */
  lemma NoSignalLost(minIntervalMs: Option<int>, now: int, before: seq<Action>, symbol: string, after: seq<Action>)
    requires now > 0 && Feasible(Init(minIntervalMs, now), before)
    requires var t := ScheduleStep(Run(Init(minIntervalMs, now), before), symbol);
      Feasible(t, after) && !Run(t, after).stopped && Resumes(t, after, ToUpper(symbol)) >= 2
    ensures var s := Run(Init(minIntervalMs, now), before);
      StartedSince(Run(ScheduleStep(s, symbol), after).log, |s.log|, ToUpper(symbol))
  {
    hide LoopHead, ToUpper, Inv, AtRest;
    var s, up := Run(Init(minIntervalMs, now), before), ToUpper(symbol);
    var t := ScheduleStep(s, symbol);
    InitInv(minIntervalMs, now);
    RunKeeps(Init(minIntervalMs, now), before);
    ScheduleKeeps(s, symbol);
    ScheduleFrame(s, symbol);
    RunGrows(t, after);
    if up in t.queued {
      QueuedOwesTwo(t, up);
      Progress(t, after, up, 2);
      var j :| |t.log| <= j < |Run(t, after).log| && StartOf(Run(t, after).log[j], up);
      assert |s.log| <= j;
    } else {
      assert t.log[|s.log| + 1] == t.log[|s.log|..][1];
      assert StartOf(Run(t, after).log[|s.log| + 1], up);
    }
  }
}
