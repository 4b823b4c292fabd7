/** Every run of the scheduler answers a schedule call of its own. */
module SchedulerSignals {
  import opened SymbolScheduler
  import opened SchedulerSafety
  import opened Text

  /** The event at i asked for the symbol, and nothing started for it since, up to position n. */
  ghost predicate Unanswered(log: seq<Event>, i: nat, n: nat, symbol: string)
    requires n <= |log|
  {
    i < n && log[i].Scheduled? && log[i].symbol == symbol && forall k :: i < k < n ==> !StartOf(log[k], symbol)
  }

  /** At position n some accepted call for the symbol is still unanswered. */
  ghost predicate Pending(log: seq<Event>, n: nat, symbol: string)
    requires n <= |log|
  {
    exists i: nat :: Unanswered(log, i, n, symbol)
  }

  /** Before every start there is an accepted call for its symbol, with no other start of it in between. */
  ghost predicate StartsPaid(log: seq<Event>) {
    forall j :: 0 <= j < |log| && log[j].Started? ==> Pending(log, j, log[j].symbol)
  }

  ghost predicate QueuePaid(s: State) {
    forall symbol :: symbol in s.queued ==> Pending(s.log, |s.log|, symbol)
  }

  ghost predicate Paid(s: State) {
    StartsPaid(s.log) && QueuePaid(s)
  }

  // ---------------------------------------------------------------- the log grows

  lemma PendingPrefix(log: seq<Event>, e: Event, n: nat, symbol: string)
    requires n <= |log|
    ensures Pending(log, n, symbol) <==> Pending(log + [e], n, symbol)
  {
    var all := log + [e];
    if i: nat :| Unanswered(log, i, n, symbol) { assert Unanswered(all, i, n, symbol); }
    if i: nat :| Unanswered(all, i, n, symbol) {
      assert forall k :: i < k < n ==> log[k] == all[k];
      assert Unanswered(log, i, n, symbol);
    }
  }

  lemma PendingKept(log: seq<Event>, e: Event, symbol: string)
    requires Pending(log, |log|, symbol) && !StartOf(e, symbol)
    ensures Pending(log + [e], |log| + 1, symbol)
  {
    var i: nat :| Unanswered(log, i, |log|, symbol);
    assert Unanswered(log + [e], i, |log| + 1, symbol);
  }

  lemma PendingNow(log: seq<Event>, symbol: string, at: int)
    ensures Pending(log + [Scheduled(symbol, at)], |log| + 1, symbol)
  {
    assert Unanswered(log + [Scheduled(symbol, at)], |log|, |log| + 1, symbol);
  }

  lemma StartsPaidSnoc(log: seq<Event>, e: Event)
    requires StartsPaid(log) && (e.Started? ==> Pending(log, |log|, e.symbol))
    ensures StartsPaid(log + [e])
  {
    hide Pending;
    var all := log + [e];
    forall j | 0 <= j < |all| && all[j].Started? ensures Pending(all, j, all[j].symbol) {
      PendingPrefix(log, e, j, all[j].symbol);
    }
  }

  // ---------------------------------------------------------------- one stretch

  lemma StartPaid(s: State, id: nat)
    requires Paid(s) && id < |s.tasks| && s.tasks[id].symbol in s.queued
    ensures Paid(StartRun(s, id))
  {
    hide Pending, StartsPaid;
    var symbol := s.tasks[id].symbol;
    var e := Started(symbol, s.now);
    StartsPaidSnoc(s.log, e);
    forall other | other in s.queued - {symbol} ensures Pending(s.log + [e], |s.log| + 1, other) {
      PendingKept(s.log, e, other);
    }
  }

  lemma PaidFrame(s: State, t: State)
    requires Paid(s) && t.log == s.log && t.queued <= s.queued
    ensures Paid(t)
  {
    hide Pending, StartsPaid;
  }

  lemma LaunchPaid(s: State, symbol: string)
    requires Paid(s) && symbol in s.queued && !s.stopped
    ensures Paid(Launch(s, symbol))
  {
    hide Paid, StartRun;
    var id := |s.tasks|;
    var t := s.(tasks := s.tasks + [Drain(symbol, Active)], drains := s.drains + {id});
    PaidFrame(s, t);
    QueuedHeadPaid(t, id);
  }

  lemma QueuedHeadPaid(s: State, id: nat)
    requires Paid(s) && id < |s.tasks| && s.tasks[id].symbol in s.queued && !s.stopped
    ensures Paid(LoopHead(s, id))
  {
    hide Paid, StartRun;
    if WaitMs(s, s.tasks[id].symbol) > 0 { PaidFrame(s, LoopHead(s, id)); } else { StartPaid(s, id); }
  }

  lemma LeavePaid(s: State, id: nat)
    requires Paid(s) && id < |s.tasks|
    ensures Paid(Leave(s, id))
  {
    hide Paid;
    var symbol := s.tasks[id].symbol;
    var left := SetPhase(s, id, Finished).(running := s.running - {symbol});
    PaidFrame(s, left);
    if !s.stopped && symbol in s.queued {
      PaidFrame(s, left.(running := s.running + {symbol}));
      LaunchPaid(left.(running := s.running + {symbol}), symbol);
    }
  }

  lemma LoopHeadPaid(s: State, id: nat)
    requires Paid(s) && id < |s.tasks|
    ensures Paid(LoopHead(s, id))
  {
    hide Paid;
    if s.tasks[id].symbol in s.queued && !s.stopped {
      QueuedHeadPaid(s, id);
    } else {
      LeavePaid(s, id);
      PaidFrame(s, SetPhase(s, id, Sleeping(s.now + WaitMs(s, s.tasks[id].symbol))));
    }
  }

  lemma SchedulePaid(s: State, symbol: string)
    requires Paid(s)
    ensures Paid(ScheduleStep(s, symbol))
  {
    hide ToUpper, Pending, StartsPaid, Launch;
    if !s.stopped {
      var up := ToUpper(symbol);
      var e := Scheduled(up, s.now);
      var q := s.(queued := s.queued + {up}, log := s.log + [e]);
      StartsPaidSnoc(s.log, e);
      PendingNow(s.log, up, s.now);
      forall other | other in s.queued ensures Pending(q.log, |q.log|, other) {
        PendingKept(s.log, e, other);
      }
      if up !in s.running {
        PaidFrame(q, q.(running := q.running + {up}));
        LaunchPaid(q.(running := q.running + {up}), up);
      }
    }
  }

  lemma StopPaid(s: State)
    requires Paid(s)
    ensures Paid(StopStep(s))
  {
    hide Pending, StartsPaid;
    StartsPaidSnoc(s.log, StopCalled(s.now));
  }

  lemma SleeperIsQueued(s: State, id: nat)
    requires Inv(s) && Enabled(s, Wake(id)) && !s.stopped
    ensures s.tasks[id].symbol in s.queued
  {
    hide TasksOk, ClockOk, StartsOk, SignalsOk, StopsOk;
  }

  lemma NextPaid(s: State, a: Action)
    requires Inv(s) && Paid(s) && Enabled(s, a)
    ensures Paid(Next(s, a))
  {
    hide Inv, Paid, LoopHead, Leave, StartRun, ScheduleStep, StopStep;
    match a
    case Schedule(symbol) => SchedulePaid(s, symbol);
    case Stop => StopPaid(s);
    case Wake(id) =>
      var t := SetPhase(s, id, Active);
      PaidFrame(s, t);
      if s.stopped {
        LeavePaid(t, id);
      } else {
        SleeperIsQueued(s, id);
        StartPaid(t, id);
      }
    case Settle(id, failed) =>
      var t := SetPhase(s, id, Active);
      PaidFrame(s, t);
      if failed { LeavePaid(t, id); } else { LoopHeadPaid(t, id); }
    case Tick(to) => PaidFrame(s, s.(now := to));
    case Remove(id) => PaidFrame(s, s.(drains := s.drains - {id}));
  }

  lemma {:induction false} RunPaid(s: State, actions: seq<Action>)
    requires Inv(s) && AtRest(s) && Paid(s) && Feasible(s, actions)
    ensures Paid(Run(s, actions))
    decreases |actions|
  {
    hide Inv, AtRest, Next, Paid;
    if actions != [] {
      NextKeeps(s, actions[0]);
      NextPaid(s, actions[0]);
      RunPaid(Next(s, actions[0]), actions[1..]);
    }
  }

  // ---------------------------------------------------------------- counting

  function CountStarts(log: seq<Event>, symbol: string): nat {
    if log == [] then 0 else
    var e := log[|log| - 1];
    CountStarts(log[..|log| - 1], symbol) + if e.Started? && e.symbol == symbol then 1 else 0
  }

  function CountSignals(log: seq<Event>, symbol: string): nat {
    if log == [] then 0 else
    var e := log[|log| - 1];
    CountSignals(log[..|log| - 1], symbol) + if e.Scheduled? && e.symbol == symbol then 1 else 0
  }

  lemma PaidPrefix(init: seq<Event>, e: Event)
    requires StartsPaid(init + [e])
    ensures StartsPaid(init) && (e.Started? ==> Pending(init, |init|, e.symbol))
  {
    hide Pending;
    var log := init + [e];
    forall j | 0 <= j < |init| && init[j].Started? ensures Pending(init, j, init[j].symbol) {
      assert log[j] == init[j];
      PendingPrefix(init, e, j, init[j].symbol);
    }
    if e.Started? {
      assert log[|init|] == e;
      PendingPrefix(init, e, |init|, e.symbol);
    }
  }

  lemma PendingBefore(init: seq<Event>, e: Event, symbol: string)
    requires Pending(init + [e], |init| + 1, symbol)
    ensures !StartOf(e, symbol) && (Pending(init, |init|, symbol) || (e.Scheduled? && e.symbol == symbol))
  {
    var log := init + [e];
    var i: nat :| Unanswered(log, i, |init| + 1, symbol);
    assert log[|init|] == e;
    if i < |init| {
      assert forall k :: i < k < |init| ==> log[k] == init[k];
      assert Unanswered(init, i, |init|, symbol);
    }
  }

  /** So the starts of a symbol never outnumber its accepted calls, and while one is unanswered there are fewer. */
  lemma {:induction false} StartsWithinSignals(log: seq<Event>, symbol: string)
    requires StartsPaid(log)
    ensures CountStarts(log, symbol) <= CountSignals(log, symbol)
    ensures Pending(log, |log|, symbol) ==> CountStarts(log, symbol) < CountSignals(log, symbol)
  {
    if log != [] {
      hide Pending, StartsPaid;
      var init, e := log[..|log| - 1], log[|log| - 1];
      assert log == init + [e];
      PaidPrefix(init, e);
      StartsWithinSignals(init, symbol);
      if Pending(log, |log|, symbol) { PendingBefore(init, e, symbol); }
    }
  }
}
