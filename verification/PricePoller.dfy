/** apps/worker/src/jupiter-price-poller.ts as a step system. */
module PricePoller {
  import opened Wrappers

  const MAX_BACKOFF_MS := 30_000

  datatype Phase = Fetching | Delivering | Done

  /** What the polls met so far, in order. */
  datatype Outcome = Fetched | FetchFailed | DeliveryFailed

  /** armed: the delay of every timer that will still fire; timer: the one handle the class keeps. */
  datatype State = State(interval: nat, stopped: bool, timer: Option<nat>, armed: map<nat, nat>, timers: nat,
                         failures: nat, polls: seq<Phase>, outcomes: seq<Outcome>)

  function Init(interval: nat): State {
    State(interval, true, None, map[], 0, 0, [], [])
  }

  function Pow2(k: nat): (r: nat)
    ensures r >= 1
  {
    if k == 0 then 1 else 2 * Pow2(k - 1)
  }

  /** Math.min(intervalMs * 2 ** k, MAX_BACKOFF_MS) */
  function Backoff(interval: nat, k: nat): nat {
    if interval * Pow2(k) <= MAX_BACKOFF_MS then interval * Pow2(k) else MAX_BACKOFF_MS
  }

  // ---------------------------------------------------------------- the steps

  function Launch(s: State): State { s.(polls := s.polls + [Fetching]) }

  function StartStep(s: State): State {
    if !s.stopped then s else Launch(s.(stopped := false))
  }

  function StopStep(s: State): State {
    s.(stopped := true, timer := None, armed := if s.timer.Some? then s.armed - {s.timer.value} else s.armed)
  }

  /** The end of poll(): re-arm unless stopped. */
  function EndPoll(s: State, k: nat, delay: nat): State
    requires k < |s.polls|
  {
    var t := s.(polls := s.polls[k := Done]);
    if s.stopped then t else t.(timer := Some(s.timers), armed := s.armed[s.timers := delay], timers := s.timers + 1)
  }

  /** The catch block, then the end of poll(). */
  function FailPoll(s: State, k: nat, o: Outcome): State
    requires k < |s.polls|
  {
    EndPoll(s.(failures := s.failures + 1, outcomes := s.outcomes + [o]), k, Backoff(s.interval, s.failures + 1))
  }

  datatype Action =
    | Start
    | Stop
    | Fetch(k: nat, failed: bool)       // fetchLatestPrices settles
    | Deliver(k: nat, failed: bool)     // onPrices settles
    | Fire(id: nat)

  predicate Enabled(s: State, a: Action) {
    match a
    case Start => true
    case Stop => true
    case Fetch(k, _) => k < |s.polls| && s.polls[k].Fetching?
    case Deliver(k, _) => k < |s.polls| && s.polls[k].Delivering?
    case Fire(id) => id in s.armed
  }

  function Next(s: State, a: Action): State
    requires Enabled(s, a)
  {
    match a
    case Start => StartStep(s)
    case Stop => StopStep(s)
    case Fetch(k, failed) =>
      if failed then FailPoll(s, k, FetchFailed)
      else s.(failures := 0, outcomes := s.outcomes + [Fetched], polls := s.polls[k := Delivering])
    case Deliver(k, failed) => if failed then FailPoll(s, k, DeliveryFailed) else EndPoll(s, k, s.interval)
    case Fire(id) => Launch(s.(armed := s.armed - {id}))
  }

  predicate Feasible(s: State, actions: seq<Action>)
    decreases |actions|
  {
    actions == [] || (Enabled(s, actions[0]) && Feasible(Next(s, actions[0]), actions[1..]))
  }

  function Run(s: State, actions: seq<Action>): State
    requires Feasible(s, actions)
    decreases |actions|
  {
    if actions == [] then s else Run(Next(s, actions[0]), actions[1..])
  }

  // ---------------------------------------------------------------- the code

  class JupiterPricePoller {
    const intervalMs: nat
    var stopped: bool
    var timer: Option<nat>
    var consecutiveFailures: nat
    var armed: map<nat, nat>
    var timers: nat
    var polls: seq<Phase>
    ghost var outcomes: seq<Outcome>

    ghost function View(): State
      reads this
    {
      State(intervalMs, stopped, timer, armed, timers, consecutiveFailures, polls, outcomes)
    }

    constructor (intervalMs: nat)
      ensures View() == Init(intervalMs)
    {
      this.intervalMs := intervalMs;
      stopped, timer, consecutiveFailures, armed, timers, polls, outcomes := true, None, 0, map[], 0, [], [];
    }

    method Start()
      modifies this
      ensures View() == StartStep(old(View()))
    {
      if !stopped { return; }
      stopped := false;
      polls := polls + [Fetching];
    }

    method Stop()
      modifies this
      ensures View() == StopStep(old(View()))
    {
      stopped := true;
      if timer.Some? {
        armed := armed - {timer.value};
        timer := None;
      }
    }

    method OnFetched(k: nat, failed: bool)
      requires Enabled(View(), Fetch(k, failed))
      modifies this
      ensures View() == Next(old(View()), Fetch(k, failed))
    {
      if failed {
        Catch(k, FetchFailed);
      } else {
        consecutiveFailures := 0;
        outcomes := outcomes + [Fetched];
        polls := polls[k := Delivering];
      }
    }

    method OnDelivered(k: nat, failed: bool)
      requires Enabled(View(), Deliver(k, failed))
      modifies this
      ensures View() == Next(old(View()), Deliver(k, failed))
    {
      if failed { Catch(k, DeliveryFailed); } else { Finish(k, intervalMs); }
    }

    method Catch(k: nat, ghost o: Outcome)
      requires k < |polls|
      modifies this
      ensures View() == FailPoll(old(View()), k, o)
    {
      consecutiveFailures := consecutiveFailures + 1;
      outcomes := outcomes + [o];
      Finish(k, Backoff(intervalMs, consecutiveFailures));
    }

    method Finish(k: nat, nextDelayMs: nat)
      requires k < |polls|
      modifies this
      ensures View() == EndPoll(old(View()), k, nextDelayMs)
    {
      polls := polls[k := Done];
      if !stopped {
        timer, armed, timers := Some(timers), armed[timers := nextDelayMs], timers + 1;
      }
    }
  }

  // ---------------------------------------------------------------- one loop

  ghost predicate InFlight(s: State, k: nat) { k < |s.polls| && !s.polls[k].Done? }

  ghost predicate Idle(s: State) { forall k :: 0 <= k < |s.polls| ==> s.polls[k].Done? }

  /** At most one poll in flight, and never beside an armed timer or two armed timers. */
  ghost predicate SingleLoop(s: State) {
    && (forall i, j :: 0 <= i < j < |s.polls| ==> s.polls[i].Done? || s.polls[j].Done?)
    && (s.armed.Keys == {} || (Idle(s) && exists id :: s.armed.Keys == {id}))
  }

  /** The state of a single loop: the armed timer is the one the handle can clear. */
  ghost predicate Inv(s: State) {
    && (forall i, j :: 0 <= i < j < |s.polls| ==> s.polls[i].Done? || s.polls[j].Done?)
    && (s.armed.Keys == {} || (Idle(s) && s.timer.Some? && s.armed.Keys == {s.timer.value}))
    && (s.stopped ==> s.armed.Keys == {})
    && (!s.stopped ==> !Idle(s) || s.armed.Keys != {})
  }

  /** start() called after a stop() whose poll is still in flight. */
  ghost predicate RacingStart(s: State, a: Action) { a.Start? && s.stopped && !Idle(s) }

  lemma NextKeeps(s: State, a: Action)
    requires Inv(s) && Enabled(s, a) && !RacingStart(s, a)
    ensures Inv(Next(s, a))
  {
    var t := Next(s, a);
    if a.Fetch? || a.Deliver? {
      assert InFlight(s, a.k) && s.armed.Keys == {};
      assert t.polls[a.k].Done? && !t.stopped ==> s.timers in t.armed.Keys;
    }
    if a.Fire? {
      assert t.armed.Keys == {} && !t.polls[|s.polls|].Done?;
    }
    if a.Stop? {
      assert t.armed.Keys == {};
    }
    if a.Start? && s.stopped {
      assert !t.polls[|s.polls|].Done?;
    }
  }

  lemma RacingStartSplits(s: State)
    requires Inv(s) && RacingStart(s, Start)
    ensures !SingleLoop(Next(s, Start))
  {
    var k :| 0 <= k < |s.polls| && !s.polls[k].Done?;
    var t := Next(s, Start);
    assert !t.polls[k].Done? && !t.polls[|s.polls|].Done?;
  }

  ghost predicate AlwaysSingle(s: State, actions: seq<Action>)
    requires Feasible(s, actions)
    decreases |actions|
  {
    SingleLoop(s) && (actions == [] || AlwaysSingle(Next(s, actions[0]), actions[1..]))
  }

  ghost predicate NeverRaces(s: State, actions: seq<Action>)
    requires Feasible(s, actions)
    decreases |actions|
  {
    actions == [] || (!RacingStart(s, actions[0]) && NeverRaces(Next(s, actions[0]), actions[1..]))
  }

  lemma {:induction false} SingleLoopFrom(s: State, actions: seq<Action>)
    requires Inv(s) && Feasible(s, actions)
    ensures AlwaysSingle(s, actions) <==> NeverRaces(s, actions)
    decreases |actions|
  {
    if actions != [] {
      var a := actions[0];
      if RacingStart(s, a) {
        RacingStartSplits(s);
      } else {
        NextKeeps(s, a);
        SingleLoopFrom(Next(s, a), actions[1..]);
      }
    }
  }

  /** The poller stays a single loop in exactly the runs where start() never overtakes a stopped poll. */
  lemma SingleLoopIff(interval: nat, actions: seq<Action>)
    requires Feasible(Init(interval), actions)
    ensures AlwaysSingle(Init(interval), actions) <==> NeverRaces(Init(interval), actions)
  {
    SingleLoopFrom(Init(interval), actions);
  }

  lemma {:induction false} InvFrom(s: State, actions: seq<Action>)
    requires Inv(s) && Feasible(s, actions) && NeverRaces(s, actions)
    ensures Inv(Run(s, actions))
    decreases |actions|
  {
    hide Inv, Next;
    if actions != [] {
      NextKeeps(s, actions[0]);
      InvFrom(Next(s, actions[0]), actions[1..]);
    }
  }

  /** In such runs a started poller never dies: a poll is in flight, or the one timer that stop() can clear is armed. */
  lemma KeepsPolling(interval: nat, actions: seq<Action>)
    requires Feasible(Init(interval), actions) && NeverRaces(Init(interval), actions)
    ensures var s := Run(Init(interval), actions);
      && (!s.stopped ==> (exists k: nat :: InFlight(s, k)) || (s.timer.Some? && s.armed.Keys == {s.timer.value}))
      && (s.stopped ==> s.armed.Keys == {})
  {
    InvFrom(Init(interval), actions);
    var s := Run(Init(interval), actions);
    if !Idle(s) {
      var k :| 0 <= k < |s.polls| && !s.polls[k].Done?;
      assert InFlight(s, k);
    }
  }

  /** After any run, a delivery that succeeds while not stopped re-arms with the plain interval. */
  lemma SuccessDelay(interval: nat, actions: seq<Action>, k: nat)
    requires Feasible(Init(interval), actions) && Enabled(Run(Init(interval), actions), Deliver(k, false))
    ensures var s := Run(Init(interval), actions); var t := Next(s, Deliver(k, false));
      && t.polls == s.polls[k := Done] && t.failures == s.failures
      && (!s.stopped ==> t.timer.Some? && t.timer.value in t.armed && t.armed[t.timer.value] == interval)
      && (s.stopped ==> t.armed == s.armed)
  {
    IntervalFixed(Init(interval), actions);
  }

  lemma RunCons(s: State, a: Action, rest: seq<Action>)
    requires Enabled(s, a) && Feasible(Next(s, a), rest)
    ensures Feasible(s, [a] + rest) && Run(s, [a] + rest) == Run(Next(s, a), rest)
  {
    assert ([a] + rest)[1..] == rest;
  }

  const RACE := [Start, Stop, Start]
  const AFTER_RACE := [Fetch(0, false), Deliver(0, false), Fetch(1, false), Deliver(1, false), Stop]

  function Raced(i: nat): State {
    State(i, false, None, map[], 0, 0, [Fetching, Fetching], [])
  }

  function Orphaned(i: nat): State {
    State(i, true, None, map[0 := i], 2, 0, [Done, Done], [Fetched, Fetched])
  }

  lemma RaceRuns(i: nat)
    ensures Feasible(Init(i), RACE) && Run(Init(i), RACE) == Raced(i)
  {
    hide Run, Feasible;
    var s1 := Next(Init(i), Start);
    var s2 := Next(s1, Stop);
    assert Next(s2, Start) == Raced(i);
    Nothing(Raced(i));
    assert RACE == [Start] + ([Stop] + ([Start] + []));
    RunCons(s2, Start, []);
    RunCons(s1, Stop, [Start] + []);
    RunCons(Init(i), Start, [Stop] + ([Start] + []));
  }

  lemma Nothing(s: State)
    ensures Feasible(s, []) && Run(s, []) == s
  {
  }

  lemma AfterRaceRuns(i: nat)
    ensures Feasible(Raced(i), AFTER_RACE) && Run(Raced(i), AFTER_RACE) == Orphaned(i)
  {
    hide Run, Feasible;
    var s4 := Next(Raced(i), Fetch(0, false));
    var s5 := Next(s4, Deliver(0, false));
    var s6 := Next(s5, Fetch(1, false));
    var s7 := Next(s6, Deliver(1, false));
    assert s7 == State(i, false, Some(1), map[0 := i, 1 := i], 2, 0, [Done, Done], [Fetched, Fetched]);
    assert Next(s7, Stop) == Orphaned(i);
    Nothing(Orphaned(i));
    var r7 := [Stop] + [];
    var r6 := [Deliver(1, false)] + r7;
    var r5 := [Fetch(1, false)] + r6;
    var r4 := [Deliver(0, false)] + r5;
    RunCons(s7, Stop, []);
    RunCons(s6, Deliver(1, false), r7);
    RunCons(s5, Fetch(1, false), r6);
    RunCons(s4, Deliver(0, false), r5);
    RunCons(Raced(i), Fetch(0, false), r4);
    assert AFTER_RACE == [Fetch(0, false)] + r4;
  }

  /** A run that breaks it: after start, stop, start two polls are in flight side by side; the second
      timer overwrites the handle of the first, which survives the final stop() and fires after it. */
  lemma RacingRun(i: nat)
    ensures Feasible(Init(i), RACE) && InFlight(Run(Init(i), RACE), 0) && InFlight(Run(Init(i), RACE), 1)
    ensures var s := Run(Init(i), RACE);
      Feasible(s, AFTER_RACE) && Run(s, AFTER_RACE).stopped && Enabled(Run(s, AFTER_RACE), Fire(0))
  {
    RaceRuns(i);
    AfterRaceRuns(i);
  }

  // ---------------------------------------------------------------- backoff

  /** Failures since the last successful fetch. */
  function Trailing(outcomes: seq<Outcome>): nat {
    if outcomes == [] || outcomes[|outcomes| - 1].Fetched? then 0 else 1 + Trailing(outcomes[..|outcomes| - 1])
  }

  lemma TrailingStep(outcomes: seq<Outcome>, o: Outcome)
    ensures Trailing(outcomes + [o]) == if o.Fetched? then 0 else Trailing(outcomes) + 1
  {
    assert (outcomes + [o])[..|outcomes|] == outcomes;
  }

  /** In every run the failure counter counts the failures since the last successful fetch. */
  lemma {:induction false} BackoffFollowsFailures(s: State, actions: seq<Action>)
    requires s.failures == Trailing(s.outcomes) && Feasible(s, actions)
    ensures Run(s, actions).failures == Trailing(Run(s, actions).outcomes)
    decreases |actions|
  {
    if actions != [] {
      TrailingStep(s.outcomes, Fetched);
      TrailingStep(s.outcomes, FetchFailed);
      TrailingStep(s.outcomes, DeliveryFailed);
      BackoffFollowsFailures(Next(s, actions[0]), actions[1..]);
    }
  }

  lemma FailStep(s: State, k: nat, o: Outcome)
    requires k < |s.polls| && s.failures == Trailing(s.outcomes) && !o.Fetched?
    ensures var t := FailPoll(s, k, o);
      && t.interval == s.interval && t.stopped == s.stopped
      && t.failures == Trailing(t.outcomes)
      && (!s.stopped ==> t.timer.Some? && t.timer.value in t.armed && t.armed[t.timer.value] == Backoff(s.interval, Trailing(t.outcomes)))
      && (s.stopped ==> t.armed == s.armed)
  {
    hide Backoff;
    TrailingStep(s.outcomes, o);
  }

  lemma {:induction false} IntervalFixed(s: State, actions: seq<Action>)
    requires Feasible(s, actions)
    ensures Run(s, actions).interval == s.interval
    decreases |actions|
  {
    if actions != [] {
      IntervalFixed(Next(s, actions[0]), actions[1..]);
    }
  }

  /** The delay is the smaller of 30 s and interval * 2^k. */
  ghost predicate CappedDelay(delay: nat, interval: nat, k: nat) {
    delay <= 30_000 && delay <= interval * Pow2(k) && (delay == 30_000 || delay == interval * Pow2(k))
  }

  lemma BackoffIs(interval: nat, k: nat)
    ensures CappedDelay(Backoff(interval, k), interval, k)
  {
  }

  /** After any run of a fresh poller, a poll that fails while not stopped re-arms with exactly
      min(interval * 2^k, 30 s), where k is the number of failures since the last successful fetch. */
  lemma FailureDelay(interval: nat, actions: seq<Action>, a: Action)
    requires Feasible(Init(interval), actions)
    requires var s := Run(Init(interval), actions); Enabled(s, a) && !s.stopped && (a.Fetch? || a.Deliver?) && a.failed
    ensures var t := Next(Run(Init(interval), actions), a);
      && Trailing(t.outcomes) >= 1
      && t.timer.Some? && t.timer.value in t.armed && CappedDelay(t.armed[t.timer.value], interval, Trailing(t.outcomes))
  {
    BackoffFollowsFailures(Init(interval), actions);
    IntervalFixed(Init(interval), actions);
    var s := Run(Init(interval), actions);
    var o := if a.Fetch? then FetchFailed else DeliveryFailed;
    hide Run, Feasible, Backoff, EndPoll;
    TrailingStep(s.outcomes, o);
    FailStep(s, a.k, o);
    FailedOutcomes(s, a.k, o);
    BackoffIs(interval, Trailing(Next(s, a).outcomes));
  }

  lemma FailedOutcomes(s: State, k: nat, o: Outcome)
    requires k < |s.polls|
    ensures FailPoll(s, k, o).outcomes == s.outcomes + [o]
  {
    hide Backoff;
  }

  lemma BackoffStep(interval: nat, k: nat)
    ensures Backoff(interval, k) <= Backoff(interval, k + 1) <= 30_000
  {
    assert interval * Pow2(k + 1) == 2 * (interval * Pow2(k));
  }

  /** The delay never shrinks as failures accumulate. */
  lemma {:induction false} BackoffMonotone(interval: nat, j: nat, k: nat)
    requires j <= k
    ensures Backoff(interval, j) <= Backoff(interval, k) <= 30_000
  {
    hide Backoff;
    if j < k {
      BackoffMonotone(interval, j, k - 1);
      BackoffStep(interval, k - 1);
    } else {
      BackoffStep(interval, j);
    }
  }

  /** A failed poll waits at least the normal interval exactly when that interval is at most the cap;
      with a longer interval a failure is retried sooner than a success is refreshed. */
  lemma BackoffNotShorterIff(interval: nat, k: nat)
    requires k >= 1
    ensures Backoff(interval, k) >= interval <==> interval <= 30_000
  {
    assert interval * Pow2(k) >= interval by {
      assert interval * (Pow2(k) - 1) >= 0;
    }
  }
}
