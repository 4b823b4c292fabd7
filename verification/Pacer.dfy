/** createPacedShadowFetch in apps/worker/src/shadow-execution-quote-client.ts: one shared slot counter
    paces any number of concurrent, abortable callers. */
module Pacer {
  import opened Numbers
  import opened Rounding

  /** Waiting: a timer will fire no earlier than fireAt. Ready: it fired, the continuation has not run yet. */
  datatype Phase = Waiting(fireAt: int) | Ready(aborted: bool) | Dispatched(at: int) | Rejected

  datatype Call = Call(slot: int, phase: Phase)

  datatype State = State(now: int, interval: nat, nextStart: int, calls: seq<Call>)

  function Init(interval: nat, now: int): State {
    State(now, interval, 0, [])
  }

  // ---------------------------------------------------------------- the steps

  /** A call up to its first await. Date.now() is read twice, at s.now and at `again`. */
  function CallStep(s: State, again: int, aborted: bool): State {
    var startedAt := Max(s.now, s.nextStart);
    var delay := startedAt - again;
    var phase := if aborted then Rejected else if delay > 0 then Waiting(again + delay) else Dispatched(again);
    s.(now := again, nextStart := startedAt + s.interval, calls := s.calls + [Call(startedAt, phase)])
  }

  function SetPhase(s: State, i: nat, p: Phase): State
    requires i < |s.calls|
  {
    s.(calls := s.calls[i := s.calls[i].(phase := p)])
  }

  datatype Action =
    | Tick(to: int)
    | Fetch(again: int, aborted: bool)
    | Fire(i: nat)
    | Abort(i: nat)
    | Continue(i: nat)

  predicate Enabled(s: State, a: Action) {
    match a
    case Tick(to) => to >= s.now
    case Fetch(again, _) => again >= s.now
    case Fire(i) => i < |s.calls| && s.calls[i].phase.Waiting? && s.now >= s.calls[i].phase.fireAt
    case Abort(i) => i < |s.calls|
    case Continue(i) => i < |s.calls| && s.calls[i].phase.Ready?
  }

  function Next(s: State, a: Action): State
    requires Enabled(s, a)
  {
    match a
    case Tick(to) => s.(now := to)
    case Fetch(again, aborted) => CallStep(s, again, aborted)
    case Fire(i) => SetPhase(s, i, Ready(false))
    case Abort(i) =>
      match s.calls[i].phase {
        case Waiting(_) => SetPhase(s, i, Rejected)
        case Ready(_) => SetPhase(s, i, Ready(true))
        case _ => s
      }
    case Continue(i) => SetPhase(s, i, if s.calls[i].phase.aborted then Rejected else Dispatched(s.now))
  }

  predicate Feasible(s: State, actions: seq<Action>)
    decreases |actions|
  {
    actions == [] || (Enabled(s, actions[0]) && Feasible(Next(s, actions[0]), actions[1..]))
  }

  function Run(s: State, actions: seq<Action>): State
    requires Feasible(s, actions)
    decreases |actions|
  {
    if actions == [] then s else Run(Next(s, actions[0]), actions[1..])
  }

  // ---------------------------------------------------------------- the code

  class PacedFetch {
    const intervalMs: nat
    var nextStart: int
    var now: int
    var calls: seq<Call>

    ghost function View(): State
      reads this
    {
      State(now, intervalMs, nextStart, calls)
    }

    constructor (intervalMs: nat, now: int)
      ensures View() == Init(intervalMs, now)
    {
      this.intervalMs := intervalMs;
      nextStart, this.now, calls := 0, now, [];
    }

    method Fetch(again: int, aborted: bool)
      requires again >= now
      modifies this
      ensures View() == CallStep(old(View()), again, aborted)
    {
      var startedAt := Max(now, nextStart);
      nextStart := startedAt + intervalMs;
      now := again;
      var delayMs := startedAt - now;
      if delayMs > 0 {
        if aborted {
          calls := calls + [Call(startedAt, Rejected)];
        } else {
          calls := calls + [Call(startedAt, Waiting(now + delayMs))];
        }
      } else if aborted {
        calls := calls + [Call(startedAt, Rejected)];
      } else {
        calls := calls + [Call(startedAt, Dispatched(now))];
      }
    }

    /** finish, the timer callback. */
    method OnTimer(i: nat)
      requires Enabled(View(), Fire(i))
      modifies this
      ensures View() == Next(old(View()), Fire(i))
    {
      calls := calls[i := calls[i].(phase := Ready(false))];
    }

    /** The abort listener while waiting; afterwards throwIfAborted sees the flag. */
    method OnAbort(i: nat)
      requires i < |calls|
      modifies this
      ensures View() == Next(old(View()), Abort(i))
    {
      if calls[i].phase.Waiting? {
        calls := calls[i := calls[i].(phase := Rejected)];
      } else if calls[i].phase.Ready? {
        calls := calls[i := calls[i].(phase := Ready(true))];
      }
    }

    /** throwIfAborted, then fetchFn. */
    method OnContinue(i: nat)
      requires Enabled(View(), Continue(i))
      modifies this
      ensures View() == Next(old(View()), Continue(i))
    {
      if calls[i].phase.aborted {
        calls := calls[i := calls[i].(phase := Rejected)];
      } else {
        calls := calls[i := calls[i].(phase := Dispatched(now))];
      }
    }
  }

  // ---------------------------------------------------------------- safety

  /** Slots are an interval apart and handed out in call order; nobody waits or goes ahead of its slot. */
  ghost predicate Inv(s: State) {
    && (forall i :: 0 < i < |s.calls| ==> s.calls[i].slot >= s.calls[i - 1].slot + s.interval)
    && (s.calls != [] ==> s.nextStart == s.calls[|s.calls| - 1].slot + s.interval)
    && (forall i :: 0 <= i < |s.calls| ==> PhaseOk(s.calls[i].slot, s.calls[i].phase, s.now))
  }

  ghost predicate PhaseOk(slot: int, p: Phase, now: int) {
    match p
    case Waiting(fireAt) => fireAt == slot
    case Ready(_) => now >= slot
    case Dispatched(at) => slot <= at <= now
    case Rejected => true
  }

  lemma SetPhaseKeeps(s: State, i: nat, p: Phase)
    requires Inv(s) && i < |s.calls| && PhaseOk(s.calls[i].slot, p, s.now)
    ensures Inv(SetPhase(s, i, p))
  {
    hide PhaseOk;
  }

  lemma LaterPhase(slot: int, p: Phase, now: int, later: int)
    requires PhaseOk(slot, p, now) && now <= later
    ensures PhaseOk(slot, p, later)
  {
  }

  lemma TickKeeps(s: State, to: int)
    requires Inv(s) && to >= s.now
    ensures Inv(s.(now := to))
  {
    hide PhaseOk;
    forall i | 0 <= i < |s.calls| ensures PhaseOk(s.calls[i].slot, s.calls[i].phase, to) {
      LaterPhase(s.calls[i].slot, s.calls[i].phase, s.now, to);
    }
  }

  lemma AppendKeeps(s: State, c: Call)
    requires Inv(s) && PhaseOk(c.slot, c.phase, s.now) && c.slot >= s.nextStart
    ensures Inv(s.(nextStart := c.slot + s.interval, calls := s.calls + [c]))
  {
    hide PhaseOk;
  }

  lemma CallKeeps(s: State, again: int, aborted: bool)
    requires Inv(s) && again >= s.now
    ensures Inv(CallStep(s, again, aborted))
  {
    hide Inv;
    TickKeeps(s, again);
    var next := CallStep(s, again, aborted);
    var c := next.calls[|s.calls|];
    assert next.calls == s.calls + [c];
    AppendKeeps(s.(now := again), c);
  }

  lemma NextKeeps(s: State, a: Action)
    requires Inv(s) && Enabled(s, a)
    ensures Inv(Next(s, a))
  {
    match a
    case Tick(to) =>
      hide Inv;
      TickKeeps(s, to);
    case Fetch(again, aborted) =>
      hide Inv, CallStep;
      CallKeeps(s, again, aborted);
    case Fire(i) =>
      SetPhaseKeeps(s, i, Ready(false));
    case Abort(i) =>
      if s.calls[i].phase.Waiting? { SetPhaseKeeps(s, i, Rejected); }
      if s.calls[i].phase.Ready? { SetPhaseKeeps(s, i, Ready(true)); }
    case Continue(i) =>
      SetPhaseKeeps(s, i, if s.calls[i].phase.aborted then Rejected else Dispatched(s.now));
  }

  lemma {:induction false} RunKeeps(s: State, actions: seq<Action>)
    requires Inv(s) && Feasible(s, actions)
    ensures Inv(Run(s, actions))
    decreases |actions|
  {
    hide Inv, Next;
    if actions != [] {
      NextKeeps(s, actions[0]);
      RunKeeps(Next(s, actions[0]), actions[1..]);
    }
  }

  /** After any run, a call gets the earliest slot: at once, or one interval after the last slot. */
  lemma EarliestSlot(interval: nat, now: int, actions: seq<Action>, again: int, aborted: bool)
    requires now > 0 && Feasible(Init(interval, now), actions) && again >= Run(Init(interval, now), actions).now
    ensures var s := Run(Init(interval, now), actions); var n := |s.calls|;
      && |CallStep(s, again, aborted).calls| == n + 1 && CallStep(s, again, aborted).calls[..n] == s.calls
      && CallStep(s, again, aborted).calls[n].slot ==
           if n > 0 && s.calls[n - 1].slot + interval > s.now then s.calls[n - 1].slot + interval else s.now
  {
    var s := Run(Init(interval, now), actions);
    RunKeeps(Init(interval, now), actions);
    IntervalFixed(Init(interval, now), actions);
    FreshCounter(Init(interval, now), actions);
  }

  /** Before the first call the counter is zero and the clock past it. */
  lemma {:induction false} FreshCounter(s: State, actions: seq<Action>)
    requires Feasible(s, actions) && s.now > 0 && (s.calls == [] ==> s.nextStart == 0)
    ensures var t := Run(s, actions); t.now > 0 && (t.calls == [] ==> t.nextStart == 0)
    decreases |actions|
  {
    if actions != [] { FreshCounter(Next(s, actions[0]), actions[1..]); }
  }

  function DispatchCount(calls: seq<Call>): nat {
    if calls == [] then 0
    else DispatchCount(calls[..|calls| - 1]) + if calls[|calls| - 1].phase.Dispatched? then 1 else 0
  }

  lemma {:induction false} SlotsSpread(s: State, i: nat)
    requires Inv(s) && i < |s.calls|
    ensures s.calls[i].slot >= s.calls[0].slot + i * s.interval
  {
    if i > 0 {
      SlotsSpread(s, i - 1);
    }
  }

  /** Dispatched calls among the first n have consumed that many slots up to `now`. */
  lemma {:induction false} DispatchBound(s: State, n: nat)
    requires Inv(s) && n <= |s.calls| && s.interval > 0
    ensures DispatchCount(s.calls[..n]) <= n
    ensures DispatchCount(s.calls[..n]) > 0 ==>
              s.calls[0].slot <= s.now && DispatchCount(s.calls[..n]) <= (s.now - s.calls[0].slot) / s.interval + 1
  {
    if n > 0 {
      assert s.calls[..n][..n - 1] == s.calls[..n - 1];
      DispatchBound(s, n - 1);
      if s.calls[n - 1].phase.Dispatched? {
        SlotsSpread(s, n - 1);
        QuotientBound(s.now - s.calls[0].slot, n - 1, s.interval);
      }
    }
  }

  lemma QuotientBound(x: int, n: nat, d: nat)
    requires d > 0 && x >= n * d
    ensures x >= 0 && x / d >= n
  {
    assert x < x / d * d + d;
    TimesSum(d, n, -(x / d));
    LessThanOneStep(d, n - x / d);
  }

  /** For any interleaving of callers and aborts: reserved slots are at least interval apart, no call is
      dispatched before its slot, and at any time at most floor((now - first slot) / interval) + 1
      calls have been dispatched. */
  lemma Throughput(interval: nat, now: int, actions: seq<Action>)
    requires interval > 0 && Feasible(Init(interval, now), actions)
    ensures var s := Run(Init(interval, now), actions);
      && (forall i :: 0 < i < |s.calls| ==> s.calls[i].slot >= s.calls[i - 1].slot + interval)
      && (forall i :: 0 <= i < |s.calls| && s.calls[i].phase.Dispatched? ==> s.calls[i].slot <= s.calls[i].phase.at <= s.now)
      && (DispatchCount(s.calls) > 0 ==> DispatchCount(s.calls) <= (s.now - s.calls[0].slot) / interval + 1)
  {
    var s := Run(Init(interval, now), actions);
    RunKeeps(Init(interval, now), actions);
    IntervalFixed(Init(interval, now), actions);
    DispatchBound(s, |s.calls|);
    assert s.calls[..|s.calls|] == s.calls;
  }

  lemma {:induction false} IntervalFixed(s: State, actions: seq<Action>)
    requires Feasible(s, actions)
    ensures Run(s, actions).interval == s.interval
    decreases |actions|
  {
    if actions != [] {
      IntervalFixed(Next(s, actions[0]), actions[1..]);
    }
  }

  // ---------------------------------------------------------------- aborts

  /** Aborted while waiting or before its continuation. */
  ghost predicate Doomed(c: Call) { c.phase.Rejected? || (c.phase.Ready? && c.phase.aborted) }

  lemma {:induction false} DoomedForGood(s: State, i: nat, actions: seq<Action>)
    requires i < |s.calls| && Doomed(s.calls[i]) && Feasible(s, actions)
    ensures var t := Run(s, actions); i < |t.calls| && t.calls[i].slot == s.calls[i].slot && Doomed(t.calls[i])
    decreases |actions|
  {
    if actions != [] {
      DoomedForGood(Next(s, actions[0]), i, actions[1..]);
    }
  }

  /** A call aborted at any moment before its dispatch keeps its slot and is not dispatched in any continuation. */
  lemma AbortedNeverDispatched(s: State, i: nat, actions: seq<Action>)
    requires i < |s.calls| && !s.calls[i].phase.Dispatched? && Feasible(Next(s, Abort(i)), actions)
    ensures var t := Run(Next(s, Abort(i)), actions);
      i < |t.calls| && t.calls[i].slot == s.calls[i].slot && !t.calls[i].phase.Dispatched?
  {
    DoomedForGood(Next(s, Abort(i)), i, actions);
  }

  /** The part of a run that reads the clock: time passing and calls being made, none of them aborted. */
  function ClockPart(actions: seq<Action>): seq<Action> {
    if actions == [] then [] else
    match actions[0]
    case Tick(to) => [Tick(to)] + ClockPart(actions[1..])
    case Fetch(again, _) => [Fetch(again, false)] + ClockPart(actions[1..])
    case _ => ClockPart(actions[1..])
  }

  function Slots(s: State): seq<int> {
    seq(|s.calls|, i requires 0 <= i < |s.calls| => s.calls[i].slot)
  }

  /** The same clock, counter and slots; the phases of the calls may differ. */
  ghost predicate SameSlots(s: State, t: State) {
    s.now == t.now && s.interval == t.interval && s.nextStart == t.nextStart && Slots(s) == Slots(t)
  }

  lemma SlotsStep(s: State, t: State, a: Action)
    requires SameSlots(s, t) && Enabled(s, a)
    ensures match a
      case Tick(to) => Enabled(t, a) && SameSlots(Next(s, a), Next(t, a))
      case Fetch(again, _) => Enabled(t, Fetch(again, false)) && SameSlots(Next(s, a), Next(t, Fetch(again, false)))
      case _ => SameSlots(Next(s, a), t)
  {
    assert |Slots(s)| == |s.calls| && |Slots(t)| == |t.calls|;
    assert forall i :: 0 <= i < |s.calls| ==> s.calls[i].slot == Slots(s)[i] && t.calls[i].slot == Slots(t)[i];
  }

  /** Aborts move no slot: every call gets the slot it would have got had no call been aborted. */
  lemma {:induction false} SlotsIgnoreAborts(s: State, t: State, actions: seq<Action>)
    requires SameSlots(s, t) && Feasible(s, actions)
    ensures Feasible(t, ClockPart(actions)) && SameSlots(Run(s, actions), Run(t, ClockPart(actions)))
    decreases |actions|
  {
    if actions != [] {
      var a, rest := actions[0], actions[1..];
      SlotsStep(s, t, a);
      hide SameSlots, Next, Enabled;
      match a {
        case Tick(to) =>
          SlotsIgnoreAborts(Next(s, a), Next(t, a), rest);
          RunCons(t, a, ClockPart(rest));
        case Fetch(again, _) =>
          SlotsIgnoreAborts(Next(s, a), Next(t, Fetch(again, false)), rest);
          RunCons(t, Fetch(again, false), ClockPart(rest));
        case _ =>
          SlotsIgnoreAborts(Next(s, a), t, rest);
      }
    }
  }

  // ---------------------------------------------------------------- the gap between two dispatches

  /** Every dispatch so far went out at most `late` after its slot. */
  ghost predicate LateAtMost(s: State, late: nat) {
    forall i :: 0 <= i < |s.calls| && s.calls[i].phase.Dispatched? ==> s.calls[i].phase.at - s.calls[i].slot <= late
  }

  ghost predicate GapsAtLeast(s: State, gap: int) {
    forall i, j :: 0 <= i < j < |s.calls| && s.calls[i].phase.Dispatched? && s.calls[j].phase.Dispatched? ==>
      s.calls[j].phase.at - s.calls[i].phase.at >= gap
  }

  lemma {:induction false} SlotsApart(s: State, i: nat, j: nat)
    requires Inv(s) && i < j < |s.calls|
    ensures s.calls[j].slot >= s.calls[i].slot + s.interval
  {
    if i + 1 < j { SlotsApart(s, i, j - 1); }
  }

  /** In every run, dispatches at most `late` after their slots are at least interval - late apart, in call order. */
  lemma LatenessBoundsGaps(interval: nat, now: int, actions: seq<Action>, late: nat)
    requires Feasible(Init(interval, now), actions) && LateAtMost(Run(Init(interval, now), actions), late)
    ensures GapsAtLeast(Run(Init(interval, now), actions), interval - late)
  {
    var s := Run(Init(interval, now), actions);
    RunKeeps(Init(interval, now), actions);
    IntervalFixed(Init(interval, now), actions);
    forall i, j | 0 <= i < j < |s.calls| && s.calls[i].phase.Dispatched? && s.calls[j].phase.Dispatched?
      ensures s.calls[j].phase.at - s.calls[i].phase.at >= interval - late
    {
      SlotsApart(s, i, j);
    }
  }

  /** Every run that is never more than `late` behind keeps its dispatches an interval apart. */
  ghost predicate AlwaysSpaced(interval: nat, now: int, late: nat) {
    forall actions: seq<Action> :: Feasible(Init(interval, now), actions) && LateAtMost(Run(Init(interval, now), actions), late) ==>
      GapsAtLeast(Run(Init(interval, now), actions), interval)
  }

  /** Dispatches are an interval apart in all runs that are at most `late` behind exactly when nothing is
      ever late: the pacer bounds the number of dispatches, and with late timers not the gap between two. */
  lemma SpacedIff(interval: nat, now: int, late: nat)
    requires interval > 0 && now > 0
    ensures AlwaysSpaced(interval, now, late) <==> late == 0
  {
    if late == 0 {
      forall actions: seq<Action> | Feasible(Init(interval, now), actions) && LateAtMost(Run(Init(interval, now), actions), late)
        ensures GapsAtLeast(Run(Init(interval, now), actions), interval)
      {
        LatenessBoundsGaps(interval, now, actions, 0);
      }
    } else {
      var behind := if late < interval then late else interval;
      LateTimersBunch(interval, now, behind);
      var s := Run(Init(interval, now), LateRun(interval, now, behind));
      assert s.calls[1].phase.at - s.calls[1].slot <= late;
    }
  }

  /** Three calls at once, of which the second goes out `late` after its slot and the third on time. */
  function LateRun(interval: nat, now: int, late: nat): seq<Action> {
    [Fetch(now, false), Fetch(now, false), Fetch(now, false),
     Tick(now + interval + late), Fire(1), Continue(1), Tick(now + 2 * interval), Fire(2), Continue(2)]
  }

  /** The bound is met: for any lateness up to a whole interval some run has that lateness and two
      dispatches only interval - late apart, at a full interval in the same instant. */
  lemma LateTimersBunch(interval: nat, now: int, late: nat)
    requires interval > 0 && now > 0 && late <= interval
    ensures Feasible(Init(interval, now), LateRun(interval, now, late))
    ensures var s := Run(Init(interval, now), LateRun(interval, now, late));
      && LateAtMost(s, late) && |s.calls| == 3
      && s.calls[1].phase == Dispatched(now + interval + late) && s.calls[2].phase == Dispatched(now + 2 * interval)
  {
    var calls := [Fetch(now, false), Fetch(now, false), Fetch(now, false)];
    var s3 := ThreeWaiting(interval, now);
    var rest := [Tick(now + interval + late), Fire(1), Continue(1), Tick(now + 2 * interval), Fire(2), Continue(2)];
    ThreeCalls(interval, now);
    LateDispatch(interval, now, late);
    RunAppend(Init(interval, now), calls, rest);
    assert calls + rest == LateRun(interval, now, late);
  }

  lemma RunCons(s: State, a: Action, rest: seq<Action>)
    requires Enabled(s, a) && Feasible(Next(s, a), rest)
    ensures Feasible(s, [a] + rest) && Run(s, [a] + rest) == Run(Next(s, a), rest)
  {
    assert ([a] + rest)[1..] == rest;
  }

  lemma {:induction false} RunAppend(s: State, first: seq<Action>, rest: seq<Action>)
    requires Feasible(s, first) && Feasible(Run(s, first), rest)
    ensures Feasible(s, first + rest) && Run(s, first + rest) == Run(Run(s, first), rest)
    decreases |first|
  {
    if first == [] {
      assert first + rest == rest;
    } else {
      RunAppend(Next(s, first[0]), first[1..], rest);
      assert (first + rest)[1..] == first[1..] + rest;
    }
  }

  lemma Nothing(s: State)
    ensures Feasible(s, []) && Run(s, []) == s
  {
  }

  function ThreeWaiting(interval: nat, now: int): State {
    State(now, interval, now + 3 * interval,
          [Call(now, Dispatched(now)), Call(now + interval, Waiting(now + interval)),
           Call(now + 2 * interval, Waiting(now + 2 * interval))])
  }

  lemma ThreeCalls(interval: nat, now: int)
    requires interval > 0 && now > 0
    ensures var calls := [Fetch(now, false), Fetch(now, false), Fetch(now, false)];
      Feasible(Init(interval, now), calls) && Run(Init(interval, now), calls) == ThreeWaiting(interval, now)
  {
    var f := Fetch(now, false);
    var s1 := Next(Init(interval, now), f);
    var s2 := Next(s1, f);
    var s3 := Next(s2, f);
    assert s3 == ThreeWaiting(interval, now);
    hide Run, Feasible;
    Nothing(s3);
    RunCons(s2, f, []);
    RunCons(s1, f, [f] + []);
    RunCons(Init(interval, now), f, [f] + ([f] + []));
    assert [f] + ([f] + ([f] + [])) == [f, f, f];
  }

  lemma LateDispatch(interval: nat, now: int, late: nat)
    requires late <= interval
    ensures var run := [Tick(now + interval + late), Fire(1), Continue(1), Tick(now + 2 * interval), Fire(2), Continue(2)];
      && Feasible(ThreeWaiting(interval, now), run)
      && Run(ThreeWaiting(interval, now), run) == State(now + 2 * interval, interval, now + 3 * interval,
           [Call(now, Dispatched(now)), Call(now + interval, Dispatched(now + interval + late)),
            Call(now + 2 * interval, Dispatched(now + 2 * interval))])
  {
    var s0 := ThreeWaiting(interval, now);
    var s1 := Next(s0, Tick(now + interval + late));
    var s2 := Next(s1, Fire(1));
    var s3 := Next(s2, Continue(1));
    var s4 := Next(s3, Tick(now + 2 * interval));
    var s5 := Next(s4, Fire(2));
    var s6 := Next(s5, Continue(2));
    assert s6.calls == [Call(now, Dispatched(now)), Call(now + interval, Dispatched(now + interval + late)),
                        Call(now + 2 * interval, Dispatched(now + 2 * interval))];
    hide Run, Feasible;
    var r5 := [Continue(2)] + [];
    var r4 := [Fire(2)] + r5;
    var r3 := [Tick(now + 2 * interval)] + r4;
    var r2 := [Continue(1)] + r3;
    var r1 := [Fire(1)] + r2;
    Nothing(s6);
    RunCons(s5, Continue(2), []);
    RunCons(s4, Fire(2), r5);
    RunCons(s3, Tick(now + 2 * interval), r4);
    RunCons(s2, Continue(1), r3);
    RunCons(s1, Fire(1), r2);
    RunCons(s0, Tick(now + interval + late), r1);
    assert [Tick(now + interval + late)] + r1
        == [Tick(now + interval + late), Fire(1), Continue(1), Tick(now + 2 * interval), Fire(2), Continue(2)];
  }
}
