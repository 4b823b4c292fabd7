/** apps/worker/src/execution-recovery-poller.ts as a step system over start, stop, timer and promise callbacks. */
module RecoveryPoller {
  import opened Wrappers

  /** Returned: poll() is done but its .finally callback has not run yet. */
  datatype Phase = Listing | Recovering | Returned | Settled

  /** One call of poll(): the distinct ids it enumerated, and those passed to recoverBot so far. */
  datatype Poll = Poll(phase: Phase, listed: seq<string>, tried: seq<string>, cut: bool) {
    predicate InFlight() { !phase.Settled? }
  }

  /** armed: timers that will still fire; timer and running: the two handles the class keeps. */
  datatype State = State(stopped: bool, timer: Option<nat>, armed: set<nat>, timers: nat,
                         running: Option<nat>, polls: seq<Poll>)

  const INIT := State(true, None, {}, 0, None, [])

  /** new Set(ids), in insertion order. */
  function Distinct(ids: seq<string>): (r: seq<string>)
    ensures forall id :: id in r <==> id in ids
    ensures forall i, j :: 0 <= i < j < |r| ==> r[i] != r[j]
  {
    if ids == [] then [] else
    var r, last := Distinct(ids[..|ids| - 1]), ids[|ids| - 1];
    if last in r then r else r + [last]
  }

  // ---------------------------------------------------------------- the steps

  function Launch(s: State): State {
    s.(running := Some(|s.polls|), polls := s.polls + [Poll(Listing, [], [], false)])
  }

  function StartStep(s: State): State {
    if !s.stopped || s.running.Some? then s else Launch(s.(stopped := false))
  }

  function StopStep(s: State): State {
    s.(stopped := true, timer := None, armed := if s.timer.Some? then s.armed - {s.timer.value} else s.armed)
  }

  /** The loop head of poll(): leave, or call recoverBot for the next id. */
  function NextBot(s: State, k: nat): State
    requires k < |s.polls| && |s.polls[k].tried| <= |s.polls[k].listed|
  {
    var p := s.polls[k];
    s.(polls := s.polls[k :=
      if |p.tried| == |p.listed| then p.(phase := Returned)
      else if s.stopped then p.(phase := Returned, cut := true)
      else p.(phase := Recovering, tried := p.tried + [p.listed[|p.tried|]])])
  }

  function ListedStep(s: State, k: nat, ids: seq<string>): State
    requires k < |s.polls|
  {
    NextBot(s.(polls := s.polls[k := s.polls[k].(listed := Distinct(ids), tried := [])]), k)
  }

  function ListFailedStep(s: State, k: nat): State
    requires k < |s.polls|
  {
    s.(polls := s.polls[k := s.polls[k].(phase := Returned)])
  }

  /** The .finally callback. */
  function SettleStep(s: State, k: nat): State
    requires k < |s.polls|
  {
    var t := s.(running := None, polls := s.polls[k := s.polls[k].(phase := Settled)]);
    if s.stopped then t else t.(timer := Some(s.timers), armed := s.armed + {s.timers}, timers := s.timers + 1)
  }

  datatype Action =
    | Start
    | Stop
    | Listed(k: nat, ids: seq<string>)
    | ListFailed(k: nat)
    | Recovered(k: nat, failed: bool)   // recoverBot resolves, or rejects into the inner catch
    | Settle(k: nat)
    | Fire(id: nat)

  predicate Enabled(s: State, a: Action) {
    match a
    case Start => true
    case Stop => true
    case Listed(k, _) => k < |s.polls| && s.polls[k].phase.Listing?
    case ListFailed(k) => k < |s.polls| && s.polls[k].phase.Listing?
    case Recovered(k, _) => k < |s.polls| && s.polls[k].phase.Recovering? && |s.polls[k].tried| <= |s.polls[k].listed|
    case Settle(k) => k < |s.polls| && s.polls[k].phase.Returned?
    case Fire(id) => id in s.armed
  }

  function Next(s: State, a: Action): State
    requires Enabled(s, a)
  {
    match a
    case Start => StartStep(s)
    case Stop => StopStep(s)
    case Listed(k, ids) => ListedStep(s, k, ids)
    case ListFailed(k) => ListFailedStep(s, k)
    case Recovered(k, _) => NextBot(s, k)
    case Settle(k) => SettleStep(s, k)
    case Fire(id) => Launch(s.(armed := s.armed - {id}))
  }

  predicate Feasible(s: State, actions: seq<Action>)
    decreases |actions|
  {
    actions == [] || (Enabled(s, actions[0]) && Feasible(Next(s, actions[0]), actions[1..]))
  }

  function Run(s: State, actions: seq<Action>): State
    requires Feasible(s, actions)
    decreases |actions|
  {
    if actions == [] then s else Run(Next(s, actions[0]), actions[1..])
  }

  // ---------------------------------------------------------------- the code

  class ExecutionRecoveryPoller {
    var stopped: bool
    var timer: Option<nat>
    var running: Option<nat>
    var armed: set<nat>
    var timers: nat
    var polls: seq<Poll>

    ghost function View(): State
      reads this
    {
      State(stopped, timer, armed, timers, running, polls)
    }

    constructor ()
      ensures View() == INIT
    {
      stopped, timer, running, armed, timers, polls := true, None, None, {}, 0, [];
    }

    method Start()
      modifies this
      ensures View() == StartStep(old(View()))
    {
      if !stopped || running.Some? { return; }
      stopped := false;
      LaunchPoll();
    }

    /** stop() up to its await; `awaited` is the poll it waits for. */
    method Stop() returns (awaited: Option<nat>)
      modifies this
      ensures View() == StopStep(old(View())) && awaited == old(running)
    {
      stopped := true;
      if timer.Some? { armed := armed - {timer.value}; }
      timer := None;
      awaited := running;
    }

    method LaunchPoll()
      modifies this
      ensures View() == Launch(old(View()))
    {
      running := Some(|polls|);
      polls := polls + [Poll(Listing, [], [], false)];
    }

    method OnListed(k: nat, ids: seq<string>)
      requires Enabled(View(), Listed(k, ids))
      modifies this
      ensures View() == ListedStep(old(View()), k, ids)
    {
      polls := polls[k := polls[k].(listed := Distinct(ids), tried := [])];
      LoopHead(k);
    }

    method OnRecovered(k: nat, failed: bool)
      requires Enabled(View(), Recovered(k, failed))
      modifies this
      ensures View() == NextBot(old(View()), k)
    {
      LoopHead(k);
    }

    method LoopHead(k: nat)
      requires k < |polls| && |polls[k].tried| <= |polls[k].listed|
      modifies this
      ensures View() == NextBot(old(View()), k)
    {
      var p := polls[k];
      if |p.tried| == |p.listed| {
        p := p.(phase := Returned);
      } else if stopped {
        p := p.(phase := Returned, cut := true);
      } else {
        p := p.(phase := Recovering, tried := p.tried + [p.listed[|p.tried|]]);
      }
      polls := polls[k := p];
    }

    method OnSettled(k: nat)
      requires Enabled(View(), Settle(k))
      modifies this
      ensures View() == SettleStep(old(View()), k)
    {
      running := None;
      polls := polls[k := polls[k].(phase := Settled)];
      if !stopped {
        timer, armed, timers := Some(timers), armed + {timers}, timers + 1;
      }
    }
  }

  // ---------------------------------------------------------------- safety

  ghost predicate PollOk(p: Poll) {
    && p.tried <= p.listed
    && (forall i, j :: 0 <= i < j < |p.listed| ==> p.listed[i] != p.listed[j])
    && (p.phase.Listing? ==> p.listed == [])
    && ((p.phase.Returned? || p.phase.Settled?) && !p.cut ==> p.tried == p.listed)
  }

  /** One activity at a time: while started, exactly one poll or one armed timer; while stopped, at
      most a poll that is winding down. */
  ghost predicate Inv(s: State) {
    && (forall k :: 0 <= k < |s.polls| ==> PollOk(s.polls[k]))
    && (forall k :: 0 <= k < |s.polls| && s.polls[k].InFlight() ==> s.running == Some(k))
    && (s.running.Some? ==> s.running.value < |s.polls| && s.polls[s.running.value].InFlight() && s.armed == {})
    && (s.running.None? && !s.stopped ==> s.timer.Some? && s.armed == {s.timer.value})
    && (s.stopped ==> s.armed == {})
  }

  lemma NextBotKeeps(s: State, k: nat, p: Poll)
    requires Inv(s) && k < |s.polls| && s.polls[k].InFlight() && p.InFlight() && p.tried <= p.listed
    requires forall i, j :: 0 <= i < j < |p.listed| ==> p.listed[i] != p.listed[j]
    ensures Inv(NextBot(s.(polls := s.polls[k := p]), k))
  {
  }

  lemma NextKeeps(s: State, a: Action)
    requires Inv(s) && Enabled(s, a)
    ensures Inv(Next(s, a))
  {
    match a
    case Listed(k, ids) => NextBotKeeps(s, k, s.polls[k].(listed := Distinct(ids), tried := []));
    case Recovered(k, _) => assert s.polls[k := s.polls[k]] == s.polls; NextBotKeeps(s, k, s.polls[k]);
    case _ =>
  }

  lemma {:induction false} RunKeeps(s: State, actions: seq<Action>)
    requires Inv(s) && Feasible(s, actions)
    ensures Inv(Run(s, actions))
    decreases |actions|
  {
    hide Inv, Next;
    if actions != [] {
      NextKeeps(s, actions[0]);
      RunKeeps(Next(s, actions[0]), actions[1..]);
    }
  }

  /** Under any interleaving: at most one poll is in flight and never beside an armed timer; while started there is
      always one or the other; a poll tries each id at most once; and a poll that was not cut short by stop() tries
      every id it enumerated, whichever of them failed. */
  lemma Safety(actions: seq<Action>)
    requires Feasible(INIT, actions)
    ensures var s := Run(INIT, actions);
      && (forall i, j :: 0 <= i < j < |s.polls| ==> !s.polls[i].InFlight() || !s.polls[j].InFlight())
      && (forall k :: 0 <= k < |s.polls| && s.polls[k].InFlight() ==> s.armed == {})
      && (!s.stopped ==> (exists k :: 0 <= k < |s.polls| && s.polls[k].InFlight()) || exists id :: s.armed == {id})
      && (forall k, i, j :: 0 <= k < |s.polls| && 0 <= i < j < |s.polls[k].tried| ==> s.polls[k].tried[i] != s.polls[k].tried[j])
      && (forall k :: 0 <= k < |s.polls| && s.polls[k].phase.Settled? && !s.polls[k].cut ==> s.polls[k].tried == s.polls[k].listed)
  {
    RunKeeps(INIT, actions);
  }

  // ---------------------------------------------------------------- what a poll reaches

  /** Each id stands where it first occurs among ids. */
  ghost predicate FirstSeenOrder(r: seq<string>, ids: seq<string>) {
    forall i, j :: 0 <= i < j < |r| ==> SeenBefore(r[i], r[j], ids)
  }

  /** x occurs before the first y. */
  ghost predicate SeenBefore(x: string, y: string, ids: seq<string>) {
    exists a :: 0 <= a < |ids| && ids[a] == x && y !in ids[..a + 1]
  }

  lemma {:induction false} DistinctInOrder(ids: seq<string>)
    ensures FirstSeenOrder(Distinct(ids), ids)
  {
    if ids != [] {
      var n := |ids| - 1;
      var init, last := ids[..n], ids[n];
      var r := Distinct(init);
      DistinctInOrder(init);
      forall i, j | 0 <= i < j < |Distinct(ids)| ensures SeenBefore(Distinct(ids)[i], Distinct(ids)[j], ids) {
        if j < |r| {
          assert SeenBefore(r[i], r[j], init);
          var a :| 0 <= a < n && init[a] == r[i] && r[j] !in init[..a + 1];
          assert ids[..a + 1] == init[..a + 1];
          assert ids[a] == Distinct(ids)[i];
        } else {
          assert r[i] in init && last !in init;
          var a :| 0 <= a < n && init[a] == r[i];
          assert ids[..a + 1] == init[..a + 1];
          assert ids[a] == Distinct(ids)[i];
        }
      }
    }
  }

  /** An enumeration is what the query returned: no id lost, none added, in the order they first occur. */
  lemma ListedAre(s: State, k: nat, ids: seq<string>)
    requires Enabled(s, Listed(k, ids))
    ensures var p := Next(s, Listed(k, ids)).polls[k]; FirstSeenOrder(p.listed, ids) && forall id :: id in p.listed <==> id in ids
  {
    DistinctInOrder(ids);
    hide FirstSeenOrder;
  }

  predicate NeverStops(actions: seq<Action>) { forall a :: a in actions ==> a != Stop }

  /** While nobody calls stop(), a poll that has enumerated its ids keeps them and is not cut short. */
  ghost predicate Undisturbed(s: State, k: nat, listed: seq<string>) {
    !s.stopped && k < |s.polls| && !s.polls[k].phase.Listing? && s.polls[k].listed == listed && !s.polls[k].cut
  }

  lemma {:induction false} StaysUndisturbed(s: State, actions: seq<Action>, k: nat, listed: seq<string>)
    requires Inv(s) && Feasible(s, actions) && NeverStops(actions) && Undisturbed(s, k, listed)
    ensures Undisturbed(Run(s, actions), k, listed)
    decreases |actions|
  {
    if actions != [] {
      hide Inv, Feasible, Run, NeverStops;
      RunFirst(s, actions);
      NextKeeps(s, actions[0]);
      NeverStopsRest(actions);
      StaysUndisturbed(Next(s, actions[0]), actions[1..], k, listed);
    }
  }

  lemma NeverStopsRest(actions: seq<Action>)
    requires NeverStops(actions) && actions != []
    ensures NeverStops(actions[1..]) && actions[0] != Stop
  {
    assert actions[0] in actions;
    forall a | a in actions[1..] ensures a in actions {
    }
  }

  lemma RunFirst(s: State, actions: seq<Action>)
    requires Feasible(s, actions) && actions != []
    ensures Enabled(s, actions[0]) && Feasible(Next(s, actions[0]), actions[1..])
    ensures Run(s, actions) == Run(Next(s, actions[0]), actions[1..])
  {
    hide Next, Enabled;
  }

  /** Unless stop() is called, a poll that settles has passed every id the query returned to recoverBot,
      in the order they first occur. */
  lemma RecoversEverything(before: seq<Action>, k: nat, ids: seq<string>, after: seq<Action>)
    requires Feasible(INIT, before)
    requires var s := Run(INIT, before); !s.stopped && Enabled(s, Listed(k, ids)) && Feasible(Next(s, Listed(k, ids)), after)
    requires NeverStops(after)
    ensures var p := Run(Next(Run(INIT, before), Listed(k, ids)), after).polls;
      k < |p| && (p[k].phase.Settled? ==> FirstSeenOrder(p[k].tried, ids) && forall id :: id in p[k].tried <==> id in ids)
  {
    var s := Run(INIT, before);
    var t := Next(s, Listed(k, ids));
    RunKeeps(INIT, before);
    FreshPollsUncut(INIT, before);
    NextKeeps(s, Listed(k, ids));
    ListedAre(s, k, ids);
    assert Undisturbed(t, k, t.polls[k].listed);
    hide Next, Run, Feasible, NeverStops, FirstSeenOrder;
    StaysUndisturbed(t, after, k, t.polls[k].listed);
    RunKeeps(t, after);
  }

  /** A poll that is still enumerating has not been cut. */
  ghost predicate ListingUncut(s: State) {
    forall k :: 0 <= k < |s.polls| && s.polls[k].phase.Listing? ==> !s.polls[k].cut
  }

  lemma {:induction false} FreshPollsUncut(s: State, actions: seq<Action>)
    requires ListingUncut(s) && Feasible(s, actions)
    ensures ListingUncut(Run(s, actions))
    decreases |actions|
  {
    if actions != [] {
      hide Feasible, Run;
      RunFirst(s, actions);
      FreshPollsUncut(Next(s, actions[0]), actions[1..]);
    }
  }

  /** start() takes effect only when the poller is stopped and its last poll has fully settled. */
  predicate Accepts(s: State, a: Action) { a.Start? && s.stopped && s.running.None? }

  predicate NoNewStart(s: State, actions: seq<Action>)
    requires Feasible(s, actions)
    decreases |actions|
  {
    actions == [] || (!Accepts(s, actions[0]) && NoNewStart(Next(s, actions[0]), actions[1..]))
  }

  /** stop() resolves when the poll it found running has settled. */
  ghost predicate StopResolved(atStop: State, s: State) {
    atStop.running.Some? ==> atStop.running.value < |s.polls| && s.polls[atStop.running.value].phase.Settled?
  }

  ghost predicate WindsDown(s: State, t: State) {
    && t.stopped && t.armed == {} && |t.polls| == |s.polls|
    && forall k :: 0 <= k < |s.polls| && t.polls[k].InFlight() ==> s.polls[k].InFlight()
  }

  lemma {:induction false} StoppedWindsDown(s: State, actions: seq<Action>)
    requires Inv(s) && s.stopped && Feasible(s, actions) && NoNewStart(s, actions)
    ensures WindsDown(s, Run(s, actions))
    decreases |actions|
  {
    if actions != [] {
      NextKeeps(s, actions[0]);
      StoppedWindsDown(Next(s, actions[0]), actions[1..]);
    }
  }

  /** When stop() resolves, and until a later start() is accepted, no poll and no timer exists. */
  lemma StopIsFinal(before: seq<Action>, after: seq<Action>)
    requires Feasible(INIT, before)
    requires var s := StopStep(Run(INIT, before)); Feasible(s, after) && NoNewStart(s, after) && StopResolved(s, Run(s, after))
    ensures var t := Run(StopStep(Run(INIT, before)), after);
      t.armed == {} && forall k :: 0 <= k < |t.polls| ==> !t.polls[k].InFlight()
  {
    var s := Run(INIT, before);
    RunKeeps(INIT, before);
    NextKeeps(s, Stop);
    StoppedWindsDown(StopStep(s), after);
  }
}
