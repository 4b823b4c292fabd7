/** The replay of a whole history: conservation, matching and the rebuilt cash. */
module LotHistory {
  import opened Rounding
  import opened Wrappers
  import opened LotReplay
  import opened LotConservation
  import opened LotMatching

  /** Execution ids are primary keys. */
  ghost predicate DistinctExecutions(es: seq<Execution>) {
    forall i, j :: 0 <= i < j < |es| ==> es[i].id != es[j].id
  }

  /** What the executions bought, what the sells matched, and what was dropped as dust. */
  datatype Totals = Totals(boughtBase: int, boughtCost: int, soldBase: int, soldQuote: int,
                           soldFee: int, soldCost: int, dustBase: int, dustCost: int)

  function Dust(w: Walk): seq<Lot> {
    Filter((l: Lot) => !IsMaterial(l), w.lots)
  }

  function AddSell(t: Totals, w: Walk): Totals {
    t.(soldBase := t.soldBase + FilledBase(w.fills), soldQuote := t.soldQuote + FilledQuote(w.fills),
       soldFee := t.soldFee + FilledFee(w.fills), soldCost := t.soldCost + FilledCost(w.fills),
       dustBase := t.dustBase + SumBase(Dust(w)), dustCost := t.dustCost + SumCost(Dust(w)))
  }

  function TallyStep(t: Totals, s: Ledger, e: Execution): Totals {
    if !e.Counts() then t
    else if e.side.Buy? then
      t.(boughtBase := t.boughtBase + e.Output(), boughtCost := t.boughtCost + Round8(e.Input() + e.Fee(), 1))
    else AddSell(t, SellOf(s.openLots, e, s.realized))
  }

  function Tally(es: seq<Execution>): Totals {
    if es == [] then Totals(0, 0, 0, 0, 0, 0, 0, 0)
    else TallyStep(Tally(es[..|es| - 1]), Replay(es[..|es| - 1]), es[|es| - 1])
  }

  // ---------------------------------------------------------------- ledger invariant

  ghost predicate OpenedBy(l: Lot, es: seq<Execution>) {
    l.id == "lot-" + l.openedBy && exists e :: e in es && e.id == l.openedBy
  }

  ghost predicate LedgerOk(s: Ledger, es: seq<Execution>) {
    && OnGrid(s.realized)
    && DistinctLots(s.openLots)
    && (forall l :: l in s.openLots ==> OnGrid(l.cost) && l.base > 0 && l.closedAt.None? && OpenedBy(l, es))
  }

  lemma {:induction false} FilterKeepsDistinct(p: Lot -> bool, lots: seq<Lot>)
    requires DistinctLots(lots)
    ensures DistinctLots(Filter(p, lots))
  {
    if lots != [] {
      FilterKeepsDistinct(p, lots[1..]);
      assert forall l :: l in Filter(p, lots[1..]) ==> l.id != lots[0].id;
    }
  }

  lemma {:induction false} WalkKeepsIdentity(lots: seq<Lot>, ids: set<string>, e: Execution, pot: Pot)
    requires e.Input() > 0
    ensures var w := SellWalk(lots, ids, e, pot);
      forall i :: 0 <= i < |lots| ==> w.lots[i].id == lots[i].id && w.lots[i].openedBy == lots[i].openedBy
  {
    hide Round8, PotAfter, FillOf;
    if lots != [] {
      WalkKeepsIdentity(lots[1..], ids, e, PotAfter(lots[0], ids, e, pot));
    }
  }

  lemma LedgerSellable(s: Ledger, es: seq<Execution>, e: Execution)
    requires LedgerOk(s, es)
    ensures Sellable(s.openLots, Ids(Candidates(s.openLots, e)))
  {
    CandidateIds(s.openLots, e);
  }

  lemma BoughtLotIsNew(s: Ledger, es: seq<Execution>, e: Execution)
    requires LedgerOk(s, es) && e.Counts() && (forall x :: x in es ==> x.id != e.id)
    ensures DistinctLots(s.openLots + [BoughtLot(e)])
  {
    hide Round8;
    var l := BoughtLot(e);
    forall i | 0 <= i < |s.openLots| ensures s.openLots[i].id != l.id {
      assert OpenedBy(s.openLots[i], es);
      assert s.openLots[i].id[4..] == s.openLots[i].openedBy && l.id[4..] == e.id;
    }
  }

  lemma StepKeepsLedger(s: Ledger, es: seq<Execution>, e: Execution)
    requires LedgerOk(s, es) && (forall x :: x in es ==> x.id != e.id)
    ensures LedgerOk(Step(s, e), es + [e])
  {
    hide Round8;
    forall l | l in s.openLots ensures OpenedBy(l, es + [e]) {
      var x :| x in es && x.id == l.openedBy;
      assert x in es + [e];
    }
    if e.Counts() && e.side.Buy? {
      BoughtLotIsNew(s, es, e);
      assert e in es + [e] && OpenedBy(BoughtLot(e), es + [e]);
    } else if e.Counts() {
      SellKeepsLedger(s, es, e);
    }
  }

  lemma SellKeepsLedger(s: Ledger, es: seq<Execution>, e: Execution)
    requires LedgerOk(s, es) && e.Counts()
    ensures var w := SellOf(s.openLots, e, s.realized);
      && OnGrid(w.pot.realized) && DistinctLots(Filter(IsMaterial, w.lots))
      && (forall l :: l in Filter(IsMaterial, w.lots) ==> OnGrid(l.cost) && l.base > 0 && l.closedAt.None? && OpenedBy(l, es))
  {
    hide Round8, SellWalk, Candidates;
    var ids, pot := Ids(Candidates(s.openLots, e)), StartPot(e, s.realized);
    var w := SellWalk(s.openLots, ids, e, pot);
    LedgerSellable(s, es, e);
    WalkMoney(s.openLots, ids, e, pot);
    WalkKeepsIdentity(s.openLots, ids, e, pot);
    FilterKeepsDistinct(IsMaterial, w.lots);
    forall l | l in w.lots ensures OnGrid(l.cost) && OpenedBy(l, es) {
      var i :| 0 <= i < |w.lots| && w.lots[i] == l;
      assert OpenedBy(s.openLots[i], es);
    }
  }

  lemma {:induction false} ReplayKeepsLedger(es: seq<Execution>)
    requires DistinctExecutions(es)
    ensures LedgerOk(Replay(es), es)
  {
    if es != [] {
      var prior, e := es[..|es| - 1], es[|es| - 1];
      ReplayKeepsLedger(prior);
      StepKeepsLedger(Replay(prior), prior, e);
      assert prior + [e] == es;
    }
  }

  // ---------------------------------------------------------------- where open lots come from

  /** l is what is left of the lot that the counted buy e opened: nothing but base and cost has changed,
      and neither has grown. */
  ghost predicate Remains(l: Lot, e: Execution) {
    && e.Counts() && e.side.Buy?
    && l == BoughtLot(e).(base := l.base, cost := l.cost)
    && 0 < l.base <= e.Output() && l.cost <= BoughtLot(e).cost
  }

  /** A lot after a sell: smaller, and otherwise as it was unless it was closed. */
  ghost predicate Shrunk(l: Lot, after: Lot) {
    && after.base <= l.base && after.cost <= l.cost
    && (after.closedAt.None? ==> after == l.(base := after.base, cost := after.cost))
  }

  lemma SoldLotShrinks(l: Lot, ids: set<string>, e: Execution, pot: Pot)
    requires e.Counts() && OnGrid(pot.realized) && Sellable([l], ids)
    ensures Shrunk(l, LotAfter(l, ids, e, pot))
  {
    hide Round8;
    SellOneLot(l, ids, e, pot);
    assert l in [l];
    if Takes(l, ids, pot) { Round8Error(l.base - FillOf(l, ids, e, pot).base, 1); }
  }

  lemma {:induction false} WalkShrinks(lots: seq<Lot>, ids: set<string>, e: Execution, pot: Pot)
    requires e.Counts() && OnGrid(pot.realized) && Sellable(lots, ids)
    ensures forall i :: 0 <= i < |lots| ==> Shrunk(lots[i], SellWalk(lots, ids, e, pot).lots[i])
  {
    hide LotAfter, PotAfter, FillOf, Shrunk;
    if lots != [] {
      SellableTail(lots, ids);
      SellOneLot(lots[0], ids, e, pot);
      SoldLotShrinks(lots[0], ids, e, pot);
      WalkShrinks(lots[1..], ids, e, PotAfter(lots[0], ids, e, pot));
    }
  }

  ghost predicate TracesBack(l: Lot, es: seq<Execution>) {
    exists e :: e in es && Remains(l, e)
  }

  lemma TracesFurther(l: Lot, es: seq<Execution>, e: Execution)
    requires TracesBack(l, es)
    ensures TracesBack(l, es + [e])
  {
    var x :| x in es && Remains(l, x);
    assert x in es + [e];
  }

  lemma SurvivorTraces(l: Lot, after: Lot, es: seq<Execution>)
    requires TracesBack(l, es) && Shrunk(l, after) && IsMaterial(after)
    ensures TracesBack(after, es)
  {
    hide BoughtLot;
    var x :| x in es && Remains(l, x);
    assert Remains(after, x);
  }

  lemma BuyTraces(es: seq<Execution>, e: Execution)
    requires e.Counts() && e.side.Buy?
    ensures TracesBack(BoughtLot(e), es + [e])
  {
    hide Round8;
    assert e in es + [e] && Remains(BoughtLot(e), e);
  }

  lemma StepTraces(s: Ledger, es: seq<Execution>, e: Execution)
    requires LedgerOk(s, es) && forall l :: l in s.openLots ==> TracesBack(l, es)
    ensures forall l :: l in Step(s, e).openLots ==> TracesBack(l, es + [e])
  {
    hide Round8, TracesBack, SellWalk, Candidates, BoughtLot, Shrunk;
    if e.Counts() && e.side.Buy? {
      BuyTraces(es, e);
    } else if e.Counts() {
      LedgerSellable(s, es, e);
      WalkShrinks(s.openLots, Ids(Candidates(s.openLots, e)), e, StartPot(e, s.realized));
    }
    forall l | l in Step(s, e).openLots ensures TracesBack(l, es + [e]) {
      if l in s.openLots {
        TracesFurther(l, es, e);
      } else if e.Counts() && e.side.Sell? {
        var w := SellOf(s.openLots, e, s.realized);
        var i :| 0 <= i < |w.lots| && w.lots[i] == l;
        SurvivorTraces(s.openLots[i], l, es);
        TracesFurther(l, es, e);
      }
    }
  }

  /** Every open lot of any history is what is left of the lot some counted buy opened: same id, level,
      entry price, opening time and original base, with no more base or cost than was bought. */
  lemma {:induction false} OpenLotsTraceBack(es: seq<Execution>)
    requires DistinctExecutions(es)
    ensures forall l :: l in Replay(es).openLots ==> TracesBack(l, es)
  {
    hide TracesBack, Step, LedgerOk;
    if es != [] {
      var prior, e := es[..|es| - 1], es[|es| - 1];
      assert prior + [e] == es;
      OpenLotsTraceBack(prior);
      ReplayKeepsLedger(prior);
      StepTraces(Replay(prior), prior, e);
    }
  }

  // ---------------------------------------------------------------- conservation

  lemma {:induction false} SumOfParts(lots: seq<Lot>)
    ensures SumBase(lots) == SumBase(Filter(IsMaterial, lots)) + SumBase(Filter((l: Lot) => !IsMaterial(l), lots))
    ensures SumCost(lots) == SumCost(Filter(IsMaterial, lots)) + SumCost(Filter((l: Lot) => !IsMaterial(l), lots))
  {
    if lots != [] {
      var kept, dropped := Filter(IsMaterial, lots[1..]), Filter((l: Lot) => !IsMaterial(l), lots[1..]);
      SumOfParts(lots[1..]);
      if IsMaterial(lots[0]) {
        assert ([lots[0]] + kept)[1..] == kept && [] + dropped == dropped;
      } else {
        assert ([lots[0]] + dropped)[1..] == dropped && [] + kept == kept;
      }
    }
  }

  lemma {:induction false} SumAppend(lots: seq<Lot>, l: Lot)
    ensures SumBase(lots + [l]) == SumBase(lots) + l.base && SumCost(lots + [l]) == SumCost(lots) + l.cost
  {
    if lots != [] {
      assert (lots + [l])[1..] == lots[1..] + [l];
      SumAppend(lots[1..], l);
    }
  }

  /** Money is conserved exactly, for any amounts. */
  ghost predicate MoneyBalances(s: Ledger, t: Totals) {
    && t.boughtCost == SumCost(s.openLots) + t.soldCost + t.dustCost
    && s.realized == t.soldQuote - t.soldFee - t.soldCost
  }

  /** Base is conserved up to half a grid step per sell. */
  ghost predicate BaseBalances(s: Ledger, t: Totals, slack: int) {
    Near(t.boughtBase, SumBase(s.openLots) + t.soldBase + t.dustBase, slack)
  }

  lemma SellBalances(s: Ledger, es: seq<Execution>, e: Execution, t: Totals, slack: int)
    requires LedgerOk(s, es) && e.Counts() && e.side.Sell? && MoneyBalances(s, t) && BaseBalances(s, t, slack)
    ensures var t' := AddSell(t, SellOf(s.openLots, e, s.realized));
      && MoneyBalances(Step(s, e), t') && BaseBalances(Step(s, e), t', slack + HALF_STEP)
      && (OnGrid(e.Input()) && LotsOnGrid(s.openLots) ==> BaseBalances(Step(s, e), t', slack) && LotsOnGrid(Step(s, e).openLots))
  {
    hide Round8, SellWalk, Candidates, Ids, SumBase, SumCost, FilledBase, FilledCost, FilledQuote, FilledFee;
    var ids, pot := Ids(Candidates(s.openLots, e)), StartPot(e, s.realized);
    LedgerSellable(s, es, e);
    WalkMoney(s.openLots, ids, e, pot);
    WalkBase(s.openLots, ids, e, pot);
    SumOfParts(SellOf(s.openLots, e, s.realized).lots);
  }

  ghost predicate LotsOnGrid(lots: seq<Lot>) {
    forall l :: l in lots ==> OnGrid(l.base)
  }

  ghost predicate BaseStepOnGrid(e: Execution) {
    e.Counts() ==> OnGrid(if e.side.Buy? then e.Output() else e.Input())
  }

  lemma StepBalances(s: Ledger, es: seq<Execution>, e: Execution, t: Totals, slack: int)
    requires LedgerOk(s, es) && MoneyBalances(s, t) && BaseBalances(s, t, slack)
    ensures var s', t' := Step(s, e), TallyStep(t, s, e);
      && MoneyBalances(s', t') && BaseBalances(s', t', slack + HALF_STEP * (s'.sellCount - s.sellCount))
      && (BaseStepOnGrid(e) && LotsOnGrid(s.openLots) ==> BaseBalances(s', t', slack) && LotsOnGrid(s'.openLots))
  {
    hide Round8, SellOf, SumBase, SumCost, AddSell;
    if e.Counts() && e.side.Buy? {
      SumAppend(s.openLots, BoughtLot(e));
    } else if e.Counts() {
      SellBalances(s, es, e, t, slack);
    }
  }

  lemma Unfold(es: seq<Execution>)
    requires es != []
    ensures var prior, e := es[..|es| - 1], es[|es| - 1];
      && Replay(es) == Step(Replay(prior), e) && Tally(es) == TallyStep(Tally(prior), Replay(prior), e)
  {
  }

  lemma DistinctPrefix(es: seq<Execution>)
    requires DistinctExecutions(es) && es != []
    ensures DistinctExecutions(es[..|es| - 1])
  {
  }

  lemma NoHistory()
    ensures Replay([]) == EMPTY && Tally([]) == Totals(0, 0, 0, 0, 0, 0, 0, 0)
  {
    hide Step, TallyStep;
  }

  lemma EmptyBalances()
    ensures MoneyBalances(EMPTY, Totals(0, 0, 0, 0, 0, 0, 0, 0)) && BaseBalances(EMPTY, Totals(0, 0, 0, 0, 0, 0, 0, 0), 0)
    ensures EMPTY.sellCount == 0 && LotsOnGrid(EMPTY.openLots)
  {
  }

  lemma SlackStep(before: nat, after: nat)
    ensures HALF_STEP * before + HALF_STEP * (after - before) == HALF_STEP * after
  {
  }

  lemma {:induction false} MoneyConserved(es: seq<Execution>)
    requires DistinctExecutions(es)
    ensures MoneyBalances(Replay(es), Tally(es))
    ensures BaseBalances(Replay(es), Tally(es), HALF_STEP * Replay(es).sellCount)
  {
    hide *;
    NoHistory();
    EmptyBalances();
    if es != [] {
      var prior, e := es[..|es| - 1], es[|es| - 1];
      Unfold(es);
      DistinctPrefix(es);
      MoneyConserved(prior);
      ReplayKeepsLedger(prior);
      StepBalances(Replay(prior), prior, e, Tally(prior), HALF_STEP * Replay(prior).sellCount);
      SlackStep(Replay(prior).sellCount, Replay(es).sellCount);
    }
  }

  /** Amounts on the grid stay on it, so then every sell does. */
  lemma {:induction false} GridHistory(es: seq<Execution>)
    requires DistinctExecutions(es) && forall e :: e in es ==> BaseStepOnGrid(e)
    ensures BaseBalances(Replay(es), Tally(es), 0) && LotsOnGrid(Replay(es).openLots)
  {
    hide *;
    NoHistory();
    EmptyBalances();
    if es != [] {
      var prior, e := es[..|es| - 1], es[|es| - 1];
      Unfold(es);
      DistinctPrefix(es);
      GridHistory(prior);
      MoneyConserved(prior);
      ReplayKeepsLedger(prior);
      StepBalances(Replay(prior), prior, e, Tally(prior), 0);
    }
  }

  /** The base lost to rounding by all sells so far. */
  function TotalDrift(es: seq<Execution>): int {
    if es == [] then 0 else
    var prior, e := es[..|es| - 1], es[|es| - 1];
    TotalDrift(prior) + StepDrift(Replay(prior), e)
  }

  function StepDrift(s: Ledger, e: Execution): int {
    if e.Counts() && e.side.Sell? then Drift(s.openLots, SellOf(s.openLots, e, s.realized).fills) else 0
  }

  /** Base is conserved up to the rounding of remainders, to the unit. */
  ghost predicate BaseExact(s: Ledger, t: Totals, drift: int) {
    t.boughtBase == SumBase(s.openLots) + t.soldBase + t.dustBase + drift
  }

  lemma SellExact(s: Ledger, es: seq<Execution>, e: Execution, t: Totals, drift: int)
    requires LedgerOk(s, es) && e.Counts() && e.side.Sell? && BaseExact(s, t, drift)
    ensures BaseExact(Step(s, e), AddSell(t, SellOf(s.openLots, e, s.realized)), drift + StepDrift(s, e))
  {
    hide Round8, SellWalk, Candidates, Ids, SumBase, SumCost, FilledBase, FilledCost, FilledQuote, FilledFee, Drift;
    WalkDrift(s.openLots, Ids(Candidates(s.openLots, e)), e, StartPot(e, s.realized));
    SumOfParts(SellOf(s.openLots, e, s.realized).lots);
  }

  lemma StepExact(s: Ledger, es: seq<Execution>, e: Execution, t: Totals, drift: int)
    requires LedgerOk(s, es) && BaseExact(s, t, drift)
    ensures BaseExact(Step(s, e), TallyStep(t, s, e), drift + StepDrift(s, e))
  {
    hide Round8, SellOf, SumBase, SumCost, AddSell, Drift;
    if e.Counts() && e.side.Buy? {
      SumAppend(s.openLots, BoughtLot(e));
    } else if e.Counts() {
      SellExact(s, es, e, t, drift);
    }
  }

  lemma NothingExact()
    ensures BaseExact(Replay([]), Tally([]), 0) && TotalDrift([]) == 0
  {
    NoHistory();
    hide Replay, Tally, StepDrift;
  }

  lemma UnfoldDrift(es: seq<Execution>)
    requires es != []
    ensures TotalDrift(es) == TotalDrift(es[..|es| - 1]) + StepDrift(Replay(es[..|es| - 1]), es[|es| - 1])
  {
    hide Replay, StepDrift;
  }

  lemma {:induction false} BaseConserved(es: seq<Execution>)
    requires DistinctExecutions(es)
    ensures BaseExact(Replay(es), Tally(es), TotalDrift(es))
  {
    hide *;
    NothingExact();
    if es != [] {
      var prior, e := es[..|es| - 1], es[|es| - 1];
      Unfold(es);
      UnfoldDrift(es);
      DistinctPrefix(es);
      BaseConserved(prior);
      ReplayKeepsLedger(prior);
      StepExact(Replay(prior), prior, e, Tally(prior), TotalDrift(prior));
    }
  }

  /** Over any history: bought cost = open + matched + dropped cost, realised PnL = matched proceeds less
      matched fees and cost, and bought base = open + matched + dropped base plus the rounding of remainders,
      which is at most half a grid step per sell. */
  lemma Conservation(es: seq<Execution>)
    requires DistinctExecutions(es)
    ensures MoneyBalances(Replay(es), Tally(es))
    ensures BaseExact(Replay(es), Tally(es), TotalDrift(es))
    ensures BaseBalances(Replay(es), Tally(es), HALF_STEP * Replay(es).sellCount)
    ensures (forall e :: e in es ==> BaseStepOnGrid(e)) ==> BaseBalances(Replay(es), Tally(es), 0) && LotsOnGrid(Replay(es).openLots)
  {
    hide *;
    MoneyConserved(es);
    BaseConserved(es);
    if forall e :: e in es ==> BaseStepOnGrid(e) {
      GridHistory(es);
    }
  }

  /** After every execution of the history, bought base = open + matched + dropped base exactly. */
  ghost predicate AlwaysExact(es: seq<Execution>) {
    es == [] || (AlwaysExact(es[..|es| - 1]) && BaseExact(Replay(es), Tally(es), 0))
  }

  /** Every sell of the history leaves the lot it sells in part on the grid. */
  ghost predicate SellsOnGrid(es: seq<Execution>) {
    es == [] || (SellsOnGrid(es[..|es| - 1]) && LeavesOnGrid(Replay(es[..|es| - 1]), es[|es| - 1]))
  }

  ghost predicate LeavesOnGrid(s: Ledger, e: Execution) {
    e.Counts() && e.side.Sell? ==> RemaindersOnGrid(s.openLots, SellOf(s.openLots, e, s.realized).fills)
  }

  lemma StepDriftZeroIff(s: Ledger, es: seq<Execution>, e: Execution)
    requires LedgerOk(s, es)
    ensures StepDrift(s, e) == 0 <==> LeavesOnGrid(s, e)
  {
    hide Round8, SellWalk, Candidates, Drift, RemaindersOnGrid;
    if e.Counts() && e.side.Sell? {
      LedgerSellable(s, es, e);
      DriftZeroIff(s.openLots, Ids(Candidates(s.openLots, e)), e, StartPot(e, s.realized));
    }
  }

  lemma ExactWithDrift(s: Ledger, t: Totals, drift: int)
    requires BaseExact(s, t, drift)
    ensures BaseExact(s, t, 0) <==> drift == 0
  {
  }

  lemma {:induction false} ExactIffAndDriftless(es: seq<Execution>)
    requires DistinctExecutions(es)
    ensures AlwaysExact(es) <==> SellsOnGrid(es)
    ensures AlwaysExact(es) ==> TotalDrift(es) == 0
  {
    if es != [] {
      var prior, e := es[..|es| - 1], es[|es| - 1];
      hide Replay, Tally, StepDrift, TotalDrift, LeavesOnGrid, BaseExact;
      UnfoldDrift(es);
      DistinctPrefix(es);
      ExactIffAndDriftless(prior);
      ReplayKeepsLedger(prior);
      StepDriftZeroIff(Replay(prior), prior, e);
      BaseConserved(es);
      ExactWithDrift(Replay(es), Tally(es), TotalDrift(es));
    }
  }

  /** Base is conserved exactly throughout a history if and only if every sell leaves the lot it sells in
      part, if there is one, on the 1e-8 grid. */
  lemma BaseExactThroughoutIff(es: seq<Execution>)
    requires DistinctExecutions(es)
    ensures AlwaysExact(es) <==> SellsOnGrid(es)
  {
    ExactIffAndDriftless(es);
  }

  lemma DriftSnoc(prior: seq<Execution>, e: Execution)
    ensures TotalDrift(prior + [e]) == TotalDrift(prior) + StepDrift(Replay(prior), e)
  {
    UnfoldDrift(prior + [e]);
    hide TotalDrift, StepDrift, Replay;
    assert (prior + [e])[..|prior|] == prior;
  }

  /** A buy of 0.0001000050 and a sell of half of it, which leaves 0.0000500050: half a grid step off. */
  const OFF_GRID_BUY := Execution("buy", Filled, Buy, 0, Some(10_000_000_000), Some(1_000_050), None, None, 0)
  const HALF_SELL := Execution("sell", Filled, Sell, 1, Some(500_000), Some(10_000_000_000), None, None, 1)

  lemma OneBuy(e: Execution)
    requires e.Counts() && e.side.Buy?
    ensures Replay([e]).openLots == [BoughtLot(e)] && Replay([e]).realized == 0 && StepDrift(Replay([]), e) == 0
  {
    hide BoughtLot, Round8;
    assert [e][..0] == [];
  }

  lemma OneBuyDrift(e: Execution)
    requires e.Counts() && e.side.Buy?
    ensures TotalDrift([e]) == 0
  {
    hide *;
    OneBuy(e);
    DriftSnoc([], e);
    NothingExact();
    assert [] + [e] == [e];
  }

  lemma HalfSold()
    ensures OFF_GRID_BUY.Counts() && HALF_SELL.Counts() && HALF_SELL.side.Sell?
    ensures var l := BoughtLot(OFF_GRID_BUY);
      l.base == 1_000_050 && SellOf([l], HALF_SELL, 0).fills[0].base == 500_000
  {
    var l := BoughtLot(OFF_GRID_BUY);
    assert l.cost == 10_000_000_000 by { Round8Exact(10_000_000_000); }
    hide Round8, Candidates;
    assert l in [l];
    CandidateIds([l], HALF_SELL);
    assert IsMaterial(l) && IsExactLevel(l, HALF_SELL);
    assert Takes(l, Ids(Candidates([l], HALF_SELL)), StartPot(HALF_SELL, 0));
  }

  lemma HalfDrift(l: Lot, f: Fill)
    requires l.base == 1_000_050 && f.base == 500_000
    ensures LotDrift(l, f) == -50
  {
  }

  lemma OneDrift(l: Lot, f: Fill)
    ensures Drift([l], [f]) == LotDrift(l, f)
  {
    hide LotDrift;
  }

  lemma HalfSaleDrift()
    ensures OFF_GRID_BUY.Counts() && OFF_GRID_BUY.side.Buy? && StepDrift(Replay([OFF_GRID_BUY]), HALF_SELL) == -50
  {
    HalfSold();
    OneBuy(OFF_GRID_BUY);
    var l := BoughtLot(OFF_GRID_BUY);
    var fills := SellOf([l], HALF_SELL, 0).fills;
    hide SellOf, Replay, LotDrift, Drift, BoughtLot, Round8;
    HalfDrift(l, fills[0]);
    OneDrift(l, fills[0]);
    assert fills == [fills[0]];
  }

  /** That sell does drift: after it the books hold 50 units more than were bought. */
  lemma OffGridSellDrifts()
    ensures var es := [OFF_GRID_BUY, HALF_SELL];
      && DistinctExecutions(es) && BaseExact(Replay(es), Tally(es), -50) && !AlwaysExact(es)
  {
    hide *;
    var es := [OFF_GRID_BUY, HALF_SELL];
    TwoDistinct();
    HalfSaleDrift();
    OneBuyDrift(OFF_GRID_BUY);
    DriftSnoc([OFF_GRID_BUY], HALF_SELL);
    assert [OFF_GRID_BUY] + [HALF_SELL] == es;
    BaseConserved(es);
    ExactWithDrift(Replay(es), Tally(es), -50);
    if AlwaysExact(es) { LastExact(es); }
  }

  lemma TwoDistinct()
    ensures DistinctExecutions([OFF_GRID_BUY, HALF_SELL])
  {
    assert OFF_GRID_BUY.id != HALF_SELL.id;
  }

  lemma LastExact(es: seq<Execution>)
    requires AlwaysExact(es) && es != []
    ensures BaseExact(Replay(es), Tally(es), 0)
  {
    hide BaseExact;
  }

  // ---------------------------------------------------------------- fees and counts

  function CountedFees(es: seq<Execution>): int {
    if es == [] then 0 else
    var e := es[|es| - 1];
    CountedFees(es[..|es| - 1]) + if e.Counts() then e.Fee() else 0
  }

  lemma UnfoldFees(es: seq<Execution>)
    requires es != []
    ensures var e := es[|es| - 1]; CountedFees(es) == CountedFees(es[..|es| - 1]) + if e.Counts() then e.Fee() else 0
  {
  }

  lemma StepCounts(s: Ledger, e: Execution)
    ensures var next := Step(s, e);
      && next.buyCount + next.sellCount == s.buyCount + s.sellCount + (if e.Counts() then 1 else 0)
      && next.ignoredCount == s.ignoredCount + (if e.Counts() then 0 else 1)
      && next.totalFees == if e.Counts() then Round8(s.totalFees + e.Fee(), 1) else s.totalFees
  {
    hide Round8, SellOf, Filter, BoughtLot;
  }

  lemma OneFee(total: int, fee: int, sum: int, n: nat)
    requires Near(total, sum, HALF_STEP * n)
    ensures Near(Round8(total + fee, 1), sum + fee, HALF_STEP * (n + 1))
    ensures OnGrid(total) && OnGrid(fee) ==> Round8(total + fee, 1) == total + fee
  {
    hide Round8, OnGrid;
    Round8Near(total + fee);
    if OnGrid(total) && OnGrid(fee) {
      GridSum(total, fee);
      Round8Exact(total + fee);
    }
  }

  lemma NoFees()
    ensures var s := Replay([]); s.buyCount + s.sellCount == 0 && s.ignoredCount == 0 && s.totalFees == 0 == CountedFees([])
    ensures OnGrid(0) && Near(0, 0, HALF_STEP * 0)
  {
    NoHistory();
    hide Replay;
  }

  /** Every execution is counted once, as a buy, a sell or ignored, and the fee total is that of the counted
      ones: exactly when fees are on the grid, else within half a grid step for each. */
  lemma {:induction false} FeesAndCounts(es: seq<Execution>)
    ensures var s := Replay(es);
      && s.buyCount + s.sellCount + s.ignoredCount == |es|
      && Near(s.totalFees, CountedFees(es), HALF_STEP * (s.buyCount + s.sellCount)) && OnGrid(s.totalFees)
      && ((forall e :: e in es && e.Counts() ==> OnGrid(e.Fee())) ==> s.totalFees == CountedFees(es))
  {
    hide *;
    NoFees();
    if es != [] {
      var prior, e := es[..|es| - 1], es[|es| - 1];
      var s := Replay(prior);
      FeesAndCounts(prior);
      Unfold(es);
      UnfoldFees(es);
      StepCounts(s, e);
      OneFee(s.totalFees, e.Fee(), CountedFees(prior), s.buyCount + s.sellCount);
      assert e in es && forall x :: x in prior ==> x in es;
    }
  }

  // ---------------------------------------------------------------- one sell inside a history

  /** After every sell of any history: the candidates are the paired level and the profitable lots,
      a prefix of them is sold out with at most one partly sold, the rest is untouched, the
      surviving lots are material, and a profitable fallback lot is never sold below its cost. */
  lemma SellAfterHistory(es: seq<Execution>, e: Execution) returns (k: nat)
    requires DistinctExecutions(es) && e.Counts() && e.side.Sell?
    ensures var s := Replay(es); var w := SellOf(s.openLots, e, s.realized); var ids := Ids(Candidates(s.openLots, e));
      && (forall l :: l in s.openLots ==> (l.id in ids <==> IsExactLevel(l, e) || IsFallback(l, e)))
      && Disciplined(s.openLots, ids, w, k)
      && (forall l :: l in Step(s, e).openLots ==> IsMaterial(l))
      && (forall i :: 0 <= i < |s.openLots| && !IsExactLevel(s.openLots[i], e) ==> w.fills[i].quote >= w.fills[i].cost)
      && ProRata(e, e.Output() - w.pot.output, FilledBase(w.fills), Touched(w.fills) + if OnGrid(e.Output()) then 0 else 1)
  {
    hide Round8, SellWalk, Candidates, Replay, ProRata, Disciplined;
    var s := Replay(es);
    var ids, pot := Ids(Candidates(s.openLots, e)), StartPot(e, s.realized);
    ReplayKeepsLedger(es);
    LedgerSellable(s, es, e);
    CandidateIds(s.openLots, e);
    k := WalkDiscipline(s.openLots, ids, e, pot);
    WalkProceeds(s.openLots, ids, e, pot);
    forall i | 0 <= i < |s.openLots| && !IsExactLevel(s.openLots[i], e)
      ensures SellWalk(s.openLots, ids, e, pot).fills[i].quote >= SellWalk(s.openLots, ids, e, pot).fills[i].cost
    {
      WalkFallbackGain(s.openLots, ids, e, pot, i);
    }
  }

  // ---------------------------------------------------------------- the rebuilt state

  datatype Rebuilt = Rebuilt(base: int, cost: int, available: int, realized: int, unrealized: int, equity: int)

  /** base * price / PRICE_SCALE is the market value of the open base. */
  function RebuildState(budget: int, s: Ledger, price: int): Rebuilt {
    var base, cost := SumBase(s.openLots), Round8(SumCost(s.openLots), 1);
    var free := Round8(budget + s.realized - cost, 1);
    var available := if free > 0 then free else 0;
    Rebuilt(base, cost, available, s.realized,
            Round8(base * price - cost * PRICE_SCALE, PRICE_SCALE),
            Round8(available * PRICE_SCALE + base * price, PRICE_SCALE))
  }

  /** The cash identity: before its zero clamp the rebuilt cash is the budget plus the matched net
      cash flow plus the cost that was dropped with dust, and equity is budget plus realised plus
      unrealised PnL plus exactly what the clamp added. */
  lemma RebuiltCash(budget: int, es: seq<Execution>, price: int)
    requires DistinctExecutions(es)
    ensures var t, r := Tally(es), RebuildState(budget, Replay(es), price);
      var cash := Round8(budget, 1) + (t.soldQuote - t.soldFee - t.boughtCost) + t.dustCost;
      && r.available == (if cash > 0 then cash else 0)
      && r.equity == Round8(budget, 1) + r.realized + r.unrealized + (if cash < 0 then -cash else 0)
      && r.base == SumBase(Replay(es).openLots) && r.cost == SumCost(Replay(es).openLots)
      && r.realized == t.soldQuote - t.soldFee - t.soldCost
      && Nearest(r.unrealized, r.base * price - r.cost * PRICE_SCALE, PRICE_SCALE)
  {
    hide Round8, Replay, Tally;
    var s := Replay(es);
    MoneyConserved(es);
    ReplayKeepsLedger(es);
    OpenCostOnGrid(s.openLots);
    var cost := SumCost(s.openLots);
    Round8Exact(cost);
    Round8Shift(budget, 1, s.realized - cost);
    var r := RebuildState(budget, s, price);
    Round8Exact(0);
    Round8IsNearest(r.base * price - cost * PRICE_SCALE, PRICE_SCALE);
    hide Nearest;
    Round8Shift(r.base * price, PRICE_SCALE, -cost);
    Round8Shift(r.base * price, PRICE_SCALE, r.available);
  }

  lemma {:induction false} OpenCostOnGrid(lots: seq<Lot>)
    requires forall l :: l in lots ==> OnGrid(l.cost)
    ensures OnGrid(SumCost(lots))
  {
    if lots != [] {
      OpenCostOnGrid(lots[1..]);
    }
  }
}
