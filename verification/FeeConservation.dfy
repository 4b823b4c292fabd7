/** The fee repair moves money between columns without creating any, touches every lot at most once,
    and has nothing left to do the second time. */
module FeeConservation {
  import opened FeeRepair
  import opened Rounding
  import opened Text
  import opened Wrappers

  /** Execution and lot ids are primary keys. */
  ghost predicate DistinctExecutions(es: seq<Execution>) {
    forall i, j :: 0 <= i < j < |es| ==> es[i].id != es[j].id
  }

  ghost predicate DistinctLots(lots: seq<Lot>) {
    forall i, j :: 0 <= i < j < |lots| ==> lots[i].id != lots[j].id
  }

  /** A lot belongs to the bot of the execution that opened it. */
  ghost predicate SameBots(es: seq<Execution>, index: map<string, Lot>) {
    forall e :: e in es && e.id in index ==> index[e.id].botId == e.botId
  }

  // ---------------------------------------------------------------- the deltas

  /** Fee reduction = cash delta = realised delta + open cost delta, and unrealised delta = open cost delta. */
  ghost predicate Balanced(d: BotDelta) {
    && OnGrid(d.feeReduction) && OnGrid(d.realized) && OnGrid(d.openCost)
    && d.available == d.feeReduction == d.realized + d.openCost
    && d.unrealized == d.openCost
  }

  /** What the executions of one bot give back, and the part of it that stays in open lots. */
  function FeeDrop(es: seq<Execution>, bot: string, solPrice: Option<int>): int {
    if es == [] then 0 else
    var e := es[|es| - 1];
    FeeDrop(es[..|es| - 1], bot, solPrice) + if e.botId == bot && OverCharged(e, solPrice) then FeeDelta(e, solPrice) else 0
  }

  function OpenDrop(es: seq<Execution>, bot: string, index: map<string, Lot>, solPrice: Option<int>): int {
    if es == [] then 0 else
    var e := es[|es| - 1];
    OpenDrop(es[..|es| - 1], bot, index, solPrice)
      + if e.botId == bot && OverCharged(e, solPrice) then ToOpenLot(e, index, solPrice) else 0
  }

  lemma AddKeepsBalance(d: BotDelta, fee: int, open: int)
    requires Balanced(d) && OnGrid(fee) && OnGrid(open)
    ensures AddRealized(d, fee) == d.(feeReduction := d.feeReduction + fee, available := d.available + fee,
                                      realized := d.realized + fee, corrected := d.corrected + 1)
    ensures AddSplit(d, fee, open) == BotDelta(d.feeReduction + fee, d.available + fee, d.realized + (fee - open),
                                               d.unrealized + open, d.openCost + open, d.corrected + 1)
    ensures Balanced(AddSplit(d, fee, open)) && (open == 0 ==> Balanced(AddRealized(d, fee)))
  {
    hide Round8, OnGrid;
    GridSum(d.feeReduction, fee);
    GridSum(d.realized, fee);
    GridSum(fee, open);
    GridSum(d.realized, fee - open);
    GridSum(d.openCost, open);
    Round8Exact(d.feeReduction + fee);
    Round8Exact(d.realized + fee);
    Round8Exact(fee - open);
    Round8Exact(d.realized + (fee - open));
    Round8Exact(d.openCost + open);
  }

  lemma ShareOnGrid(e: Execution, index: map<string, Lot>, solPrice: Option<int>)
    requires OverCharged(e, solPrice)
    ensures OnGrid(FeeDelta(e, solPrice)) && OnGrid(ToOpenLot(e, index, solPrice))
  {
    hide Round8;
  }

  lemma Unfold(es: seq<Execution>, index: map<string, Lot>, solPrice: Option<int>)
    requires es != []
    ensures Repair(es, index, solPrice) == Step(Repair(es[..|es| - 1], index, solPrice), es[|es| - 1], index, solPrice)
  {
  }

  /** The delta of every bot is balanced, and is what its over-charged executions give back. */
  lemma {:induction false} RepairConserves(es: seq<Execution>, index: map<string, Lot>, solPrice: Option<int>, bot: string)
    ensures var d := GetDelta(Repair(es, index, solPrice).deltas, bot);
      Balanced(d) && d.feeReduction == FeeDrop(es, bot, solPrice) && d.openCost == OpenDrop(es, bot, index, solPrice)
  {
    hide CorrectedFee, FeeDelta, ToOpenLot, AddSplit, AddRealized, UpdatedLot, Repair, Balanced;
    if es == [] {
      EmptyRepair(index, solPrice);
    } else {
      var prior, e := es[..|es| - 1], es[|es| - 1];
      var b := Repair(prior, index, solPrice);
      Unfold(es, index, solPrice);
      RepairConserves(prior, index, solPrice, bot);
      if e.botId == bot && OverCharged(e, solPrice) {
        ShareOnGrid(e, index, solPrice);
        AddKeepsBalance(GetDelta(b.deltas, bot), FeeDelta(e, solPrice), ToOpenLot(e, index, solPrice));
        if !HasOpenLot(e, index) { NoLotNoShare(e, index, solPrice); }
      }
    }
  }

  lemma EmptyRepair(index: map<string, Lot>, solPrice: Option<int>)
    ensures Repair([], index, solPrice) == EMPTY && Repair([], index, solPrice).lots == map[] && Balanced(NO_DELTA)
  {
  }

  lemma NoLotNoShare(e: Execution, index: map<string, Lot>, solPrice: Option<int>)
    requires OverCharged(e, solPrice) && !HasOpenLot(e, index)
    ensures ToOpenLot(e, index, solPrice) == 0
  {
  }

  /** The latest state snapshot of a bot, and how --apply moves it. */
  datatype Snapshot = Snapshot(available: int, realized: int, unrealized: int, equity: int)

  function ApplyDelta(s: Snapshot, d: BotDelta): Snapshot {
    Snapshot(s.available + d.available, s.realized + d.realized, s.unrealized + d.unrealized, s.equity + d.available)
  }

  /** Equity less total PnL is untouched; cash and equity rise by the sum of the rounded corrections, unrealised
      PnL by the part of it that stays in open lots, and realised PnL by the rest. */
  lemma EquityMinusPnlUnchanged(s: Snapshot, es: seq<Execution>, index: map<string, Lot>, solPrice: Option<int>, bot: string)
    ensures var t := ApplyDelta(s, GetDelta(Repair(es, index, solPrice).deltas, bot));
      && t.equity - (t.realized + t.unrealized) == s.equity - (s.realized + s.unrealized)
      && t.available - s.available == FeeDrop(es, bot, solPrice) == t.equity - s.equity
      && t.unrealized - s.unrealized == OpenDrop(es, bot, index, solPrice)
      && t.realized - s.realized == FeeDrop(es, bot, solPrice) - OpenDrop(es, bot, index, solPrice)
  {
    hide Repair, FeeDrop, OpenDrop, GetDelta, OnGrid;
    RepairConserves(es, index, solPrice, bot);
  }

  // ---------------------------------------------------------------- the lots

  /** The lot an execution's correction goes to, if any. */
  ghost predicate Touches(e: Execution, l: Lot, index: map<string, Lot>, solPrice: Option<int>) {
    OverCharged(e, solPrice) && HasOpenLot(e, index) && index[e.id] == l
  }

  lemma TouchedLotOpenedBy(e: Execution, l: Lot, lots: seq<Lot>, solPrice: Option<int>)
    requires Touches(e, l, LotIndex(lots), solPrice)
    ensures l in lots && l.openedBy == e.id
  {
  }

  /** The lot updates after one more execution. */
  function NextLots(updates: map<string, LotUpdate>, e: Execution, index: map<string, Lot>, solPrice: Option<int>)
    : map<string, LotUpdate>
  {
    if OverCharged(e, solPrice) && HasOpenLot(e, index)
    then updates[index[e.id].id := UpdatedLot(index[e.id], ToOpenLot(e, index, solPrice))] else updates
  }

  lemma StepLots(b: Batch, e: Execution, index: map<string, Lot>, solPrice: Option<int>)
    ensures Step(b, e, index, solPrice).lots == NextLots(b.lots, e, index, solPrice)
  {
    hide Round8, UpdatedLot, ToOpenLot;
  }

  /** The update of lot l is the one its own opening execution makes on its original cost, if that
      execution is an over-charged buy; otherwise there is none. */
  ghost predicate UpdatedOnce(es: seq<Execution>, updates: map<string, LotUpdate>, l: Lot, index: map<string, Lot>,
                              solPrice: Option<int>)
  {
    && (l.id in updates ==> exists e :: e in es && Touches(e, l, index, solPrice))
    && (forall e :: e in es && Touches(e, l, index, solPrice) ==>
          l.id in updates && updates[l.id] == UpdatedLot(l, ToOpenLot(e, index, solPrice)))
  }

  lemma UpdatedOnceStep(prior: seq<Execution>, e: Execution, updates: map<string, LotUpdate>, l: Lot, lots: seq<Lot>,
                        solPrice: Option<int>)
    requires DistinctExecutions(prior + [e]) && DistinctLots(lots) && l in lots
    requires UpdatedOnce(prior, updates, l, LotIndex(lots), solPrice)
    ensures UpdatedOnce(prior + [e], NextLots(updates, e, LotIndex(lots), solPrice), l, LotIndex(lots), solPrice)
  {
    hide OverCharged, ToOpenLot, UpdatedLot, LotIndex;
    var index := LotIndex(lots);
    assert e in prior + [e];
    if Touches(e, l, index, solPrice) {
      OthersTouchOtherLots(prior, e, l, lots, solPrice);
    } else {
      if OverCharged(e, solPrice) && HasOpenLot(e, index) {
        TouchedLotOpenedBy(e, index[e.id], lots, solPrice);
        assert index[e.id].id != l.id;
      }
      if l.id in updates {
        var x :| x in prior && Touches(x, l, index, solPrice);
        assert x in prior + [e];
      }
    }
  }

  lemma DistinctPrefix(es: seq<Execution>)
    requires DistinctExecutions(es) && es != []
    ensures DistinctExecutions(es[..|es| - 1]) && es[..|es| - 1] + [es[|es| - 1]] == es
  {
  }

  lemma NoUpdates(l: Lot, index: map<string, Lot>, solPrice: Option<int>)
    ensures UpdatedOnce([], map[], l, index, solPrice)
  {
    hide OverCharged, ToOpenLot, UpdatedLot;
  }

  /** Every lot is updated at most once. */
  lemma {:induction false} LotUpdates(es: seq<Execution>, lots: seq<Lot>, solPrice: Option<int>, l: Lot)
    requires DistinctExecutions(es) && DistinctLots(lots) && l in lots
    ensures UpdatedOnce(es, Repair(es, LotIndex(lots), solPrice).lots, l, LotIndex(lots), solPrice)
  {
    hide *;
    var index := LotIndex(lots);
    if es == [] {
      EmptyRepair(index, solPrice);
      NoUpdates(l, index, solPrice);
    } else {
      var prior, e := es[..|es| - 1], es[|es| - 1];
      DistinctPrefix(es);
      Unfold(es, index, solPrice);
      LotUpdates(prior, lots, solPrice, l);
      StepLots(Repair(prior, index, solPrice), e, index, solPrice);
      UpdatedOnceStep(prior, e, Repair(prior, index, solPrice).lots, l, lots, solPrice);
    }
  }

  lemma OthersTouchOtherLots(prior: seq<Execution>, e: Execution, l: Lot, lots: seq<Lot>, solPrice: Option<int>)
    requires DistinctExecutions(prior + [e]) && Touches(e, l, LotIndex(lots), solPrice)
    ensures forall x :: x in prior ==> !Touches(x, l, LotIndex(lots), solPrice)
  {
    forall x | x in prior ensures !Touches(x, l, LotIndex(lots), solPrice) {
      var i :| 0 <= i < |prior| && prior[i] == x;
      assert (prior + [e])[i].id != (prior + [e])[|prior|].id;
      TouchedLotOpenedBy(e, l, lots, solPrice);
      if Touches(x, l, LotIndex(lots), solPrice) {
        TouchedLotOpenedBy(x, l, lots, solPrice);
        assert false;
      }
    }
  }

  function NewCost(l: Lot, updates: map<string, LotUpdate>): int {
    if l.id in updates then updates[l.id].cost else l.cost
  }

  /** The open cost of one bot once the updates are written. */
  function SumCost(lots: seq<Lot>, updates: map<string, LotUpdate>, bot: string): int {
    if lots == [] then 0
    else (if lots[0].botId == bot then NewCost(lots[0], updates) else 0) + SumCost(lots[1..], updates, bot)
  }

  lemma {:induction false} SumCostOther(lots: seq<Lot>, updates: map<string, LotUpdate>, bot: string, id: string, u: LotUpdate)
    requires forall l :: l in lots ==> l.id != id
    ensures SumCost(lots, updates[id := u], bot) == SumCost(lots, updates, bot)
  {
    if lots != [] {
      SumCostOther(lots[1..], updates, bot, id, u);
    }
  }

  lemma {:induction false} SumCostUpdate(lots: seq<Lot>, updates: map<string, LotUpdate>, bot: string, l: Lot, u: LotUpdate)
    requires DistinctLots(lots) && l in lots && l.id !in updates
    ensures SumCost(lots, updates[l.id := u], bot)
         == SumCost(lots, updates, bot) + (if l.botId == bot then u.cost - l.cost else 0)
  {
    if lots[0] == l {
      SumCostOther(lots[1..], updates, bot, l.id, u);
    } else {
      assert l in lots[1..] && lots[0].id != l.id;
      SumCostUpdate(lots[1..], updates, bot, l, u);
    }
  }

  /** By how much a lot's cost falls short of (or beyond) giving up its share. */
  function Slip(l: Lot, share: int): int {
    (l.cost - UpdatedLot(l, share).cost) - share
  }

  function Slips(es: seq<Execution>, bot: string, index: map<string, Lot>, solPrice: Option<int>): int {
    if es == [] then 0 else
    var e := es[|es| - 1];
    Slips(es[..|es| - 1], bot, index, solPrice)
      + if e.botId == bot && OverCharged(e, solPrice) && HasOpenLot(e, index)
        then Slip(index[e.id], ToOpenLot(e, index, solPrice)) else 0
  }

  function OneFall(e: Execution, bot: string, index: map<string, Lot>, solPrice: Option<int>): int {
    if e.botId != bot || !OverCharged(e, solPrice) then 0
    else ToOpenLot(e, index, solPrice) + if HasOpenLot(e, index) then Slip(index[e.id], ToOpenLot(e, index, solPrice)) else 0
  }

  lemma FallUnfold(es: seq<Execution>, bot: string, index: map<string, Lot>, solPrice: Option<int>)
    requires es != []
    ensures var prior := es[..|es| - 1];
      OpenDrop(es, bot, index, solPrice) + Slips(es, bot, index, solPrice)
        == OpenDrop(prior, bot, index, solPrice) + Slips(prior, bot, index, solPrice) + OneFall(es[|es| - 1], bot, index, solPrice)
  {
    hide OverCharged, ToOpenLot, Slip, HasOpenLot;
  }

  lemma SameBotsPrefix(es: seq<Execution>, index: map<string, Lot>)
    requires SameBots(es, index) && es != []
    ensures SameBots(es[..|es| - 1], index)
  {
  }

  lemma NothingFalls(bot: string, index: map<string, Lot>, solPrice: Option<int>)
    ensures OpenDrop([], bot, index, solPrice) + Slips([], bot, index, solPrice) == 0
  {
  }

  lemma OneOpenCostFalls(prior: seq<Execution>, e: Execution, updates: map<string, LotUpdate>, lots: seq<Lot>,
                         solPrice: Option<int>, bot: string)
    requires DistinctExecutions(prior + [e]) && DistinctLots(lots) && SameBots(prior + [e], LotIndex(lots))
    requires forall l :: l in lots ==> UpdatedOnce(prior, updates, l, LotIndex(lots), solPrice)
    ensures var index := LotIndex(lots);
      SumCost(lots, updates, bot) - SumCost(lots, NextLots(updates, e, index, solPrice), bot)
        == OneFall(e, bot, index, solPrice)
  {
    hide OverCharged, ToOpenLot, UpdatedLot, LotIndex, SumCost;
    var index := LotIndex(lots);
    if OverCharged(e, solPrice) && !HasOpenLot(e, index) {
      NoLotNoShare(e, index, solPrice);
    } else if OverCharged(e, solPrice) {
      var l := index[e.id];
      assert e in prior + [e];
      TouchedLotOpenedBy(e, l, lots, solPrice);
      OthersTouchOtherLots(prior, e, l, lots, solPrice);
      SumCostUpdate(lots, updates, bot, l, UpdatedLot(l, ToOpenLot(e, index, solPrice)));
    }
  }

  /** For any lot costs: open cost falls by the open-cost delta plus the slips of the touched lots. */
  lemma {:induction false} OpenCostFalls(es: seq<Execution>, lots: seq<Lot>, solPrice: Option<int>, bot: string)
    requires DistinctExecutions(es) && DistinctLots(lots) && SameBots(es, LotIndex(lots))
    ensures var index := LotIndex(lots);
      SumCost(lots, map[], bot) - SumCost(lots, Repair(es, index, solPrice).lots, bot)
        == OpenDrop(es, bot, index, solPrice) + Slips(es, bot, index, solPrice)
  {
    hide *;
    var index := LotIndex(lots);
    if es == [] {
      EmptyRepair(index, solPrice);
      NothingFalls(bot, index, solPrice);
    } else {
      var prior, e := es[..|es| - 1], es[|es| - 1];
      var b := Repair(prior, index, solPrice);
      DistinctPrefix(es);
      SameBotsPrefix(es, index);
      Unfold(es, index, solPrice);
      StepLots(b, e, index, solPrice);
      OpenCostFalls(prior, lots, solPrice, bot);
      forall l | l in lots ensures UpdatedOnce(prior, b.lots, l, index, solPrice) {
        LotUpdates(prior, lots, solPrice, l);
      }
      OneOpenCostFalls(prior, e, b.lots, lots, solPrice, bot);
      FallUnfold(es, bot, index, solPrice);
    }
  }

  /** On grid costs a lot slips only where its clamp at zero fires. */
  lemma SlipIsClamp(l: Lot, share: int)
    requires OnGrid(l.cost) && OnGrid(share)
    ensures Slip(l, share) == if share > l.cost then l.cost - share else 0
  {
    hide Round8;
    Round8Exact(l.cost - share);
    Round8Exact(0);
  }

  ghost predicate NoClamp(es: seq<Execution>, bot: string, index: map<string, Lot>, solPrice: Option<int>) {
    forall e :: e in es && e.botId == bot && OverCharged(e, solPrice) && HasOpenLot(e, index) ==>
      ToOpenLot(e, index, solPrice) <= index[e.id].cost
  }

  lemma {:induction false} SlipsVanish(es: seq<Execution>, bot: string, index: map<string, Lot>, solPrice: Option<int>)
    requires forall k :: k in index ==> OnGrid(index[k].cost)
    ensures Slips(es, bot, index, solPrice) <= 0
    ensures Slips(es, bot, index, solPrice) == 0 <==> NoClamp(es, bot, index, solPrice)
  {
    hide CorrectedFee, FeeDelta, ToOpenLot, OverCharged, Slip;
    if es != [] {
      var prior, e := es[..|es| - 1], es[|es| - 1];
      SlipsVanish(prior, bot, index, solPrice);
      assert forall x :: x in es <==> x in prior || x == e;
      if OverCharged(e, solPrice) && HasOpenLot(e, index) {
        ShareOnGrid(e, index, solPrice);
        SlipIsClamp(index[e.id], ToOpenLot(e, index, solPrice));
      }
    }
  }

  /** With lot costs on the grid, a bot's open cost falls by exactly its open-cost delta if and only if
      no touched lot's clamp at zero fires; otherwise it falls by less. */
  lemma DeployedFollowsDelta(es: seq<Execution>, lots: seq<Lot>, solPrice: Option<int>, bot: string)
    requires DistinctExecutions(es) && DistinctLots(lots) && SameBots(es, LotIndex(lots))
    requires forall l :: l in lots ==> OnGrid(l.cost)
    ensures var b := Repair(es, LotIndex(lots), solPrice);
      var fall := SumCost(lots, map[], bot) - SumCost(lots, b.lots, bot);
      && fall <= GetDelta(b.deltas, bot).openCost
      && (fall == GetDelta(b.deltas, bot).openCost <==> NoClamp(es, bot, LotIndex(lots), solPrice))
  {
    hide Repair, SumCost, OpenDrop, Slips, NoClamp, FeeDrop;
    OpenCostFalls(es, lots, solPrice, bot);
    RepairConserves(es, LotIndex(lots), solPrice, bot);
    SlipsVanish(es, bot, LotIndex(lots), solPrice);
  }

  // ---------------------------------------------------------------- the second run

  /** execution.update({ where: { id } }): the last update of an id wins. */
  function FeeAfter(e: Execution, fees: seq<FeeUpdate>): int {
    if fees == [] then e.fee
    else if fees[|fees| - 1].id == e.id then fees[|fees| - 1].corrected
    else FeeAfter(e, fees[..|fees| - 1])
  }

  function ApplyFees(es: seq<Execution>, fees: seq<FeeUpdate>): seq<Execution> {
    seq(|es|, i requires 0 <= i < |es| => es[i].(fee := FeeAfter(es[i], fees)))
  }

  function ApplyLots(lots: seq<Lot>, updates: map<string, LotUpdate>): seq<Lot> {
    seq(|lots|, i requires 0 <= i < |lots| =>
      if lots[i].id in updates then lots[i].(cost := updates[lots[i].id].cost, entryPrice := updates[lots[i].id].entryPrice)
      else lots[i])
  }

  /** The fee an execution should end up with. */
  function NewFee(e: Execution, solPrice: Option<int>): int {
    if OverCharged(e, solPrice) then CorrectedFee(e, solPrice).value else e.fee
  }

  /** The fee updates after one more execution. */
  function NextFees(fees: seq<FeeUpdate>, e: Execution, solPrice: Option<int>): seq<FeeUpdate> {
    if OverCharged(e, solPrice) then fees + [FeeUpdate(e.id, e.fee, NewFee(e, solPrice))] else fees
  }

  lemma StepFees(b: Batch, e: Execution, index: map<string, Lot>, solPrice: Option<int>)
    ensures Step(b, e, index, solPrice).fees == NextFees(b.fees, e, solPrice)
  {
    hide Round8, UpdatedLot, ToOpenLot, FeeDelta, AddSplit, AddRealized;
  }

  lemma UnfoldFees(es: seq<Execution>, index: map<string, Lot>, solPrice: Option<int>)
    requires es != []
    ensures Repair(es, index, solPrice).fees == NextFees(Repair(es[..|es| - 1], index, solPrice).fees, es[|es| - 1], solPrice)
  {
    hide Repair, Step, NextFees;
    Unfold(es, index, solPrice);
    StepFees(Repair(es[..|es| - 1], index, solPrice), es[|es| - 1], index, solPrice);
  }

  lemma FeeAfterSnoc(e: Execution, fees: seq<FeeUpdate>, u: FeeUpdate)
    ensures FeeAfter(e, fees + [u]) == if u.id == e.id then u.corrected else FeeAfter(e, fees)
  {
    assert (fees + [u])[..|fees|] == fees;
  }

  /** An update of another execution's fee leaves this one's alone. */
  lemma OtherFeeKept(e: Execution, fees: seq<FeeUpdate>, last: Execution, solPrice: Option<int>)
    requires e.id != last.id
    ensures FeeAfter(e, NextFees(fees, last, solPrice)) == FeeAfter(e, fees)
  {
    hide OverCharged, NewFee;
    FeeAfterSnoc(e, fees, FeeUpdate(last.id, last.fee, NewFee(last, solPrice)));
  }

  lemma OwnFeeWritten(e: Execution, fees: seq<FeeUpdate>, solPrice: Option<int>)
    requires FeeAfter(e, fees) == e.fee
    ensures FeeAfter(e, NextFees(fees, e, solPrice)) == NewFee(e, solPrice)
  {
    hide CorrectedFee, FeeAfter;
    FeeAfterSnoc(e, fees, FeeUpdate(e.id, e.fee, NewFee(e, solPrice)));
  }

  lemma {:induction false} AbsentFeeKept(es: seq<Execution>, index: map<string, Lot>, solPrice: Option<int>, e: Execution)
    requires forall x :: x in es ==> x.id != e.id
    ensures FeeAfter(e, Repair(es, index, solPrice).fees) == e.fee
  {
    hide Repair, NextFees;
    if es == [] {
      EmptyRepair(index, solPrice);
    } else {
      var prior, last := es[..|es| - 1], es[|es| - 1];
      assert last in es;
      hide FeeAfter;
      UnfoldFees(es, index, solPrice);
      AbsentFeeKept(prior, index, solPrice, e);
      OtherFeeKept(e, Repair(prior, index, solPrice).fees, last, solPrice);
    }
  }

  lemma LastIsNew(es: seq<Execution>)
    requires DistinctExecutions(es) && es != []
    ensures forall x :: x in es[..|es| - 1] ==> x.id != es[|es| - 1].id
  {
  }

  /** The fee each execution ends up with is its corrected fee if it was over-charged, else its old one. */
  lemma {:induction false} FeesWritten(es: seq<Execution>, index: map<string, Lot>, solPrice: Option<int>, e: Execution)
    requires DistinctExecutions(es) && e in es
    ensures FeeAfter(e, Repair(es, index, solPrice).fees) == NewFee(e, solPrice)
  {
    hide Repair, FeeAfter, NextFees, NewFee, DistinctExecutions;
    var prior, last := es[..|es| - 1], es[|es| - 1];
    DistinctPrefix(es);
    LastIsNew(es);
    UnfoldFees(es, index, solPrice);
    if e == last {
      AbsentFeeKept(prior, index, solPrice, e);
      OwnFeeWritten(e, Repair(prior, index, solPrice).fees, solPrice);
    } else {
      assert e in prior;
      FeesWritten(prior, index, solPrice, e);
      OtherFeeKept(e, Repair(prior, index, solPrice).fees, last, solPrice);
    }
  }

  // ---------------------------------------------------------------- cash against the execution rows

  /** What a bot's execution rows lose when the updates are written. */
  function RowsFall(es: seq<Execution>, fees: seq<FeeUpdate>, bot: string): int {
    if es == [] then 0 else
    var e := es[|es| - 1];
    RowsFall(es[..|es| - 1], fees, bot) + if e.botId == bot then e.fee - FeeAfter(e, fees) else 0
  }

  /** What rounding each correction to the grid adds to it. */
  function FeeRounding(es: seq<Execution>, bot: string, solPrice: Option<int>): int {
    if es == [] then 0 else
    var e := es[|es| - 1];
    FeeRounding(es[..|es| - 1], bot, solPrice) + if e.botId == bot then OneFeeRounding(e, solPrice) else 0
  }

  function OneFeeRounding(e: Execution, solPrice: Option<int>): int {
    if OverCharged(e, solPrice) then FeeDelta(e, solPrice) - (e.fee - NewFee(e, solPrice)) else 0
  }

  function OverChargedCount(es: seq<Execution>, bot: string, solPrice: Option<int>): nat {
    if es == [] then 0 else
    var e := es[|es| - 1];
    OverChargedCount(es[..|es| - 1], bot, solPrice) + if e.botId == bot && OverCharged(e, solPrice) then 1 else 0
  }

  lemma CorrectedOnGrid(e: Execution, solPrice: Option<int>)
    ensures CorrectedFee(e, solPrice).Some? ==> OnGrid(CorrectedFee(e, solPrice).value)
  {
    hide Round8, FeePrice, NativeFee;
  }

  lemma RoundedDifferenceIff(charged: int, corrected: int)
    requires OnGrid(corrected)
    ensures var d := charged - corrected; -GRID <= 2 * (Round8(d, 1) - d) <= GRID && (Round8(d, 1) == d <==> OnGrid(charged))
  {
    hide Round8;
    Round8Error(charged - corrected, 1);
    if OnGrid(charged) {
      GridSum(charged, corrected);
      Round8Exact(charged - corrected);
    }
    if Round8(charged - corrected, 1) == charged - corrected { GridSum(Round8(charged - corrected, 1), corrected); }
  }

  /** One correction is what the row loses exactly when the old fee is on the grid, else within half a step. */
  lemma OneFeeRoundingIff(e: Execution, solPrice: Option<int>)
    requires OverCharged(e, solPrice)
    ensures -GRID <= 2 * OneFeeRounding(e, solPrice) <= GRID
    ensures OneFeeRounding(e, solPrice) == 0 <==> OnGrid(e.fee)
  {
    CorrectedOnGrid(e, solPrice);
    var corrected := CorrectedFee(e, solPrice).value;
    hide CorrectedFee, Round8, OnGrid;
    assert FeeDelta(e, solPrice) == Round8(e.fee - corrected, 1);
    RoundedDifferenceIff(e.fee, corrected);
  }

  lemma OneRowFalls(e: Execution, solPrice: Option<int>)
    ensures e.fee - NewFee(e, solPrice) + OneFeeRounding(e, solPrice)
            == if OverCharged(e, solPrice) then FeeDelta(e, solPrice) else 0
  {
    hide FeeDelta, CorrectedFee;
  }

  lemma {:induction false} RowsFallBy(es: seq<Execution>, fees: seq<FeeUpdate>, bot: string, solPrice: Option<int>)
    requires forall e :: e in es ==> FeeAfter(e, fees) == NewFee(e, solPrice)
    ensures RowsFall(es, fees, bot) + FeeRounding(es, bot, solPrice) == FeeDrop(es, bot, solPrice)
  {
    hide OverCharged, FeeAfter, NewFee, OneFeeRounding;
    if es != [] {
      var e := es[|es| - 1];
      assert e in es;
      RowsFallBy(es[..|es| - 1], fees, bot, solPrice);
      OneRowFalls(e, solPrice);
    }
  }

  /** The cash a bot gets back is what its execution rows lose, up to the rounding of each correction. */
  lemma CashMatchesRows(es: seq<Execution>, index: map<string, Lot>, solPrice: Option<int>, bot: string)
    requires DistinctExecutions(es)
    ensures var b := Repair(es, index, solPrice);
      GetDelta(b.deltas, bot).available == RowsFall(es, b.fees, bot) + FeeRounding(es, bot, solPrice)
  {
    var b := Repair(es, index, solPrice);
    RepairConserves(es, index, solPrice, bot);
    hide Repair, FeeAfter, NewFee, RowsFall, FeeRounding, FeeDrop, OpenDrop, GetDelta, OnGrid;
    forall e | e in es ensures FeeAfter(e, b.fees) == NewFee(e, solPrice) {
      FeesWritten(es, index, solPrice, e);
    }
    RowsFallBy(es, b.fees, bot, solPrice);
  }

  /** That rounding is at most half a grid step per corrected execution, and nothing when fees are on the grid. */
  lemma {:induction false} FeeRoundingBound(es: seq<Execution>, bot: string, solPrice: Option<int>)
    ensures var n := OverChargedCount(es, bot, solPrice); -GRID * n <= 2 * FeeRounding(es, bot, solPrice) <= GRID * n
  {
    hide OverCharged, OneFeeRounding;
    if es != [] {
      var e := es[|es| - 1];
      FeeRoundingBound(es[..|es| - 1], bot, solPrice);
      if OverCharged(e, solPrice) { OneFeeRoundingIff(e, solPrice); } else { NoCorrectionNoRounding(e, solPrice); }
    }
  }

  lemma NoCorrectionNoRounding(e: Execution, solPrice: Option<int>)
    requires !OverCharged(e, solPrice)
    ensures OneFeeRounding(e, solPrice) == 0
  {
    hide OverCharged;
  }

  /** After every execution of the loop, the bot's cash delta is exactly what its rows lose so far. */
  ghost predicate AlwaysMatches(es: seq<Execution>, index: map<string, Lot>, solPrice: Option<int>, bot: string) {
    es == [] || (AlwaysMatches(es[..|es| - 1], index, solPrice, bot) && Matches(es, index, solPrice, bot))
  }

  ghost predicate Matches(es: seq<Execution>, index: map<string, Lot>, solPrice: Option<int>, bot: string) {
    var b := Repair(es, index, solPrice);
    GetDelta(b.deltas, bot).available == RowsFall(es, b.fees, bot)
  }

  lemma MatchesIff(es: seq<Execution>, index: map<string, Lot>, solPrice: Option<int>, bot: string)
    requires DistinctExecutions(es)
    ensures Matches(es, index, solPrice, bot) <==> FeeRounding(es, bot, solPrice) == 0
  {
    hide Repair, RowsFall, FeeRounding, GetDelta;
    CashMatchesRows(es, index, solPrice, bot);
  }

  /** Every over-charged fee of the bot is stored on the grid. */
  ghost predicate FeesOnGrid(es: seq<Execution>, bot: string, solPrice: Option<int>) {
    forall e :: e in es && e.botId == bot && OverCharged(e, solPrice) ==> OnGrid(e.fee)
  }

  lemma FeesOnGridSnoc(es: seq<Execution>, bot: string, solPrice: Option<int>)
    requires es != []
    ensures var e := es[|es| - 1];
      FeesOnGrid(es, bot, solPrice) <==>
        FeesOnGrid(es[..|es| - 1], bot, solPrice) && (e.botId == bot && OverCharged(e, solPrice) ==> OnGrid(e.fee))
  {
    hide OverCharged, OnGrid;
    assert forall x :: x in es <==> x in es[..|es| - 1] || x == es[|es| - 1];
  }

  lemma {:induction false} MatchesThroughout(es: seq<Execution>, index: map<string, Lot>, solPrice: Option<int>, bot: string)
    requires DistinctExecutions(es)
    ensures AlwaysMatches(es, index, solPrice, bot) <==> FeesOnGrid(es, bot, solPrice)
    ensures AlwaysMatches(es, index, solPrice, bot) ==> FeeRounding(es, bot, solPrice) == 0
  {
    hide OverCharged, OneFeeRounding, Matches, FeesOnGrid, OnGrid;
    if es == [] {
      NothingOnGrid(bot, solPrice);
    } else {
      var prior, e := es[..|es| - 1], es[|es| - 1];
      DistinctPrefix(es);
      MatchesThroughout(prior, index, solPrice, bot);
      MatchesIff(es, index, solPrice, bot);
      FeesOnGridSnoc(es, bot, solPrice);
      if OverCharged(e, solPrice) { OneFeeRoundingIff(e, solPrice); } else { NoCorrectionNoRounding(e, solPrice); }
    }
  }

  lemma NothingOnGrid(bot: string, solPrice: Option<int>)
    ensures FeesOnGrid([], bot, solPrice)
  {
  }

  /** Throughout the batch a bot gets back exactly what its execution rows lose if and only if its
      over-charged fees are stored on the 1e-8 grid. */
  lemma CashExactIff(es: seq<Execution>, index: map<string, Lot>, solPrice: Option<int>, bot: string)
    requires DistinctExecutions(es)
    ensures AlwaysMatches(es, index, solPrice, bot) <==> FeesOnGrid(es, bot, solPrice)
  {
    hide *;
    MatchesThroughout(es, index, solPrice, bot);
  }

  /** A stored fee of 150 units against a corrected fee of zero: 200 are given back for a row that falls by 150. */
  const OFF_GRID_FEE := Execution("e", "bot", "BTC", Sell, 150, None, Some(LamportFees(Some(1), None)))

  lemma OffGridFee()
    ensures CorrectedFee(OFF_GRID_FEE, Some(1)) == Some(0) && OverCharged(OFF_GRID_FEE, Some(1))
    ensures FeeDelta(OFF_GRID_FEE, Some(1)) == 200
  {
    assert Round8(1 * 1, LAMPORTS_PER_SOL) == 0;
    assert Round8(150, 1) == 200;
    assert ToUpper("BTC") != "SOL" by { assert ToUpper("BTC")[0] == 'B'; }
  }

  lemma DropOfOne(e: Execution, solPrice: Option<int>)
    requires OverCharged(e, solPrice)
    ensures FeeDrop([e], e.botId, solPrice) == FeeDelta(e, solPrice)
  {
    hide OverCharged, FeeDelta;
    assert [e][..0] == [];
  }

  lemma FallOfOne(e: Execution, fees: seq<FeeUpdate>)
    ensures RowsFall([e], fees, e.botId) == e.fee - FeeAfter(e, fees)
  {
    hide FeeAfter;
    assert [e][..0] == [];
  }

  lemma DistinctOne(e: Execution)
    ensures DistinctExecutions([e])
  {
  }

  lemma OneCorrection(e: Execution, index: map<string, Lot>, solPrice: Option<int>)
    requires OverCharged(e, solPrice)
    ensures var b := Repair([e], index, solPrice);
      && GetDelta(b.deltas, e.botId).available == FeeDelta(e, solPrice)
      && RowsFall([e], b.fees, e.botId) == e.fee - NewFee(e, solPrice)
  {
    hide Repair, OverCharged, FeeDelta, NewFee, FeeDrop, OpenDrop, RowsFall, OnGrid, GetDelta, FeeAfter;
    var b := Repair([e], index, solPrice);
    DistinctOne(e);
    RepairConserves([e], index, solPrice, e.botId);
    DropOfOne(e, solPrice);
    FallOfOne(e, b.fees);
    FeesWritten([e], index, solPrice, e);
  }

  /** Off the grid the two do differ. */
  lemma OffGridFeeOverpays()
    ensures var es, bot := [OFF_GRID_FEE], OFF_GRID_FEE.botId; var b := Repair(es, map[], Some(1));
      GetDelta(b.deltas, bot).available == 200 && RowsFall(es, b.fees, bot) == 150
  {
    OffGridFee();
    assert NewFee(OFF_GRID_FEE, Some(1)) == 0 && OFF_GRID_FEE.fee == 150;
    hide *;
    OneCorrection(OFF_GRID_FEE, map[], Some(1));
  }

  lemma {:induction false} NothingToCorrect(es: seq<Execution>, index: map<string, Lot>, solPrice: Option<int>)
    requires forall e :: e in es ==> !OverCharged(e, solPrice)
    ensures var b := Repair(es, index, solPrice); b.deltas == map[] && b.fees == [] && b.lots == map[]
  {
    if es != [] {
      NothingToCorrect(es[..|es| - 1], index, solPrice);
    }
  }

  /** A second run with the same reference price, on the rows the first run wrote, changes nothing. */
  lemma Idempotent(es: seq<Execution>, lots: seq<Lot>, solPrice: Option<int>)
    requires DistinctExecutions(es)
    ensures var b := Repair(es, LotIndex(lots), solPrice);
      var again := Repair(ApplyFees(es, b.fees), LotIndex(ApplyLots(lots, b.lots)), solPrice);
      again.deltas == map[] && again.fees == [] && again.lots == map[]
  {
    hide Repair, FeeAfter;
    var b := Repair(es, LotIndex(lots), solPrice);
    var after := ApplyFees(es, b.fees);
    forall e | e in after ensures !OverCharged(e, solPrice) {
      var i :| 0 <= i < |after| && after[i] == e;
      FeesWritten(es, LotIndex(lots), solPrice, es[i]);
      assert CorrectedFee(e, solPrice) == CorrectedFee(es[i], solPrice);
    }
    NothingToCorrect(after, LotIndex(ApplyLots(lots, b.lots)), solPrice);
  }
}
