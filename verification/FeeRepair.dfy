/** packages/db/prisma/fix-jupiter-rent-fees.ts: over-charged fees are given back, split between open
    lot cost and realised PnL. Amounts and prices are in 1e-10 units. */
module FeeRepair {
  import opened Rounding
  import opened Text
  import opened Wrappers

  const LAMPORTS_PER_SOL := 1_000_000_000
  const EPSILON := 100       // 0.00000001

  datatype Side = Buy | Sell

  /** rawReport.order; a missing or unreadable number counts as 0. */
  datatype LamportFees = LamportFees(signature: Option<int>, prioritization: Option<int>)

  datatype Execution = Execution(id: string, botId: string, baseSymbol: string, side: Side, fee: int,
                                 quotePrice: Option<int>, order: Option<LamportFees>)

  datatype Lot = Lot(id: string, botId: string, openedBy: string, originalBase: int, base: int,
                     cost: int, entryPrice: int)

  datatype BotDelta = BotDelta(feeReduction: int, available: int, realized: int, unrealized: int,
                               openCost: int, corrected: nat)
  const NO_DELTA := BotDelta(0, 0, 0, 0, 0, 0)

  datatype FeeUpdate = FeeUpdate(id: string, previous: int, corrected: int)
  datatype LotUpdate = LotUpdate(cost: int, entryPrice: int)

  /** botDeltas, executionUpdates, openLotUpdates and skipped. */
  datatype Batch = Batch(deltas: map<string, BotDelta>, fees: seq<FeeUpdate>,
                         lots: map<string, LotUpdate>, skipped: seq<string>)
  const EMPTY := Batch(map[], [], map[], [])

  // ---------------------------------------------------------------- one execution

  function NativeFee(order: Option<LamportFees>): Option<int> {
    if order.None? then None else
    var s, p := order.value.signature.UnwrapOr(0), order.value.prioritization.UnwrapOr(0);
    if s <= 0 && p <= 0 then None else Some(s + p)
  }

  function FeePrice(baseSymbol: string, quotePrice: int, solPrice: Option<int>): Option<int> {
    if ToUpper(baseSymbol) == "SOL" && quotePrice > 0 then Some(quotePrice) else solPrice
  }

  /** The corrected fee, or None for a skipped execution. */
  function CorrectedFee(e: Execution, solPrice: Option<int>): Option<int> {
    var lamports := NativeFee(e.order);
    if lamports.None? then None else
    var price := FeePrice(e.baseSymbol, e.quotePrice.UnwrapOr(0), solPrice);
    if price.None? || price.value <= 0 then None
    else Some(Round8(lamports.value * price.value, LAMPORTS_PER_SOL))
  }

  predicate OverCharged(e: Execution, solPrice: Option<int>) {
    var fee := CorrectedFee(e, solPrice);
    fee.Some? && e.fee > fee.value + EPSILON
  }

  function FeeDelta(e: Execution, solPrice: Option<int>): int
    requires OverCharged(e, solPrice)
  {
    Round8(e.fee - CorrectedFee(e, solPrice).value, 1)
  }

  /** The part of a buy's correction that still sits in its open lot:
      round(feeDelta * clamp(remaining / original, 0, 1), 8). */
  function OpenShare(l: Lot, feeDelta: int): int {
    if l.originalBase <= 0 || l.base >= l.originalBase then Round8(feeDelta, 1)
    else if l.base <= 0 then 0
    else Round8(feeDelta * l.base, l.originalBase)
  }

  function UpdatedLot(l: Lot, share: int): LotUpdate {
    var cost := Round8(if l.cost - share > 0 then l.cost - share else 0, 1);
    LotUpdate(cost, if l.base > 0 then Round8(cost * 10_000_000_000, l.base) else l.entryPrice)
  }

  /** new Map(openLots.map(lot => [lot.openedByExecutionId, lot])): a later lot replaces an earlier one. */
  function LotIndex(lots: seq<Lot>): (m: map<string, Lot>)
    ensures forall k :: k in m ==> m[k] in lots && m[k].openedBy == k
    ensures forall l :: l in lots ==> l.openedBy in m
  {
    if lots == [] then map[] else LotIndex(lots[..|lots| - 1])[lots[|lots| - 1].openedBy := lots[|lots| - 1]]
  }

  lemma IndexSnoc(init: seq<Lot>, last: Lot)
    ensures LotIndex(init + [last]) == LotIndex(init)[last.openedBy := last]
  {
    assert (init + [last])[..|init|] == init;
  }

  /** Of several lots opened by one execution the last one counts. */
  lemma {:induction false} LastLotWins(lots: seq<Lot>, i: nat)
    requires i < |lots| && forall j :: i < j < |lots| ==> lots[j].openedBy != lots[i].openedBy
    ensures lots[i].openedBy in LotIndex(lots) && LotIndex(lots)[lots[i].openedBy] == lots[i]
  {
    hide LotIndex;
    var n := |lots| - 1;
    var init, last := lots[..n], lots[n];
    assert lots == init + [last];
    IndexSnoc(init, last);
    if i < n { LastLotWins(init, i); }
  }

  function GetDelta(deltas: map<string, BotDelta>, botId: string): BotDelta {
    if botId in deltas then deltas[botId] else NO_DELTA
  }

  predicate HasOpenLot(e: Execution, index: map<string, Lot>) {
    e.side.Buy? && e.id in index
  }

  /** How much of the correction goes to the open lot; the rest is realised. */
  function ToOpenLot(e: Execution, index: map<string, Lot>, solPrice: Option<int>): int
    requires OverCharged(e, solPrice)
  {
    if HasOpenLot(e, index) then OpenShare(index[e.id], FeeDelta(e, solPrice)) else 0
  }

  function AddRealized(d: BotDelta, fee: int): BotDelta {
    d.(feeReduction := Round8(d.feeReduction + fee, 1), available := Round8(d.available + fee, 1),
       realized := Round8(d.realized + fee, 1), corrected := d.corrected + 1)
  }

  function AddSplit(d: BotDelta, fee: int, open: int): BotDelta {
    BotDelta(Round8(d.feeReduction + fee, 1), Round8(d.available + fee, 1),
             Round8(d.realized + Round8(fee - open, 1), 1), Round8(d.unrealized + open, 1),
             Round8(d.openCost + open, 1), d.corrected + 1)
  }

  /** One iteration of the correction loop. */
  function Step(b: Batch, e: Execution, index: map<string, Lot>, solPrice: Option<int>): Batch {
    if CorrectedFee(e, solPrice).None? then b.(skipped := b.skipped + [e.id])
    else if !OverCharged(e, solPrice) then b
    else
      var fee, before := FeeDelta(e, solPrice), GetDelta(b.deltas, e.botId);
      var update := FeeUpdate(e.id, e.fee, CorrectedFee(e, solPrice).value);
      if !HasOpenLot(e, index) then
        b.(deltas := b.deltas[e.botId := AddRealized(before, fee)], fees := b.fees + [update])
      else
        var open := ToOpenLot(e, index, solPrice);
        b.(deltas := b.deltas[e.botId := AddSplit(before, fee, open)], fees := b.fees + [update],
           lots := b.lots[index[e.id].id := UpdatedLot(index[e.id], open)])
  }

  function Repair(es: seq<Execution>, index: map<string, Lot>, solPrice: Option<int>): Batch {
    if es == [] then EMPTY else Step(Repair(es[..|es| - 1], index, solPrice), es[|es| - 1], index, solPrice)
  }

  // ---------------------------------------------------------------- the code

  /** The loop body. */
  method RepairOne(b: Batch, e: Execution, openLotByExecutionId: map<string, Lot>, solPrice: Option<int>) returns (next: Batch)
    ensures next == Step(b, e, openLotByExecutionId, solPrice)
  {
    hide Round8;
    next := b;
    var correctedFee := CorrectedFee(e, solPrice);
    if correctedFee.None? {
      next := next.(skipped := next.skipped + [e.id]);
      return;
    }
    if e.fee <= correctedFee.value + EPSILON { return; }
    var feeDelta := Round8(e.fee - correctedFee.value, 1);
    var delta := GetDelta(b.deltas, e.botId);
    delta := delta.(feeReduction := Round8(delta.feeReduction + feeDelta, 1),
                    available := Round8(delta.available + feeDelta, 1), corrected := delta.corrected + 1);
    if e.side.Sell? || e.id !in openLotByExecutionId {
      delta := delta.(realized := Round8(delta.realized + feeDelta, 1));
    } else {
      var openLot := openLotByExecutionId[e.id];
      var openFeeDelta := OpenShare(openLot, feeDelta);
      var closedFeeDelta := Round8(feeDelta - openFeeDelta, 1);
      delta := delta.(openCost := Round8(delta.openCost + openFeeDelta, 1),
                      unrealized := Round8(delta.unrealized + openFeeDelta, 1),
                      realized := Round8(delta.realized + closedFeeDelta, 1));
      next := next.(lots := next.lots[openLot.id := UpdatedLot(openLot, openFeeDelta)]);
    }
    next := next.(deltas := next.deltas[e.botId := delta], fees := next.fees + [FeeUpdate(e.id, e.fee, correctedFee.value)]);
  }

  method RepairFees(executions: seq<Execution>, openLots: seq<Lot>, solPrice: Option<int>) returns (b: Batch)
    ensures b == Repair(executions, LotIndex(openLots), solPrice)
  {
    hide Step;
    var openLotByExecutionId := LotIndex(openLots);
    b := EMPTY;
    for i := 0 to |executions|
      invariant b == Repair(executions[..i], openLotByExecutionId, solPrice)
    {
      assert executions[..i + 1][..i] == executions[..i];
      b := RepairOne(b, executions[i], openLotByExecutionId, solPrice);
    }
    assert executions[..|executions|] == executions;
  }
}
