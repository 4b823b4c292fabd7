/** One execution of the fee repair in numbers: what its fee should have been, what is given back, and how
    that is split between the open lot and realised PnL. Amounts are in units of 1e-10. */
module FeeOutcome {
  import opened FeeConservation
  import opened FeeRepair
  import opened Rounding
  import opened Text
  import opened Wrappers

  /** The lamports of the report, when it has an order and one of its two fees is positive. */
  ghost predicate ChargedLamports(e: Execution, lamports: int) {
    && e.order.Some?
    && var s, p := e.order.value.signature.UnwrapOr(0), e.order.value.prioritization.UnwrapOr(0);
      (s > 0 || p > 0) && lamports == s + p
  }

  /** The price of one SOL: the execution's own for a bot that trades SOL, else the reference, and positive. */
  ghost predicate SolPrice(e: Execution, reference: Option<int>, price: int) {
    && price > 0
    && if ToUpper(e.baseSymbol) == "SOL" && e.quotePrice.Some? && e.quotePrice.value > 0 then price == e.quotePrice.value
       else reference == Some(price)
  }

  ghost predicate IsPriced(e: Execution, reference: Option<int>, lamports: int, price: int) {
    ChargedLamports(e, lamports) && SolPrice(e, reference, price)
  }

  lemma PricedIff(e: Execution, reference: Option<int>)
    ensures CorrectedFee(e, reference).Some? <==> exists lamports, price :: IsPriced(e, reference, lamports, price)
    ensures forall lamports, price :: IsPriced(e, reference, lamports, price) && CorrectedFee(e, reference).Some? ==>
              Nearest(CorrectedFee(e, reference).value, lamports * price, 1_000_000_000)
  {
    hide Round8, ToUpper, Nearest;
    if e.order.Some? {
      var lamports := e.order.value.signature.UnwrapOr(0) + e.order.value.prioritization.UnwrapOr(0);
      var price := FeePrice(e.baseSymbol, e.quotePrice.UnwrapOr(0), reference).UnwrapOr(0);
      Round8IsNearest(lamports * price, 1_000_000_000);
      if CorrectedFee(e, reference).Some? { assert IsPriced(e, reference, lamports, price); }
    }
  }

  /** How much of a correction f stays in the cost of an open lot: all of it while the lot is whole, nothing once
      it is sold, and its part by base in between. */
  ghost predicate OpenPart(l: Lot, f: int, x: int) {
    if l.originalBase <= 0 || l.base >= l.originalBase then x == f
    else if l.base <= 0 then x == 0
    else Nearest(x, f * l.base, l.originalBase)
  }

  /** The new cost of the lot, and its price per unit of base. */
  ghost predicate CostLess(l: Lot, x: int, u: LotUpdate) {
    && Nearest(u.cost, if l.cost > x then l.cost - x else 0, 1)
    && if l.base > 0 then Nearest(u.entryPrice, u.cost * 10_000_000_000, l.base) else u.entryPrice == l.entryPrice
  }

  /** A bot gets back f, of which x stays in open lots and the rest is realised. */
  ghost predicate GivenBack(d: BotDelta, after: BotDelta, f: int, x: int) {
    after == BotDelta(d.feeReduction + f, d.available + f, d.realized + (f - x), d.unrealized + x, d.openCost + x, d.corrected + 1)
  }

  lemma ShareIsPart(l: Lot, f: int)
    requires OnGrid(f)
    ensures OpenPart(l, f, OpenShare(l, f)) && OnGrid(OpenShare(l, f))
  {
    hide Round8, Nearest;
    if l.originalBase <= 0 || l.base >= l.originalBase {
      Round8Exact(f);
    } else if l.base > 0 {
      Round8IsNearest(f * l.base, l.originalBase);
    } else {
      assert OnGrid(0);
    }
  }

  lemma UpdateIsCostLess(l: Lot, x: int)
    ensures CostLess(l, x, UpdatedLot(l, x))
  {
    hide Round8, Nearest;
    Round8IsNearest(if l.cost - x > 0 then l.cost - x else 0, 1);
    if l.base > 0 { Round8IsNearest(UpdatedLot(l, x).cost * 10_000_000_000, l.base); }
  }

  /** An execution whose report or reference price is missing is skipped, whatever came before. */
  lemma SkippedOutcome(prior: seq<Execution>, e: Execution, index: map<string, Lot>, reference: Option<int>)
    requires !exists lamports, price :: IsPriced(e, reference, lamports, price)
    ensures var b := Repair(prior, index, reference); Repair(prior + [e], index, reference) == b.(skipped := b.skipped + [e.id])
  {
    PricedIff(e, reference);
    RepairSnoc(prior, e, index, reference);
    hide CorrectedFee, Repair, IsPriced;
  }

  lemma RepairSnoc(prior: seq<Execution>, e: Execution, index: map<string, Lot>, reference: Option<int>)
    ensures Repair(prior + [e], index, reference) == Step(Repair(prior, index, reference), e, index, reference)
  {
    hide Step;
    assert (prior + [e])[..|prior|] == prior;
  }

  /** What a correction of f does to the batch. */
  ghost predicate CorrectedBy(b: Batch, next: Batch, e: Execution, index: map<string, Lot>, c: int, f: int, x: int) {
    && next.skipped == b.skipped && next.fees == b.fees + [FeeUpdate(e.id, e.fee, c)]
    && GivenBack(GetDelta(b.deltas, e.botId), GetDelta(next.deltas, e.botId), f, x)
    && (forall bot :: bot != e.botId ==> GetDelta(next.deltas, bot) == GetDelta(b.deltas, bot))
    && if e.side.Sell? || e.id !in index then x == 0 && next.lots == b.lots
       else
         && OpenPart(index[e.id], f, x)
         && exists u :: CostLess(index[e.id], x, u) && next.lots == b.lots[index[e.id].id := u]
  }

  lemma StepCorrects(b: Batch, e: Execution, index: map<string, Lot>, reference: Option<int>) returns (x: int)
    requires OverCharged(e, reference) && Balanced(GetDelta(b.deltas, e.botId))
    ensures CorrectedBy(b, Step(b, e, index, reference), e, index, CorrectedFee(e, reference).value, FeeDelta(e, reference), x)
  {
    hide Round8, Nearest, CorrectedFee, OpenShare, UpdatedLot, OpenPart, CostLess, OnGrid, Balanced, AddSplit, AddRealized;
    var f, d := FeeDelta(e, reference), GetDelta(b.deltas, e.botId);
    DeltaOnGrid(e, reference);
    if HasOpenLot(e, index) {
      var l := index[e.id];
      ShareIsPart(l, f);
      x := OpenShare(l, f);
      UpdateIsCostLess(l, x);
    } else {
      x := 0;
      ZeroIsOnGrid();
    }
    AddKeepsBalance(d, f, x);
  }

  lemma DeltaOnGrid(e: Execution, reference: Option<int>)
    requires OverCharged(e, reference)
    ensures OnGrid(FeeDelta(e, reference))
  {
    hide Round8;
  }

  lemma ZeroIsOnGrid()
    ensures OnGrid(0)
  {
  }

  /** Every priced execution of every batch, in numbers: its fee should have been c; unless it was charged more
      than c by over 100 units nothing changes, and otherwise the bot gets back the difference, x of it in the cost of
      the lot the execution opened and the rest as realised PnL. */
  lemma CorrectionOutcome(prior: seq<Execution>, e: Execution, index: map<string, Lot>, reference: Option<int>,
                          lamports: int, price: int) returns (c: int, f: int, x: int)
    requires IsPriced(e, reference, lamports, price)
    ensures Nearest(c, lamports * price, 1_000_000_000)
    ensures var b, next := Repair(prior, index, reference), Repair(prior + [e], index, reference);
      if e.fee <= c + 100 then next == b else Nearest(f, e.fee - c, 1) && CorrectedBy(b, next, e, index, c, f, x)
  {
    hide *;
    var b := Repair(prior, index, reference);
    RepairSnoc(prior, e, index, reference);
    PricedIff(e, reference);
    assert CorrectedFee(e, reference).Some?;
    c, f, x := CorrectedFee(e, reference).value, 0, 0;
    OverChargedIff(e, reference);
    if OverCharged(e, reference) {
      f := FeeDelta(e, reference);
      DeltaIsNearest(e, reference);
      RepairConserves(prior, index, reference, e.botId);
      x := StepCorrects(b, e, index, reference);
    } else {
      NothingToGiveBack(b, e, index, reference);
    }
  }

  lemma OverChargedIff(e: Execution, reference: Option<int>)
    requires CorrectedFee(e, reference).Some?
    ensures OverCharged(e, reference) <==> e.fee > CorrectedFee(e, reference).value + 100
  {
    hide CorrectedFee;
  }

  lemma DeltaIsNearest(e: Execution, reference: Option<int>)
    requires OverCharged(e, reference)
    ensures Nearest(FeeDelta(e, reference), e.fee - CorrectedFee(e, reference).value, 1)
  {
    hide Round8, Nearest, CorrectedFee;
    Round8IsNearest(e.fee - CorrectedFee(e, reference).value, 1);
  }

  lemma NothingToGiveBack(b: Batch, e: Execution, index: map<string, Lot>, reference: Option<int>)
    requires CorrectedFee(e, reference).Some? && !OverCharged(e, reference)
    ensures Step(b, e, index, reference) == b
  {
    hide CorrectedFee;
  }

  /** The bound behind OpenPart: the lot keeps its part of the correction to half a step, and no more than all. */
  lemma PartIsClose(l: Lot, f: int, x: int)
    requires OpenPart(l, f, x) && 0 < l.base < l.originalBase
    ensures -GRID * l.originalBase <= 2 * (x * l.originalBase - f * l.base) <= GRID * l.originalBase
    ensures OnGrid(f) && f >= 0 ==> 0 <= x <= f
  {
    var n, d := f * l.base, l.originalBase;
    assert 2 * (x * d - n) == 2 * (d * x) - 2 * n;
    hide OnGrid, Round8;
    if OnGrid(f) && f >= 0 {
      NearestIsRound8(x, n, d);
      Round8Share(f, l.base, d);
    }
  }
}
