/** packages/db/prisma/reconstruct-open-position-lots.ts: open lots, realised PnL and
    fees rebuilt from a bot's execution history. Amounts are in 1e-10 units. */
module LotReplay {
  import opened Rounding
  import opened Sorting
  import opened Wrappers

  const MATERIAL_BASE := 10_000          // 0.000001
  const MATERIAL_QUOTE := 500_000_000    // 0.05

  datatype Side = Buy | Sell
  datatype Status = Pending | Submitted | Unknown | Filled | Failed | Simulated

  datatype Execution = Execution(id: string, status: Status, side: Side, levelIndex: int,
                                 executedInput: Option<int>, executedOutput: Option<int>,
                                 executedFee: Option<int>, completedAt: Option<int>, createdAt: int)
  {
    function Input(): int { executedInput.UnwrapOr(0) }
    function Output(): int { executedOutput.UnwrapOr(0) }
    function Fee(): int { executedFee.UnwrapOr(0) }
    function At(): int { completedAt.UnwrapOr(createdAt) }
    predicate Successful() { status.Submitted? || status.Filled? || status.Simulated? }
    /** The executions the replay does not ignore. */
    predicate Counts() { Successful() && Input() > 0 && Output() > 0 }
  }

  datatype Lot = Lot(id: string, originalBase: int, base: int, entryPrice: int, cost: int,
                     openedBy: string, closedBy: Option<string>, openedAt: int,
                     closedAt: Option<int>, buyLevelIndex: int)

  predicate IsMaterial(l: Lot) {
    l.base > MATERIAL_BASE && l.cost > MATERIAL_QUOTE && l.closedAt.None?
  }

  datatype Ledger = Ledger(openLots: seq<Lot>, realized: int, totalFees: int,
                           buyCount: nat, sellCount: nat, ignoredCount: nat)

  const EMPTY := Ledger([], 0, 0, 0, 0, 0)

  /** Lot ids come from execution primary keys, so open lots never share one. */
  ghost predicate DistinctLots(lots: seq<Lot>) {
    forall i, j :: 0 <= i < j < |lots| ==> lots[i].id != lots[j].id
  }

  // ---------------------------------------------------------------- selection

  function Filter(p: Lot -> bool, lots: seq<Lot>): (r: seq<Lot>)
    ensures forall l :: l in r <==> l in lots && p(l)
  {
    if lots == [] then [] else (if p(lots[0]) then [lots[0]] else []) + Filter(p, lots[1..])
  }

  function OpenedAt(l: Lot): int { l.openedAt }

  /** The stable sort of both `.sort` calls. */
  function SortByOpenedAt(lots: seq<Lot>): (r: seq<Lot>)
    ensures multiset(r) == multiset(lots)
  {
    Sort(OpenedAt, lots)
  }

  function Ids(lots: seq<Lot>): set<string> {
    set l | l in lots :: l.id
  }

  predicate IsExactLevel(l: Lot, e: Execution) {
    l.buyLevelIndex == e.levelIndex - 1 && IsMaterial(l)
  }

  /** cost/base < output/input, the effective price of a counted sell. */
  predicate IsProfitable(l: Lot, e: Execution) {
    l.cost * e.Input() < e.Output() * l.base
  }

  predicate IsFallback(l: Lot, e: Execution) {
    IsMaterial(l) && IsProfitable(l, e)
  }

  function ExactCandidates(lots: seq<Lot>, e: Execution): seq<Lot> {
    Filter((l: Lot) => IsExactLevel(l, e), lots)
  }

  function FallbackPool(lots: seq<Lot>, e: Execution): seq<Lot> {
    var exactIds := Ids(ExactCandidates(lots, e));
    Filter((l: Lot) => IsProfitable(l, e), Filter((l: Lot) => l.id !in exactIds, Filter(IsMaterial, lots)))
  }

  function Candidates(lots: seq<Lot>, e: Execution): seq<Lot> {
    SortByOpenedAt(ExactCandidates(lots, e) + SortByOpenedAt(FallbackPool(lots, e)))
  }

  // ---------------------------------------------------------------- one sell

  /** What one lot contributed to one sell. */
  datatype Fill = Fill(base: int, quote: int, fee: int, cost: int)
  const NO_FILL := Fill(0, 0, 0, 0)

  /** remainingToSell, remainingOutput, remainingFee and realizedPnlUsd. */
  datatype Pot = Pot(toSell: int, output: int, fee: int, realized: int)

  predicate Takes(l: Lot, ids: set<string>, pot: Pot) {
    pot.toSell > MATERIAL_BASE && l.id in ids
  }

  function FillOf(l: Lot, ids: set<string>, e: Execution, pot: Pot): Fill
    requires e.Input() > 0
  {
    if !Takes(l, ids, pot) then NO_FILL else
    var soldBase := if l.base <= pot.toSell then l.base else pot.toSell;
    Fill(soldBase,
         Round8(e.Output() * soldBase, e.Input()),
         Round8(e.Fee() * soldBase, e.Input()),
         if l.base > 0 then Round8(l.cost * soldBase, l.base) else 0)
  }

  function LotAfter(l: Lot, ids: set<string>, e: Execution, pot: Pot): Lot
    requires e.Input() > 0
  {
    if !Takes(l, ids, pot) then l else
    var f := FillOf(l, ids, e, pot);
    var nextBase := Round8(l.base - f.base, 1);
    var nextCost := Round8(if l.cost - f.cost > 0 then l.cost - f.cost else 0, 1);
    l.(base := nextBase, cost := nextCost,
       closedBy := if nextBase <= MATERIAL_BASE then Some(e.id) else l.closedBy,
       closedAt := if nextBase <= MATERIAL_BASE then Some(e.At()) else l.closedAt)
  }

  function PotAfter(l: Lot, ids: set<string>, e: Execution, pot: Pot): Pot
    requires e.Input() > 0
  {
    if !Takes(l, ids, pot) then pot else
    var f := FillOf(l, ids, e, pot);
    Pot(Round8(pot.toSell - f.base, 1), Round8(pot.output - f.quote, 1), Round8(pot.fee - f.fee, 1),
        Round8(pot.realized + f.quote - f.fee - f.cost, 1))
  }

  datatype Walk = Walk(lots: seq<Lot>, pot: Pot, fills: seq<Fill>)

  /** The `.map` over the open lots, which threads the pot from lot to lot. */
  function SellWalk(lots: seq<Lot>, ids: set<string>, e: Execution, pot: Pot): (w: Walk)
    requires e.Input() > 0
    ensures |w.lots| == |lots| == |w.fills|
  {
    if lots == [] then Walk([], pot, []) else
    var w := SellWalk(lots[1..], ids, e, PotAfter(lots[0], ids, e, pot));
    Walk([LotAfter(lots[0], ids, e, pot)] + w.lots, w.pot, [FillOf(lots[0], ids, e, pot)] + w.fills)
  }

  function StartPot(e: Execution, realized: int): Pot {
    Pot(e.Input(), e.Output(), e.Fee(), realized)
  }

  function SellOf(lots: seq<Lot>, e: Execution, realized: int): Walk
    requires e.Input() > 0
  {
    SellWalk(lots, Ids(Candidates(lots, e)), e, StartPot(e, realized))
  }

  function BoughtLot(e: Execution): Lot
    requires e.Output() > 0
  {
    var cost := Round8(e.Input() + e.Fee(), 1);
    Lot("lot-" + e.id, e.Output(), e.Output(), Round8(cost * PRICE_SCALE, e.Output()), cost,
        e.id, None, e.At(), None, e.levelIndex)
  }

  /** One iteration of the replay loop. */
  function Step(s: Ledger, e: Execution): Ledger {
    if !e.Counts() then s.(ignoredCount := s.ignoredCount + 1) else
    var fees := Round8(s.totalFees + e.Fee(), 1);
    if e.side.Buy? then
      s.(openLots := s.openLots + [BoughtLot(e)], totalFees := fees, buyCount := s.buyCount + 1)
    else
      var w := SellOf(s.openLots, e, s.realized);
      s.(openLots := Filter(IsMaterial, w.lots), realized := w.pot.realized,
         totalFees := fees, sellCount := s.sellCount + 1)
  }

  function Replay(es: seq<Execution>): Ledger {
    if es == [] then EMPTY else Step(Replay(es[..|es| - 1]), es[|es| - 1])
  }

  // ---------------------------------------------------------------- the code

  /** `done` is what the callback has already returned; the rest of the walk completes it to `all`. */
  ghost predicate Completes(done: seq<Lot>, rest: Walk, all: Walk) {
    done + rest.lots == all.lots && rest.pot == all.pot
  }

  lemma WalkAdvance(done: seq<Lot>, lots: seq<Lot>, i: nat, ids: set<string>, e: Execution, pot: Pot, all: Walk)
    requires e.Input() > 0 && i < |lots|
    requires Completes(done, SellWalk(lots[i..], ids, e, pot), all)
    ensures Completes(done + [LotAfter(lots[i], ids, e, pot)],
                      SellWalk(lots[i + 1..], ids, e, PotAfter(lots[i], ids, e, pot)), all)
  {
    assert lots[i..][0] == lots[i] && lots[i..][1..] == lots[i + 1..];
    var w := SellWalk(lots[i + 1..], ids, e, PotAfter(lots[i], ids, e, pot));
    assert SellWalk(lots[i..], ids, e, pot).lots == [LotAfter(lots[i], ids, e, pot)] + w.lots;
    assert done + ([LotAfter(lots[i], ids, e, pot)] + w.lots) == (done + [LotAfter(lots[i], ids, e, pot)]) + w.lots;
  }

  /** The callback of `.map`, which also updates the four running amounts. */
  method SellOne(lot: Lot, ids: set<string>, e: Execution, pot: Pot) returns (sold: Lot, left: Pot)
    requires e.Input() > 0
    ensures sold == LotAfter(lot, ids, e, pot) && left == PotAfter(lot, ids, e, pot)
  {
    var remainingToSell, remainingOutput, remainingFee, realized := pot.toSell, pot.output, pot.fee, pot.realized;
    if remainingToSell <= MATERIAL_BASE || lot.id !in ids {
      return lot, pot;
    }
    var soldBase := if lot.base <= remainingToSell then lot.base else remainingToSell;
    var soldQuote := Round8(e.Output() * soldBase, e.Input());
    var soldFee := Round8(e.Fee() * soldBase, e.Input());
    var soldCost := if lot.base > 0 then Round8(lot.cost * soldBase, lot.base) else 0;
    var nextBase := Round8(lot.base - soldBase, 1);
    var nextCost := Round8(if lot.cost - soldCost > 0 then lot.cost - soldCost else 0, 1);
    remainingToSell := Round8(remainingToSell - soldBase, 1);
    remainingOutput := Round8(remainingOutput - soldQuote, 1);
    remainingFee := Round8(remainingFee - soldFee, 1);
    realized := Round8(realized + soldQuote - soldFee - soldCost, 1);
    left := Pot(remainingToSell, remainingOutput, remainingFee, realized);
    sold := lot.(base := nextBase, cost := nextCost,
      closedBy := if nextBase <= MATERIAL_BASE then Some(e.id) else lot.closedBy,
      closedAt := if nextBase <= MATERIAL_BASE then Some(e.At()) else lot.closedAt);
  }

  method SellFrom(openLots: seq<Lot>, e: Execution, realized: int) returns (lots: seq<Lot>, realizedAfter: int)
    requires e.Input() > 0
    ensures lots == Filter(IsMaterial, SellOf(openLots, e, realized).lots)
    ensures realizedAfter == SellOf(openLots, e, realized).pot.realized
  {
    var ids := Ids(Candidates(openLots, e));
    var pot := StartPot(e, realized);
    var mapped: seq<Lot> := [];
    ghost var all := SellOf(openLots, e, realized);
    for i := 0 to |openLots|
      invariant Completes(mapped, SellWalk(openLots[i..], ids, e, pot), all)
    {
      WalkAdvance(mapped, openLots, i, ids, e, pot, all);
      var sold;
      sold, pot := SellOne(openLots[i], ids, e, pot);
      mapped := mapped + [sold];
    }
    assert mapped == all.lots;
    lots, realizedAfter := Filter(IsMaterial, mapped), pot.realized;
  }

  method ReplayExecutions(executions: seq<Execution>) returns (r: Ledger)
    ensures r == Replay(executions)
  {
    hide Filter, SellOf, BoughtLot, Round8, RoundHalfUp;
    var openLots: seq<Lot> := [];
    var realized, totalFees := 0, 0;
    var buyCount, sellCount, ignoredCount := 0, 0, 0;
    for i := 0 to |executions|
      invariant Ledger(openLots, realized, totalFees, buyCount, sellCount, ignoredCount) == Replay(executions[..i])
    {
      var e := executions[i];
      assert executions[..i + 1][..i] == executions[..i];
      if !e.Successful() {
        ignoredCount := ignoredCount + 1;
        continue;
      }
      if e.Input() <= 0 || e.Output() <= 0 {
        ignoredCount := ignoredCount + 1;
        continue;
      }
      totalFees := Round8(totalFees + e.Fee(), 1);
      if e.side.Buy? {
        openLots := openLots + [BoughtLot(e)];
        buyCount := buyCount + 1;
        continue;
      }
      openLots, realized := SellFrom(openLots, e, realized);
      sellCount := sellCount + 1;
    }
    assert executions[..|executions|] == executions;
    r := Ledger(openLots, realized, totalFees, buyCount, sellCount, ignoredCount);
  }
}
