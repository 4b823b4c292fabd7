/** One sell and one buy of a history in numbers: which lots are taken from, how much, and which lots stay
    open. The thresholds are 0.000001 base and 0.05 quote, in units of 1e-10. */
module LotOutcome {
  import opened Rounding
  import opened Wrappers
  import opened LotReplay
  import opened LotConservation
  import opened LotMatching
  import opened LotHistory

  // ---------------------------------------------------------------- which executions count

  /** Only successful executions that exchanged something are replayed. */
  lemma CountsIff(e: Execution)
    ensures e.Counts() <==>
            && (e.status == Submitted || e.status == Filled || e.status == Simulated)
            && e.executedInput.Some? && e.executedInput.value > 0 && e.executedOutput.Some? && e.executedOutput.value > 0
  {
  }

  /** An execution that does not count changes the ignored count and nothing else. */
  lemma IgnoredOutcome(es: seq<Execution>, e: Execution)
    requires !e.Counts()
    ensures Replay(es + [e]) == var s := Replay(es); s.(ignoredCount := s.ignoredCount + 1)
  {
    hide *;
    ReplaySnoc(es, e);
    IgnoredStep(Replay(es), e);
  }

  lemma IgnoredStep(s: Ledger, e: Execution)
    requires !e.Counts()
    ensures Step(s, e) == s.(ignoredCount := s.ignoredCount + 1)
  {
  }

  lemma ReplaySnoc(es: seq<Execution>, e: Execution)
    ensures Replay(es + [e]) == Step(Replay(es), e)
  {
    hide Step;
    assert (es + [e])[..|es|] == es;
  }

  // ---------------------------------------------------------------- a buy

  /** The lot a counted buy opens: everything bought, at the cost of input and fee. */
  ghost predicate OpenedLot(l: Lot, e: Execution)
    requires e.Output() > 0
  {
    && l.id == "lot-" + e.id && l.openedBy == e.id && l.buyLevelIndex == e.levelIndex
    && l.originalBase == l.base == e.Output()
    && Nearest(l.cost, e.Input() + e.Fee(), 1) && Nearest(l.entryPrice, l.cost * 10_000_000_000, e.Output())
    && l.openedAt == (if e.completedAt.Some? then e.completedAt.value else e.createdAt)
    && l.closedBy == None && l.closedAt == None
  }

  /** A counted buy adds its lot after the open ones and realises nothing. */
  lemma BuyOutcome(es: seq<Execution>, e: Execution) returns (l: Lot)
    requires e.Counts() && e.side.Buy?
    ensures OpenedLot(l, e)
    ensures Replay(es + [e]).openLots == Replay(es).openLots + [l] && Replay(es + [e]).realized == Replay(es).realized
  {
    l := BoughtLot(e);
    ReplaySnoc(es, e);
    hide Round8, Replay;
    Round8IsNearest(e.Input() + e.Fee(), 1);
    Round8IsNearest(l.cost * PRICE_SCALE, e.Output());
  }

  // ---------------------------------------------------------------- what a sell takes from a lot

  /** Proceeds and fee in proportion to the sell, cost in proportion to the lot, each to the nearest 1e-8. */
  ghost predicate TakenFrom(l: Lot, f: Fill, e: Execution)
    requires e.Input() > 0 && l.base > 0
  {
    && 0 <= f.base <= l.base
    && Nearest(f.quote, e.Output() * f.base, e.Input())
    && Nearest(f.fee, e.Fee() * f.base, e.Input())
    && Nearest(f.cost, l.cost * f.base, l.base)
  }

  /** The lot with what was taken from it: the base to the nearest 1e-8, the cost exactly, closed when at most
      10,000 units of base are left. */
  ghost predicate LeftOf(l: Lot, f: Fill, after: Lot, e: Execution) {
    if f.base == 0 then after == l else
    && Nearest(after.base, l.base - f.base, 1) && after.cost == l.cost - f.cost
    && after == l.(base := after.base, cost := after.cost,
                   closedBy := if after.base <= 10_000 then Some(e.id) else l.closedBy,
                   closedAt := if after.base > 10_000 then l.closedAt
                               else if e.completedAt.Some? then e.completedAt else Some(e.createdAt))
  }

  lemma NothingNearest(d: int)
    requires d > 0
    ensures Nearest(0, 0, d)
  {
  }

  lemma OneTaken(l: Lot, ids: set<string>, e: Execution, pot: Pot)
    requires e.Counts() && l.base > 0
    ensures TakenFrom(l, FillOf(l, ids, e, pot), e)
  {
    hide Round8, Nearest;
    var f := FillOf(l, ids, e, pot);
    if Takes(l, ids, pot) {
      Round8IsNearest(e.Output() * f.base, e.Input());
      Round8IsNearest(e.Fee() * f.base, e.Input());
      Round8IsNearest(l.cost * f.base, l.base);
      TakenPart(l, ids, e, pot);
    } else {
      assert f == NO_FILL;
      NothingNearest(e.Input());
      NothingNearest(l.base);
    }
  }

  lemma TakenPart(l: Lot, ids: set<string>, e: Execution, pot: Pot)
    requires e.Input() > 0 && l.base > 0
    ensures 0 <= FillOf(l, ids, e, pot).base <= l.base
  {
    hide Round8;
  }

  lemma OneLeft(l: Lot, ids: set<string>, e: Execution, pot: Pot)
    requires e.Counts() && OnGrid(pot.realized) && Sellable([l], ids)
    ensures LeftOf(l, FillOf(l, ids, e, pot), LotAfter(l, ids, e, pot), e)
  {
    hide Round8, Nearest, OnGrid;
    var f := FillOf(l, ids, e, pot);
    SellOneLot(l, ids, e, pot);
    if Takes(l, ids, pot) {
      Round8IsNearest(l.base - f.base, 1);
      assert LotAfter(l, ids, e, pot).base == Round8(l.base - f.base, 1);
    }
  }

  lemma {:induction false} WalkTakes(lots: seq<Lot>, ids: set<string>, e: Execution, pot: Pot)
    requires e.Counts() && OnGrid(pot.realized) && Sellable(lots, ids)
    ensures var w := SellWalk(lots, ids, e, pot);
      forall i :: 0 <= i < |lots| ==>
        lots[i].base > 0 && TakenFrom(lots[i], w.fills[i], e) && LeftOf(lots[i], w.fills[i], w.lots[i], e)
  {
    hide Round8, TakenFrom, LeftOf, LotAfter, PotAfter, FillOf, OnGrid;
    if lots != [] {
      var left := PotAfter(lots[0], ids, e, pot);
      SellableTail(lots, ids);
      SellablePositive(lots, ids, 0);
      SellOneLot(lots[0], ids, e, pot);
      OneTaken(lots[0], ids, e, pot);
      OneLeft(lots[0], ids, e, pot);
      WalkTakes(lots[1..], ids, e, left);
      hide Sellable;
      WalkSums(lots, ids, e, pot);
    }
  }

  // ---------------------------------------------------------------- how much is sold

  ghost predicate BasesOnGrid(lots: seq<Lot>) {
    forall l :: l in lots ==> OnGrid(l.base)
  }

  /** What rounding the amount still to sell can add up to: nothing on the grid, else 50 units a lot. */
  ghost function SellSlack(lots: seq<Lot>, toSell: int, fills: seq<Fill>): int {
    if OnGrid(toSell) && BasesOnGrid(lots) then 0 else HALF_STEP * Touched(fills)
  }

  /** The fills add up to what was sold, less what is still to sell at the end. */
  lemma {:induction false} WalkSold(lots: seq<Lot>, ids: set<string>, e: Execution, pot: Pot)
    requires e.Counts() && OnGrid(pot.realized) && Sellable(lots, ids)
    ensures var w := SellWalk(lots, ids, e, pot);
      Near(pot.toSell, w.pot.toSell + FilledBase(w.fills), HALF_STEP * Touched(w.fills)) && (pot.toSell >= 0 ==> w.pot.toSell >= 0)
  {
    hide *;
    CountedInput(e);
    if lots == [] {
      EmptyWalk(ids, e, pot);
      NearZero(pot.toSell);
    } else {
      var l, left, f := lots[0], PotAfter(lots[0], ids, e, pot), FillOf(lots[0], ids, e, pot);
      var tail := SellWalk(lots[1..], ids, e, left);
      SellableTail(lots, ids);
      SellablePositive(lots, ids, 0);
      SellOneLot(l, ids, e, pot);
      OneSold(l, ids, e, pot);
      WalkSold(lots[1..], ids, e, left);
      WalkSums(lots, ids, e, pot);
      SoldAdds(pot.toSell, left.toSell, f.base, tail.pot.toSell, FilledBase(tail.fills), Touched(tail.fills));
    }
  }

  lemma NearZero(x: int)
    ensures Near(x, x + 0, HALF_STEP * 0)
  {
  }

  lemma OneSold(l: Lot, ids: set<string>, e: Execution, pot: Pot)
    requires e.Counts() && l.base > 0
    ensures var f, left := FillOf(l, ids, e, pot), PotAfter(l, ids, e, pot);
      Near(pot.toSell, left.toSell + f.base, if f.base > 0 then HALF_STEP else 0) && (pot.toSell >= 0 ==> left.toSell >= 0)
  {
    hide Round8;
    SellOneLotBase(l, ids, e, pot);
    if Takes(l, ids, pot) {
      var f := FillOf(l, ids, e, pot);
      assert f.base == if l.base <= pot.toSell then l.base else pot.toSell;
      RoundedDifference(pot.toSell, f.base);
    }
  }

  lemma SoldAdds(start: int, left: int, filled: int, end: int, rest: int, touched: nat)
    requires Near(start, left + filled, if filled > 0 then HALF_STEP else 0) && Near(left, end + rest, HALF_STEP * touched)
    ensures Near(start, end + (filled + rest), HALF_STEP * ((if filled > 0 then 1 else 0) + touched))
  {
  }

  /** Nothing more than the sell is sold; less only when every candidate is sold out, and up to 10,000 units
      when the sell stops before a lot; exactly the sell when it stops inside one. */
  ghost predicate AllSold(lots: seq<Lot>, mayTake: Lot -> bool, fills: seq<Fill>, input: int, slack: int)
    requires |fills| == |lots|
  {
    && FilledBase(fills) <= input + slack
    && ((exists i :: 0 <= i < |lots| && mayTake(lots[i]) && fills[i].base < lots[i].base) ==> input - FilledBase(fills) <= 10_000 + slack)
    && ((exists i :: 0 <= i < |lots| && 0 < fills[i].base < lots[i].base) ==> Near(input, FilledBase(fills), slack))
  }

  lemma SellIsFilled(lots: seq<Lot>, ids: set<string>, e: Execution, pot: Pot)
    requires e.Counts() && OnGrid(pot.realized) && Sellable(lots, ids) && pot.toSell >= 0
    ensures var w := SellWalk(lots, ids, e, pot); AllSold(lots, InSet(ids), w.fills, pot.toSell, SellSlack(lots, pot.toSell, w.fills))
  {
    hide *;
    CountedInput(e);
    var w := SellWalk(lots, ids, e, pot);
    WalkSold(lots, ids, e, pot);
    WalkBase(lots, ids, e, pot);
    NearWithSlack(lots, pot.toSell, w.pot.toSell + FilledBase(w.fills), w.fills);
    StoppedWhere(lots, ids, e, pot);
    AllSoldIf(lots, InSet(ids), w.fills, pot.toSell, w.pot.toSell, SellSlack(lots, pot.toSell, w.fills));
  }

  lemma NearWithSlack(lots: seq<Lot>, toSell: int, y: int, fills: seq<Fill>)
    requires Near(toSell, y, HALF_STEP * Touched(fills))
    requires OnGrid(toSell) && (forall l :: l in lots ==> OnGrid(l.base)) ==> toSell == y
    ensures Near(toSell, y, SellSlack(lots, toSell, fills))
  {
    hide OnGrid, Touched;
  }

  ghost function InSet(ids: set<string>): Lot -> bool {
    (l: Lot) => l.id in ids
  }

  lemma AllSoldIf(lots: seq<Lot>, mayTake: Lot -> bool, fills: seq<Fill>, input: int, left: int, slack: int)
    requires |fills| == |lots| && left >= 0 && Near(input, left + FilledBase(fills), slack)
    requires (exists i :: 0 <= i < |lots| && mayTake(lots[i]) && fills[i].base < lots[i].base) ==> left <= 10_000
    requires (exists i :: 0 <= i < |lots| && 0 < fills[i].base < lots[i].base) ==> left == 0
    ensures AllSold(lots, mayTake, fills, input, slack)
  {
    hide FilledBase;
  }

  /** A candidate that is not sold out stops the sell, one sold in part with nothing left. */
  lemma {:induction false} StoppedWhere(lots: seq<Lot>, ids: set<string>, e: Execution, pot: Pot)
    requires e.Counts() && OnGrid(pot.realized) && Sellable(lots, ids)
    ensures var w := SellWalk(lots, ids, e, pot);
      && ((exists i :: 0 <= i < |lots| && InSet(ids)(lots[i]) && w.fills[i].base < lots[i].base) ==> w.pot.toSell <= 10_000)
      && ((exists i :: 0 <= i < |lots| && 0 < w.fills[i].base < lots[i].base) ==> w.pot.toSell == 0)
  {
    if lots != [] {
      var l, left, f := lots[0], PotAfter(lots[0], ids, e, pot), FillOf(lots[0], ids, e, pot);
      var w, tail := SellWalk(lots, ids, e, pot), SellWalk(lots[1..], ids, e, left);
      hide *;
      CountedInput(e);
      SellableTail(lots, ids);
      SellablePositive(lots, ids, 0);
      SellOneLot(l, ids, e, pot);
      WalkSums(lots, ids, e, pot);
      StoppedWhere(lots[1..], ids, e, left);
      InSetIs(ids, l);
      if f.base < l.base && (l.id in ids || f.base > 0) {
        StopsThere(l, ids, e, pot);
        WalkIdle(lots[1..], ids, e, left);
        IdleFills(lots[1..], tail.fills);
      }
      forall i | 0 < i < |lots| ensures w.fills[i] == tail.fills[i - 1] && lots[i] == lots[1..][i - 1] {
      }
    }
  }

  lemma InSetIs(ids: set<string>, l: Lot)
    ensures InSet(ids)(l) <==> l.id in ids
  {
  }

  lemma StopsThere(l: Lot, ids: set<string>, e: Execution, pot: Pot)
    requires e.Counts() && OnGrid(pot.realized) && Sellable([l], ids)
    requires FillOf(l, ids, e, pot).base < l.base && (l.id in ids || FillOf(l, ids, e, pot).base > 0)
    ensures PotAfter(l, ids, e, pot).toSell <= 10_000 && MATERIAL_BASE == 10_000
    ensures FillOf(l, ids, e, pot).base > 0 ==> PotAfter(l, ids, e, pot).toSell == 0
  {
    SellOneLot(l, ids, e, pot);
    hide FillOf, PotAfter, LotAfter, OnGrid;
    if !Takes(l, ids, pot) { SkippedLot(l, ids, e, pot); }
  }

  lemma IdleFills(lots: seq<Lot>, fills: seq<Fill>)
    requires |fills| == |lots| && forall i :: 0 <= i < |fills| ==> fills[i] == NO_FILL
    ensures forall i :: 0 <= i < |fills| ==> fills[i].base == 0
  {
  }

  // ---------------------------------------------------------------- shares add up

  /** total is the exact share of base, up to half a step per lot. */
  ghost predicate ShareOf(total: int, base: int, amount: int, input: int, touched: nat) {
    Near(Times(input, total), Times(amount, base), HALF_STEP * Times(input, touched))
  }

  lemma ShareAdds(share: int, base: int, total: int, rest: int, amount: int, input: int, touched: nat)
    requires input > 0 && base >= 0 && Nearest(share, amount * base, input) && (base == 0 ==> share == 0)
    requires ShareOf(total, rest, amount, input, touched)
    ensures ShareOf(share + total, base + rest, amount, input, (if base > 0 then 1 else 0) + touched)
  {
    TimesSum(input, share, total);
    TimesSum(amount, base, rest);
    TimesSum(input, if base > 0 then 1 else 0, touched);
    if base == 0 { assert Times(input, share) == 0 && Times(amount, base) == 0; }
    assert Times(input, 1) == input;
    assert base > 0 ==> Near(Times(input, share), Times(amount, base), HALF_STEP * input);
    hide Times;
  }

  /** Proceeds and fee of all fills together are in proportion to the base they sold. */
  lemma {:induction false} SharesAddUp(lots: seq<Lot>, fills: seq<Fill>, e: Execution)
    requires e.Input() > 0 && |fills| == |lots|
    requires forall i :: 0 <= i < |lots| ==> lots[i].base > 0 && TakenFrom(lots[i], fills[i], e)
    ensures ShareOf(FilledQuote(fills), FilledBase(fills), e.Output(), e.Input(), Touched(fills))
    ensures ShareOf(FilledFee(fills), FilledBase(fills), e.Fee(), e.Input(), Touched(fills))
  {
    if lots != [] {
      var f := fills[0];
      hide Nearest, ShareOf;
      assert lots[0].base > 0 && TakenFrom(lots[0], f, e);
      if f.base == 0 { ZeroShare(f.quote, e.Output(), e.Input()); ZeroShare(f.fee, e.Fee(), e.Input()); }
      SharesAddUp(lots[1..], fills[1..], e);
      ShareAdds(f.quote, f.base, FilledQuote(fills[1..]), FilledBase(fills[1..]), e.Output(), e.Input(), Touched(fills[1..]));
      ShareAdds(f.fee, f.base, FilledFee(fills[1..]), FilledBase(fills[1..]), e.Fee(), e.Input(), Touched(fills[1..]));
    } else {
      assert Times(e.Input(), 0) == 0;
    }
  }

  lemma ZeroShare(q: int, amount: int, d: int)
    requires d > 0 && Nearest(q, amount * 0, d)
    ensures q == 0
  {
    NothingNearest(d);
    hide Nearest, Round8;
    NearestIsRound8(q, amount * 0, d);
    NearestIsRound8(0, 0, d);
  }

  // ---------------------------------------------------------------- which lots stay open

  lemma {:induction false} FilterSame(p: Lot -> bool, q: Lot -> bool, lots: seq<Lot>)
    requires forall l :: l in lots ==> (p(l) <==> q(l))
    ensures Filter(p, lots) == Filter(q, lots)
  {
    if lots != [] {
      FilterSame(p, q, lots[1..]);
    }
  }

  ghost function StaysOpen(): Lot -> bool {
    (l: Lot) => l.base > 10_000 && l.cost > 500_000_000
  }

  lemma LeftIsMaterialIff(l: Lot, f: Fill, after: Lot, e: Execution)
    requires LeftOf(l, f, after, e) && l.closedAt.None?
    ensures IsMaterial(after) <==> after.base > 10_000 && after.cost > 500_000_000
    ensures after.closedAt.None? || after.base <= 10_000
  {
    hide Nearest;
  }

  lemma LeftLotsFilter(lots: seq<Lot>, w: Walk, e: Execution)
    requires |w.fills| == |lots| == |w.lots|
    requires forall i :: 0 <= i < |lots| ==> lots[i].closedAt.None? && LeftOf(lots[i], w.fills[i], w.lots[i], e)
    ensures Filter(IsMaterial, w.lots) == Filter(StaysOpen(), w.lots)
    ensures forall l :: l in Dust(w) ==> l.base <= 10_000 || l.cost <= 500_000_000
  {
    hide LeftOf, Filter, IsMaterial;
    forall l | l in w.lots ensures IsMaterial(l) <==> StaysOpen()(l) {
      var i :| 0 <= i < |w.lots| && w.lots[i] == l;
      LeftIsMaterialIff(lots[i], w.fills[i], l, e);
    }
    FilterSame(IsMaterial, StaysOpen(), w.lots);
  }

  /** The lots a sell may take from, in numbers: more than dust, and bought one level below the sell's or
      cheaper than its effective price. */
  ghost function MayTake(e: Execution): Lot -> bool {
    (l: Lot) => l.base > 10_000 && l.cost > 500_000_000
      && (l.buyLevelIndex == e.levelIndex - 1 || l.cost * e.Input() < e.Output() * l.base)
  }

  lemma CandidatesInNumbers(l: Lot, e: Execution)
    requires l.closedAt.None?
    ensures IsExactLevel(l, e) || IsFallback(l, e) <==> MayTake(e)(l)
  {
  }

  lemma LedgerLot(s: Ledger, es: seq<Execution>, l: Lot)
    requires LedgerOk(s, es) && l in s.openLots
    ensures OnGrid(l.cost) && l.base > 0 && l.closedAt.None?
  {
  }

  /** Every sell of every history, in numbers. From each open lot it takes base with its share of proceeds, fee
      and cost, and leaves the rest of it; it takes only from the lots it may take from, as much as was sold
      as long as they last. The lots that stay open are exactly those left with more than 10,000 units of base
      and more than 500,000,000 units of cost, in their old order. */
  lemma SellOutcome(es: seq<Execution>, e: Execution) returns (fills: seq<Fill>, left: seq<Lot>)
    requires DistinctExecutions(es) && e.Counts() && e.side.Sell?
    ensures var s, t := Replay(es), Replay(es + [e]); var lots := s.openLots;
      && |fills| == |left| == |lots|
      && (forall i :: 0 <= i < |lots| ==>
            && lots[i].base > 0 && TakenFrom(lots[i], fills[i], e) && LeftOf(lots[i], fills[i], left[i], e)
            && (fills[i].base > 0 ==> MayTake(e)(lots[i])))
      && AllSold(lots, MayTake(e), fills, e.Input(), SellSlack(lots, e.Input(), fills))
      && t.openLots == Filter(StaysOpen(), left)
      && t.realized == s.realized + FilledQuote(fills) - FilledFee(fills) - FilledCost(fills)
      && ShareOf(FilledQuote(fills), FilledBase(fills), e.Output(), e.Input(), Touched(fills))
      && ShareOf(FilledFee(fills), FilledBase(fills), e.Fee(), e.Input(), Touched(fills))
  {
    hide *;
    var s := Replay(es);
    var lots, ids, pot := s.openLots, Ids(Candidates(s.openLots, e)), StartPot(e, s.realized);
    CountedInput(e);
    var w := SellWalk(lots, ids, e, pot);
    fills, left := w.fills, w.lots;
    ReplaySnoc(es, e);
    ReplayKeepsLedger(es);
    LedgerOnGrid(s, es, e);
    SellStep(s, e);
    LedgerSellable(s, es, e);
    WalkTakes(lots, ids, e, pot);
    WalkMoney(lots, ids, e, pot);
    SellIsFilled(lots, ids, e, pot);
    forall i | 0 <= i < |lots|
      ensures lots[i].closedAt.None? && (InSet(ids)(lots[i]) <==> MayTake(e)(lots[i])) && (fills[i].base > 0 ==> MayTake(e)(lots[i]))
    {
      LedgerCandidate(s, es, e, i);
      InSetIs(ids, lots[i]);
      FillNeedsCandidate(lots, ids, e, pot, i);
    }
    SameAllSold(lots, InSet(ids), MayTake(e), fills, e.Input(), SellSlack(lots, e.Input(), fills));
    LeftLotsFilter(lots, w, e);
    SharesAddUp(lots, fills, e);
  }

  lemma LedgerCandidate(s: Ledger, es: seq<Execution>, e: Execution, i: nat)
    requires LedgerOk(s, es) && i < |s.openLots|
    ensures var l := s.openLots[i]; l.closedAt.None? && (l.id in Ids(Candidates(s.openLots, e)) <==> MayTake(e)(l))
  {
    hide *;
    var l := s.openLots[i];
    assert l in s.openLots;
    LedgerLot(s, es, l);
    LedgerDistinct(s, es);
    CandidateIds(s.openLots, e);
    CandidatesInNumbers(l, e);
  }

  lemma LedgerDistinct(s: Ledger, es: seq<Execution>)
    requires LedgerOk(s, es)
    ensures DistinctLots(s.openLots)
  {
    hide OnGrid;
  }

  lemma SameAllSold(lots: seq<Lot>, p: Lot -> bool, q: Lot -> bool, fills: seq<Fill>, input: int, slack: int)
    requires |fills| == |lots| && AllSold(lots, p, fills, input, slack) && forall i :: 0 <= i < |lots| ==> (p(lots[i]) <==> q(lots[i]))
    ensures AllSold(lots, q, fills, input, slack)
  {
    hide FilledBase;
  }

  lemma LedgerOnGrid(s: Ledger, es: seq<Execution>, e: Execution)
    requires LedgerOk(s, es) && e.Counts()
    ensures var pot := StartPot(e, s.realized); OnGrid(pot.realized) && pot.toSell == e.Input() > 0 && pot.realized == s.realized
  {
    hide OnGrid;
  }

  lemma SellStep(s: Ledger, e: Execution)
    requires e.Counts() && e.side.Sell?
    ensures var w := SellWalk(s.openLots, Ids(Candidates(s.openLots, e)), e, StartPot(e, s.realized));
      Step(s, e).openLots == Filter(IsMaterial, w.lots) && Step(s, e).realized == w.pot.realized
  {
    hide SellWalk, Candidates, Filter, IsMaterial, Ids, Round8;
  }

  lemma {:induction false} FillNeedsCandidate(lots: seq<Lot>, ids: set<string>, e: Execution, pot: Pot, i: nat)
    requires e.Input() > 0 && i < |lots|
    ensures SellWalk(lots, ids, e, pot).fills[i].base > 0 ==> lots[i].id in ids
  {
    hide PotAfter, LotAfter, Round8;
    if i > 0 { FillNeedsCandidate(lots[1..], ids, e, PotAfter(lots[0], ids, e, pot), i - 1); }
  }

  /** In particular: a lot whose remainder is more than dust is still open after the sell. */
  lemma MaterialRemainderStaysOpen(es: seq<Execution>, e: Execution, l: Lot) returns (f: Fill, after: Lot)
    requires DistinctExecutions(es) && e.Counts() && e.side.Sell? && l in Replay(es).openLots
    ensures l.base > 0 && TakenFrom(l, f, e) && LeftOf(l, f, after, e)
    ensures after in Replay(es + [e]).openLots <==> after.base > 10_000 && after.cost > 500_000_000
    ensures after in Replay(es + [e]).openLots ==> after == l.(base := after.base, cost := after.cost)
  {
    hide *;
    var lots := Replay(es).openLots;
    var fills, left := SellOutcome(es, e);
    var i :| 0 <= i < |lots| && lots[i] == l;
    f, after := fills[i], left[i];
    assert after in left;
    ReplayKeepsLedger(es);
    LedgerLot(Replay(es), es, l);
    OpenIff(after);
    if after in Replay(es + [e]).openLots { LeftOpen(l, f, after, e); }
  }

  /** Where a filtered list has two lots, the list it came from has them in that order. */
  lemma {:induction false} FilterKeepsOrder(p: Lot -> bool, lots: seq<Lot>, i: nat, j: nat) returns (a: nat, b: nat)
    requires i < j < |Filter(p, lots)|
    ensures a < b < |lots| && lots[a] == Filter(p, lots)[i] && lots[b] == Filter(p, lots)[j]
  {
    var rest := lots[1..];
    if !p(lots[0]) {
      a, b := FilterKeepsOrder(p, rest, i, j);
      a, b := a + 1, b + 1;
    } else if i > 0 {
      a, b := FilterKeepsOrder(p, rest, i - 1, j - 1);
      a, b := a + 1, b + 1;
    } else {
      assert Filter(p, rest)[j - 1] in rest;
      var k :| 0 <= k < |rest| && rest[k] == Filter(p, rest)[j - 1];
      a, b := 0, k + 1;
    }
  }

  /** A sell never reorders the open lots. */
  lemma SellKeepsOrder(es: seq<Execution>, e: Execution, i: nat, j: nat) returns (a: nat, b: nat)
    requires DistinctExecutions(es) && e.Counts() && e.side.Sell? && i < j < |Replay(es + [e]).openLots|
    ensures var lots, next := Replay(es).openLots, Replay(es + [e]).openLots;
      a < b < |lots| && lots[a].id == next[i].id && lots[b].id == next[j].id
  {
    hide *;
    var fills, left := SellOutcome(es, e);
    a, b := FilterKeepsOrder(StaysOpen(), left, i, j);
    SameId(Replay(es).openLots[a], fills[a], left[a], e);
    SameId(Replay(es).openLots[b], fills[b], left[b], e);
  }

  lemma SameId(l: Lot, f: Fill, after: Lot, e: Execution)
    requires LeftOf(l, f, after, e)
    ensures l.id == after.id
  {
    hide Nearest;
  }

  lemma LeftOpen(l: Lot, f: Fill, after: Lot, e: Execution)
    requires LeftOf(l, f, after, e) && after.base > 10_000
    ensures after == l.(base := after.base, cost := after.cost)
  {
    hide Nearest;
  }

  lemma OpenIff(l: Lot)
    ensures StaysOpen()(l) <==> l.base > 10_000 && l.cost > 500_000_000
  {
  }

  // ---------------------------------------------------------------- what is dropped

  /** Every lot that some sell of the history dropped. */
  function DroppedLots(es: seq<Execution>): seq<Lot> {
    if es == [] then [] else
    var prior, e := es[..|es| - 1], es[|es| - 1];
    DroppedLots(prior) + if e.Counts() && e.side.Sell? then Dust(SellOf(Replay(prior).openLots, e, Replay(prior).realized)) else []
  }

  lemma {:induction false} SumConcat(a: seq<Lot>, b: seq<Lot>)
    ensures SumBase(a + b) == SumBase(a) + SumBase(b) && SumCost(a + b) == SumCost(a) + SumCost(b)
  {
    if a == [] {
      assert a + b == b;
    } else {
      assert (a + b)[1..] == a[1..] + b;
      SumConcat(a[1..], b);
    }
  }

  /** What conservation books as dropped is the sum of these lots, and each of them was dust: at most 10,000
      units of base or at most 500,000,000 units of cost. */
  lemma {:induction false} DroppedIsDust(es: seq<Execution>)
    requires DistinctExecutions(es)
    ensures Tally(es).dustBase == SumBase(DroppedLots(es)) && Tally(es).dustCost == SumCost(DroppedLots(es))
    ensures forall l :: l in DroppedLots(es) ==> l.base <= 10_000 || l.cost <= 500_000_000
  {
    hide *;
    NothingDropped();
    if es != [] {
      var prior, e := es[..|es| - 1], es[|es| - 1];
      Unfold(es);
      UnfoldDropped(es);
      DistinctPrefix(es);
      DroppedIsDust(prior);
      ReplayKeepsLedger(prior);
      DropStep(Tally(prior), Replay(prior), prior, e);
      SumConcat(DroppedLots(prior), NewlyDropped(Replay(prior), e));
    }
  }

  ghost function NewlyDropped(s: Ledger, e: Execution): seq<Lot> {
    if e.Counts() && e.side.Sell? then Dust(SellOf(s.openLots, e, s.realized)) else []
  }

  lemma NothingDropped()
    ensures Tally([]).dustBase == SumBase(DroppedLots([])) && Tally([]).dustCost == SumCost(DroppedLots([])) && DroppedLots([]) == []
  {
    NoHistory();
    hide Tally;
  }

  lemma UnfoldDropped(es: seq<Execution>)
    requires es != []
    ensures var prior := es[..|es| - 1]; DroppedLots(es) == DroppedLots(prior) + NewlyDropped(Replay(prior), es[|es| - 1])
  {
    hide Dust, SellOf, Replay;
  }

  lemma EmptySums()
    ensures SumBase([]) == 0 == SumCost([])
  {
  }

  lemma DropStep(t: Totals, s: Ledger, es: seq<Execution>, e: Execution)
    requires LedgerOk(s, es)
    ensures var dropped, next := NewlyDropped(s, e), TallyStep(t, s, e);
      && next.dustBase == t.dustBase + SumBase(dropped) && next.dustCost == t.dustCost + SumCost(dropped)
      && forall l :: l in dropped ==> l.base <= 10_000 || l.cost <= 500_000_000
  {
    EmptySums();
    hide SellWalk, Candidates, Dust, Round8, SumBase, SumCost, FilledBase, FilledQuote, FilledFee, FilledCost, Ids;
    if e.Counts() && e.side.Sell? {
      var ids, pot := Ids(Candidates(s.openLots, e)), StartPot(e, s.realized);
      LedgerSellable(s, es, e);
      WalkTakes(s.openLots, ids, e, pot);
      hide TakenFrom, LeftOf;
      LeftLotsFilter(s.openLots, SellWalk(s.openLots, ids, e, pot), e);
    }
  }
}
