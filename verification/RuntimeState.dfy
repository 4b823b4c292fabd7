/** createStateSnapshotFromOpenLots in apps/web/src/lib/bot-management.ts. */
module RuntimeState {
  import opened GridCycles
  import opened GridRails
  import opened LotConservation
  import opened LotReplay
  import opened Numbers
  import opened Rounding
  import opened Wrappers

  datatype Snapshot = Snapshot(available: int, base: int, deployed: int, averageEntry: Option<int>, realized: int,
                               unrealized: int, equity: int, cycles: Cycles)

  function NonNegative(x: int): int { Max(x, 0) }

  /** An unknown price is None; an absent position has realised 0. */
  function RebuildSnapshot(budget: int, price: Option<int>, realizedPnl: int, openLots: seq<Lot>, levels: seq<int>): Snapshot {
    var lots := Filter(IsActive, openLots);
    var deployed, base, realized := Round8(SumCost(lots), 1), Round8(SumBase(lots), 1), Round8(realizedPnl, 1);
    var available := Round8(NonNegative(budget + realized - deployed), 1);
    Snapshot(available, base, deployed,
             if base > 0 && deployed > 0 then Some(Round8(deployed * PRICE_SCALE, base)) else None,
             realized,
             if price.Some? && base > 0 then Round8(base * price.value - deployed * PRICE_SCALE, PRICE_SCALE) else 0,
             Round8(available * PRICE_SCALE + price.UnwrapOr(0) * base, PRICE_SCALE),
             PlaceAll(levels, ActiveLots(lots)))
  }

  lemma Round8NonNegative(x: int)
    ensures Round8(NonNegative(x), 1) == NonNegative(Round8(x, 1))
  {
    Round8Exact(0);
    if x > 0 { Round8Monotone(0, 1, x, 1); } else { Round8Monotone(x, 1, 0, 1); }
  }

  /** What the open lots are worth, rounded: it is both the base part of the equity and the unrealised
      PnL plus the deployed cost. */
  function MarketValue(base: int, price: int): int {
    Round8(base * price, PRICE_SCALE)
  }

  lemma ValueSplits(base: int, price: int, available: int, deployed: int)
    requires OnGrid(available) && OnGrid(deployed)
    ensures Round8(available * PRICE_SCALE + price * base, PRICE_SCALE) == MarketValue(base, price) + available
    ensures Round8(base * price - deployed * PRICE_SCALE, PRICE_SCALE) == MarketValue(base, price) - deployed
  {
    Round8Shift(base * price, PRICE_SCALE, available);
    Round8Shift(base * price, PRICE_SCALE, -deployed);
  }

  lemma CashRounds(budget: int, realized: int, deployed: int)
    requires OnGrid(realized) && OnGrid(deployed)
    ensures Round8(NonNegative(budget + realized - deployed), 1) == NonNegative(Round8(budget, 1) + realized - deployed)
  {
    GridSum(realized, deployed);
    Round8Shift(budget, 1, realized - deployed);
    Round8NonNegative(budget + realized - deployed);
  }

  lemma NoBaseNoValue(price: int)
    ensures MarketValue(0, price) == 0
  {
    Round8Shift(0, PRICE_SCALE, 0);
    Round8Monotone(0, PRICE_SCALE, 0, 1);
    Round8Monotone(0, 1, 0, PRICE_SCALE);
    Round8Exact(0);
  }

  lemma {:induction false} ActiveSumsPositive(lots: seq<Lot>)
    requires forall l :: l in lots ==> IsActive(l)
    ensures SumBase(lots) >= 0 && SumCost(lots) >= 0
  {
    if lots != [] {
      assert lots[0] in lots;
      ActiveSumsPositive(lots[1..]);
    }
  }

  lemma RoundedSums(openLots: seq<Lot>)
    ensures var lots := Filter(IsActive, openLots); Round8(SumBase(lots), 1) >= 0 && Round8(SumCost(lots), 1) >= 0
  {
    var lots := Filter(IsActive, openLots);
    ActiveSumsPositive(lots);
    Round8Exact(0);
    Round8Monotone(0, 1, SumBase(lots), 1);
    Round8Monotone(0, 1, SumCost(lots), 1);
  }

  /** The lots that count, whatever list they come from. */
  ghost function Counted(): Lot -> bool {
    (l: Lot) => l.base > 0 && l.cost > 0 && l.closedAt == None
  }

  lemma {:induction false} CountedLots(lots: seq<Lot>)
    ensures Filter(IsActive, lots) == Filter(Counted(), lots)
  {
    if lots != [] { CountedLots(lots[1..]); }
  }

  /** The snapshot's numbers: each sum over the open lots, the realised PnL and the two values at the price to the
      nearest 1e-8, and no unrealised PnL without a price or open base. */
  lemma SnapshotNumbers(budget: int, price: Option<int>, realizedPnl: int, openLots: seq<Lot>, levels: seq<int>)
    ensures var s, lots := RebuildSnapshot(budget, price, realizedPnl, openLots, levels), Filter(Counted(), openLots);
      && Nearest(s.deployed, SumCost(lots), 1) && Nearest(s.base, SumBase(lots), 1) && Nearest(s.realized, realizedPnl, 1)
      && (if price.Some? && s.base > 0
          then Nearest(s.unrealized, s.base * price.value - s.deployed * PRICE_SCALE, PRICE_SCALE) else s.unrealized == 0)
      && Nearest(s.equity, s.available * PRICE_SCALE + price.UnwrapOr(0) * s.base, PRICE_SCALE)
  {
    hide PlaceAll, ActiveLots, Nearest, Round8, Counted;
    var s := RebuildSnapshot(budget, price, realizedPnl, openLots, levels);
    CountedLots(openLots);
    var lots := Filter(IsActive, openLots);
    Round8IsNearest(SumCost(lots), 1);
    Round8IsNearest(SumBase(lots), 1);
    Round8IsNearest(realizedPnl, 1);
    Round8IsNearest(s.available * PRICE_SCALE + price.UnwrapOr(0) * s.base, PRICE_SCALE);
    Round8IsNearest(s.base * price.UnwrapOr(0) - s.deployed * PRICE_SCALE, PRICE_SCALE);
  }

  /** How much the zero clamp on cash adds. */
  ghost function Shortfall(budget: int, s: Snapshot): int {
    NonNegative(s.deployed - s.realized - Round8(budget, 1))
  }

  /** The equity identity, for every budget, price and set of lots: equity is budget plus realised plus
      unrealised PnL plus exactly the clamped shortfall. Without a price, or when the open base rounds to
      nothing, the snapshot values the lots at zero and equity is short of that by the deployed cost. */
  lemma EquityIdentity(budget: int, price: Option<int>, realizedPnl: int, openLots: seq<Lot>, levels: seq<int>)
    ensures var s := RebuildSnapshot(budget, price, realizedPnl, openLots, levels);
      && s.available == NonNegative(Round8(budget, 1) + s.realized - s.deployed)
      && s.equity == Round8(budget, 1) + s.realized + s.unrealized + Shortfall(budget, s)
                     - (if price.Some? && s.base > 0 then 0 else s.deployed)
  {
    hide Round8, PlaceAll, ActiveLots;
    var s := RebuildSnapshot(budget, price, realizedPnl, openLots, levels);
    RoundedSums(openLots);
    CashRounds(budget, s.realized, s.deployed);
    ValueSplits(s.base, price.UnwrapOr(0), s.available, s.deployed);
    hide RebuildSnapshot;
    if price.None? {
      NoValue(s.base);
    } else if s.base == 0 {
      NoBaseNoValue(price.value);
    }
  }

  lemma NoValue(base: int)
    ensures MarketValue(base, 0) == 0
  {
    NoBaseNoValue(0);
  }

  /** So with a price and open base, equity is exactly budget plus PnL precisely when the budget and the
      realised PnL cover the deployed cost. */
  lemma EquityExactIff(budget: int, price: int, realizedPnl: int, openLots: seq<Lot>, levels: seq<int>)
    requires RebuildSnapshot(budget, Some(price), realizedPnl, openLots, levels).base > 0
    ensures var s := RebuildSnapshot(budget, Some(price), realizedPnl, openLots, levels);
      s.equity == Round8(budget, 1) + s.realized + s.unrealized <==> Round8(budget, 1) + s.realized >= s.deployed
  {
    hide RebuildSnapshot, Round8;
    EquityIdentity(budget, Some(price), realizedPnl, openLots, levels);
  }

  /** The average entry times the open base gives the deployed cost back to within half a grid unit of
      price, and is missing exactly when there is nothing to average. */
  lemma AverageEntry(budget: int, price: Option<int>, realizedPnl: int, openLots: seq<Lot>, levels: seq<int>)
    ensures var s := RebuildSnapshot(budget, price, realizedPnl, openLots, levels);
      && (s.averageEntry.None? <==> s.base == 0 || s.deployed == 0)
      && (s.averageEntry.Some? ==>
            -GRID * s.base <= 2 * (s.base * s.averageEntry.value - s.deployed * PRICE_SCALE) <= GRID * s.base)
  {
    hide PlaceAll, ActiveLots;
    var s := RebuildSnapshot(budget, price, realizedPnl, openLots, levels);
    RoundedSums(openLots);
    assert s.averageEntry == if s.base > 0 && s.deployed > 0 then Some(Round8(s.deployed * PRICE_SCALE, s.base)) else None;
    assert s.base >= 0 && s.deployed >= 0;
    hide RebuildSnapshot, Round8;
    if s.base > 0 && s.deployed > 0 { Round8Error(s.deployed * PRICE_SCALE, s.base); }
  }

  lemma {:induction false} FilterTwice(lots: seq<Lot>)
    ensures Filter(IsActive, Filter(IsActive, lots)) == Filter(IsActive, lots)
  {
    if lots != [] {
      FilterTwice(lots[1..]);
      var rest := Filter(IsActive, lots[1..]);
      if IsActive(lots[0]) {
        assert ([lots[0]] + rest)[0] == lots[0] && ([lots[0]] + rest)[1..] == rest;
      } else {
        assert [] + rest == rest;
      }
    }
  }

  /** The snapshot's cycles are those of the open lots themselves: filtering twice loses no lot. */
  lemma SnapshotCycles(budget: int, price: Option<int>, realizedPnl: int, openLots: seq<Lot>, levels: seq<int>)
    ensures RebuildSnapshot(budget, price, realizedPnl, openLots, levels).cycles == PlaceAll(levels, ActiveLots(openLots))
  {
    hide Round8;
    FilterTwice(openLots);
  }
}
