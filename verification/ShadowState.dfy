/** The portfolio state a V3 request carries: current_band, capital and estimated_costs of buildJevV3Request in
    apps/worker/src/shadow-jev-v3-questions.ts. */
module ShadowState {
  import opened Wrappers

  /** A recorded lot: whether it is retained, whether its remaining amount is positive, its cost and its entry
      price. Numbers that are not finite are None. */
  datatype Lot = Lot(retained: bool, positive: bool, cost: Option<real>, entry: Option<real>)

  /** A count that is not an integer is None. */
  datatype Band = Band(low: Option<real>, high: Option<real>, spacing: Option<real>, levelCount: Option<int>, status: string,
                       idleQuote: Option<real>, allocatedUsd: Option<real>, lots: seq<Lot>)

  /** The two cost parameters may be absent. */
  datatype Policy = Policy(symbol: string, price: Option<real>, band: Band, bandCount: Option<int>, attributed: Option<real>,
                           cash: Option<real>, total: Option<real>, feeBps: Option<Option<real>>,
                           slippageBps: Option<Option<real>>, minOrder: Option<real>, candleIntervalMs: Option<real>)

  datatype State = State(symbol: string, price: real, low: real, high: real, levelCount: int, spacingPct: real, status: string,
                         idleQuote: real, openLots: nat, lotCost: real, entryLow: Option<real>, entryHigh: Option<real>,
                         allocatedUsd: real, attributed: real, cash: real, total: real, bandCount: int,
                         feeBps: real, slippageBps: real, minOrder: real, candleIntervalMs: real)

  predicate BandOk(p: Policy) {
    && p.bandCount.Some? && p.bandCount.value >= 1 && p.band.levelCount.Some? && p.band.levelCount.value >= 2
    && (p.band.status == "active" || p.band.status == "parked")
  }

  predicate IsOpen(l: Lot) { !l.retained && l.positive }

  function OpenLots(lots: seq<Lot>): (r: seq<Lot>)
    ensures forall l :: l in r <==> l in lots && !l.retained && l.positive
  {
    if lots == [] then [] else
    assert lots == [lots[0]] + lots[1..];
    if IsOpen(lots[0]) then [lots[0]] + OpenLots(lots[1..]) else OpenLots(lots[1..])
  }

  /** Finite exactly when every cost is. */
  function LotCost(lots: seq<Lot>): Option<real> {
    if lots == [] then Some(0.0) else
    var rest := LotCost(lots[1..]);
    if lots[0].cost.None? || rest.None? then None else Some(lots[0].cost.value + rest.value)
  }

  /** Math.min of the entry prices. */
  function EntryLow(lots: seq<Lot>): Option<real>
    requires lots != []
  {
    if |lots| == 1 then lots[0].entry else
    var rest := EntryLow(lots[1..]);
    if lots[0].entry.None? || rest.None? then None
    else if lots[0].entry.value <= rest.value then lots[0].entry else rest
  }

  /** Math.max of the entry prices. */
  function EntryHigh(lots: seq<Lot>): Option<real>
    requires lots != []
  {
    if |lots| == 1 then lots[0].entry else
    var rest := EntryHigh(lots[1..]);
    if lots[0].entry.None? || rest.None? then None
    else if lots[0].entry.value >= rest.value then lots[0].entry else rest
  }

  /** A quotient by zero is not finite. */
  function SpacingPct(b: Band): Option<real> {
    if b.spacing.None? || b.low.None? || b.low.value == 0.0 then None else Some(100.0 * b.spacing.value / b.low.value)
  }

  /** The projection, or nothing when some number of it is not finite. */
  function StateOf(p: Policy): Option<State>
    requires BandOk(p)
  {
    var b := p.band;
    var lots, spacing, fee, slippage := OpenLots(b.lots), SpacingPct(b), p.feeBps.UnwrapOr(Some(0.0)), p.slippageBps.UnwrapOr(Some(0.0));
    var cost := LotCost(lots);
    if p.price.None? || b.low.None? || b.high.None? || spacing.None? || b.idleQuote.None? || cost.None?
       || (lots != [] && (EntryLow(lots).None? || EntryHigh(lots).None?))
       || b.allocatedUsd.None? || p.attributed.None? || p.cash.None? || p.total.None?
       || fee.None? || slippage.None? || p.minOrder.None? || p.candleIntervalMs.None? then None
    else Some(State(p.symbol, p.price.value, b.low.value, b.high.value, b.levelCount.value, spacing.value, b.status,
                    b.idleQuote.value, |lots|, cost.value, if lots == [] then None else EntryLow(lots),
                    if lots == [] then None else EntryHigh(lots), b.allocatedUsd.value, p.attributed.value, p.cash.value,
                    p.total.value, p.bandCount.value, fee.value, slippage.value, p.minOrder.value, p.candleIntervalMs.value))
  }

  // ---------------------------------------------------------------- when it is read

  /** Every number the request needs is finite; of the lots only the open ones matter. */
  ghost predicate AllFinite(p: Policy) {
    && p.price.Some? && p.band.low.Some? && p.band.low.value != 0.0 && p.band.high.Some? && p.band.spacing.Some?
    && p.band.idleQuote.Some? && p.band.allocatedUsd.Some? && p.attributed.Some? && p.cash.Some? && p.total.Some?
    && p.feeBps != Some(None) && p.slippageBps != Some(None) && p.minOrder.Some? && p.candleIntervalMs.Some?
    && forall l :: l in p.band.lots && !l.retained && l.positive ==> l.cost.Some? && l.entry.Some?
  }

  lemma {:induction false} LotsRead(lots: seq<Lot>)
    ensures LotCost(lots).Some? <==> forall l :: l in lots ==> l.cost.Some?
    ensures lots != [] ==> (EntryLow(lots).Some? <==> forall l :: l in lots ==> l.entry.Some?)
    ensures lots != [] ==> (EntryHigh(lots).Some? <==> forall l :: l in lots ==> l.entry.Some?)
  {
    if lots != [] {
      assert lots == [lots[0]] + lots[1..];
      LotsRead(lots[1..]);
    }
  }

  /** The extremes are entry prices of the lots, and no entry price lies outside them. */
  lemma {:induction false} EntriesBound(lots: seq<Lot>)
    requires lots != [] && forall l :: l in lots ==> l.entry.Some?
    ensures EntryLow(lots).Some? && exists l :: l in lots && l.entry == EntryLow(lots)
    ensures EntryHigh(lots).Some? && exists l :: l in lots && l.entry == EntryHigh(lots)
    ensures forall l :: l in lots ==> EntryLow(lots).value <= l.entry.value <= EntryHigh(lots).value
  {
    assert lots == [lots[0]] + lots[1..];
    if |lots| > 1 {
      EntriesBound(lots[1..]);
    }
  }

  /** The lots that are held and not retained have a cost. */
  ghost predicate Costed(lots: seq<Lot>) {
    forall l :: l in lots && !l.retained && l.positive ==> l.cost.Some?
  }

  /** The sum of the costs of the lots that are held and not retained, added up from the end. */
  ghost function HeldCost(lots: seq<Lot>): real
    requires Costed(lots)
  {
    if lots == [] then 0.0 else
    var init, l := lots[..|lots| - 1], lots[|lots| - 1];
    assert l in lots;
    HeldCost(init) + if !l.retained && l.positive then l.cost.value else 0.0
  }

  /** The positions of the lots that are held and not retained. */
  ghost function HeldAt(lots: seq<Lot>): set<int> {
    set i | 0 <= i < |lots| && !lots[i].retained && lots[i].positive
  }

  lemma {:induction false} CostSnoc(init: seq<Lot>, l: Lot)
    requires LotCost(init).Some? && l.cost.Some?
    ensures LotCost(init + [l]) == Some(LotCost(init).value + l.cost.value)
  {
    if init == [] {
      assert [l][1..] == [];
    } else {
      assert (init + [l])[1..] == init[1..] + [l];
      CostSnoc(init[1..], l);
    }
  }

  lemma {:induction false} OpenSnoc(init: seq<Lot>, l: Lot)
    ensures OpenLots(init + [l]) == OpenLots(init) + if !l.retained && l.positive then [l] else []
  {
    if init == [] {
      assert [l][1..] == [];
    } else {
      assert (init + [l])[1..] == init[1..] + [l];
      OpenSnoc(init[1..], l);
    }
  }

  lemma HeldSnoc(init: seq<Lot>, l: Lot)
    ensures |HeldAt(init + [l])| == |HeldAt(init)| + if !l.retained && l.positive then 1 else 0
  {
    assert HeldAt(init + [l]) == HeldAt(init) + if !l.retained && l.positive then {|init|} else {};
  }

  lemma {:induction false} OpenCount(lots: seq<Lot>)
    ensures |OpenLots(lots)| == |HeldAt(lots)|
  {
    if lots != [] {
      hide OpenLots, HeldAt;
      var init, l := lots[..|lots| - 1], lots[|lots| - 1];
      assert lots == init + [l];
      OpenCount(init);
      OpenSnoc(init, l);
      HeldSnoc(init, l);
    }
  }

  lemma HeldCostSnoc(init: seq<Lot>, l: Lot)
    requires Costed(init + [l])
    ensures Costed(init) && (!l.retained && l.positive ==> l.cost.Some?)
    ensures HeldCost(init + [l]) == HeldCost(init) + if !l.retained && l.positive then l.cost.value else 0.0
  {
    assert l in init + [l] && forall x :: x in init ==> x in init + [l];
    assert (init + [l])[..|init|] == init;
  }

  ghost function OpenLotsCost(lots: seq<Lot>): Option<real> { LotCost(OpenLots(lots)) }

  lemma OpenCostSnoc(init: seq<Lot>, l: Lot)
    requires OpenLotsCost(init).Some? && (!l.retained && l.positive ==> l.cost.Some?)
    ensures OpenLotsCost(init + [l]) == Some(OpenLotsCost(init).value + if !l.retained && l.positive then l.cost.value else 0.0)
  {
    hide OpenLots, LotCost;
    OpenSnoc(init, l);
    if !l.retained && l.positive { CostSnoc(OpenLots(init), l); }
    else { assert OpenLots(init) + [] == OpenLots(init); }
  }

  lemma NoLotsCost()
    ensures Costed([]) && HeldCost([]) == 0.0 && OpenLotsCost([]) == Some(0.0)
  {
  }

  lemma {:induction false} OpenCost(lots: seq<Lot>)
    requires Costed(lots)
    ensures OpenLotsCost(lots) == Some(HeldCost(lots))
  {
    hide *;
    if lots == [] {
      NoLotsCost();
    } else {
      var init, l := lots[..|lots| - 1], lots[|lots| - 1];
      assert lots == init + [l];
      HeldCostSnoc(init, l);
      OpenCost(init);
      OpenCostSnoc(init, l);
    }
  }

  lemma {:induction false} OpenLotsCounted(lots: seq<Lot>, l: Lot)
    ensures multiset(OpenLots(lots))[l] == if !l.retained && l.positive then multiset(lots)[l] else 0
  {
    if lots != [] {
      assert lots == [lots[0]] + lots[1..];
      OpenLotsCounted(lots[1..], l);
    }
  }

  /** Every number of the state is the policy's own; the band's spacing is in per cent of its low price, a missing cost
      parameter is zero, and the lots are those held and not retained. */
  ghost predicate StateShows(s: State, p: Policy) {
    && s.symbol == p.symbol && Some(s.price) == p.price && Some(s.low) == p.band.low && Some(s.high) == p.band.high
    && Some(s.levelCount) == p.band.levelCount && s.status == p.band.status && Some(s.bandCount) == p.bandCount
    && p.band.spacing.Some? && s.spacingPct * s.low == 100.0 * p.band.spacing.value
    && Some(s.idleQuote) == p.band.idleQuote && Some(s.allocatedUsd) == p.band.allocatedUsd
    && Some(s.attributed) == p.attributed && Some(s.cash) == p.cash && Some(s.total) == p.total
    && (if p.feeBps.None? then s.feeBps == 0.0 else Some(s.feeBps) == p.feeBps.value)
    && (if p.slippageBps.None? then s.slippageBps == 0.0 else Some(s.slippageBps) == p.slippageBps.value)
    && Some(s.minOrder) == p.minOrder && Some(s.candleIntervalMs) == p.candleIntervalMs
    && Costed(p.band.lots)
    && s.openLots == |HeldAt(p.band.lots)| && s.lotCost == HeldCost(p.band.lots)
  }

  lemma StateShowsPolicy(p: Policy)
    requires BandOk(p) && StateOf(p).Some?
    ensures StateShows(StateOf(p).value, p)
  {
    hide OpenLots, LotCost, EntryLow, EntryHigh, HeldCost, HeldAt;
    var lots, b := OpenLots(p.band.lots), p.band;
    LotsRead(lots);
    OpenCount(p.band.lots);
    OpenCost(p.band.lots);
    assert 100.0 * b.spacing.value / b.low.value * b.low.value == 100.0 * b.spacing.value;
  }

  /** The state is read exactly when all its numbers are finite; then its entry range is that of the open lots
      and is missing exactly when there are none. */
  lemma StateReadIff(p: Policy)
    requires BandOk(p)
    ensures StateOf(p).Some? <==> AllFinite(p)
    ensures StateOf(p).Some? ==> var s, lots := StateOf(p).value, OpenLots(p.band.lots);
      && s.openLots == |lots| && Some(s.lotCost) == LotCost(lots)
      && (s.entryLow.None? <==> lots == []) && (s.entryHigh.None? <==> lots == [])
      && (forall l :: l in lots ==> l.entry.Some? && s.entryLow.value <= l.entry.value <= s.entryHigh.value)
      && (lots != [] ==> (exists l :: l in lots && l.entry == s.entryLow) && (exists l :: l in lots && l.entry == s.entryHigh))
  {
    var lots := OpenLots(p.band.lots);
    LotsRead(lots);
    hide OpenLots, LotCost, EntryLow, EntryHigh;
    if StateOf(p).Some? && lots != [] { EntriesBound(lots); }
  }
}
