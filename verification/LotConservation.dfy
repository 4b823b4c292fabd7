/** What one sell keeps: cost and base leave the open lots only through fills, and the proceeds are
    allocated pro rata. */
module LotConservation {
  import opened Rounding
  import opened LotReplay

  function SumBase(lots: seq<Lot>): int {
    if lots == [] then 0 else lots[0].base + SumBase(lots[1..])
  }

  function SumCost(lots: seq<Lot>): int {
    if lots == [] then 0 else lots[0].cost + SumCost(lots[1..])
  }

  function FilledBase(fills: seq<Fill>): int {
    if fills == [] then 0 else fills[0].base + FilledBase(fills[1..])
  }

  function FilledQuote(fills: seq<Fill>): int {
    if fills == [] then 0 else fills[0].quote + FilledQuote(fills[1..])
  }

  function FilledFee(fills: seq<Fill>): int {
    if fills == [] then 0 else fills[0].fee + FilledFee(fills[1..])
  }

  function FilledCost(fills: seq<Fill>): int {
    if fills == [] then 0 else fills[0].cost + FilledCost(fills[1..])
  }

  function Touched(fills: seq<Fill>): nat {
    if fills == [] then 0 else (if fills[0].base > 0 then 1 else 0) + Touched(fills[1..])
  }

  ghost predicate Near(x: int, y: int, slack: int) { -slack <= x - y <= slack }

  // ---------------------------------------------------------------- one lot

  /** Lots the ledger holds: costs are on the grid, and a candidate id is a material lot's id. */
  ghost predicate Sellable(lots: seq<Lot>, ids: set<string>) {
    forall l :: l in lots ==> OnGrid(l.cost) && l.base > 0 && (l.id in ids ==> IsMaterial(l))
  }

  lemma SellOneLot(l: Lot, ids: set<string>, e: Execution, pot: Pot)
    requires e.Counts() && OnGrid(pot.realized) && Sellable([l], ids)
    ensures var f, after, left := FillOf(l, ids, e, pot), LotAfter(l, ids, e, pot), PotAfter(l, ids, e, pot);
      && OnGrid(after.cost) && OnGrid(left.realized)
      && l.cost == after.cost + f.cost && 0 <= f.cost && (l.cost >= 0 ==> f.cost <= l.cost)
      && left.realized == pot.realized + f.quote - f.fee - f.cost
      && 0 <= f.base <= l.base
      && (Takes(l, ids, pot) <==> f.base > 0)
      && (f.base == l.base ==> after.base == 0)
      && (0 < f.base < l.base ==> f.base == pot.toSell && left.toSell == 0)
  {
    hide Round8;
    assert l in [l];
    if Takes(l, ids, pot) {
      var f := FillOf(l, ids, e, pot);
      Round8Share(l.cost, f.base, l.base);
      assert OnGrid(l.cost - f.cost);
      Round8Exact(l.cost - f.cost);
      Round8Exact(pot.realized + f.quote - f.fee - f.cost);
      Round8Exact(0);
    }
  }

  lemma SellOneLotBase(l: Lot, ids: set<string>, e: Execution, pot: Pot)
    requires e.Counts() && l.base > 0
    ensures var f, after, left := FillOf(l, ids, e, pot), LotAfter(l, ids, e, pot), PotAfter(l, ids, e, pot);
      && Near(l.base, after.base + f.base, HALF_STEP) && after.base >= 0
      && Near(pot.toSell, left.toSell + f.base, HALF_STEP)
      && (OnGrid(l.base) && OnGrid(pot.toSell) ==>
            OnGrid(after.base) && OnGrid(left.toSell) && l.base == after.base + f.base && pot.toSell == left.toSell + f.base)
  {
    hide Round8;
    var f := FillOf(l, ids, e, pot);
    if Takes(l, ids, pot) {
      assert LotAfter(l, ids, e, pot).base == Round8(l.base - f.base, 1);
      assert PotAfter(l, ids, e, pot).toSell == Round8(pot.toSell - f.base, 1);
      assert f.base == if l.base <= pot.toSell then l.base else pot.toSell;
      RoundedDifference(l.base, f.base);
      RoundedDifference(pot.toSell, f.base);
    }
  }

  lemma ZeroOnGrid()
    ensures OnGrid(0)
  {
  }

  lemma RoundedDifference(x: int, y: int)
    requires x >= y
    ensures Near(x, Round8(x - y, 1) + y, HALF_STEP) && Round8(x - y, 1) >= 0
    ensures OnGrid(x) && OnGrid(y) ==> x == Round8(x - y, 1) + y
  {
    hide Round8, OnGrid;
    Round8Near(x - y);
    ZeroOnGrid();
    Round8Exact(0);
    Round8Monotone(0, 1, x - y, 1);
    if OnGrid(x) && OnGrid(y) {
      GridSum(x, y);
      Round8Exact(x - y);
    }
  }

  // ---------------------------------------------------------------- one sell

  lemma CountedInput(e: Execution)
    requires e.Counts()
    ensures e.Input() > 0
  {
  }

  /** How the sums over a walk start with those of its first lot. */
  lemma WalkSums(lots: seq<Lot>, ids: set<string>, e: Execution, pot: Pot)
    requires e.Input() > 0 && lots != []
    ensures var f, after, left := FillOf(lots[0], ids, e, pot), LotAfter(lots[0], ids, e, pot), PotAfter(lots[0], ids, e, pot);
      var w, tail := SellWalk(lots, ids, e, pot), SellWalk(lots[1..], ids, e, left);
      && w.pot == tail.pot && w.lots == [after] + tail.lots && w.fills == [f] + tail.fills
      && SumBase(lots) == lots[0].base + SumBase(lots[1..]) && SumBase(w.lots) == after.base + SumBase(tail.lots)
      && FilledBase(w.fills) == f.base + FilledBase(tail.fills)
      && Touched(w.fills) == (if f.base > 0 then 1 else 0) + Touched(tail.fills)
  {
    hide LotAfter, PotAfter, FillOf;
  }

  lemma EmptyWalk(ids: set<string>, e: Execution, pot: Pot)
    requires e.Input() > 0
    ensures SellWalk([], ids, e, pot) == Walk([], pot, [])
    ensures SumBase([]) == 0 && FilledBase([]) == 0 && Touched([]) == 0
  {
  }

  lemma SellableTail(lots: seq<Lot>, ids: set<string>)
    requires Sellable(lots, ids) && lots != []
    ensures Sellable([lots[0]], ids) && Sellable(lots[1..], ids)
  {
  }

  /** Cost leaves the open lots only through fills, and realised PnL is exactly what the fills earned. */
  lemma {:induction false} WalkMoney(lots: seq<Lot>, ids: set<string>, e: Execution, pot: Pot)
    requires e.Counts() && OnGrid(pot.realized) && Sellable(lots, ids)
    ensures var w := SellWalk(lots, ids, e, pot);
      && SumCost(lots) == SumCost(w.lots) + FilledCost(w.fills)
      && w.pot.realized == pot.realized + FilledQuote(w.fills) - FilledFee(w.fills) - FilledCost(w.fills)
      && OnGrid(w.pot.realized)
      && (forall i :: 0 <= i < |lots| ==>
            OnGrid(w.lots[i].cost) && 0 <= w.fills[i].cost && w.lots[i].cost + w.fills[i].cost == lots[i].cost)
  {
    hide Round8;
    if lots != [] {
      SellableTail(lots, ids);
      SellOneLot(lots[0], ids, e, pot);
      WalkMoney(lots[1..], ids, e, PotAfter(lots[0], ids, e, pot));
    }
  }

  lemma SkippedLot(l: Lot, ids: set<string>, e: Execution, pot: Pot)
    requires e.Input() > 0 && !Takes(l, ids, pot)
    ensures FillOf(l, ids, e, pot) == NO_FILL && LotAfter(l, ids, e, pot) == l && PotAfter(l, ids, e, pot) == pot
  {
  }

  /** Once the sell is filled (up to dust) the rest of the walk touches nothing. */
  lemma {:induction false} WalkIdle(lots: seq<Lot>, ids: set<string>, e: Execution, pot: Pot)
    requires e.Input() > 0 && pot.toSell <= MATERIAL_BASE
    ensures SellWalk(lots, ids, e, pot).lots == lots && SellWalk(lots, ids, e, pot).pot == pot
    ensures forall i :: 0 <= i < |lots| ==> SellWalk(lots, ids, e, pot).fills[i] == NO_FILL
  {
    hide LotAfter, PotAfter, FillOf;
    if lots != [] {
      SkippedLot(lots[0], ids, e, pot);
      WalkIdle(lots[1..], ids, e, pot);
    }
  }

  lemma NothingIsDust()
    ensures 0 <= MATERIAL_BASE
  {
  }

  lemma {:induction false} NoFills(fills: seq<Fill>)
    requires forall i :: 0 <= i < |fills| ==> fills[i] == NO_FILL
    ensures FilledBase(fills) == 0 && Touched(fills) == 0
  {
    if fills != [] {
      NoFills(fills[1..]);
    }
  }

  /** Base leaves the open lots only through fills. Only a partial fill rounds a remainder,
      and there is at most one, so the sell drifts by at most half a grid step. */
  lemma {:induction false} WalkBase(lots: seq<Lot>, ids: set<string>, e: Execution, pot: Pot)
    requires e.Counts() && OnGrid(pot.realized) && Sellable(lots, ids)
    ensures var w := SellWalk(lots, ids, e, pot);
      && Near(SumBase(lots), SumBase(w.lots) + FilledBase(w.fills), HALF_STEP)
      && (OnGrid(pot.toSell) && (forall l :: l in lots ==> OnGrid(l.base)) ==>
            && SumBase(lots) == SumBase(w.lots) + FilledBase(w.fills)
            && pot.toSell == w.pot.toSell + FilledBase(w.fills)
            && (forall l :: l in w.lots ==> OnGrid(l.base)))
  {
    hide *;
    CountedInput(e);
    if lots == [] {
      EmptyWalk(ids, e, pot);
      NearSelf(0);
    } else {
      var l, rest, f, left := lots[0], lots[1..], FillOf(lots[0], ids, e, pot), PotAfter(lots[0], ids, e, pot);
      var tail := SellWalk(rest, ids, e, left);
      SellableTail(lots, ids);
      SellablePositive(lots, ids, 0);
      WalkSums(lots, ids, e, pot);
      SellOneLot(l, ids, e, pot);
      SellOneLotBase(l, ids, e, pot);
      WalkBase(rest, ids, e, left);
      if 0 < f.base < l.base {
        NothingIsDust();
        WalkIdle(rest, ids, e, left);
        NoFills(tail.fills);
      } else {
        UnsplitLot(l, ids, e, pot);
      }
      BaseAdds(l.base, LotAfter(l, ids, e, pot).base + f.base, SumBase(rest), SumBase(tail.lots) + FilledBase(tail.fills),
               0 < f.base < l.base);
    }
  }

  lemma NearSelf(x: int)
    ensures Near(x, x, HALF_STEP)
  {
  }

  lemma SellablePositive(lots: seq<Lot>, ids: set<string>, i: nat)
    requires Sellable(lots, ids) && i < |lots|
    ensures lots[i].base > 0
  {
  }

  /** A lot that is not sold, or sold out, loses exactly its fill. */
  lemma UnsplitLot(l: Lot, ids: set<string>, e: Execution, pot: Pot)
    requires e.Counts() && l.base > 0 && !(0 < FillOf(l, ids, e, pot).base < l.base)
    ensures l.base == LotAfter(l, ids, e, pot).base + FillOf(l, ids, e, pot).base
  {
    hide Round8;
    ZeroOnGrid();
    Round8Exact(0);
  }

  /** Of two parts, one is exact and the other near, so the whole is near. */
  lemma BaseAdds(a: int, a': int, b: int, b': int, split: bool)
    requires if split then Near(a, a', HALF_STEP) && b == b' else a == a' && Near(b, b', HALF_STEP)
    ensures Near(a + b, a' + b', HALF_STEP)
  {
  }

  // ---------------------------------------------------------------- base, exactly

  /** What rounding the remainder of a filled lot to the grid takes away (or, when negative, adds). */
  function LotDrift(l: Lot, f: Fill): int {
    if f.base > 0 then l.base - f.base - Round8(l.base - f.base, 1) else 0
  }

  function Drift(lots: seq<Lot>, fills: seq<Fill>): int
    requires |lots| == |fills|
  {
    if lots == [] then 0 else LotDrift(lots[0], fills[0]) + Drift(lots[1..], fills[1..])
  }

  lemma OneLotDrift(l: Lot, ids: set<string>, e: Execution, pot: Pot)
    requires e.Counts() && l.base > 0
    ensures var f := FillOf(l, ids, e, pot); l.base == LotAfter(l, ids, e, pot).base + f.base + LotDrift(l, f)
  {
    hide Round8;
  }

  /** Base leaves the open lots through fills and through the rounding of remainders, and in no other way. */
  lemma {:induction false} WalkDrift(lots: seq<Lot>, ids: set<string>, e: Execution, pot: Pot)
    requires e.Counts() && forall l :: l in lots ==> l.base > 0
    ensures var w := SellWalk(lots, ids, e, pot);
      SumBase(lots) == SumBase(w.lots) + FilledBase(w.fills) + Drift(lots, w.fills)
  {
    hide LotAfter, PotAfter, FillOf, LotDrift;
    if lots != [] {
      assert lots[0] in lots;
      OneLotDrift(lots[0], ids, e, pot);
      WalkDrift(lots[1..], ids, e, PotAfter(lots[0], ids, e, pot));
    }
  }

  lemma LotDriftZeroIff(l: Lot, f: Fill)
    ensures LotDrift(l, f) == 0 <==> f.base <= 0 || OnGrid(l.base - f.base)
    ensures f.base == l.base ==> LotDrift(l, f) == 0
  {
    hide Round8;
    if OnGrid(l.base - f.base) { Round8Exact(l.base - f.base); }
  }

  /** Every lot a sell filled is left on the grid; for a lot sold out that is no condition. */
  ghost predicate RemaindersOnGrid(lots: seq<Lot>, fills: seq<Fill>)
    requires |lots| == |fills|
  {
    forall i :: 0 <= i < |lots| && 0 < fills[i].base < lots[i].base ==> OnGrid(lots[i].base - fills[i].base)
  }

  lemma {:induction false} NoDrift(lots: seq<Lot>, fills: seq<Fill>)
    requires |lots| == |fills| && forall i :: 0 <= i < |fills| ==> fills[i] == NO_FILL
    ensures Drift(lots, fills) == 0 && RemaindersOnGrid(lots, fills)
  {
    if lots != [] { NoDrift(lots[1..], fills[1..]); }
  }

  lemma DriftCons(l: Lot, f: Fill, lots: seq<Lot>, fills: seq<Fill>)
    requires |lots| == |fills|
    ensures Drift([l] + lots, [f] + fills) == LotDrift(l, f) + Drift(lots, fills)
  {
    hide LotDrift;
  }

  lemma RemaindersCons(l: Lot, f: Fill, lots: seq<Lot>, fills: seq<Fill>)
    requires |lots| == |fills|
    ensures RemaindersOnGrid([l] + lots, [f] + fills) <==>
            (0 < f.base < l.base ==> OnGrid(l.base - f.base)) && RemaindersOnGrid(lots, fills)
  {
    hide OnGrid;
    var all, fs := [l] + lots, [f] + fills;
    if RemaindersOnGrid(all, fs) {
      forall i | 0 <= i < |lots| && 0 < fills[i].base < lots[i].base ensures OnGrid(lots[i].base - fills[i].base) {
        assert all[i + 1] == lots[i] && fs[i + 1] == fills[i];
      }
      assert all[0] == l && fs[0] == f;
    }
  }

  /** At most one lot of a sell is partly sold, so the drifts of a sell cannot cancel: there is none exactly
      when that lot's remainder is on the grid. */
  lemma {:induction false} DriftZeroIff(lots: seq<Lot>, ids: set<string>, e: Execution, pot: Pot)
    requires e.Counts() && OnGrid(pot.realized) && Sellable(lots, ids)
    ensures var fills := SellWalk(lots, ids, e, pot).fills; Drift(lots, fills) == 0 <==> RemaindersOnGrid(lots, fills)
  {
    hide *;
    CountedInput(e);
    if lots == [] {
      NoDrift([], SellWalk([], ids, e, pot).fills);
    } else {
      var l, rest, f, left := lots[0], lots[1..], FillOf(lots[0], ids, e, pot), PotAfter(lots[0], ids, e, pot);
      var fills := SellWalk(rest, ids, e, left).fills;
      SellableTail(lots, ids);
      WalkSums(lots, ids, e, pot);
      SellOneLot(l, ids, e, pot);
      LotDriftZeroIff(l, f);
      DriftCons(l, f, rest, fills);
      DriftZeroIff(rest, ids, e, left);
      RemaindersCons(l, f, rest, fills);
      assert [l] + rest == lots;
      if 0 < f.base < l.base {
        NothingIsDust();
        WalkIdle(rest, ids, e, left);
        NoDrift(rest, fills);
      }
    }
  }

  /** A sell conserves base exactly if and only if the lot it sells in part, if there is one, is left on the grid. */
  lemma BaseExactIff(lots: seq<Lot>, ids: set<string>, e: Execution, pot: Pot)
    requires e.Counts() && OnGrid(pot.realized) && Sellable(lots, ids)
    ensures var w := SellWalk(lots, ids, e, pot);
      SumBase(lots) == SumBase(w.lots) + FilledBase(w.fills) <==> RemaindersOnGrid(lots, w.fills)
  {
    WalkDrift(lots, ids, e, pot);
    DriftZeroIff(lots, ids, e, pot);
  }

  // ---------------------------------------------------------------- the proceeds

  /** `spent` is the exact pro-rata value of `base`, up to `halfSteps` half grid steps. */
  ghost predicate ProRata(e: Execution, spent: int, base: int, halfSteps: nat) {
    Near(Times(e.Input(), spent), Times(e.Output(), base), HALF_STEP * Times(e.Input(), halfSteps))
  }

  lemma OneLotShare(l: Lot, ids: set<string>, e: Execution, pot: Pot)
    requires e.Input() > 0 && Takes(l, ids, pot)
    ensures ProRata(e, FillOf(l, ids, e, pot).quote, FillOf(l, ids, e, pot).base, 1)
  {
    hide Round8;
    var f := FillOf(l, ids, e, pot);
    Round8Error(e.Output() * f.base, e.Input());
  }

  lemma OneLotSpends(l: Lot, ids: set<string>, e: Execution, pot: Pot)
    requires e.Input() > 0 && Takes(l, ids, pot)
    ensures var f, left := FillOf(l, ids, e, pot), PotAfter(l, ids, e, pot);
      && OnGrid(left.output)
      && Near(pot.output - left.output, f.quote, if OnGrid(pot.output) then 0 else HALF_STEP)
  {
    hide Round8;
    var f := FillOf(l, ids, e, pot);
    Round8Error(pot.output - f.quote, 1);
    if OnGrid(pot.output) { Round8Exact(pot.output - f.quote); }
  }

  lemma ProRataSum(e: Execution, quote: int, spent: int, rest: int, base: int, restBase: int, extra: nat, halfSteps: nat)
    requires e.Input() > 0 && ProRata(e, quote, base, 1) && ProRata(e, rest, restBase, halfSteps)
    requires Near(spent, quote, HALF_STEP * extra)
    ensures ProRata(e, spent + rest, base + restBase, halfSteps + 1 + extra)
  {
    hide Times;
    var i := e.Input();
    TimesSum(i, spent, rest);
    TimesSum(i, quote, spent - quote);
    TimesSum(e.Output(), base, restBase);
    TimesSum(i, halfSteps, 1 + extra);
    TimesSum(i, 1, extra);
    TimesNear(i, spent - quote, extra);
  }

  /** i * d is within i * (extra half steps) of zero when d is within `extra` half steps. */
  lemma TimesNear(i: int, d: int, extra: nat)
    requires i > 0 && Near(d, 0, HALF_STEP * extra)
    ensures Near(Times(i, d), 0, HALF_STEP * Times(i, extra))
  {
    MulMonotone(i, d, HALF_STEP * extra);
    MulMonotone(i, -(HALF_STEP * extra), d);
  }

  /** The proceeds allocated by a sell stay within half a grid step per touched lot of the exact
      pro-rata value, plus half a step for the first rounding when the output is off the grid. */
  lemma {:induction false} WalkProceeds(lots: seq<Lot>, ids: set<string>, e: Execution, pot: Pot)
    requires e.Counts() && OnGrid(pot.realized) && Sellable(lots, ids)
    ensures var w := SellWalk(lots, ids, e, pot);
      ProRata(e, pot.output - w.pot.output, FilledBase(w.fills), Touched(w.fills) + if OnGrid(pot.output) then 0 else 1)
  {
    hide *;
    CountedInput(e);
    if lots == [] {
      EmptyWalk(ids, e, pot);
      NothingProRata(e, if OnGrid(pot.output) then 0 else 1);
    } else {
      var left, f := PotAfter(lots[0], ids, e, pot), FillOf(lots[0], ids, e, pot);
      var tail := SellWalk(lots[1..], ids, e, left);
      SellableTail(lots, ids);
      WalkSums(lots, ids, e, pot);
      SellOneLot(lots[0], ids, e, pot);
      WalkProceeds(lots[1..], ids, e, left);
      if Takes(lots[0], ids, pot) {
        OneLotShare(lots[0], ids, e, pot);
        OneLotSpends(lots[0], ids, e, pot);
        ProRataSum(e, f.quote, pot.output - left.output, left.output - tail.pot.output,
                   f.base, FilledBase(tail.fills), if OnGrid(pot.output) then 0 else 1, Touched(tail.fills));
      } else {
        SkippedLot(lots[0], ids, e, pot);
        NothingFilled();
      }
    }
  }

  lemma NothingFilled()
    ensures NO_FILL.base == 0
  {
  }

  lemma NothingProRata(e: Execution, halfSteps: nat)
    requires e.Input() > 0
    ensures ProRata(e, 0, 0, halfSteps)
  {
    MulMonotone(e.Input(), 0, halfSteps);
  }
}
