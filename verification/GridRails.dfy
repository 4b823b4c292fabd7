/** calculateGridLevels and inferGridCycleForLot in apps/web/src/lib/bot-management.ts. Prices and amounts
    are in 1e-10 units; the geometric ratio, a root the code takes with Math.pow, is a real parameter. */
module GridRails {
  import opened LotReplay
  import opened Rounding
  import opened Wrappers

  ghost predicate Monotone(levels: seq<int>) {
    forall i, j :: 0 <= i <= j < |levels| ==> levels[i] <= levels[j]
  }

  // ---------------------------------------------------------------- arithmetic rails

  function ArithmeticLevels(low: int, high: int, n: nat): (r: seq<int>)
    ensures |r| == if n < 2 then 0 else n
  {
    if n < 2 then [] else seq(n, i requires 0 <= i < n => Round8(low * (n - 1) + (high - low) * i, n - 1))
  }

  /** Rails never fall, start at the rounded low price and end at the rounded high price. */
  lemma ArithmeticRails(low: int, high: int, n: nat)
    requires n >= 2 && low <= high
    ensures var r := ArithmeticLevels(low, high, n);
      Monotone(r) && r[0] == Round8(low, 1) && r[n - 1] == Round8(high, 1)
  {
    hide Round8;
    var r, m := ArithmeticLevels(low, high, n), n - 1;
    forall i, j | 0 <= i <= j < n ensures r[i] <= r[j] {
      ArithmeticStep(low, high, m, i, j);
    }
    ScaledRound8(low, m);
    ScaledRound8(high, m);
    assert low * m + (high - low) * 0 == low * m;
    assert low * m + (high - low) * m == high * m;
  }

  lemma ArithmeticStep(low: int, high: int, m: nat, i: nat, j: nat)
    requires m > 0 && low <= high && i <= j
    ensures Round8(low * m + (high - low) * i, m) <= Round8(low * m + (high - low) * j, m)
  {
    hide Round8;
    MulMonotone(high - low, i, j);
    MulMonotone(m, low * m + (high - low) * i, low * m + (high - low) * j);
    Round8Monotone(low * m + (high - low) * i, m, low * m + (high - low) * j, m);
  }

  lemma ScaledRound8(x: int, m: int)
    requires m > 0
    ensures Round8(x * m, m) == Round8(x, 1)
  {
    Round8Monotone(x * m, m, x, 1);
    Round8Monotone(x, 1, x * m, m);
  }

  /** Neighbouring rails are one even step apart, up to one grid unit; so when the step is at least a
      grid unit, no two rails coincide. */
  lemma ArithmeticSpacing(low: int, high: int, n: nat, i: nat)
    requires n >= 2 && i + 1 < n
    ensures var r := ArithmeticLevels(low, high, n);
      && -GRID * (n - 1) < (r[i + 1] - r[i]) * (n - 1) - (high - low) < GRID * (n - 1)
      && (high - low >= GRID * (n - 1) ==> r[i] < r[i + 1])
  {
    hide Round8;
    var r, m := ArithmeticLevels(low, high, n), n - 1;
    var x, step := low * m + (high - low) * i, high - low;
    assert low * m + (high - low) * (i + 1) == x + step;
    RoundedStep(x, step, m);
    assert r[i] == Round8(x, m) && r[i + 1] == Round8(x + step, m);
  }

  lemma RoundedStep(x: int, step: int, m: int)
    requires m > 0
    ensures var a, b := Round8(x, m), Round8(x + step, m);
      && -GRID * m < (b - a) * m - step < GRID * m
      && (step >= GRID * m ==> a < b)
  {
    hide Round8;
    var a, b := Round8(x, m), Round8(x + step, m);
    Round8Error(x, m);
    Round8Error(x + step, m);
    assert (b - a) * m == m * b - m * a;
    if step >= GRID * m && b <= a { MulMonotone(m, b, a); }
  }

  /** Every arithmetic rail is the grid price nearest to its even place between low and high. */
  lemma ArithmeticPlaces(low: int, high: int, n: nat, i: nat)
    requires n >= 2 && i < n
    ensures Nearest(ArithmeticLevels(low, high, n)[i], low * (n - 1 - i) + high * i, n - 1)
  {
    hide Round8, Nearest;
    var m := n - 1;
    assert low * m + (high - low) * i == low * (m - i) + high * i;
    Round8IsNearest(low * m + (high - low) * i, m);
  }

  // ---------------------------------------------------------------- geometric rails

  /** Math.round to eight decimals of a real number of units. */
  function RoundReal8(x: real): int {
    GRID * (x / GRID as real + 0.5).Floor
  }

  lemma RoundReal8Monotone(x: real, y: real)
    requires x <= y
    ensures RoundReal8(x) <= RoundReal8(y)
  {
  }

  function Power(ratio: real, k: nat): real {
    if k == 0 then 1.0 else Power(ratio, k - 1) * ratio
  }

  function GeometricPrice(low: int, ratio: real, i: nat): real {
    low as real * Power(ratio, i)
  }

  function GeometricLevels(low: int, ratio: real, n: nat): (r: seq<int>)
    ensures |r| == if n < 2 then 0 else n
  {
    if n < 2 then [] else seq(n, i requires 0 <= i < n => RoundReal8(GeometricPrice(low, ratio, i)))
  }

  lemma {:induction false} PowerGrows(ratio: real, i: nat, j: nat)
    requires ratio >= 1.0 && i <= j
    ensures 1.0 <= Power(ratio, i) <= Power(ratio, j)
    decreases j
  {
    if i < j {
      PowerGrows(ratio, i, j - 1);
    } else if i > 0 {
      PowerGrows(ratio, i - 1, i - 1);
    }
  }

  lemma {:induction false} PowerShrinks(ratio: real, k: nat)
    requires 0.0 < ratio < 1.0
    ensures 0.0 < Power(ratio, k) && (k > 0 ==> Power(ratio, k) < 1.0)
  {
    if k > 0 { PowerShrinks(ratio, k - 1); }
  }

  lemma ScaleMonotone(k: real, x: real, y: real)
    requires k >= 0.0 && x <= y
    ensures k * x <= k * y
  {
  }

  lemma ScaledDown(k: real, x: real)
    requires k > 0.0 && x < 1.0
    ensures k * x < k
  {
  }

  lemma RootAtLeastOne(low: int, high: int, ratio: real, k: nat)
    requires 0 < low <= high && ratio > 0.0 && k > 0 && GeometricPrice(low, ratio, k) == high as real
    ensures ratio >= 1.0
  {
    hide Power;
    if ratio < 1.0 {
      PowerShrinks(ratio, k);
      ScaledDown(low as real, Power(ratio, k));
      assert false;
    }
  }

  lemma GeometricStep(low: int, ratio: real, i: nat, j: nat)
    requires 0 < low && ratio >= 1.0 && i <= j
    ensures RoundReal8(GeometricPrice(low, ratio, i)) <= RoundReal8(GeometricPrice(low, ratio, j))
  {
    PowerGrows(ratio, i, j);
    ScaleMonotone(low as real, Power(ratio, i), Power(ratio, j));
    hide Power, RoundReal8;
    RoundReal8Monotone(GeometricPrice(low, ratio, i), GeometricPrice(low, ratio, j));
  }

  lemma FirstPrice(low: int, ratio: real)
    ensures GeometricPrice(low, ratio, 0) == low as real
  {
  }

  /** With ratio the (n - 1)-th root of high/low: rails never fall and end at the rounded low and high. */
  lemma GeometricRails(low: int, high: int, ratio: real, n: nat)
    requires n >= 2 && 0 < low <= high && ratio > 0.0 && GeometricPrice(low, ratio, n - 1) == high as real
    ensures var r := GeometricLevels(low, ratio, n);
      Monotone(r) && r[0] == RoundReal8(low as real) && r[n - 1] == RoundReal8(high as real)
  {
    hide Power, RoundReal8, GeometricPrice;
    RootAtLeastOne(low, high, ratio, n - 1);
    FirstPrice(low, ratio);
    var r := GeometricLevels(low, ratio, n);
    forall i, j | 0 <= i <= j < n ensures r[i] <= r[j] {
      GeometricStep(low, ratio, i, j);
    }
  }

  /** r is the multiple of 100 nearest to the real number x, the larger one of two. */
  ghost predicate NearestReal(r: int, x: real) {
    r % 100 == 0 && x - 50.0 < r as real <= x + 50.0
  }

  lemma RoundReal8IsNearest(x: real)
    ensures NearestReal(RoundReal8(x), x)
  {
    var k := (x / 100.0 + 0.5).Floor;
    assert x / 100.0 - 0.5 < k as real <= x / 100.0 + 0.5;
    assert (100 * k) as real == 100.0 * k as real;
  }

  /** Prices that start at low and grow by the ratio from rail to rail. */
  ghost predicate Compounds(p: seq<real>, low: int, ratio: real) {
    (p != [] ==> p[0] == low as real) && forall i :: 0 < i < |p| ==> p[i] == p[i - 1] * ratio
  }

  lemma {:induction false} CompoundPrice(p: seq<real>, low: int, ratio: real, i: nat)
    requires Compounds(p, low, ratio) && i < |p|
    ensures p[i] == GeometricPrice(low, ratio, i)
  {
    if i > 0 {
      CompoundPrice(p, low, ratio, i - 1);
      assert low as real * (Power(ratio, i - 1) * ratio) == low as real * Power(ratio, i - 1) * ratio;
    }
  }

  /** Every geometric rail is the grid price nearest to low times the ratio compounded rail by rail; so two
      neighbours whose prices are more than one grid step apart differ. */
  lemma GeometricPlaces(low: int, ratio: real, n: nat, p: seq<real>, i: nat)
    requires n >= 2 && |p| == n && Compounds(p, low, ratio) && i < n
    ensures var r := GeometricLevels(low, ratio, n);
      && NearestReal(r[i], p[i])
      && (i + 1 < n && p[i + 1] - p[i] > 100.0 ==> r[i] < r[i + 1])
  {
    hide RoundReal8, GeometricPrice, Compounds;
    CompoundPrice(p, low, ratio, i);
    RoundReal8IsNearest(p[i]);
    if i + 1 < n {
      CompoundPrice(p, low, ratio, i + 1);
      RoundReal8IsNearest(p[i + 1]);
    }
  }

  // ---------------------------------------------------------------- a lot's cycle

  datatype Cycle = Cycle(buy: nat, sell: Option<nat>, lotId: string, openedAt: int)

  /** The 1e-8 margin above cost. */
  const MARGIN := 100.0

  predicate IsActive(l: Lot) {
    l.base > 0 && l.cost > 0 && l.closedAt.None?
  }

  function CostBasis(l: Lot): real {
    if l.base > 0 && l.cost > 0 then l.cost as real * PRICE_SCALE as real / l.base as real else
    var fallbackBase := if l.originalBase > 0 then l.originalBase else l.base;
    if l.entryPrice > 0 then l.entryPrice as real
    else if fallbackBase > 0 then l.cost as real * PRICE_SCALE as real / fallbackBase as real
    else 0.0
  }

  predicate Profitable(price: int, basis: real) {
    price as real > basis + MARGIN
  }

  /** levels.find, from one rail on. */
  function FirstAbove(levels: seq<int>, basis: real, from: nat): (r: Option<nat>)
    requires from <= |levels|
    ensures r.Some? ==> from <= r.value < |levels| && Profitable(levels[r.value], basis)
                        && forall j :: from <= j < r.value ==> !Profitable(levels[j], basis)
    ensures r.None? ==> forall j :: from <= j < |levels| ==> !Profitable(levels[j], basis)
    decreases |levels| - from
  {
    if from == |levels| then None
    else if Profitable(levels[from], basis) then Some(from)
    else FirstAbove(levels, basis, from + 1)
  }

  function InferCycle(levels: seq<int>, l: Lot): Option<Cycle> {
    var basis := CostBasis(l);
    if basis <= 0.0 || |levels| < 2 then None else
    match FirstAbove(levels, basis, 0)
    case None => Some(Cycle(|levels| - 2, None, l.id, l.openedAt))
    case Some(rail) =>
      var sell := if rail < 1 then 1 else rail;
      Some(Cycle(sell - 1, Some(sell), l.id, l.openedAt))
  }

  lemma ActiveBasis(l: Lot)
    requires IsActive(l)
    ensures CostBasis(l) > 0.0
  {
    Quotient(l.cost as real * PRICE_SCALE as real, l.base as real);
  }

  /** The cost basis of an active lot is its cost per unit of base, as a price. */
  lemma BasisIs(l: Lot)
    requires IsActive(l)
    ensures CostBasis(l) * l.base as real == l.cost as real * 10_000_000_000.0
  {
    DividedBack(l.cost as real * PRICE_SCALE as real, l.base as real);
  }

  lemma DividedBack(x: real, y: real)
    requires y != 0.0
    ensures x / y * y == x
  {
  }

  lemma Quotient(x: real, y: real)
    requires x > 0.0 && y > 0.0
    ensures x / y > 0.0
  {
  }

  /** Every active lot gets a cycle of its own, whatever the rails. */
  lemma ActiveLotGetsCycle(levels: seq<int>, l: Lot)
    requires IsActive(l) && |levels| >= 2
    ensures InferCycle(levels, l).Some? && InferCycle(levels, l).value.lotId == l.id
  {
    ActiveBasis(l);
    hide CostBasis;
  }

  /** On rails that never fall, the cycle sells at the lowest rail from 1 up that beats the lot's cost
      basis, so that rail and every higher one are profitable, and buys one rail below; with no such rail there is
      no sell rail and it buys at the last but one. */
  lemma InferredCycle(levels: seq<int>, l: Lot)
    requires IsActive(l) && |levels| >= 2 && Monotone(levels)
    ensures InferCycle(levels, l).Some?
    ensures var c, n, basis := InferCycle(levels, l).value, |levels|, CostBasis(l);
      && c.lotId == l.id && c.openedAt == l.openedAt && c.buy <= n - 2
      && (c.sell.Some? ==>
            && c.buy + 1 == c.sell.value < n
            && (forall j :: c.sell.value <= j < n ==> levels[j] as real > basis + 100.0)
            && (forall j :: 1 <= j < c.sell.value ==> levels[j] as real <= basis + 100.0))
      && (c.sell.None? <==> forall j :: 0 <= j < n ==> levels[j] as real <= basis + 100.0)
      && (c.sell.None? ==> c.buy == n - 2)
      && basis * l.base as real == l.cost as real * 10_000_000_000.0
  {
    ActiveBasis(l);
    BasisIs(l);
    hide CostBasis;
    var first := FirstAbove(levels, CostBasis(l), 0);
    if first.Some? {
      forall j | first.value <= j < |levels| ensures Profitable(levels[j], CostBasis(l)) {
        assert levels[first.value] <= levels[j];
      }
    }
  }
}
