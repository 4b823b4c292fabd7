/** Money arithmetic. Every stored amount is a Decimal(30, 10), so an amount is an
    integer number of 1e-10 units. The scripts round to eight decimals, that is to
    multiples of GRID units, with Math.round's rule: ties go up. */
module Rounding {
  const GRID := 100
  const HALF_STEP := 50
  const PRICE_SCALE := 10_000_000_000    // units of price per unit ratio

  ghost predicate OnGrid(x: int) { x % GRID == 0 }

  lemma GridSum(x: int, y: int)
    requires OnGrid(x) && OnGrid(y)
    ensures OnGrid(x + y) && OnGrid(x - y)
  {
  }

  /** Math.round(n / d): the integer nearest to n/d, ties towards positive infinity. */
  function RoundHalfUp(n: int, d: int): (r: int)
    requires d > 0
    ensures 2 * n - d < 2 * d * r <= 2 * n + d
  {
    (2 * n + d) / (2 * d)
  }

  lemma RoundHalfUpUnique(n: int, d: int, r: int)
    requires d > 0 && 2 * n - d < 2 * d * r <= 2 * n + d
    ensures r == RoundHalfUp(n, d)
  {
    var q := RoundHalfUp(n, d);
    LessThanOneStep(2 * d, r - q);
    LessThanOneStep(2 * d, q - r);
  }

  lemma LessThanOneStep(k: int, x: int)
    requires k > 0 && k * x < k
    ensures x < 1
  {
    if x >= 1 {
      MulMonotone(k, 1, x);
      assert false;
    }
  }

  /** Rounding is monotone in the ratio, whatever the two denominators are. */
  lemma RoundHalfUpMonotone(n1: int, d1: int, n2: int, d2: int)
    requires d1 > 0 && d2 > 0 && n1 * d2 <= n2 * d1
    ensures RoundHalfUp(n1, d1) <= RoundHalfUp(n2, d2)
  {
    var a, b := RoundHalfUp(n1, d1), RoundHalfUp(n2, d2);
    if a > b {
      // a <= n1/d1 + 1/2 <= n2/d2 + 1/2 < b + 1 <= a
      assert 2 * d1 * a * d2 <= (2 * n1 + d1) * d2;
      assert (2 * n2 - d2) * d1 < 2 * d2 * b * d1;
      assert d1 * d2 * a >= d1 * d2 * (b + 1) by {
        assert d1 * d2 > 0;
        MulMonotone(d1 * d2, b + 1, a);
      }
      assert false;
    }
  }

  /** Multiplication, named so that a proof can treat products as plain terms. */
  function Times(x: int, y: int): int { x * y }

  lemma TimesSum(k: int, x: int, y: int)
    ensures Times(k, x + y) == Times(k, x) + Times(k, y)
  {
  }

  lemma MulMonotone(k: int, x: int, y: int)
    requires k >= 0 && x <= y
    ensures k * x <= k * y
  {
  }

  /** round(n / d, 8), n and the result in 1e-10 units. */
  function Round8(n: int, d: int): (r: int)
    requires d > 0
    ensures OnGrid(r)
  {
    GRID * RoundHalfUp(n, GRID * d)
  }

  /** The rounding error is at most half a grid step. */
  lemma Round8Error(n: int, d: int)
    requires d > 0
    ensures 2 * n - GRID * d < 2 * (d * Round8(n, d)) <= 2 * n + GRID * d
  {
    var q := RoundHalfUp(n, GRID * d);
    assert 2 * (d * (GRID * q)) == 2 * (GRID * d) * q;
  }

  /** Whole grid steps pass through the rounding unchanged. */
  lemma Round8Shift(n: int, d: int, g: int)
    requires d > 0 && OnGrid(g)
    ensures Round8(n + g * d, d) == Round8(n, d) + g
  {
    var k := g / GRID;
    var q := RoundHalfUp(n, GRID * d);
    assert g == GRID * k;
    assert 2 * (GRID * d) * (q + k) == 2 * (GRID * d) * q + 2 * (g * d) by {
      assert (GRID * d) * k == g * d;
    }
    RoundHalfUpUnique(n + g * d, GRID * d, q + k);
  }

  lemma Round8Exact(g: int)
    requires OnGrid(g)
    ensures Round8(g, 1) == g
  {
    Round8Shift(0, 1, g);
  }

  /** q is the multiple of 100 nearest to n / d, the larger one of two. */
  ghost predicate Nearest(q: int, n: int, d: int)
    requires d > 0
  {
    q % 100 == 0 && 2 * n - 100 * d < 2 * (d * q) <= 2 * n + 100 * d
  }

  lemma Round8IsNearest(n: int, d: int)
    requires d > 0
    ensures Nearest(Round8(n, d), n, d)
  {
    hide Round8;
    Round8Error(n, d);
  }

  /** There is only one such number. */
  lemma NearestIsRound8(q: int, n: int, d: int)
    requires d > 0 && Nearest(q, n, d)
    ensures q == Round8(n, d)
  {
    var k := q / 100;
    assert 2 * (d * q) == 2 * (GRID * d) * k;
    hide RoundHalfUp;
    RoundHalfUpUnique(n, GRID * d, k);
  }

  lemma Round8Near(x: int)
    ensures -HALF_STEP <= Round8(x, 1) - x <= HALF_STEP
  {
    hide Round8;
    Round8Error(x, 1);
  }

  lemma Round8Monotone(n1: int, d1: int, n2: int, d2: int)
    requires d1 > 0 && d2 > 0 && n1 * d2 <= n2 * d1
    ensures Round8(n1, d1) <= Round8(n2, d2)
  {
    assert n1 * (GRID * d2) == GRID * (n1 * d2) && n2 * (GRID * d1) == GRID * (n2 * d1);
    RoundHalfUpMonotone(n1, GRID * d1, n2, GRID * d2);
  }

  /** A rounded share of a grid amount stays between zero and the amount. */
  lemma Round8Share(amount: int, part: int, whole: int)
    requires OnGrid(amount) && amount >= 0 && whole > 0 && 0 <= part <= whole
    ensures 0 <= Round8(amount * part, whole) <= amount
  {
    MulMonotone(amount, part, whole);
    MulMonotone(amount, 0, part);
    Round8Exact(0);
    Round8Exact(amount);
    Round8Monotone(0, 1, amount * part, whole);
    Round8Monotone(amount * part, whole, amount, 1);
  }
}
