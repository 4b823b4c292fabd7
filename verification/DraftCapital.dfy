/** normalizeBotDraftCapital in apps/web/src/lib/bot-management.ts. */
module DraftCapital {
  import opened Numbers

  datatype Capital = Capital(budget: real, reserve: real, deployable: real)

  /** roundDraftNumber with two digits. */
  function RoundCents(x: real): real {
    (x * 100.0 + 0.5).Floor as real / 100.0
  }

  function Max0(x: real): real { MaxReal(x, 0.0) }

  function Normalize(c: Capital): Capital {
    var budget := Max0(RoundCents(c.budget));
    var reserve := MinReal(budget, Max0(RoundCents(c.reserve)));
    Capital(budget, reserve, MinReal(budget - reserve, Max0(RoundCents(c.deployable))))
  }

  ghost predicate WholeCents(x: real) { exists k: int :: x == Cents(k) }

  ghost function Cents(k: int): real { k as real / 100.0 }

  /** Whole cents, nothing negative, reserve and deployable together within the budget. */
  ghost predicate Sound(c: Capital) {
    && WholeCents(c.budget) && WholeCents(c.reserve) && WholeCents(c.deployable)
    && 0.0 <= c.reserve && 0.0 <= c.deployable && c.reserve + c.deployable <= c.budget
  }

  lemma RoundedIsWhole(x: real)
    ensures WholeCents(RoundCents(x)) && WholeCents(Max0(RoundCents(x)))
  {
    assert RoundCents(x) == Cents((x * 100.0 + 0.5).Floor) && 0.0 == Cents(0);
  }

  lemma HalfUpWhole(k: int)
    ensures (k as real + 0.5).Floor == k
  {
  }

  lemma RoundCentsExact(x: real)
    requires WholeCents(x)
    ensures RoundCents(x) == x
  {
    var k: int :| x == Cents(k);
    assert x * 100.0 == k as real;
    HalfUpWhole(k);
    assert (x * 100.0 + 0.5).Floor == k;
  }

  lemma WholeDifference(x: real, y: real)
    requires WholeCents(x) && WholeCents(y)
    ensures WholeCents(x - y)
  {
    var j: int, k: int :| x == Cents(j) && y == Cents(k);
    assert x - y == Cents(j - k);
  }

  lemma SoundIsFixed(c: Capital)
    requires Sound(c)
    ensures Normalize(c) == c
  {
    RoundCentsExact(c.budget);
    RoundCentsExact(c.reserve);
    RoundCentsExact(c.deployable);
    hide RoundCents, WholeCents;
  }

  /** Normalising always gives sound capital, and leaves a draft alone exactly when it is already sound;
      so a second normalisation changes nothing. */
  lemma NormalizeSound(c: Capital)
    ensures Sound(Normalize(c))
    ensures Normalize(c) == c <==> Sound(c)
    ensures Normalize(Normalize(c)) == Normalize(c)
  {
    hide RoundCents, WholeCents;
    RoundedIsWhole(c.budget);
    RoundedIsWhole(c.reserve);
    RoundedIsWhole(c.deployable);
    var n := Normalize(c);
    WholeDifference(n.budget, n.reserve);
    SoundIsFixed(n);
    if Sound(c) { SoundIsFixed(c); }
  }

  /** y is the whole number of cents nearest to x, the larger one of two. */
  ghost predicate NearestCent(y: real, x: real) {
    WholeCents(y) && x - 0.005 < y <= x + 0.005
  }

  lemma RoundedIsNearest(x: real)
    ensures NearestCent(RoundCents(x), x)
  {
    RoundedIsWhole(x);
    var k := (x * 100.0 + 0.5).Floor;
    assert x * 100.0 - 0.5 < k as real <= x * 100.0 + 0.5;
  }

  /** x brought into the range from 0 to top. */
  ghost function Clamped(x: real, top: real): real {
    if x < 0.0 then 0.0 else if x > top then top else x
  }

  /** What normalising gives: each figure to the nearest cent, the budget not negative, the reserve within the budget
      and the deployable capital within the rest. */
  lemma NormalizeGives(c: Capital) returns (budget: real, reserve: real, deployable: real)
    ensures NearestCent(budget, c.budget) && NearestCent(reserve, c.reserve) && NearestCent(deployable, c.deployable)
    ensures var n := Normalize(c);
      && n.budget == (if budget < 0.0 then 0.0 else budget)
      && n.reserve == Clamped(reserve, n.budget) && n.deployable == Clamped(deployable, n.budget - n.reserve)
  {
    hide RoundCents, NearestCent;
    budget, reserve, deployable := RoundCents(c.budget), RoundCents(c.reserve), RoundCents(c.deployable);
    RoundedIsNearest(c.budget);
    RoundedIsNearest(c.reserve);
    RoundedIsNearest(c.deployable);
  }
}
