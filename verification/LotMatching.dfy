/** Which lots one sell takes, and in what order. */
module LotMatching {
  import opened Rounding
  import opened LotReplay
  import opened LotConservation

  lemma SameIdSameLot(lots: seq<Lot>, a: Lot, b: Lot)
    requires DistinctLots(lots) && a in lots && b in lots && a.id == b.id
    ensures a == b
  {
  }

  /** The candidate list is exactly the lots at the paired level plus the profitable ones. */
  lemma CandidateIds(lots: seq<Lot>, e: Execution)
    requires DistinctLots(lots)
    ensures forall l :: l in lots ==> (l.id in Ids(Candidates(lots, e)) <==> IsExactLevel(l, e) || IsFallback(l, e))
  {
    var exact, pool := ExactCandidates(lots, e), FallbackPool(lots, e);
    SameMembers(SortByOpenedAt(pool), pool);
    SameMembers(Candidates(lots, e), exact + SortByOpenedAt(pool));
    forall l | l in lots
      ensures l.id in Ids(Candidates(lots, e)) <==> IsExactLevel(l, e) || IsFallback(l, e)
    {
      if l.id in Ids(Candidates(lots, e)) {
        var c :| c in Candidates(lots, e) && c.id == l.id;
        SameIdSameLot(lots, c, l);
      }
      if l.id in Ids(exact) {
        var c :| c in exact && c.id == l.id;
        SameIdSameLot(lots, c, l);
      } else if IsFallback(l, e) {
        assert l in pool && l in Candidates(lots, e);
      }
      if IsExactLevel(l, e) {
        assert l in exact && l in Candidates(lots, e);
      }
    }
  }

  lemma SameMembers(a: seq<Lot>, b: seq<Lot>)
    requires multiset(a) == multiset(b)
    ensures forall l :: l in a <==> l in b
  {
    forall l ensures l in a <==> l in b {
      assert l in a <==> l in multiset(a);
      assert l in b <==> l in multiset(b);
    }
  }

  /** Neither sort changes a sell: any other order of the two candidate lists gives the same walk. */
  lemma SortsDoNotMatter(lots: seq<Lot>, e: Execution, pool: seq<Lot>, candidates: seq<Lot>, pot: Pot)
    requires e.Input() > 0
    requires multiset(pool) == multiset(FallbackPool(lots, e))
    requires multiset(candidates) == multiset(ExactCandidates(lots, e) + pool)
    ensures SellWalk(lots, Ids(candidates), e, pot) == SellWalk(lots, Ids(Candidates(lots, e)), e, pot)
  {
    var sortedPool := SortByOpenedAt(FallbackPool(lots, e));
    assert multiset(ExactCandidates(lots, e) + pool) == multiset(ExactCandidates(lots, e) + sortedPool);
    SameMembers(candidates, Candidates(lots, e));
    assert Ids(candidates) == Ids(Candidates(lots, e));
  }

  ghost predicate Emptied(l: Lot, after: Lot, f: Fill) { f.base == l.base && after.base == 0 }
  ghost predicate Untouched(l: Lot, after: Lot, f: Fill) { f == NO_FILL && after == l }

  /** Candidates before k were sold out, everything else is as it was; at k the sell ran out
      of base (up to dust), possibly inside lot k. */
  ghost predicate Disciplined(lots: seq<Lot>, ids: set<string>, w: Walk, k: nat)
    requires |w.lots| == |lots| == |w.fills|
  {
    && k <= |lots|
    && (forall i :: 0 <= i < k ==> if lots[i].id in ids then Emptied(lots[i], w.lots[i], w.fills[i])
                                   else Untouched(lots[i], w.lots[i], w.fills[i]))
    && (k < |lots| ==>
          && w.pot.toSell <= MATERIAL_BASE
          && (Untouched(lots[k], w.lots[k], w.fills[k]) || (lots[k].id in ids && 0 < w.fills[k].base < lots[k].base)))
    && (forall i :: k < i < |lots| ==> Untouched(lots[i], w.lots[i], w.fills[i]))
  }

  lemma DisciplineStep(l: Lot, after: Lot, f: Fill, lots: seq<Lot>, ids: set<string>, w: Walk, k: nat)
    requires |w.lots| == |lots| == |w.fills| && Disciplined(lots, ids, w, k)
    requires if l.id in ids then Emptied(l, after, f) else Untouched(l, after, f)
    ensures Disciplined([l] + lots, ids, Walk([after] + w.lots, w.pot, [f] + w.fills), k + 1)
  {
  }

  /** A sell empties a prefix of its candidates, stops inside at most one more, and leaves every
      other lot as it was; it stops before the last candidate only when at most a dust amount is left. */
  lemma {:induction false} WalkDiscipline(lots: seq<Lot>, ids: set<string>, e: Execution, pot: Pot) returns (k: nat)
    requires e.Counts() && OnGrid(pot.realized) && Sellable(lots, ids)
    ensures Disciplined(lots, ids, SellWalk(lots, ids, e, pot), k)
  {
    hide *;
    CountedInput(e);
    if lots == [] || pot.toSell <= MATERIAL_BASE {
      StopsBefore(lots, ids, e, pot);
      return 0;
    }
    var left, f, after := PotAfter(lots[0], ids, e, pot), FillOf(lots[0], ids, e, pot), LotAfter(lots[0], ids, e, pot);
    SellableTail(lots, ids);
    SellOneLot(lots[0], ids, e, pot);
    if 0 < f.base < lots[0].base {
      StopsInside(lots, ids, e, pot);
      return 0;
    }
    GoesPast(lots[0], ids, e, pot);
    k := WalkDiscipline(lots[1..], ids, e, left);
    DisciplineStep(lots[0], after, f, lots[1..], ids, SellWalk(lots[1..], ids, e, left), k);
    WalkSums(lots, ids, e, pot);
    assert [lots[0]] + lots[1..] == lots;
    k := k + 1;
  }

  lemma StopsBefore(lots: seq<Lot>, ids: set<string>, e: Execution, pot: Pot)
    requires e.Input() > 0 && (lots == [] || pot.toSell <= MATERIAL_BASE)
    ensures Disciplined(lots, ids, SellWalk(lots, ids, e, pot), 0)
  {
    hide SellWalk;
    if lots != [] { WalkIdle(lots, ids, e, pot); }
  }

  lemma StopsInside(lots: seq<Lot>, ids: set<string>, e: Execution, pot: Pot)
    requires e.Counts() && OnGrid(pot.realized) && Sellable(lots, ids) && lots != []
    requires 0 < FillOf(lots[0], ids, e, pot).base < lots[0].base
    ensures Disciplined(lots, ids, SellWalk(lots, ids, e, pot), 0)
  {
    SellableTail(lots, ids);
    SellOneLot(lots[0], ids, e, pot);
    WalkSums(lots, ids, e, pot);
    hide LotAfter, PotAfter, FillOf, SellWalk, Sellable;
    WalkIdle(lots[1..], ids, e, PotAfter(lots[0], ids, e, pot));
  }

  lemma GoesPast(l: Lot, ids: set<string>, e: Execution, pot: Pot)
    requires e.Counts() && OnGrid(pot.realized) && Sellable([l], ids) && pot.toSell > MATERIAL_BASE
    requires !(0 < FillOf(l, ids, e, pot).base < l.base)
    ensures if l.id in ids then Emptied(l, LotAfter(l, ids, e, pot), FillOf(l, ids, e, pot))
            else Untouched(l, LotAfter(l, ids, e, pot), FillOf(l, ids, e, pot))
  {
    SellOneLot(l, ids, e, pot);
    assert l in [l];
    hide LotAfter, PotAfter, FillOf;
    if !Takes(l, ids, pot) { SkippedLot(l, ids, e, pot); }
  }

  /** A lot sold only because it was profitable never realises a gross loss, even after rounding. */
  lemma {:induction false} WalkFallbackGain(lots: seq<Lot>, ids: set<string>, e: Execution, pot: Pot, i: nat)
    requires e.Counts() && OnGrid(pot.realized) && Sellable(lots, ids)
    requires i < |lots| && (lots[i].id in ids ==> IsProfitable(lots[i], e))
    ensures SellWalk(lots, ids, e, pot).fills[i].quote >= SellWalk(lots, ids, e, pot).fills[i].cost
  {
    hide LotAfter, PotAfter, FillOf;
    SellableTail(lots, ids);
    SellOneLot(lots[0], ids, e, pot);
    if i > 0 {
      WalkFallbackGain(lots[1..], ids, e, PotAfter(lots[0], ids, e, pot), i - 1);
    } else {
      ProfitableFill(lots[0], ids, e, pot);
    }
  }

  lemma ProfitableFill(l: Lot, ids: set<string>, e: Execution, pot: Pot)
    requires e.Counts() && Sellable([l], ids) && (l.id in ids ==> IsProfitable(l, e))
    ensures FillOf(l, ids, e, pot).quote >= FillOf(l, ids, e, pot).cost
  {
    hide Round8;
    assert l in [l];
    if Takes(l, ids, pot) {
      var b := FillOf(l, ids, e, pot).base;
      assert l.cost * b * e.Input() <= e.Output() * b * l.base by {
        MulMonotone(b, l.cost * e.Input(), e.Output() * l.base);
        assert l.cost * b * e.Input() == b * (l.cost * e.Input());
        assert e.Output() * b * l.base == b * (e.Output() * l.base);
      }
      Round8Monotone(l.cost * b, l.base, e.Output() * b, e.Input());
    }
  }
}
