/** remapOpenLotsToGridCycles in apps/web/src/lib/bot-management.ts: open lots keyed by buy rail, with a
    lot key when the rail is taken. */
module GridCycles {
  import opened GridRails
  import opened LotReplay
  import opened Sorting
  import opened Text
  import opened Wrappers

  type Cycles = map<string, Cycle>

  function LotKey(id: string): string { "lot:" + id }

  function ActiveLots(lots: seq<Lot>): seq<Lot> {
    SortByOpenedAt(Filter(IsActive, lots))
  }

  /** One pass of the loop. */
  function Place(levels: seq<int>, cycles: Cycles, l: Lot): Cycles {
    var c := InferCycle(levels, l);
    if c.None? then cycles else
    var levelKey := Decimal(c.value.buy);
    cycles[(if levelKey in cycles then LotKey(l.id) else levelKey) := c.value]
  }

  function PlaceAll(levels: seq<int>, lots: seq<Lot>): Cycles {
    if lots == [] then map[] else Place(levels, PlaceAll(levels, lots[..|lots| - 1]), lots[|lots| - 1])
  }

  method RemapOpenLots(levels: seq<int>, openLots: seq<Lot>) returns (cycles: Cycles)
    ensures cycles == PlaceAll(levels, ActiveLots(openLots))
  {
    hide ActiveLots, InferCycle, Decimal, LotKey;
    cycles := map[];
    var active := ActiveLots(openLots);
    for i := 0 to |active|
      invariant cycles == PlaceAll(levels, active[..i])
    {
      assert active[..i + 1][..i] == active[..i];
      var cycle := InferCycle(levels, active[i]);
      if cycle.Some? {
        var levelKey := Decimal(cycle.value.buy);
        var cycleKey := if levelKey in cycles then LotKey(active[i].id) else levelKey;
        cycles := cycles[cycleKey := cycle.value];
      }
    }
    assert active[..|active|] == active;
  }

  // ---------------------------------------------------------------- the keys in closed form

  /** Lots that all get a cycle. */
  ghost predicate Placeable(levels: seq<int>, lots: seq<Lot>) {
    DistinctLots(lots) && forall i :: 0 <= i < |lots| ==> InferCycle(levels, lots[i]).Some?
  }

  ghost function BuyOf(levels: seq<int>, l: Lot): nat
    requires InferCycle(levels, l).Some?
  {
    InferCycle(levels, l).value.buy
  }

  /** No earlier lot wants the same rail. */
  ghost predicate FirstOnRail(levels: seq<int>, lots: seq<Lot>, i: nat)
    requires Placeable(levels, lots) && i < |lots|
  {
    forall j :: 0 <= j < i ==> BuyOf(levels, lots[j]) != BuyOf(levels, lots[i])
  }

  ghost function KeyOf(levels: seq<int>, lots: seq<Lot>, i: nat): string
    requires Placeable(levels, lots) && i < |lots|
  {
    if FirstOnRail(levels, lots, i) then Decimal(BuyOf(levels, lots[i])) else LotKey(lots[i].id)
  }

  lemma RailKeyIsNotLotKey(n: nat, id: string)
    ensures Decimal(n) != LotKey(id)
  {
    assert LotKey(id)[0] == 'l' && IsDigit(Decimal(n)[0]);
  }

  lemma LotKeyInjective(a: string, b: string)
    requires LotKey(a) == LotKey(b)
    ensures a == b
  {
    assert LotKey(a)[4..] == a && LotKey(b)[4..] == b;
  }

  lemma KeysDistinct(levels: seq<int>, lots: seq<Lot>, i: nat, j: nat)
    requires Placeable(levels, lots) && i < j < |lots|
    ensures KeyOf(levels, lots, i) != KeyOf(levels, lots, j)
  {
    hide InferCycle, LotKey, Decimal;
    var bi, bj := BuyOf(levels, lots[i]), BuyOf(levels, lots[j]);
    RailKeyIsNotLotKey(bi, lots[j].id);
    RailKeyIsNotLotKey(bj, lots[i].id);
    if KeyOf(levels, lots, i) == KeyOf(levels, lots, j) {
      if FirstOnRail(levels, lots, i) {
        DecimalInjective(bi, bj);
      } else {
        LotKeyInjective(lots[i].id, lots[j].id);
      }
    }
  }

  /** Every lot under its own key, and no other key. */
  ghost predicate Keyed(levels: seq<int>, lots: seq<Lot>, cycles: Cycles)
    requires Placeable(levels, lots)
  {
    && |cycles| == |lots|
    && (forall i :: 0 <= i < |lots| ==>
          KeyOf(levels, lots, i) in cycles && Some(cycles[KeyOf(levels, lots, i)]) == InferCycle(levels, lots[i]))
    && (forall k :: k in cycles ==> exists i :: 0 <= i < |lots| && k == KeyOf(levels, lots, i))
  }

  lemma PrefixKeys(levels: seq<int>, init: seq<Lot>, l: Lot)
    requires Placeable(levels, init + [l])
    ensures Placeable(levels, init)
    ensures forall i :: 0 <= i < |init| ==> KeyOf(levels, init, i) == KeyOf(levels, init + [l], i)
  {
    hide InferCycle, LotKey, Decimal;
    var all := init + [l];
    assert forall i :: 0 <= i < |init| ==> all[i] == init[i];
  }

  /** The loop's test for a taken rail is the closed form's. */
  lemma RailTaken(levels: seq<int>, init: seq<Lot>, l: Lot, cycles: Cycles)
    requires Placeable(levels, init + [l]) && Placeable(levels, init) && InferCycle(levels, l).Some?
    requires Keyed(levels, init, cycles)
    ensures Decimal(BuyOf(levels, l)) in cycles <==> !FirstOnRail(levels, init + [l], |init|)
  {
    hide InferCycle, LotKey, Decimal;
    var all, b := init + [l], BuyOf(levels, l);
    if Decimal(b) in cycles {
      var i :| 0 <= i < |init| && Decimal(b) == KeyOf(levels, init, i);
      RailKeyIsNotLotKey(b, init[i].id);
      DecimalInjective(b, BuyOf(levels, init[i]));
      assert all[i] == init[i];
    }
    if !FirstOnRail(levels, all, |init|) {
      var j :| 0 <= j < |init| && BuyOf(levels, all[j]) == b;
      var i := FirstWith(levels, init, j);
      assert KeyOf(levels, init, i) == Decimal(b);
    }
  }

  lemma {:induction false} FirstWith(levels: seq<int>, lots: seq<Lot>, j: nat) returns (i: nat)
    requires Placeable(levels, lots) && j < |lots|
    ensures i <= j && BuyOf(levels, lots[i]) == BuyOf(levels, lots[j]) && FirstOnRail(levels, lots, i)
    decreases j
  {
    hide InferCycle;
    if FirstOnRail(levels, lots, j) { return j; }
    var k :| 0 <= k < j && BuyOf(levels, lots[k]) == BuyOf(levels, lots[j]);
    i := FirstWith(levels, lots, k);
  }

  lemma {:induction false} PlaceAllKeyed(levels: seq<int>, lots: seq<Lot>)
    requires Placeable(levels, lots)
    ensures Keyed(levels, lots, PlaceAll(levels, lots))
  {
    hide InferCycle, LotKey, Decimal;
    if lots != [] {
      var n := |lots| - 1;
      var init, l := lots[..n], lots[n];
      assert lots == init + [l];
      PrefixKeys(levels, init, l);
      PlaceAllKeyed(levels, init);
      assert InferCycle(levels, lots[n]).Some?;
      RailTaken(levels, init, l, PlaceAll(levels, init));
      KeyedStep(levels, init, l, PlaceAll(levels, init));
    }
  }

  lemma KeyIsFresh(levels: seq<int>, init: seq<Lot>, l: Lot, cycles: Cycles)
    requires Placeable(levels, init + [l]) && Placeable(levels, init) && Keyed(levels, init, cycles)
    ensures KeyOf(levels, init + [l], |init|) !in cycles
  {
    hide InferCycle, KeyOf;
    var all, key := init + [l], KeyOf(levels, init + [l], |init|);
    if key in cycles {
      var i :| 0 <= i < |init| && key == KeyOf(levels, init, i);
      PrefixKeys(levels, init, l);
      KeysDistinct(levels, all, i, |init|);
    }
  }

  /** A map that holds exactly the given entries under the given keys. */
  ghost predicate Holds(keys: seq<string>, values: seq<Option<Cycle>>, cycles: Cycles)
    requires |keys| == |values|
  {
    && |cycles| == |keys|
    && (forall i :: 0 <= i < |keys| ==> keys[i] in cycles && Some(cycles[keys[i]]) == values[i])
    && (forall k :: k in cycles ==> k in keys)
  }

  lemma HoldsNext(keys: seq<string>, values: seq<Option<Cycle>>, cycles: Cycles, key: string, c: Cycle)
    requires |keys| == |values| && Holds(keys, values, cycles) && key !in cycles
    ensures Holds(keys + [key], values + [Some(c)], cycles[key := c])
  {
    var next := cycles[key := c];
    assert next.Keys == cycles.Keys + {key};
    forall i | 0 <= i <= |keys| ensures (keys + [key])[i] in next && Some(next[(keys + [key])[i]]) == (values + [Some(c)])[i] {
      if i < |keys| { assert keys[i] in cycles; }
    }
    forall k | k in next ensures k in keys + [key] {
      if k == key { assert (keys + [key])[|keys|] == key; } else { assert k in cycles; }
    }
  }

  ghost function KeysOf(levels: seq<int>, lots: seq<Lot>): seq<string>
    requires Placeable(levels, lots)
  {
    seq(|lots|, i requires 0 <= i < |lots| => KeyOf(levels, lots, i))
  }

  ghost function CyclesOf(levels: seq<int>, lots: seq<Lot>): seq<Option<Cycle>> {
    seq(|lots|, i requires 0 <= i < |lots| => InferCycle(levels, lots[i]))
  }

  lemma KeyIsIn(levels: seq<int>, lots: seq<Lot>, k: string)
    requires Placeable(levels, lots)
    ensures k in KeysOf(levels, lots) <==> exists i :: 0 <= i < |lots| && k == KeyOf(levels, lots, i)
  {
    hide InferCycle, KeyOf, Placeable;
    var keys := KeysOf(levels, lots);
    if i :| 0 <= i < |lots| && k == KeyOf(levels, lots, i) { assert keys[i] == k; }
    if k in keys {
      var i :| 0 <= i < |keys| && keys[i] == k;
      assert k == KeyOf(levels, lots, i);
    }
  }

  lemma KeyedIsHeld(levels: seq<int>, lots: seq<Lot>, cycles: Cycles)
    requires Placeable(levels, lots)
    ensures Keyed(levels, lots, cycles) ==> Holds(KeysOf(levels, lots), CyclesOf(levels, lots), cycles)
    ensures Holds(KeysOf(levels, lots), CyclesOf(levels, lots), cycles) ==> Keyed(levels, lots, cycles)
  {
    hide InferCycle, KeyOf, Placeable;
    var keys, values := KeysOf(levels, lots), CyclesOf(levels, lots);
    if Keyed(levels, lots, cycles) {
      forall k | k in cycles ensures k in keys { KeyIsIn(levels, lots, k); }
    }
    if Holds(keys, values, cycles) {
      forall k | k in cycles ensures exists i :: 0 <= i < |lots| && k == KeyOf(levels, lots, i) { KeyIsIn(levels, lots, k); }
      forall i | 0 <= i < |lots|
        ensures KeyOf(levels, lots, i) in cycles && Some(cycles[KeyOf(levels, lots, i)]) == InferCycle(levels, lots[i])
      {
        assert keys[i] == KeyOf(levels, lots, i) && values[i] == InferCycle(levels, lots[i]);
      }
    }
  }

  lemma KeysSnoc(levels: seq<int>, init: seq<Lot>, l: Lot)
    requires Placeable(levels, init + [l]) && Placeable(levels, init)
    ensures KeysOf(levels, init + [l]) == KeysOf(levels, init) + [KeyOf(levels, init + [l], |init|)]
    ensures CyclesOf(levels, init + [l]) == CyclesOf(levels, init) + [InferCycle(levels, l)]
  {
    PrefixKeys(levels, init, l);
    hide InferCycle, KeyOf, Placeable;
  }

  lemma KeyedStep(levels: seq<int>, init: seq<Lot>, l: Lot, cycles: Cycles)
    requires Placeable(levels, init + [l]) && Placeable(levels, init) && InferCycle(levels, l).Some?
    requires Keyed(levels, init, cycles)
    ensures Keyed(levels, init + [l], cycles[KeyOf(levels, init + [l], |init|) := InferCycle(levels, l).value])
  {
    hide InferCycle, KeyOf, Placeable, Keyed, Holds;
    var key, c := KeyOf(levels, init + [l], |init|), InferCycle(levels, l).value;
    KeyIsFresh(levels, init, l, cycles);
    KeyedIsHeld(levels, init, cycles);
    HoldsNext(KeysOf(levels, init), CyclesOf(levels, init), cycles, key, c);
    KeysSnoc(levels, init, l);
    KeyedIsHeld(levels, init + [l], cycles[key := c]);
  }

  // ---------------------------------------------------------------- the sorted active lots

  lemma {:induction false} InsertDistinct(l: Lot, sorted: seq<Lot>)
    requires DistinctLots([l] + sorted)
    ensures DistinctLots(Insert(OpenedAt, l, sorted))
  {
    if sorted != [] && l.openedAt > sorted[0].openedAt {
      var t := Insert(OpenedAt, l, sorted[1..]);
      HeadTail(l, sorted);
      InsertDistinct(l, sorted[1..]);
      SameElements(t, [l] + sorted[1..]);
      PrependDistinct(sorted[0], t);
    }
  }

  lemma PrependDistinct(l: Lot, t: seq<Lot>)
    requires DistinctLots(t) && forall x :: x in t ==> x.id != l.id
    ensures DistinctLots([l] + t)
  {
    forall k | 0 <= k < |t| ensures t[k].id != l.id {
      assert t[k] in t;
    }
  }

  lemma HeadTail(l: Lot, sorted: seq<Lot>)
    requires sorted != [] && DistinctLots([l] + sorted)
    ensures DistinctLots([l] + sorted[1..])
    ensures forall x :: x in [l] + sorted[1..] ==> x.id != sorted[0].id
  {
    var a, b := [l] + sorted, [l] + sorted[1..];
    assert a[1] == sorted[0];
    assert forall k :: 0 < k < |b| ==> b[k] == a[k + 1];
    forall x | x in b ensures x.id != sorted[0].id {
      var k :| 0 <= k < |b| && b[k] == x;
      if k == 0 { assert a[0] == x; } else { assert a[k + 1] == x; }
    }
    forall i, j | 0 <= i < j < |b| ensures b[i].id != b[j].id {
      if i == 0 { assert a[0].id != a[j + 1].id; } else { assert a[i + 1].id != a[j + 1].id; }
    }
  }

  lemma {:induction false} SortDistinct(lots: seq<Lot>)
    requires DistinctLots(lots)
    ensures DistinctLots(Sort(OpenedAt, lots))
  {
    if lots != [] {
      hide Insert;
      var s := Sort(OpenedAt, lots[1..]);
      SortDistinct(lots[1..]);
      SameElements(s, lots[1..]);
      PrependDistinct(lots[0], s);
      InsertDistinct(lots[0], s);
    }
  }

  lemma {:induction false} FilterKeeps(lots: seq<Lot>)
    requires DistinctLots(lots)
    ensures DistinctLots(Filter(IsActive, lots))
  {
    if lots != [] {
      var t := Filter(IsActive, lots[1..]);
      FilterKeeps(lots[1..]);
      forall k | 0 <= k < |t| ensures t[k].id != lots[0].id {
        assert t[k] in lots[1..];
      }
    }
  }

  lemma ActiveLotsAre(lots: seq<Lot>)
    requires DistinctLots(lots)
    ensures var a := ActiveLots(lots);
      DistinctLots(a) && Ascending(OpenedAt, a) && forall l :: l in a <==> l in lots && IsActive(l)
  {
    hide Sort;
    FilterKeeps(lots);
    SortAscends(OpenedAt, Filter(IsActive, lots));
    SortDistinct(Filter(IsActive, lots));
    SameElements(ActiveLots(lots), Filter(IsActive, lots));
  }

  // ---------------------------------------------------------------- nothing is lost

  lemma {:induction false} OneKeyEach(levels: seq<int>, openLots: seq<Lot>)
    requires DistinctLots(openLots) && |levels| >= 2
    ensures DistinctLots(ActiveLots(openLots)) && Placeable(levels, ActiveLots(openLots))
    ensures Keyed(levels, ActiveLots(openLots), PlaceAll(levels, ActiveLots(openLots)))
  {
    hide InferCycle, PlaceAll, Keyed;
    ActiveLotsAre(openLots);
    var a := ActiveLots(openLots);
    forall i | 0 <= i < |a| ensures InferCycle(levels, a[i]).Some? {
      assert a[i] in openLots;
      ActiveLotGetsCycle(levels, a[i]);
    }
    PlaceAllKeyed(levels, a);
  }

  lemma PlaceableAt(levels: seq<int>, a: seq<Lot>, i: nat)
    requires Placeable(levels, a) && i < |a|
    ensures InferCycle(levels, a[i]).Some? && forall j :: 0 <= j < |a| && a[j].id == a[i].id ==> j == i
  {
    hide InferCycle;
  }

  lemma CycleNamesLot(levels: seq<int>, l: Lot)
    requires InferCycle(levels, l).Some?
    ensures var c := InferCycle(levels, l).value; c.lotId == l.id && c.openedAt == l.openedAt && c.buy == BuyOf(levels, l)
  {
  }

  /** Which lot of a keyed sequence each entry is. */
  lemma KeyedEntry(levels: seq<int>, a: seq<Lot>, cycles: Cycles, k: string) returns (i: nat)
    requires Placeable(levels, a) && Keyed(levels, a, cycles) && k in cycles
    ensures i < |a| && k == KeyOf(levels, a, i) && Some(cycles[k]) == InferCycle(levels, a[i]) && cycles[k].lotId == a[i].id
  {
    hide KeyOf, InferCycle, Placeable, BuyOf;
    i :| 0 <= i < |a| && k == KeyOf(levels, a, i);
    PlaceableAt(levels, a, i);
    CycleNamesLot(levels, a[i]);
  }

  /** Every active lot is in the cycles with its own cycle. */
  lemma RemapKeepsEveryLot(levels: seq<int>, openLots: seq<Lot>, l: Lot)
    requires DistinctLots(openLots) && |levels| >= 2 && l in openLots && IsActive(l)
    ensures var cycles := PlaceAll(levels, ActiveLots(openLots));
      exists k :: k in cycles && Some(cycles[k]) == InferCycle(levels, l)
  {
    ActiveLotsAre(openLots);
    OneKeyEach(levels, openLots);
    hide PlaceAll, ActiveLots, KeyOf, InferCycle;
    var a := ActiveLots(openLots);
    var i :| 0 <= i < |a| && a[i] == l;
    assert KeyOf(levels, a, i) in PlaceAll(levels, a);
  }

  lemma EntryUnique(levels: seq<int>, a: seq<Lot>, cycles: Cycles, k: string, m: string)
    requires Placeable(levels, a) && Keyed(levels, a, cycles) && k in cycles && m in cycles && cycles[k].lotId == cycles[m].lotId
    ensures k == m
  {
    hide *;
    var i := KeyedEntry(levels, a, cycles, k);
    var j := KeyedEntry(levels, a, cycles, m);
    PlaceableAt(levels, a, i);
  }

  /** Every entry is an active lot's own cycle, and no lot has two entries. */
  lemma RemapKeepsNothingElse(levels: seq<int>, openLots: seq<Lot>, k: string)
    requires DistinctLots(openLots) && |levels| >= 2
    requires k in PlaceAll(levels, ActiveLots(openLots))
    ensures var cycles := PlaceAll(levels, ActiveLots(openLots));
      && (exists l :: l in openLots && IsActive(l) && Some(cycles[k]) == InferCycle(levels, l))
      && (forall m :: m in cycles && cycles[k].lotId == cycles[m].lotId ==> k == m)
  {
    ActiveLotsAre(openLots);
    OneKeyEach(levels, openLots);
    hide PlaceAll, ActiveLots, KeyOf, InferCycle, Keyed, Placeable, DistinctLots, Ascending;
    var a := ActiveLots(openLots);
    var cycles := PlaceAll(levels, a);
    var i := KeyedEntry(levels, a, cycles, k);
    assert a[i] in openLots;
    forall m | m in cycles && cycles[k].lotId == cycles[m].lotId ensures k == m {
      EntryUnique(levels, a, cycles, k, m);
    }
  }

  /** As many entries as active lots. */
  lemma RemapCount(levels: seq<int>, openLots: seq<Lot>)
    requires DistinctLots(openLots) && |levels| >= 2
    ensures |PlaceAll(levels, ActiveLots(openLots))| == |Filter(IsActive, openLots)|
  {
    OneKeyEach(levels, openLots);
    var active := Filter(IsActive, openLots);
    assert |SortByOpenedAt(active)| == |multiset(SortByOpenedAt(active))| == |multiset(active)| == |active|;
  }

  lemma KeyedAt(levels: seq<int>, a: seq<Lot>, cycles: Cycles, i: nat)
    requires Placeable(levels, a) && Keyed(levels, a, cycles) && i < |a|
    ensures var key := KeyOf(levels, a, i); key in cycles && Some(cycles[key]) == InferCycle(levels, a[i])
  {
    hide KeyOf, InferCycle, Placeable;
  }

  lemma KeyOnRail(levels: seq<int>, a: seq<Lot>, i: nat)
    requires Placeable(levels, a) && i < |a|
    ensures FirstOnRail(levels, a, i) ==> KeyOf(levels, a, i) == Decimal(BuyOf(levels, a[i]))
    ensures !FirstOnRail(levels, a, i) ==> KeyOf(levels, a, i) == LotKey(a[i].id)
  {
    hide InferCycle, FirstOnRail, Decimal, LotKey;
  }

  lemma AscendingAt(a: seq<Lot>, i: nat, j: nat)
    requires Ascending(OpenedAt, a) && i <= j < |a|
    ensures a[i].openedAt <= a[j].openedAt
  {
    assert i < j ==> OpenedAt(a[i]) <= OpenedAt(a[j]);
  }

  /** In a keyed, ascending sequence, the rail's key holds its oldest lot and the others have lot keys. */
  lemma KeyedOldest(levels: seq<int>, a: seq<Lot>, cycles: Cycles, j: nat)
    requires Placeable(levels, a) && Ascending(OpenedAt, a) && Keyed(levels, a, cycles) && j < |a|
    ensures InferCycle(levels, a[j]).Some?
    ensures var c := InferCycle(levels, a[j]).value;
      && Decimal(c.buy) in cycles && cycles[Decimal(c.buy)].buy == c.buy && cycles[Decimal(c.buy)].openedAt <= a[j].openedAt
      && (cycles[Decimal(c.buy)].lotId != a[j].id ==> LotKey(a[j].id) in cycles && cycles[LotKey(a[j].id)] == c)
  {
    hide *;
    PlaceableAt(levels, a, j);
    var i := FirstWith(levels, a, j);
    PlaceableAt(levels, a, i);
    AscendingAt(a, i, j);
    CycleNamesLot(levels, a[i]);
    CycleNamesLot(levels, a[j]);
    KeyOnRail(levels, a, i);
    KeyedAt(levels, a, cycles, i);
    if i != j {
      KeyedAt(levels, a, cycles, j);
      KeyOnRail(levels, a, j);
      NotFirst(levels, a, i, j);
    }
  }

  lemma NotFirst(levels: seq<int>, a: seq<Lot>, i: nat, j: nat)
    requires Placeable(levels, a) && i < j < |a| && BuyOf(levels, a[i]) == BuyOf(levels, a[j])
    ensures !FirstOnRail(levels, a, j)
  {
  }

  /** A rail key belongs to a lot that buys on that rail, and no lot buying there opened earlier; every
      other lot of the rail is under its own lot key. */
  lemma RailKeyIsOldest(levels: seq<int>, openLots: seq<Lot>, l: Lot)
    requires DistinctLots(openLots) && |levels| >= 2 && l in openLots && IsActive(l)
    ensures InferCycle(levels, l).Some?
    ensures var cycles, c := PlaceAll(levels, ActiveLots(openLots)), InferCycle(levels, l).value;
      && Decimal(c.buy) in cycles && cycles[Decimal(c.buy)].buy == c.buy && cycles[Decimal(c.buy)].openedAt <= l.openedAt
      && (cycles[Decimal(c.buy)].lotId != l.id ==> LotKey(l.id) in cycles && cycles[LotKey(l.id)] == c)
  {
    ActiveLotsAre(openLots);
    OneKeyEach(levels, openLots);
    hide PlaceAll, ActiveLots, LotKey, Decimal, InferCycle, Keyed;
    var a := ActiveLots(openLots);
    var j :| 0 <= j < |a| && a[j] == l;
    KeyedOldest(levels, a, PlaceAll(levels, a), j);
  }

  /** Fewer than two rails: no cycle at all. */
  lemma {:induction false} NoRailsNoCycles(levels: seq<int>, lots: seq<Lot>)
    requires |levels| < 2
    ensures PlaceAll(levels, lots) == map[]
  {
    if lots != [] { NoRailsNoCycles(levels, lots[..|lots| - 1]); }
  }
}
