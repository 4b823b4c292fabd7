/** When merging a live tick gives what rebuilding all candles with that tick would give. */
module LiveTicks {
  import opened Calendar
  import opened CandleMerging
  import opened Candles
  import opened Numbers
  import opened Sorting
  import opened Wrappers

  // ---------------------------------------------------------------- one more snapshot in a group

  lemma {:induction false} GroupCons(x: Snapshot, rest: seq<Snapshot>, r: Resolution, b: int)
    ensures Group([x] + rest, r, b) == (if Bucket(x.at, r) == b then [x] else []) + Group(rest, r, b)
  {
    hide Bucket;
    var xs := [x] + rest;
    if rest == [] {
      GroupSnoc([], x, r, b);
      assert [] + [x] == xs;
    } else {
      var n := |rest| - 1;
      GroupCons(x, rest[..n], r, b);
      GroupSnoc([x] + rest[..n], rest[n], r, b);
      GroupSnoc(rest[..n], rest[n], r, b);
      assert rest[..n] + [rest[n]] == rest;
      assert [x] + rest[..n] + [rest[n]] == xs;
    }
  }

  lemma InsertBeforeAll(g: seq<Snapshot>, t: Snapshot)
    requires forall s :: s in g ==> t.at < s.at
    ensures InsertAfter(At, g, t) == [t] + g
  {
    if g != [] { assert g[0] in g; }
  }

  /** Grouping commutes with the sorted insertion. */
  lemma {:induction false} GroupInsert(xs: seq<Snapshot>, t: Snapshot, r: Resolution, b: int)
    requires Ascending(At, xs)
    ensures Group(InsertAfter(At, xs, t), r, b) ==
            if Bucket(t.at, r) == b then InsertAfter(At, Group(xs, r, b), t) else Group(xs, r, b)
    decreases |xs|, 1
  {
    hide Bucket, Group;
    GroupCons(t, xs, r, b);
    GroupMembers(xs, r, b);
    if xs == [] || t.at < xs[0].at {
      if xs != [] { HeadIsLeast(At, xs); }
      InsertBeforeAll(xs, t);
      InsertBeforeAll(Group(xs, r, b), t);
      assert [] + Group(xs, r, b) == Group(xs, r, b);
    } else {
      GroupInsertTail(xs, t, r, b);
    }
  }

  lemma {:induction false} GroupInsertTail(xs: seq<Snapshot>, t: Snapshot, r: Resolution, b: int)
    requires Ascending(At, xs) && xs != [] && t.at >= xs[0].at
    ensures Group(InsertAfter(At, xs, t), r, b) ==
            if Bucket(t.at, r) == b then InsertAfter(At, Group(xs, r, b), t) else Group(xs, r, b)
    decreases |xs|, 0
  {
    hide Bucket, Group, Ascending;
    var x, rest := xs[0], xs[1..];
    HeadIsLeast(At, xs);
    GroupInsert(rest, t, r, b);
    GroupCons(x, rest, r, b);
    GroupCons(x, InsertAfter(At, rest, t), r, b);
    assert [x] + rest == xs;
    var g := Group(rest, r, b);
    if Bucket(x.at, r) == b {
      assert ([x] + g)[0] == x && ([x] + g)[1..] == g;
      assert InsertAfter(At, [x] + g, t) == [x] + InsertAfter(At, g, t);
    } else {
      assert [] + g == g && [] + InsertAfter(At, g, t) == InsertAfter(At, g, t);
      assert [] + Group(InsertAfter(At, rest, t), r, b) == Group(InsertAfter(At, rest, t), r, b);
    }
  }

  lemma {:induction false} InsertedMembers(g: seq<Snapshot>, t: Snapshot)
    ensures forall s :: s in InsertAfter(At, g, t) <==> s in g || s == t
  {
    if g != [] && t.at >= g[0].at {
      InsertedMembers(g[1..], t);
      assert g == [g[0]] + g[1..];
    }
  }

  lemma {:induction false} InsertedEnds(g: seq<Snapshot>, t: Snapshot)
    requires Ascending(At, g) && g != []
    ensures var h := InsertAfter(At, g, t);
      && |h| == |g| + 1
      && h[0] == (if t.at < g[0].at then t else g[0])
      && h[|g|] == (if t.at >= g[|g| - 1].at then t else g[|g| - 1])
  {
    if t.at >= g[0].at && |g| > 1 {
      InsertedEnds(g[1..], t);
      assert At(g[0]) <= At(g[|g| - 1]);
    } else if |g| > 1 {
      assert At(g[0]) <= At(g[|g| - 1]);
    } else {
      assert g[1..] == [];
    }
  }

  lemma ExtremesOfInserted(g: seq<Snapshot>, t: Snapshot, h: seq<Snapshot>)
    requires g != [] && h != [] && forall s :: s in h <==> s in g || s == t
    ensures Highest(h) == MaxReal(Highest(g), t.value) && Lowest(h) == MinReal(Lowest(g), t.value)
  {
    hide Highest, Lowest;
    var top, peak, bottom, pit := Highest(h), Highest(g), Lowest(h), Lowest(g);
    var a :| a in h && a.value == top;
    var c :| c in g && c.value == peak;
    var d :| d in h && d.value == bottom;
    var e :| e in g && e.value == pit;
    assert t in h && c in h && e in h;
  }

  /** The candle of a group extended by a tick, which opens or closes it if it comes first or last. */
  ghost function WithTick(g: seq<Snapshot>, t: Snapshot, b: int): Candle
    requires g != []
  {
    Extended(CandleOf(g, b), t.value).(open := if t.at < g[0].at then t.value else g[0].value,
                                       close := if t.at >= g[|g| - 1].at then t.value else g[|g| - 1].value)
  }

  /** The candle of a group with one more snapshot, wherever it falls. */
  lemma CandleOfInserted(g: seq<Snapshot>, t: Snapshot, b: int)
    requires Ascending(At, g) && g != []
    ensures InsertAfter(At, g, t) != [] && CandleOf(InsertAfter(At, g, t), b) == WithTick(g, t, b)
  {
    hide Highest, Lowest, InsertAfter;
    InsertedMembers(g, t);
    InsertedEnds(g, t);
    ExtremesOfInserted(g, t, InsertAfter(At, g, t));
  }

  lemma {:induction false} GroupAscends(xs: seq<Snapshot>, r: Resolution, b: int)
    requires Ascending(At, xs)
    ensures Ascending(At, Group(xs, r, b))
  {
    hide Bucket;
    if xs != [] {
      var init, x := xs[..|xs| - 1], xs[|xs| - 1];
      assert xs == init + [x];
      LastIsLatest(init, x);
      GroupAscends(init, r, b);
      GroupMembers(init, r, b);
      if Bucket(x.at, r) == b { AppendAscends(Group(init, r, b), x); }
    }
  }

  lemma AppendAscends(g: seq<Snapshot>, x: Snapshot)
    requires Ascending(At, g) && forall y :: y in g ==> y.at <= x.at
    ensures Ascending(At, g + [x])
  {
    forall k | 0 <= k < |g| ensures At(g[k]) <= At(x) {
      assert g[k] in g;
    }
  }

  // ---------------------------------------------------------------- candles over sorted snapshots

  /** The candles of at least one snapshot in ascending order. */
  ghost predicate Built(cs: seq<Candle>, xs: seq<Snapshot>, r: Resolution) {
    cs != [] && ByFirst(cs, xs, r) && GroupsBy(cs, xs, r) && Ascending(At, xs)
  }

  function LastOf(cs: seq<Candle>): Candle
    requires cs != []
  {
    cs[|cs| - 1]
  }

  /** The group the last candle was made from. */
  function LastGroup(cs: seq<Candle>, xs: seq<Snapshot>, r: Resolution): seq<Snapshot>
    requires cs != []
  {
    Group(xs, r, LastOf(cs).time)
  }

  /** No other candle begins after the tick. */
  ghost predicate AfterOthers(cs: seq<Candle>, xs: seq<Snapshot>, t: Snapshot, r: Resolution) {
    forall c :: c in cs && c.time != Bucket(t.at, r) ==> FirstAt(xs, r, c.time) <= t.at
  }

  /** A tick in another bucket leaves a group, and when it begins, as they are. */
  lemma OtherGroups(xs: seq<Snapshot>, t: Snapshot, r: Resolution, b: int)
    requires Ascending(At, xs) && b != Bucket(t.at, r)
    ensures Group(InsertAfter(At, xs, t), r, b) == Group(xs, r, b)
    ensures FirstAt(InsertAfter(At, xs, t), r, b) == FirstAt(xs, r, b)
    ensures Group(xs, r, b) != [] ==> FirstAt(xs, r, b) != t.at
  {
    GroupInsert(xs, t, r, b);
    hide Bucket, Group, InsertAfter;
    if Group(xs, r, b) != [] {
      var x := FirstIsIn(xs, r, b);
    }
  }

  /** A tick in a group's bucket joins it: the candle extended, beginning at the tick if that comes first. */
  lemma OwnGroup(xs: seq<Snapshot>, t: Snapshot, r: Resolution)
    requires Ascending(At, xs) && Group(xs, r, Bucket(t.at, r)) != []
    ensures var b, ys := Bucket(t.at, r), InsertAfter(At, xs, t);
      && Group(ys, r, b) != [] && CandleOf(Group(ys, r, b), b) == WithTick(Group(xs, r, b), t, b)
      && WithTick(Group(xs, r, b), t, b).time == b
      && FirstAt(ys, r, b) == if t.at < FirstAt(xs, r, b) then t.at else FirstAt(xs, r, b)
  {
    var b := Bucket(t.at, r);
    GroupInsert(xs, t, r, b);
    GroupAscends(xs, r, b);
    hide Bucket, Group, InsertAfter, CandleOf;
    CandleOfInserted(Group(xs, r, b), t, b);
    InsertedEnds(Group(xs, r, b), t);
    WithTickTime(Group(xs, r, b), t, b);
  }

  lemma WithTickTime(g: seq<Snapshot>, t: Snapshot, b: int)
    requires g != []
    ensures WithTick(g, t, b).time == b
  {
  }

  /** A tick in a bucket of its own makes a fresh candle that begins at it. */
  lemma NewGroup(xs: seq<Snapshot>, t: Snapshot, r: Resolution)
    requires Ascending(At, xs) && Group(xs, r, Bucket(t.at, r)) == []
    ensures var b, ys := Bucket(t.at, r), InsertAfter(At, xs, t);
      Group(ys, r, b) != [] && CandleOf(Group(ys, r, b), b) == Fresh(b, t.value) && FirstAt(ys, r, b) == t.at
  {
    GroupInsert(xs, t, r, Bucket(t.at, r));
    hide Bucket;
    CandleSnoc([], t, Bucket(t.at, r));
    assert [] + [t] == [t];
  }

  lemma CandleIsMade(cs: seq<Candle>, xs: seq<Snapshot>, r: Resolution, i: nat)
    requires GroupsBy(cs, xs, r) && i < |cs|
    ensures Made(cs[i], xs, r) && Group(xs, r, cs[i].time) != []
  {
    assert cs[i] in cs;
  }

  // ---------------------------------------------------------------- rebuilding with one more snapshot

  /** What is made from the other groups stays made. */
  lemma OthersStayMade(c: Candle, xs: seq<Snapshot>, t: Snapshot, r: Resolution)
    requires Ascending(At, xs) && Made(c, xs, r) && c.time != Bucket(t.at, r)
    ensures Made(c, InsertAfter(At, xs, t), r)
  {
    OtherGroups(xs, t, r, c.time);
    hide Bucket, Group, InsertAfter;
  }

  /** Candles that agree with the old ones outside the tick's bucket and hold its candle group the snapshots
      with the tick. */
  lemma GroupsWithTick(cs: seq<Candle>, next: seq<Candle>, xs: seq<Snapshot>, t: Snapshot, r: Resolution, i: nat)
    requires GroupsBy(cs, xs, r) && Ascending(At, xs) && i <= |cs| && |next| == if i < |cs| then |cs| else |cs| + 1
    requires forall j :: 0 <= j < |next| && j != i ==> next[j] == cs[j] && next[j].time != Bucket(t.at, r)
    requires next[i].time == Bucket(t.at, r) && (i < |cs| ==> cs[i].time == Bucket(t.at, r))
    requires Made(next[i], InsertAfter(At, xs, t), r)
    ensures GroupsBy(next, InsertAfter(At, xs, t), r)
  {
    hide Bucket, Made, Ascending;
    var ys := InsertAfter(At, xs, t);
    InsertedMembers(xs, t);
    hide InsertAfter;
    forall d | d in next ensures Made(d, ys, r) {
      var j :| 0 <= j < |next| && next[j] == d;
      if j != i {
        assert cs[j] in cs;
        OthersStayMade(d, xs, t, r);
      }
    }
    forall y | y in ys ensures exists d :: d in next && d.time == Bucket(y.at, r) {
      assert next[i] in next;
      if y != t {
        var d :| d in cs && d.time == Bucket(y.at, r);
        var j :| 0 <= j < |cs| && cs[j] == d;
        assert next[j] in next && next[j].time == d.time;
      }
    }
  }

  /** And they are in order of first appearance if the tick's candle is last and no other begins later. */
  lemma ByFirstWithTick(cs: seq<Candle>, next: seq<Candle>, xs: seq<Snapshot>, t: Snapshot, r: Resolution, n: nat)
    requires Built(cs, xs, r) && |next| == n + 1 && n <= |cs| && next[n].time == Bucket(t.at, r)
    requires forall j :: 0 <= j < n ==> next[j] == cs[j] && next[j].time != Bucket(t.at, r)
    requires AfterOthers(cs, xs, t, r)
    requires var f := FirstAt(InsertAfter(At, xs, t), r, Bucket(t.at, r));
      f == t.at || (n < |cs| && cs[n].time == Bucket(t.at, r) && f == FirstAt(xs, r, cs[n].time))
    ensures ByFirst(next, InsertAfter(At, xs, t), r)
  {
    hide Bucket, FirstAt, Made, InsertAfter, Group;
    var ys := InsertAfter(At, xs, t);
    forall j | 0 <= j < n ensures FirstAt(ys, r, next[j].time) == FirstAt(xs, r, cs[j].time) < FirstAt(ys, r, next[n].time)
    {
      CandleIsMade(cs, xs, r, j);
      assert cs[j] in cs;
      OtherGroups(xs, t, r, cs[j].time);
    }
  }

  /** A list in order of first appearance that ends in the tick's candle: no other candle begins later. */
  lemma LastBeginsLast(cs: seq<Candle>, next: seq<Candle>, xs: seq<Snapshot>, t: Snapshot, r: Resolution, n: nat)
    requires Ascending(At, xs) && |next| == n + 1 && n <= |cs| <= n + 1 && next[n].time == Bucket(t.at, r)
    requires forall j :: 0 <= j < n ==> next[j] == cs[j]
    requires n < |cs| ==> cs[n].time == Bucket(t.at, r)
    requires ByFirst(next, InsertAfter(At, xs, t), r) && FirstAt(InsertAfter(At, xs, t), r, Bucket(t.at, r)) <= t.at
    ensures AfterOthers(cs, xs, t, r)
  {
    hide Bucket, InsertAfter, FirstAt, Ascending;
    forall d | d in cs && d.time != Bucket(t.at, r) ensures FirstAt(xs, r, d.time) <= t.at {
      var j := IndexIn(cs, d);
      OtherGroups(xs, t, r, d.time);
      assert next[j].time == d.time;
    }
  }

  lemma IndexIn(cs: seq<Candle>, d: Candle) returns (j: nat)
    requires d in cs
    ensures j < |cs| && cs[j] == d
  {
    j :| 0 <= j < |cs| && cs[j] == d;
  }

  lemma OtherTimes(cs: seq<Candle>, xs: seq<Snapshot>, r: Resolution)
    requires GroupsBy(cs, xs, r)
    ensures forall i, j :: 0 <= i < j < |cs| ==> cs[i].time != cs[j].time
  {
  }

  lemma BuiltParts(cs: seq<Candle>, xs: seq<Snapshot>, r: Resolution)
    requires Built(cs, xs, r)
    ensures cs != [] && GroupsBy(cs, xs, r) && ByFirst(cs, xs, r) && Ascending(At, xs)
  {
  }

  lemma MadeIs(c: Candle, xs: seq<Snapshot>, r: Resolution)
    requires Made(c, xs, r)
    ensures Group(xs, r, c.time) != [] && c == CandleOf(Group(xs, r, c.time), c.time)
  {
  }

  // ---------------------------------------------------------------- from the recorded snapshots

  ghost function Sorted(snapshots: seq<Snapshot>): (xs: seq<Snapshot>)
    ensures Ascending(At, xs) && |xs| == |snapshots| && forall s :: s in xs <==> s in snapshots
  {
    SortAscends(At, snapshots);
    SameElements(Sort(At, snapshots), snapshots);
    Sort(At, snapshots)
  }

  lemma {:induction false} CandleForEach(xs: seq<Snapshot>, r: Resolution)
    requires xs != []
    ensures AddAll(xs, r) != []
  {
    BatchGroups(xs, r);
    assert xs[0] in xs;
  }

  lemma BatchBuilt(snapshots: seq<Snapshot>, r: Resolution)
    requires snapshots != []
    ensures Built(Batch(snapshots, r), Sorted(snapshots), r)
  {
    hide Bucket, ByFirst, GroupsBy, AddAll, Sort;
    BatchIsGroupBy(snapshots, r, []);
    CandleForEach(Sorted(snapshots), r);
  }

  lemma SortedWith(snapshots: seq<Snapshot>, t: Snapshot)
    ensures Sort(At, snapshots + [t]) == InsertAfter(At, Sorted(snapshots), t)
  {
    hide Sort;
    SortAppended(At, snapshots, t);
  }

  /** What rebuilding with the tick gives: the one list that groups by first appearance. */
  lemma RebuiltIff(snapshots: seq<Snapshot>, t: Snapshot, r: Resolution, next: seq<Candle>)
    ensures next == Batch(snapshots + [t], r) <==>
            var ys := InsertAfter(At, Sorted(snapshots), t); GroupsBy(next, ys, r) && ByFirst(next, ys, r)
  {
    hide *;
    SortedWith(snapshots, t);
    BatchIsGroupBy(snapshots + [t], r, next);
  }

  // ---------------------------------------------------------------- a tick in the last bucket

  lemma UpdateDecides(cs: seq<Candle>, c: Candle, d: Candle)
    requires cs != []
    ensures cs[|cs| - 1 := c] == cs[|cs| - 1 := d] <==> c == d
  {
    assert cs[|cs| - 1 := c][|cs| - 1] == c && cs[|cs| - 1 := d][|cs| - 1] == d;
  }

  /** The tick keeps the order of the group's ends, or repeats their values. */
  ghost predicate InOrder(g: seq<Snapshot>, t: Snapshot)
    requires g != []
  {
    (t.at >= g[|g| - 1].at || t.value == g[|g| - 1].value) && (t.at >= g[0].at || t.value == g[0].value)
  }

  /** The last candle with the tick, in the order of the others, is what rebuilding gives. */
  lemma LastReplaced(cs: seq<Candle>, xs: seq<Snapshot>, t: Snapshot, r: Resolution)
    requires Built(cs, xs, r) && Bucket(t.at, r) == LastOf(cs).time && LastGroup(cs, xs, r) != []
    requires AfterOthers(cs, xs, t, r)
    ensures var next, ys := cs[|cs| - 1 := WithTick(LastGroup(cs, xs, r), t, LastOf(cs).time)], InsertAfter(At, xs, t);
      GroupsBy(next, ys, r) && ByFirst(next, ys, r)
  {
    hide Bucket, WithTick, GroupsBy, ByFirst, Ascending, Group, InsertAfter, AfterOthers, FirstAt, CandleOf;
    var n := |cs| - 1;
    var next := cs[n := WithTick(LastGroup(cs, xs, r), t, LastOf(cs).time)];
    OwnGroup(xs, t, r);
    OtherTimes(cs, xs, r);
    FirstOfLast(cs, xs, t, r);
    assert Made(next[n], InsertAfter(At, xs, t), r);
    hide Made, Built;
    BuiltParts(cs, xs, r);
    GroupsWithTick(cs, next, xs, t, r, n);
    ByFirstWithTick(cs, next, xs, t, r, n);
  }

  lemma FirstOfLast(cs: seq<Candle>, xs: seq<Snapshot>, t: Snapshot, r: Resolution)
    requires Built(cs, xs, r) && Bucket(t.at, r) == LastOf(cs).time && LastGroup(cs, xs, r) != []
    ensures var f := FirstAt(InsertAfter(At, xs, t), r, Bucket(t.at, r)); f == t.at || f == FirstAt(xs, r, LastOf(cs).time)
  {
    hide Bucket, WithTick, GroupsBy, ByFirst, Ascending, Group, InsertAfter, FirstAt, CandleOf;
    OwnGroup(xs, t, r);
  }

  /** Whatever replaces the last candle: if it is what rebuilding gives, it is the last candle with the tick,
      and no other candle begins after the tick. */
  lemma LastMustBe(cs: seq<Candle>, xs: seq<Snapshot>, t: Snapshot, r: Resolution, c: Candle)
    requires Built(cs, xs, r) && Bucket(t.at, r) == LastOf(cs).time == c.time && LastGroup(cs, xs, r) != []
    requires var next, ys := cs[|cs| - 1 := c], InsertAfter(At, xs, t); GroupsBy(next, ys, r) && ByFirst(next, ys, r)
    ensures c == WithTick(LastGroup(cs, xs, r), t, LastOf(cs).time) && AfterOthers(cs, xs, t, r)
  {
    hide Bucket, WithTick, Group, InsertAfter, FirstAt, CandleOf, GroupsBy, ByFirst, Made, Ascending, AfterOthers;
    var n, ys := |cs| - 1, InsertAfter(At, xs, t);
    OwnGroup(xs, t, r);
    CandleIsMade(cs[n := c], ys, r, n);
    MadeIs(c, ys, r);
    LastBeginsLast(cs, cs[n := c], xs, t, r, n);
  }

  /** Extending the last candle is extending its group exactly when the tick is in order. */
  lemma ExtendedIff(g: seq<Snapshot>, t: Snapshot, b: int)
    requires g != []
    ensures Extended(CandleOf(g, b), t.value) == WithTick(g, t, b) <==> InOrder(g, t)
  {
  }

  lemma MergedSame(cs: seq<Candle>, t: Snapshot, r: Resolution)
    requires cs != [] && Bucket(LastOf(cs).time, r) == Bucket(t.at, r)
    ensures Merged(cs, r, Some(t)) == cs[|cs| - 1 := Extended(LastOf(cs), t.value)]
  {
  }

  lemma LastIsMade(cs: seq<Candle>, xs: seq<Snapshot>, r: Resolution)
    requires Built(cs, xs, r)
    ensures LastGroup(cs, xs, r) != [] && LastOf(cs) == CandleOf(LastGroup(cs, xs, r), LastOf(cs).time)
  {
    hide Group, CandleOf, Bucket, ByFirst;
    CandleIsMade(cs, xs, r, |cs| - 1);
  }

  /** A tick in the last bucket: merging gives exactly the rebuilt candles if and only if the tick is not
      before the bucket's last snapshot or repeats its value, likewise for the first one, and no other candle
      begins after the tick. The last candle stands on its own bucket (see BucketIdempotentIff). */
  lemma SameBucketIff(snapshots: seq<Snapshot>, t: Snapshot, r: Resolution)
    requires Batch(snapshots, r) != []
    requires var b := LastOf(Batch(snapshots, r)).time; Bucket(b, r) == b == Bucket(t.at, r)
    ensures LastGroup(Batch(snapshots, r), Sorted(snapshots), r) != []
    ensures Merged(Batch(snapshots, r), r, Some(t)) == Batch(snapshots + [t], r) <==>
            && InOrder(LastGroup(Batch(snapshots, r), Sorted(snapshots), r), t)
            && AfterOthers(Batch(snapshots, r), Sorted(snapshots), t, r)
  {
    hide Bucket, AddAll, Sort, Built, Merged, InsertAfter, WithTick, InOrder, ByFirst, GroupsBy, AfterOthers, Group, CandleOf;
    var xs, cs := Sorted(snapshots), Batch(snapshots, r);
    NoneFromNothing(snapshots, r);
    hide Batch;
    BatchBuilt(snapshots, r);
    LastIsMade(cs, xs, r);
    MergedSame(cs, t, r);
    var g, last := LastGroup(cs, xs, r), LastOf(cs);
    ExtendedIff(g, t, last.time);
    RebuiltIff(snapshots, t, r, Merged(cs, r, Some(t)));
    if Merged(cs, r, Some(t)) == Batch(snapshots + [t], r) {
      LastMustBe(cs, xs, t, r, Extended(last, t.value));
    } else if AfterOthers(cs, xs, t, r) {
      LastReplaced(cs, xs, t, r);
      UpdateDecides(cs, Extended(last, t.value), WithTick(g, t, last.time));
    }
  }

  lemma NoneFromNothing(snapshots: seq<Snapshot>, r: Resolution)
    ensures snapshots == [] ==> Batch(snapshots, r) == []
  {
  }

  /** In particular, a tick no earlier than any snapshot and in the last bucket merges to the batch. */
  lemma LatestTickMerges(snapshots: seq<Snapshot>, t: Snapshot, r: Resolution)
    requires Batch(snapshots, r) != [] && forall x :: x in snapshots ==> x.at <= t.at
    requires var b := LastOf(Batch(snapshots, r)).time; Bucket(b, r) == b == Bucket(t.at, r)
    ensures Merged(Batch(snapshots, r), r, Some(t)) == Batch(snapshots + [t], r)
  {
    hide *;
    var cs, xs := Batch(snapshots, r), Sorted(snapshots);
    SameBucketIff(snapshots, t, r);
    NoneFromNothing(snapshots, r);
    BatchBuilt(snapshots, r);
    BuiltParts(cs, xs, r);
    LastGroupIs(cs, xs, r);
    LatestInOrder(xs, t, r, LastOf(cs).time);
    LatestIsAfterOthers(cs, xs, t, r);
  }

  lemma LastGroupIs(cs: seq<Candle>, xs: seq<Snapshot>, r: Resolution)
    requires cs != []
    ensures LastGroup(cs, xs, r) == Group(xs, r, LastOf(cs).time)
  {
  }

  lemma LatestInOrder(xs: seq<Snapshot>, t: Snapshot, r: Resolution, b: int)
    requires Group(xs, r, b) != [] && forall x :: x in xs ==> x.at <= t.at
    ensures InOrder(Group(xs, r, b), t)
  {
    hide Bucket, Group;
    GroupMembers(xs, r, b);
    var g := Group(xs, r, b);
    assert g[0] in g && g[|g| - 1] in g;
  }

  lemma LatestIsAfterOthers(cs: seq<Candle>, xs: seq<Snapshot>, t: Snapshot, r: Resolution)
    requires GroupsBy(cs, xs, r) && forall x :: x in xs ==> x.at <= t.at
    ensures AfterOthers(cs, xs, t, r)
  {
    hide Bucket, Group, FirstAt, CandleOf;
    forall c | c in cs ensures FirstAt(xs, r, c.time) <= t.at {
      assert Made(c, xs, r);
      var x := FirstIsIn(xs, r, c.time);
    }
  }

  // ---------------------------------------------------------------- a tick in a later bucket

  ghost predicate NoCandleAt(cs: seq<Candle>, b: int) {
    forall c :: c in cs ==> c.time != b
  }

  lemma NoCandleMeansNoGroup(cs: seq<Candle>, xs: seq<Snapshot>, r: Resolution, b: int)
    requires GroupsBy(cs, xs, r)
    ensures NoCandleAt(cs, b) ==> Group(xs, r, b) == []
  {
    hide Bucket, Group, Made;
    GroupMembers(xs, r, b);
    if NoCandleAt(cs, b) {
      forall y | y in xs ensures Bucket(y.at, r) != b {
        var c :| c in cs && c.time == Bucket(y.at, r);
      }
    }
  }

  /** A fresh candle at the end is what rebuilding gives. */
  lemma FreshAppended(cs: seq<Candle>, xs: seq<Snapshot>, t: Snapshot, r: Resolution)
    requires Built(cs, xs, r) && NoCandleAt(cs, Bucket(t.at, r)) && AfterOthers(cs, xs, t, r)
    ensures var next, ys := cs + [Fresh(Bucket(t.at, r), t.value)], InsertAfter(At, xs, t);
      GroupsBy(next, ys, r) && ByFirst(next, ys, r)
  {
    var b := Bucket(t.at, r);
    var next := cs + [Fresh(b, t.value)];
    hide Bucket, GroupsBy, ByFirst, Ascending, Group, InsertAfter, AfterOthers, FirstAt, CandleOf;
    NoCandleMeansNoGroup(cs, xs, r, b);
    NewGroup(xs, t, r);
    assert Made(next[|cs|], InsertAfter(At, xs, t), r);
    forall j | 0 <= j < |cs| ensures next[j] == cs[j] && next[j].time != b {
      assert cs[j] in cs;
    }
    hide Made, NoCandleAt;
    GroupsWithTick(cs, next, xs, t, r, |cs|);
    ByFirstWithTick(cs, next, xs, t, r, |cs|);
  }

  /** Whatever is appended: if that is what rebuilding gives, it is the fresh candle, in a bucket of its own,
      and no candle begins after the tick. */
  lemma AppendedMustBe(cs: seq<Candle>, xs: seq<Snapshot>, t: Snapshot, r: Resolution, c: Candle)
    requires Built(cs, xs, r) && c.time == Bucket(t.at, r)
    requires GroupsBy(cs + [c], InsertAfter(At, xs, t), r) && ByFirst(cs + [c], InsertAfter(At, xs, t), r)
    ensures NoCandleAt(cs, c.time) && c == Fresh(c.time, t.value) && AfterOthers(cs, xs, t, r)
  {
    hide *;
    var ys := InsertAfter(At, xs, t);
    BuiltParts(cs, xs, r);
    AppendedIsNew(cs, c, ys, r);
    NoCandleMeansNoGroup(cs, xs, r, c.time);
    NewGroup(xs, t, r);
    MadeIs(c, ys, r);
    AppendedBeginsLast(cs, xs, t, r, c);
  }

  lemma AppendedIsNew(cs: seq<Candle>, c: Candle, ys: seq<Snapshot>, r: Resolution)
    requires GroupsBy(cs + [c], ys, r)
    ensures NoCandleAt(cs, c.time) && Made(c, ys, r)
  {
    hide GroupsBy, Made;
    var next := cs + [c];
    CandleIsMade(next, ys, r, |cs|);
    OtherTimes(next, ys, r);
    forall d | d in cs ensures d.time != c.time {
      var j := IndexIn(cs, d);
      assert next[j] == d && next[|cs|] == c;
    }
  }

  lemma AppendedBeginsLast(cs: seq<Candle>, xs: seq<Snapshot>, t: Snapshot, r: Resolution, c: Candle)
    requires Ascending(At, xs) && c.time == Bucket(t.at, r) && FirstAt(InsertAfter(At, xs, t), r, c.time) == t.at
    requires ByFirst(cs + [c], InsertAfter(At, xs, t), r)
    ensures AfterOthers(cs, xs, t, r)
  {
    hide Bucket, InsertAfter, FirstAt, ByFirst, Ascending, AfterOthers;
    LastBeginsLast(cs, cs + [c], xs, t, r, |cs|);
  }

  lemma MergedLater(cs: seq<Candle>, t: Snapshot, r: Resolution)
    requires cs != [] && Bucket(LastOf(cs).time, r) < Bucket(t.at, r)
    ensures Merged(cs, r, Some(t)) == cs + [Extended(Fresh(Bucket(t.at, r), LastOf(cs).close), t.value)]
  {
  }

  /** A tick in a bucket after the last candle's appends one candle that opens at the last close. Rebuilding
      would open it at the tick, so the two agree exactly when the price is the last close, the bucket has no
      candle yet and no candle begins after the tick. */
  lemma NewBucketIff(snapshots: seq<Snapshot>, t: Snapshot, r: Resolution)
    requires Batch(snapshots, r) != [] && Bucket(LastOf(Batch(snapshots, r)).time, r) < Bucket(t.at, r)
    ensures Merged(Batch(snapshots, r), r, Some(t)) == Batch(snapshots + [t], r) <==>
            && t.value == LastOf(Batch(snapshots, r)).close
            && NoCandleAt(Batch(snapshots, r), Bucket(t.at, r))
            && AfterOthers(Batch(snapshots, r), Sorted(snapshots), t, r)
  {
    hide Bucket, AddAll, Sort, Built, Merged, InsertAfter, ByFirst, GroupsBy, AfterOthers, NoCandleAt, Group;
    var xs, cs, b := Sorted(snapshots), Batch(snapshots, r), Bucket(t.at, r);
    NoneFromNothing(snapshots, r);
    hide Batch;
    BatchBuilt(snapshots, r);
    MergedLater(cs, t, r);
    RebuiltIff(snapshots, t, r, Merged(cs, r, Some(t)));
    if Merged(cs, r, Some(t)) == Batch(snapshots + [t], r) {
      AppendedMustBe(cs, xs, t, r, Extended(Fresh(b, LastOf(cs).close), t.value));
    } else if NoCandleAt(cs, b) && AfterOthers(cs, xs, t, r) {
      FreshAppended(cs, xs, t, r);
    }
  }

  // ---------------------------------------------------------------- snapshots whose buckets follow time

  /** When the buckets follow time, as they do in all years but 0 to 99, a tick that is not in an earlier
      bucket meets the conditions on the other candles. */
  lemma OrderlyTick(snapshots: seq<Snapshot>, t: Snapshot, r: Resolution)
    requires Batch(snapshots, r) != [] && Orderly(snapshots + [t], r) && LastOf(Batch(snapshots, r)).time <= Bucket(t.at, r)
    ensures AfterOthers(Batch(snapshots, r), Sorted(snapshots), t, r)
    ensures LastOf(Batch(snapshots, r)).time < Bucket(t.at, r) ==> NoCandleAt(Batch(snapshots, r), Bucket(t.at, r))
  {
    hide Bucket, Batch, Group, FirstAt, CandleOf, ByFirst, GroupsBy, Made, AddAll, Sort, Orderly, Increasing;
    var cs, xs := Batch(snapshots, r), Sorted(snapshots);
    NoneFromNothing(snapshots, r);
    BatchBuilt(snapshots, r);
    BuiltParts(cs, xs, r);
    OrderlyPart(snapshots, t, r);
    BatchIncreases(snapshots, r);
    forall c | c in cs ensures c.time <= LastOf(cs).time && (c.time != Bucket(t.at, r) ==> FirstAt(xs, r, c.time) <= t.at) {
      var i := IndexIn(cs, c);
      LastIsGreatest(cs, i);
      CandleIsMade(cs, xs, r, i);
      var x := FirstIsIn(xs, r, c.time);
      if x.at > t.at { OrderlyPair(snapshots, t, r, x); }
    }
  }

  lemma LastIsGreatest(cs: seq<Candle>, i: nat)
    requires Increasing(cs) && i < |cs|
    ensures cs[i].time <= LastOf(cs).time
  {
  }

  lemma OrderlyPair(snapshots: seq<Snapshot>, t: Snapshot, r: Resolution, x: Snapshot)
    requires Orderly(snapshots + [t], r) && x in snapshots && t.at <= x.at
    ensures Bucket(t.at, r) <= Bucket(x.at, r)
  {
    hide Bucket;
    assert x in snapshots + [t] && t in snapshots + [t];
  }

  lemma OrderlyPart(snapshots: seq<Snapshot>, t: Snapshot, r: Resolution)
    requires Orderly(snapshots + [t], r)
    ensures Orderly(snapshots, r)
  {
    hide Bucket;
    forall x | x in snapshots ensures x in snapshots + [t] {
    }
  }

  // ---------------------------------------------------------------- any candles

  ghost predicate WellFormed(c: Candle) {
    c.low <= c.open <= c.high && c.low <= c.close <= c.high
  }

  /** Merging into any increasing, well-formed candles that stand on their buckets keeps them so, leaves
      every candle before the last alone, adds at most one, and an older tick changes nothing. */
  lemma MergeKeepsShape(cs: seq<Candle>, r: Resolution, live: Option<Snapshot>)
    requires Increasing(cs) && forall c :: c in cs ==> WellFormed(c) && Bucket(c.time, r) == c.time
    ensures var next := Merged(cs, r, live);
      && Increasing(next) && (forall c :: c in next ==> WellFormed(c))
      && |cs| <= |next| <= |cs| + 1
      && (forall i :: 0 <= i < |cs| - 1 ==> next[i] == cs[i])
      && (live.Some? && cs != [] && Bucket(live.value.at, r) < LastOf(cs).time ==> next == cs)
  {
    hide Bucket;
    if cs != [] { assert LastOf(cs) in cs; }
  }
}
