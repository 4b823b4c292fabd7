/** Candles as groups: batch building is the group-by specification. */
module CandleMerging {
  import opened Calendar
  import opened Candles
  import opened Numbers
  import opened Sorting
  import opened Wrappers

  // ---------------------------------------------------------------- the group-by specification

  /** The snapshots of one bucket, in order. */
  function Group(xs: seq<Snapshot>, r: Resolution, b: int): seq<Snapshot> {
    if xs == [] then [] else
    var last := xs[|xs| - 1];
    Group(xs[..|xs| - 1], r, b) + if Bucket(last.at, r) == b then [last] else []
  }

  function Highest(g: seq<Snapshot>): (h: real)
    requires g != []
    ensures (exists s :: s in g && s.value == h) && forall s :: s in g ==> s.value <= h
  {
    var last := g[|g| - 1];
    if |g| == 1 then last.value else
    assert g == g[..|g| - 1] + [last];
    MaxReal(Highest(g[..|g| - 1]), last.value)
  }

  function Lowest(g: seq<Snapshot>): (l: real)
    requires g != []
    ensures (exists s :: s in g && s.value == l) && forall s :: s in g ==> l <= s.value
  {
    var last := g[|g| - 1];
    if |g| == 1 then last.value else
    assert g == g[..|g| - 1] + [last];
    MinReal(Lowest(g[..|g| - 1]), last.value)
  }

  /** Open, max, min, close of a group. */
  function CandleOf(g: seq<Snapshot>, b: int): Candle
    requires g != []
  {
    Candle(b, g[0].value, Highest(g), Lowest(g), g[|g| - 1].value, Some(0.0))
  }

  /** The candle is its bucket's group. */
  ghost predicate Made(c: Candle, xs: seq<Snapshot>, r: Resolution) {
    Group(xs, r, c.time) != [] && c == CandleOf(Group(xs, r, c.time), c.time)
  }

  /** One candle per bucket that holds a snapshot, each made from its group. */
  ghost predicate GroupsBy(cs: seq<Candle>, xs: seq<Snapshot>, r: Resolution) {
    && (forall i, j :: 0 <= i < j < |cs| ==> cs[i].time != cs[j].time)
    && (forall c :: c in cs ==> Made(c, xs, r))
    && (forall x :: x in xs ==> exists c :: c in cs && c.time == Bucket(x.at, r))
  }

  lemma GroupSnoc(init: seq<Snapshot>, x: Snapshot, r: Resolution, b: int)
    ensures Group(init + [x], r, b) == Group(init, r, b) + if Bucket(x.at, r) == b then [x] else []
  {
    var xs := init + [x];
    assert xs[..|xs| - 1] == init;
  }

  lemma CandleSnoc(g: seq<Snapshot>, x: Snapshot, b: int)
    ensures CandleOf(g + [x], b) == if g == [] then Fresh(b, x.value) else Extended(CandleOf(g, b), x.value)
  {
    assert (g + [x])[..|g|] == g;
  }

  lemma AddAllSnoc(init: seq<Snapshot>, x: Snapshot, r: Resolution)
    ensures AddAll(init + [x], r) == AddTick(AddAll(init, r), x, r)
  {
    var xs := init + [x];
    assert xs[..|xs| - 1] == init;
  }

  lemma {:induction false} GroupMembers(xs: seq<Snapshot>, r: Resolution, b: int)
    ensures forall s :: s in Group(xs, r, b) <==> s in xs && Bucket(s.at, r) == b
    ensures Group(xs, r, b) != [] ==> Group(xs, r, b)[0] in xs
  {
    hide Bucket;
    if xs != [] {
      GroupMembers(xs[..|xs| - 1], r, b);
      assert xs == xs[..|xs| - 1] + [xs[|xs| - 1]];
    }
  }

  lemma NoCandleNoGroup(cs: seq<Candle>, xs: seq<Snapshot>, r: Resolution, b: int)
    requires GroupsBy(cs, xs, r) && IndexOf(cs, b).None?
    ensures Group(xs, r, b) == []
  {
    hide Bucket, CandleOf, Group;
    GroupMembers(xs, r, b);
    forall y | y in xs ensures Bucket(y.at, r) != b {
      var c :| c in cs && c.time == Bucket(y.at, r);
    }
  }

  lemma TickMakes(c: Candle, init: seq<Snapshot>, x: Snapshot, r: Resolution)
    requires Made(c, init, r)
    ensures Made(if c.time == Bucket(x.at, r) then Extended(c, x.value) else c, init + [x], r)
  {
    hide Bucket;
    GroupSnoc(init, x, r, c.time);
    CandleSnoc(Group(init, r, c.time), x, c.time);
    assert Group(init, r, c.time) + [] == Group(init, r, c.time);
  }

  lemma TickStarts(init: seq<Snapshot>, x: Snapshot, r: Resolution)
    requires Group(init, r, Bucket(x.at, r)) == []
    ensures Made(Fresh(Bucket(x.at, r), x.value), init + [x], r)
  {
    hide Bucket;
    GroupSnoc(init, x, r, Bucket(x.at, r));
    CandleSnoc([], x, Bucket(x.at, r));
    assert [] + [x] == [x];
  }

  lemma TickCandle(cs: seq<Candle>, init: seq<Snapshot>, x: Snapshot, r: Resolution, j: nat)
    requires GroupsBy(cs, init, r) && j < |AddTick(cs, x, r)|
    ensures Made(AddTick(cs, x, r)[j], init + [x], r)
  {
    var b := Bucket(x.at, r);
    var i := IndexOf(cs, b);
    if i.None? {
      NoCandleNoGroup(cs, init, r, b);
      TickStarts(init, x, r);
    }
    if j < |cs| {
      assert cs[j] in cs;
      TickMakes(cs[j], init, x, r);
      hide Bucket, CandleOf, Group, Made;
      assert i.Some? && j != i.value ==> cs[j].time != cs[i.value].time;
    }
  }

  lemma TickCovers(cs: seq<Candle>, init: seq<Snapshot>, x: Snapshot, r: Resolution, y: Snapshot)
    requires y in init + [x] && forall z :: z in init ==> exists c :: c in cs && c.time == Bucket(z.at, r)
    ensures exists c :: c in AddTick(cs, x, r) && c.time == Bucket(y.at, r)
  {
    hide Bucket;
    var next, i := AddTick(cs, x, r), IndexOf(cs, Bucket(x.at, r));
    if y in init {
      var c :| c in cs && c.time == Bucket(y.at, r);
      var j :| 0 <= j < |cs| && cs[j] == c;
      assert next[j].time == c.time && next[j] in next;
    } else {
      var j := if i.Some? then i.value else |cs|;
      assert next[j].time == Bucket(x.at, r) && next[j] in next;
    }
  }

  lemma TickTimes(cs: seq<Candle>, x: Snapshot, r: Resolution)
    requires forall i, j :: 0 <= i < j < |cs| ==> cs[i].time != cs[j].time
    ensures var next := AddTick(cs, x, r); forall i, j :: 0 <= i < j < |next| ==> next[i].time != next[j].time
  {
    hide Bucket;
  }

  lemma TickGroups(cs: seq<Candle>, init: seq<Snapshot>, x: Snapshot, r: Resolution)
    requires GroupsBy(cs, init, r)
    ensures GroupsBy(AddTick(cs, x, r), init + [x], r)
  {
    hide Bucket, CandleOf, Group, AddTick, Made;
    var next := AddTick(cs, x, r);
    TickTimes(cs, x, r);
    forall y | y in init + [x] ensures exists c :: c in next && c.time == Bucket(y.at, r) {
      TickCovers(cs, init, x, r, y);
    }
    forall c | c in next ensures Made(c, init + [x], r) {
      var j :| 0 <= j < |next| && next[j] == c;
      TickCandle(cs, init, x, r, j);
    }
  }

  lemma NothingGroups(r: Resolution)
    ensures GroupsBy(AddAll([], r), [], r)
  {
  }

  /** Building in one pass gives exactly the groups, in any order of arrival. */
  lemma {:induction false} BatchGroups(xs: seq<Snapshot>, r: Resolution)
    ensures GroupsBy(AddAll(xs, r), xs, r)
  {
    NothingGroups(r);
    hide AddAll, AddTick, Bucket, GroupsBy, Group;
    if xs != [] {
      var init, x := xs[..|xs| - 1], xs[|xs| - 1];
      BatchGroups(init, r);
      TickGroups(AddAll(init, r), init, x, r);
      AddAllSnoc(init, x, r);
      assert init + [x] == xs;
    }
  }

  // ---------------------------------------------------------------- order of first appearance

  /** The time of the first snapshot in a bucket. */
  ghost function FirstAt(xs: seq<Snapshot>, r: Resolution, b: int): int {
    var g := Group(xs, r, b);
    if g == [] then 0 else g[0].at
  }

  /** Candles in the order of their first snapshots: the insertion order of the Map. */
  ghost predicate ByFirst(cs: seq<Candle>, xs: seq<Snapshot>, r: Resolution) {
    forall i, j :: 0 <= i < j < |cs| ==> FirstAt(xs, r, cs[i].time) < FirstAt(xs, r, cs[j].time)
  }

  lemma LastIsLatest(xs: seq<Snapshot>, x: Snapshot)
    requires Ascending(At, xs + [x])
    ensures Ascending(At, xs) && forall y :: y in xs ==> y.at <= x.at
  {
    var all := xs + [x];
    forall i, j | 0 <= i < j < |xs| ensures At(xs[i]) <= At(xs[j]) {
      assert At(all[i]) <= At(all[j]);
    }
    forall y | y in xs ensures y.at <= x.at {
      var i :| 0 <= i < |xs| && xs[i] == y;
      assert At(all[i]) <= At(all[|xs|]);
    }
  }

  /** The first snapshot of a bucket is a snapshot, in that bucket. */
  lemma FirstIsIn(xs: seq<Snapshot>, r: Resolution, b: int) returns (x: Snapshot)
    requires Group(xs, r, b) != []
    ensures x in xs && x.at == FirstAt(xs, r, b) && Bucket(x.at, r) == b
  {
    hide Bucket;
    GroupMembers(xs, r, b);
    x := Group(xs, r, b)[0];
    assert x in Group(xs, r, b);
  }

  lemma FirstWithTick(init: seq<Snapshot>, x: Snapshot, r: Resolution, b: int)
    ensures Group(init, r, b) != [] ==> FirstAt(init + [x], r, b) == FirstAt(init, r, b)
    ensures Group(init, r, b) == [] && Bucket(x.at, r) == b ==> FirstAt(init + [x], r, b) == x.at
  {
    hide Bucket, Group;
    GroupSnoc(init, x, r, b);
    if Group(init, r, b) == [] && Bucket(x.at, r) == b { assert [] + [x] == [x]; }
  }

  lemma FirstBefore(init: seq<Snapshot>, x: Snapshot, r: Resolution, b: int)
    requires Group(init, r, b) != [] && b != Bucket(x.at, r) && forall y :: y in init ==> y.at <= x.at
    ensures FirstAt(init, r, b) < x.at
  {
    hide Bucket, Group, FirstAt;
    var y := FirstIsIn(init, r, b);
  }

  lemma TickKeepsTimes(cs: seq<Candle>, x: Snapshot, r: Resolution)
    ensures var next := AddTick(cs, x, r);
      && |cs| <= |next| <= |cs| + 1
      && (forall i :: 0 <= i < |cs| ==> next[i].time == cs[i].time)
      && (|next| == |cs| + 1 ==> next[|cs|].time == Bucket(x.at, r) && IndexOf(cs, Bucket(x.at, r)).None?)
  {
    hide Bucket;
  }

  /** In ascending order, a tick extends a candle or starts one whose first snapshot is the latest. */
  lemma TickByFirst(cs: seq<Candle>, init: seq<Snapshot>, x: Snapshot, r: Resolution)
    requires GroupsBy(cs, init, r) && ByFirst(cs, init, r) && Ascending(At, init + [x])
    ensures ByFirst(AddTick(cs, x, r), init + [x], r)
  {
    hide Bucket, Group, AddTick, FirstAt, CandleOf, Ascending;
    LastIsLatest(init, x);
    TickKeepsTimes(cs, x, r);
    var next, b := AddTick(cs, x, r), Bucket(x.at, r);
    forall i | 0 <= i < |cs| ensures FirstAt(init + [x], r, cs[i].time) == FirstAt(init, r, cs[i].time) {
      assert Made(cs[i], init, r);
      FirstWithTick(init, x, r, cs[i].time);
    }
    if |next| > |cs| {
      NoCandleNoGroup(cs, init, r, b);
      FirstWithTick(init, x, r, b);
      forall i | 0 <= i < |cs| ensures FirstAt(init, r, cs[i].time) < x.at {
        assert Made(cs[i], init, r);
        FirstBefore(init, x, r, cs[i].time);
      }
    }
  }

  lemma {:induction false} SortedByFirst(xs: seq<Snapshot>, r: Resolution)
    requires Ascending(At, xs)
    ensures ByFirst(AddAll(xs, r), xs, r)
  {
    if xs != [] {
      hide Bucket, Ascending, AddAll, ByFirst, AddTick;
      var init, x := xs[..|xs| - 1], xs[|xs| - 1];
      assert xs == init + [x];
      LastIsLatest(init, x);
      SortedByFirst(init, r);
      BatchGroups(init, r);
      AddAllSnoc(init, x, r);
      TickByFirst(AddAll(init, r), init, x, r);
    } else {
      assert AddAll(xs, r) == [];
    }
  }

  lemma HasMember(cs: seq<Candle>) returns (c: Candle)
    requires cs != []
    ensures c in cs
  {
    c := cs[0];
  }

  lemma EmptyTogether(a: seq<Candle>, b: seq<Candle>)
    requires forall c :: c in a <==> c in b
    ensures a == [] <==> b == []
  {
    if a != [] {
      var c := HasMember(a);
    }
    if b != [] {
      var c := HasMember(b);
    }
  }

  /** Everything but the last candle is what starts before it. */
  lemma InitMembers(cs: seq<Candle>, xs: seq<Snapshot>, r: Resolution)
    requires ByFirst(cs, xs, r) && cs != []
    ensures ByFirst(cs[..|cs| - 1], xs, r)
    ensures forall c :: c in cs[..|cs| - 1] <==> c in cs && FirstAt(xs, r, c.time) < FirstAt(xs, r, cs[|cs| - 1].time)
    ensures forall c :: c in cs ==> FirstAt(xs, r, c.time) <= FirstAt(xs, r, cs[|cs| - 1].time)
    ensures forall c :: c in cs && FirstAt(xs, r, c.time) == FirstAt(xs, r, cs[|cs| - 1].time) ==> c == cs[|cs| - 1]
  {
    hide FirstAt;
    var n := |cs| - 1;
    forall c | c in cs && FirstAt(xs, r, c.time) < FirstAt(xs, r, cs[n].time) ensures c in cs[..n] {
      var i :| 0 <= i < |cs| && cs[i] == c;
      assert cs[..n][i] == c;
    }
  }

  /** Two lists of the same candles, both in order of first appearance, are the same list. */
  lemma {:induction false} GroupsUnique(a: seq<Candle>, b: seq<Candle>, xs: seq<Snapshot>, r: Resolution)
    requires ByFirst(a, xs, r) && ByFirst(b, xs, r) && forall c :: c in a <==> c in b
    ensures a == b
    decreases |a|
  {
    EmptyTogether(a, b);
    if a != [] {
      hide ByFirst, FirstAt;
      var n, m := |a| - 1, |b| - 1;
      InitMembers(a, xs, r);
      InitMembers(b, xs, r);
      assert a[n] in a && b[m] in b;
      assert a[n] == b[m];
      GroupsUnique(a[..n], b[..m], xs, r);
      assert a == a[..n] + [a[n]] && b == b[..m] + [b[m]];
    }
  }

  lemma GroupsMembers(cs: seq<Candle>, xs: seq<Snapshot>, r: Resolution, c: Candle)
    requires GroupsBy(cs, xs, r)
    ensures c in cs <==> Made(c, xs, r)
  {
    hide Bucket, CandleOf, Group;
    if Made(c, xs, r) {
      GroupMembers(xs, r, c.time);
      var y := Group(xs, r, c.time)[0];
      assert y in Group(xs, r, c.time);
      var d :| d in cs && d.time == Bucket(y.at, r);
      assert Made(d, xs, r);
    }
  }

  /** buildCandlesFromSnapshots equals the group-by specification, whatever the times: its candles are exactly
      the groups of the sorted snapshots, in the order in which the groups begin, and any other list with
      these two properties is the same. */
  lemma BatchIsGroupBy(snapshots: seq<Snapshot>, r: Resolution, cs: seq<Candle>)
    ensures GroupsBy(Batch(snapshots, r), Sort(At, snapshots), r) && ByFirst(Batch(snapshots, r), Sort(At, snapshots), r)
    ensures GroupsBy(cs, Sort(At, snapshots), r) && ByFirst(cs, Sort(At, snapshots), r) ==> cs == Batch(snapshots, r)
  {
    hide Bucket, ByFirst, GroupsBy, Made, AddAll, Sort, Ascending;
    var xs := Sort(At, snapshots);
    SortAscends(At, snapshots);
    SortedByFirst(xs, r);
    BatchGroups(xs, r);
    if ByFirst(cs, xs, r) && GroupsBy(cs, xs, r) {
      forall c ensures c in cs <==> c in Batch(snapshots, r) {
        GroupsMembers(cs, xs, r, c);
        GroupsMembers(Batch(snapshots, r), xs, r, c);
      }
      GroupsUnique(cs, Batch(snapshots, r), xs, r);
    }
  }

  // ---------------------------------------------------------------- increasing buckets

  ghost predicate Increasing(cs: seq<Candle>) {
    forall i, j :: 0 <= i < j < |cs| ==> cs[i].time < cs[j].time
  }

  /** No later snapshot is in an earlier bucket. */
  ghost predicate Orderly(xs: seq<Snapshot>, r: Resolution) {
    forall x, y :: x in xs && y in xs && x.at <= y.at ==> Bucket(x.at, r) <= Bucket(y.at, r)
  }

  /** So it is whenever Date.UTC reads every snapshot's year as it stands. */
  lemma PlainIsOrderly(xs: seq<Snapshot>, r: Resolution)
    requires forall x :: x in xs ==> Fixed(r) || Plain(x.at)
    ensures Orderly(xs, r)
  {
    hide Bucket, Plain;
    forall x, y | x in xs && y in xs && x.at <= y.at ensures Bucket(x.at, r) <= Bucket(y.at, r) {
      BucketMonotone(x.at, y.at, r);
    }
  }

  lemma GroupsIncrease(cs: seq<Candle>, xs: seq<Snapshot>, r: Resolution)
    requires GroupsBy(cs, xs, r) && ByFirst(cs, xs, r) && Orderly(xs, r)
    ensures Increasing(cs)
  {
    hide Bucket, Group, CandleOf, FirstAt;
    forall i, j | 0 <= i < j < |cs| ensures cs[i].time < cs[j].time {
      assert cs[i] in cs && cs[j] in cs;
      assert Made(cs[i], xs, r) && Made(cs[j], xs, r);
      var x := FirstIsIn(xs, r, cs[i].time);
      var y := FirstIsIn(xs, r, cs[j].time);
    }
  }

  /** Then the candles are in increasing order. */
  lemma BatchIncreases(snapshots: seq<Snapshot>, r: Resolution)
    requires Orderly(snapshots, r)
    ensures Increasing(Batch(snapshots, r))
  {
    hide Bucket, Increasing, GroupsBy, ByFirst, Sort, AddAll;
    BatchIsGroupBy(snapshots, r, []);
    SameElements(Sort(At, snapshots), snapshots);
    GroupsIncrease(Batch(snapshots, r), Sort(At, snapshots), r);
  }
}
