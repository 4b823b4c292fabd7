/** What every V3 request guarantees: acceptance does not depend on the digest, the option map is a
    bijection onto the candidate ids, and nothing after the market close is visible. */
module ShadowRequests {
  import opened ShadowQuestions
  import opened ShadowShuffle
  import opened ShadowState
  import opened Sorting
  import opened Text
  import opened Wrappers

  ghost predicate DistinctIds(xs: seq<Indexed>) {
    forall i, j :: 0 <= i < j < |xs| ==> xs[i].candidate.id != xs[j].candidate.id
  }

  ghost predicate AllChecked(xs: seq<Indexed>) {
    forall i :: 0 <= i < |xs| ==> CheckCandidate(xs[i]).None?
  }

  // ---------------------------------------------------------------- acceptance

  lemma PrepareSnoc(prior: seq<Indexed>, x: Indexed)
    ensures Prepare(prior + [x]).Ok? <==> Prepare(prior).Ok? && x.candidate.id !in IdSet(prior) && CheckCandidate(x).None?
  {
    hide CheckCandidate, IdSet;
    assert (prior + [x])[..|prior|] == prior;
  }

  lemma DistinctSnoc(prior: seq<Indexed>, x: Indexed)
    ensures DistinctIds(prior + [x]) <==> DistinctIds(prior) && x.candidate.id !in IdSet(prior)
  {
    var xs := prior + [x];
    assert forall i :: 0 <= i < |prior| ==> xs[i] == prior[i];
    if x.candidate.id in IdSet(prior) {
      var y :| y in prior && y.candidate.id == x.candidate.id;
      var i :| 0 <= i < |prior| && prior[i] == y;
      assert xs[i].candidate.id == xs[|prior|].candidate.id;
    } else {
      forall i | 0 <= i < |prior| ensures prior[i].candidate.id != x.candidate.id {
        assert prior[i] in prior;
      }
    }
  }

  lemma CheckedSnoc(prior: seq<Indexed>, x: Indexed)
    ensures AllChecked(prior + [x]) <==> AllChecked(prior) && CheckCandidate(x).None?
  {
    hide CheckCandidate;
    var xs := prior + [x];
    assert forall i :: 0 <= i < |prior| ==> xs[i] == prior[i];
    assert xs[|prior|] == x;
  }

  lemma {:induction false} PrepareAccepts(xs: seq<Indexed>)
    ensures Prepare(xs).Ok? <==> DistinctIds(xs) && AllChecked(xs)
  {
    if xs != [] {
      hide *;
      var prior, x := xs[..|xs| - 1], xs[|xs| - 1];
      PrepareAccepts(prior);
      PrepareSnoc(prior, x);
      DistinctSnoc(prior, x);
      CheckedSnoc(prior, x);
      assert xs == prior + [x];
    }
  }

  /** Where a rearrangement puts element i. */
  lemma PickHas(xs: seq<Indexed>, p: seq<nat>, i: nat) returns (j: nat)
    requires IsPermutation(p, |xs|) && i < |xs|
    ensures j < |p| && p[j] == i && Pick(xs, p)[j] == xs[i]
  {
    Pigeonhole(p, |xs|, i);
    j :| j < |p| && p[j] == i;
  }

  lemma PermutedDistinct(xs: seq<Indexed>, p: seq<nat>)
    requires IsPermutation(p, |xs|)
    ensures DistinctIds(Pick(xs, p)) <==> DistinctIds(xs)
  {
    var ys := Pick(xs, p);
    if DistinctIds(ys) {
      forall i, k | 0 <= i < k < |xs| ensures xs[i].candidate.id != xs[k].candidate.id {
        var j := PickHas(xs, p, i);
        var l := PickHas(xs, p, k);
        if j < l { assert ys[j].candidate.id != ys[l].candidate.id; } else { assert ys[l].candidate.id != ys[j].candidate.id; }
      }
    }
    if DistinctIds(xs) {
      forall j, l | 0 <= j < l < |ys| ensures ys[j].candidate.id != ys[l].candidate.id {
        if p[j] < p[l] {
          assert xs[p[j]].candidate.id != xs[p[l]].candidate.id;
        } else {
          assert xs[p[l]].candidate.id != xs[p[j]].candidate.id;
        }
      }
    }
  }

  lemma PermutedMembers(xs: seq<Indexed>, p: seq<nat>)
    requires IsPermutation(p, |xs|)
    ensures forall x :: x in Pick(xs, p) <==> x in xs
  {
    forall i | 0 <= i < |xs| ensures xs[i] in Pick(xs, p) {
      var j := PickHas(xs, p, i);
    }
  }

  lemma AllCheckedMembers(xs: seq<Indexed>)
    ensures AllChecked(xs) <==> forall x :: x in xs ==> CheckCandidate(x).None?
  {
    hide CheckCandidate;
  }

  lemma PermutedAcceptance(xs: seq<Indexed>, p: seq<nat>)
    requires IsPermutation(p, |xs|)
    ensures DistinctIds(Pick(xs, p)) && AllChecked(Pick(xs, p)) <==> DistinctIds(xs) && AllChecked(xs)
    ensures IdSet(Pick(xs, p)) == IdSet(xs)
  {
    hide CheckCandidate, DistinctIds, AllChecked, Pick;
    PermutedDistinct(xs, p);
    PermutedMembers(xs, p);
    AllCheckedMembers(xs);
    AllCheckedMembers(Pick(xs, p));
  }

  /** The inputs a request is built from, stated on the frozen candidate order. */
  ghost predicate Acceptable(i: Input) {
    && i.observedAt.Some? && i.stateReadAt.Some? && i.observedAt.value <= i.stateReadAt.value && SetOk(i)
    && DistinctIds(IndexAll(i.candidates)) && AllChecked(IndexAll(i.candidates))
    && (i.policyCandidateId.Some? ==> exists c :: c in i.candidates && c.id == i.policyCandidateId.value)
    && MarketOf(i.candles, i.observedAt.value).Ok?
    && BandOk(i.policy) && AllFinite(i.policy)
  }

  /** The digest never decides whether a request is accepted. */
  lemma AcceptanceIgnoresSeed(i: Input, seed: Seed)
    ensures Build(i, seed).Ok? <==> Acceptable(i)
  {
    if BandOk(i.policy) { StateReadIff(i.policy); }
    hide Prepare, MarketOf, Shuffled, StateOf, BandOk, AllFinite;
    if i.observedAt.Some? && i.stateReadAt.Some? && SetOk(i) {
      var xs := IndexAll(i.candidates);
      var draws := DrawsV3(seed, |xs|);
      var p := Shuffled(Identity(|xs|), draws);
      ShuffleIsPermutation(xs, draws);
      PermutedAcceptance(xs, p);
      PrepareAccepts(Shuffled(xs, draws));
      IdsOfCandidates(i.candidates);
    }
  }

  lemma IdsOfCandidates(cs: seq<Candidate>)
    ensures forall id :: id in IdSet(IndexAll(cs)) <==> exists c :: c in cs && c.id == id
  {
    var xs := IndexAll(cs);
    forall c | c in cs ensures c.id in IdSet(xs) {
      var k :| 0 <= k < |cs| && cs[k] == c;
      assert xs[k] in xs;
    }
    forall x | x in xs ensures x.candidate in cs {
      var k :| 0 <= k < |xs| && xs[k] == x;
    }
  }

  // ---------------------------------------------------------------- the option map

  lemma OptionNamesDistinct(i: nat, j: nat)
    requires OptionName(i) == OptionName(j)
    ensures i == j
  {
    assert OptionName(i)[7..] == Decimal(i) && OptionName(j)[7..] == Decimal(j);
    DecimalInjective(i, j);
  }

  lemma OptionIsNotAbstain(i: nat)
    ensures OptionName(i) != ABSTAIN
  {
    assert OptionName(i)[0] == 'o';
  }

  /** Option i names the i-th shuffled candidate, and there is no other option. */
  ghost predicate NamesInOrder(p: Prepared, xs: seq<Indexed>) {
    && |p.rows| == |xs|
    && (forall i :: 0 <= i < |xs| ==>
          p.rows[i].option == OptionName(i) && OptionName(i) in p.options && p.options[OptionName(i)] == xs[i].candidate.id)
    && (forall o :: o in p.options ==> exists i :: 0 <= i < |xs| && o == OptionName(i))
  }

  lemma {:induction false} PrepareNames(xs: seq<Indexed>)
    requires Prepare(xs).Ok?
    ensures NamesInOrder(Prepare(xs).value, xs)
  {
    hide OptionName, CheckCandidate;
    if xs != [] {
      var n := |xs| - 1;
      PrepareNames(xs[..n]);
      var p, q := Prepare(xs[..n]).value, Prepare(xs).value;
      forall i | 0 <= i < |xs|
        ensures q.rows[i].option == OptionName(i) && OptionName(i) in q.options && q.options[OptionName(i)] == xs[i].candidate.id
      {
        if i < n && OptionName(i) == OptionName(n) {
          OptionNamesDistinct(i, n);
        }
        if i == n { RowNamed(xs[n], n); }
      }
      forall o | o in q.options ensures exists i :: 0 <= i < |xs| && o == OptionName(i) {
        if o in p.options {
          var i :| 0 <= i < n && o == OptionName(i);
        }
      }
    }
  }

  lemma RowNamed(x: Indexed, index: nat)
    requires CheckCandidate(x).None?
    ensures RowOf(x, index).option == OptionName(index)
  {
  }

  /** What a built request keeps of the prepared candidates. */
  lemma BuiltFrom(i: Input, seed: Seed)
    requires Build(i, seed).Ok?
    ensures SetOk(i)
    ensures var q, ordered := Build(i, seed).value, Shuffled(IndexAll(i.candidates), DrawsV3(seed, |i.candidates|));
      Prepare(ordered) == Ok(Prepared(q.options, q.rows)) && q.criteria == CriteriaKeys(q.rows)
  {
    hide Prepare, MarketOf, Shuffled, DrawsV3, CriteriaKeys;
  }

  lemma OrderedAre(i: Input, seed: Seed)
    requires SetOk(i)
    ensures var n := |i.candidates|; var p := Shuffled(Identity(n), DrawsV3(seed, n));
      var ordered := Shuffled(IndexAll(i.candidates), DrawsV3(seed, n));
      IsPermutation(p, n) && |ordered| == n && forall k :: 0 <= k < n ==> ordered[k].candidate == i.candidates[p[k]]
  {
    hide Shuffled;
    ShuffleIsPermutation(IndexAll(i.candidates), DrawsV3(seed, |i.candidates|));
  }

  lemma NamesInject(p: Prepared, xs: seq<Indexed>, a: string, b: string)
    requires NamesInOrder(p, xs) && DistinctIds(xs) && a in p.options && b in p.options && p.options[a] == p.options[b]
    ensures a == b
  {
    hide OptionName;
    var k :| 0 <= k < |xs| && a == OptionName(k);
    var l :| 0 <= l < |xs| && b == OptionName(l);
    assert xs[k].candidate.id == xs[l].candidate.id;
  }

  lemma NamesCover(p: Prepared, xs: seq<Indexed>, order: seq<nat>, cs: seq<Candidate>, c: Candidate)
    requires NamesInOrder(p, xs) && IsPermutation(order, |cs|) && |xs| == |cs| && c in cs
    requires forall k :: 0 <= k < |cs| ==> xs[k].candidate == cs[order[k]]
    ensures exists o :: o in p.options && p.options[o] == c.id
  {
    hide OptionName;
    var k :| 0 <= k < |cs| && cs[k] == c;
    Pigeonhole(order, |cs|, k);
    var j :| 0 <= j < |cs| && order[j] == k;
    assert p.options[OptionName(j)] == xs[j].candidate.id;
  }

  /** Everything the option map promises, for a request over the candidates in the given order. */
  ghost predicate Bijective(q: Request, cs: seq<Candidate>, order: seq<nat>) {
    var n := |cs|;
    && IsPermutation(order, n) && |q.rows| == n && |q.criteria| == n + 1 && q.criteria[n] == ABSTAIN
    && (forall k :: 0 <= k < n ==>
          q.criteria[k] == OptionName(k) && OptionName(k) in q.options && q.options[OptionName(k)] == cs[order[k]].id)
    && (forall o :: o in q.options ==> exists k :: 0 <= k < n && o == OptionName(k))
    && (forall c :: c in cs ==> exists o :: o in q.options && q.options[o] == c.id)
    && (forall a, b :: a in q.options && b in q.options && q.options[a] == q.options[b] ==> a == b)
  }

  lemma NamedIsBijective(q: Request, xs: seq<Indexed>, order: seq<nat>, cs: seq<Candidate>)
    requires NamesInOrder(Prepared(q.options, q.rows), xs) && DistinctIds(xs) && q.criteria == CriteriaKeys(q.rows)
    requires IsPermutation(order, |cs|) && |xs| == |cs| && forall k :: 0 <= k < |cs| ==> xs[k].candidate == cs[order[k]]
    ensures Bijective(q, cs, order)
  {
    hide OptionName, ABSTAIN, DistinctIds;
    var p := Prepared(q.options, q.rows);
    forall c | c in cs ensures exists o :: o in q.options && q.options[o] == c.id {
      NamesCover(p, xs, order, cs, c);
    }
    forall a, b | a in q.options && b in q.options && q.options[a] == q.options[b] ensures a == b {
      NamesInject(p, xs, a, b);
    }
  }

  /** In any built request, with any digest: the options are a rearrangement of the candidates, the
      option map is a bijection onto their ids, and the criteria are the options followed by abstain. */
  lemma OptionsAreBijective(i: Input, seed: Seed)
    requires Build(i, seed).Ok?
    ensures SetOk(i)
    ensures Bijective(Build(i, seed).value, i.candidates, Shuffled(Identity(|i.candidates|), DrawsV3(seed, |i.candidates|)))
  {
    BuiltFrom(i, seed);
    OrderedAre(i, seed);
    hide *;
    var q, n := Build(i, seed).value, |i.candidates|;
    var ordered := Shuffled(IndexAll(i.candidates), DrawsV3(seed, n));
    PrepareNames(ordered);
    PrepareAccepts(ordered);
    NamedIsBijective(q, ordered, Shuffled(Identity(n), DrawsV3(seed, n)), i.candidates);
  }

  // ---------------------------------------------------------------- no look-ahead

  ghost predicate DistinctCloses(cs: seq<Seen>) {
    forall c, d :: c in cs && d in cs && c.at == d.at ==> c == d
  }

  lemma SortedByClose(cs: seq<Seen>)
    ensures Ascending(ClosedAt, SortByClose(cs))
  {
    SortAscends(ClosedAt, cs);
  }

  lemma DropLast(a: seq<Seen>)
    requires a != []
    ensures multiset(a[..|a| - 1]) == multiset(a) - multiset{a[|a| - 1]}
    ensures Ascending(ClosedAt, a) ==> Ascending(ClosedAt, a[..|a| - 1])
    ensures DistinctCloses(a) ==> DistinctCloses(a[..|a| - 1])
  {
    assert a == a[..|a| - 1] + [a[|a| - 1]];
  }

  lemma SameLast(a: seq<Seen>, b: seq<Seen>)
    requires Ascending(ClosedAt, a) && Ascending(ClosedAt, b) && multiset(a) == multiset(b) && DistinctCloses(a) && a != []
    ensures |a| == |b| && a[|a| - 1] == b[|b| - 1]
  {
    SameElements(a, b);
    var x, y := a[|a| - 1], b[|b| - 1];
    assert x in a && y in b;
    assert x in b && y in a;
    assert x.at <= y.at && y.at <= x.at;
  }

  /** Two ascending lists of the same candles with distinct closing times are the same list. */
  lemma {:induction false} AscendingUnique(a: seq<Seen>, b: seq<Seen>)
    requires Ascending(ClosedAt, a) && Ascending(ClosedAt, b) && multiset(a) == multiset(b) && DistinctCloses(a)
    ensures a == b
    decreases |a|
  {
    hide *;
    SameElements(a, b);
    if a != [] {
      var n := |a| - 1;
      SameLast(a, b);
      DropLast(a);
      DropLast(b);
      AscendingUnique(a[..n], b[..n]);
      LastRejoins(a);
      LastRejoins(b);
    }
  }

  lemma LastRejoins(a: seq<Seen>)
    requires a != []
    ensures a == a[..|a| - 1] + [a[|a| - 1]]
  {
  }

  lemma SortIgnoresOrder(a: seq<Seen>, b: seq<Seen>)
    requires multiset(a) == multiset(b) && DistinctCloses(a)
    ensures SortByClose(a) == SortByClose(b)
  {
    hide SortByClose, Ascending;
    SortedByClose(a);
    SortedByClose(b);
    SameElements(a, SortByClose(a));
    AscendingUnique(SortByClose(a), SortByClose(b));
  }

  lemma MarketSeesPastOnly(a: seq<Candle>, b: seq<Candle>, t: int)
    requires SortByClose(Past(a, t)) == SortByClose(Past(b, t))
    ensures MarketOf(a, t) == MarketOf(b, t)
  {
    hide Past, SortByClose;
  }

  /** No look-ahead: two inputs that agree on the candles closed at or before observedAt, in any order
      when closing times are distinct, get the same answer, request or error. */
  lemma NoLookAhead(i: Input, other: seq<Candle>, seed: Seed)
    requires i.observedAt.Some?
    requires var t := i.observedAt.value;
      || Past(i.candles, t) == Past(other, t)
      || (multiset(Past(i.candles, t)) == multiset(Past(other, t)) && DistinctCloses(Past(i.candles, t)))
    ensures Build(i, seed) == Build(i.(candles := other), seed)
  {
    hide Prepare, Past, SortByClose, MarketOf, DistinctCloses, Shuffled;
    var t := i.observedAt.value;
    if Past(i.candles, t) != Past(other, t) {
      SortIgnoresOrder(Past(i.candles, t), Past(other, t));
    }
    MarketSeesPastOnly(i.candles, other, t);
  }

  /** w holds the latest at most n of the past closes: every other one closed no later than its first. */
  ghost predicate IsLatest(w: seq<Seen>, past: multiset<Seen>, n: nat) {
    && |w| == (if |past| <= n then |past| else n) && multiset(w) <= past
    && (w != [] ==> forall c: Seen :: c in past - multiset(w) ==> c.at <= w[0].at)
  }

  lemma AscendingSplit(sorted: seq<Seen>, k: nat)
    requires Ascending(ClosedAt, sorted) && k <= |sorted|
    ensures Ascending(ClosedAt, sorted[k..])
    ensures k < |sorted| ==> forall c :: c in sorted[..k] ==> c.at <= sorted[k].at
  {
    if k < |sorted| {
      forall c | c in sorted[..k] ensures c.at <= sorted[k].at {
        var i :| 0 <= i < k && sorted[i] == c;
        assert ClosedAt(sorted[i]) <= ClosedAt(sorted[k]);
      }
    }
  }

  lemma SplitIsLatest(rest: seq<Seen>, w: seq<Seen>, n: nat)
    requires |w| == if |rest + w| <= n then |rest + w| else n
    requires w != [] ==> forall c :: c in rest ==> c.at <= w[0].at
    ensures IsLatest(w, multiset(rest + w), n)
  {
    assert multiset(rest + w) - multiset(w) == multiset(rest);
    assert |multiset(rest + w)| == |rest + w|;
    forall c: Seen | c in multiset(rest) ensures c in rest {
    }
  }

  lemma LastNIsLatest(sorted: seq<Seen>, n: nat)
    requires Ascending(ClosedAt, sorted)
    ensures Ascending(ClosedAt, LastN(sorted, n)) && IsLatest(LastN(sorted, n), multiset(sorted), n)
  {
    var w := LastN(sorted, n);
    var k := |sorted| - |w|;
    AscendingSplit(sorted, k);
    hide Ascending, IsLatest;
    assert sorted == sorted[..k] + sorted[k..] && w == sorted[k..];
    SplitIsLatest(sorted[..k], w, n);
  }

  /** w reads the prices of the candles seen, the last of which closed at t. */
  ghost predicate IsReading(w: seq<Closed>, seen: seq<Seen>, t: int) {
    && seen != [] && seen[|seen| - 1].at == t && |w| == |seen|
    && forall k :: 0 <= k < |w| ==> seen[k] == Seen(w[k].at, Some(w[k].high), Some(w[k].low), Some(w[k].close))
  }

  /** The candles closed by t are seen, and no others. */
  lemma {:induction false} PastIs(candles: seq<Candle>, t: int)
    ensures forall s :: s in Past(candles, t) <==> s.at <= t && Candle(Some(s.at), s.high, s.low, s.close) in candles
  {
    if candles != [] {
      var init, c := candles[..|candles| - 1], candles[|candles| - 1];
      assert candles == init + [c];
      PastIs(init, t);
    }
  }

  lemma WindowOf(i: Input, seed: Seed)
    requires Build(i, seed).Ok?
    ensures i.observedAt.Some?
    ensures IsReading(Build(i, seed).value.market.window, Window(i.candles, i.observedAt.value), i.observedAt.value)
  {
    hide Prepare, Window, Shuffled, SetOk;
  }

  /** The window reads the latest at most 24 candles closed by observedAt, in ascending order, the last of
      them closed exactly at observedAt. */
  lemma WindowIsLatest(i: Input, seed: Seed)
    requires Build(i, seed).Ok?
    ensures var seen, past := Window(i.candles, i.observedAt.value), Past(i.candles, i.observedAt.value);
      && IsReading(Build(i, seed).value.market.window, seen, i.observedAt.value)
      && Ascending(ClosedAt, seen) && IsLatest(seen, multiset(past), 24)
      && (forall s :: s in past <==> s.at <= i.observedAt.value && Candle(Some(s.at), s.high, s.low, s.close) in i.candles)
  {
    WindowOf(i, seed);
    PastIs(i.candles, i.observedAt.value);
    var past := Past(i.candles, i.observedAt.value);
    SortedByClose(past);
    assert Window(i.candles, i.observedAt.value) == LastN(SortByClose(past), 24);
    hide Build, Past, SortByClose, LastN, IsLatest, Ascending, IsReading, Window;
    LastNIsLatest(SortByClose(past), 24);
  }
}
