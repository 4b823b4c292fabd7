/** The round trip of both questions: build, answer, check, decode; and the V4 fine window. */
module ShadowRoundTrip {
  import opened ShadowAnswers
  import opened ShadowDecoding
  import opened ShadowExits
  import opened ShadowQuestions
  import opened ShadowShuffle
  import opened Text
  import opened Wrappers

  /** Every option's probability sits on its own candidate, abstain keeps its own, nothing else appears. */
  ghost predicate OnItsCandidate(keys: seq<string>, options: map<string, string>, ids: seq<string>, p: map<string, real>,
                                 d: map<string, real>)
    requires p.Keys == KeySet(keys)
  {
    && d.Keys == KeySet(ids) + {ABSTAIN} && |d| == |keys|
    && forall k :: k in keys ==> Name(options, k) in d && d[Name(options, k)] == p[k]
  }

  /** The total is that of the answer, so within 0.01 of one. */
  ghost predicate MassKept(keys: seq<string>, options: map<string, string>, p: map<string, real>)
    requires p.Keys == KeySet(keys)
  {
    var d := Decode(keys, p, options);
    Mass(d) == Mass(p) && -0.01 <= Mass(d) - 1.0 <= 0.01
  }

  /** The chosen candidate is a maximum within 1e-9. */
  ghost predicate ChoiceKept(keys: seq<string>, options: map<string, string>, p: map<string, real>, choice: string)
    requires p.Keys == KeySet(keys)
  {
    var d, c := Decode(keys, p, options), Name(options, choice);
    c in d && forall x :: x in d ==> d[x] <= d[c] + 0.000000001
  }

  ghost predicate Faithful(keys: seq<string>, options: map<string, string>, ids: seq<string>, a: Answer)
    requires Accepts(a, keys)
  {
    var p := Distribution(a, keys);
    && OnItsCandidate(keys, options, ids, p, Decode(keys, p, options)) && MassKept(keys, options, p)
    && ChoiceKept(keys, options, p, a.choice.value)
  }

  lemma KeyCount(keys: seq<string>, options: map<string, string>, ids: seq<string>, d: map<string, real>)
    requires Encodes(keys, options, ids) && ABSTAIN !in ids && d.Keys == KeySet(ids) + {ABSTAIN}
    ensures |d| == |keys|
  {
    hide ABSTAIN, Name;
    DistinctCount(ids);
  }

  lemma EntriesKept(keys: seq<string>, options: map<string, string>, ids: seq<string>, p: map<string, real>)
    requires Encodes(keys, options, ids) && p.Keys == KeySet(keys) && ABSTAIN !in ids
    ensures OnItsCandidate(keys, options, ids, p, Decode(keys, p, options))
  {
    DecodeCandidates(keys, options, ids, p);
    DecodedNames(keys, options, ids, p);
    hide *;
    KeyCount(keys, options, ids, Decode(keys, p, options));
    EntriesAre(keys, options, ids, p, Decode(keys, p, options));
  }

  lemma EntriesAre(keys: seq<string>, options: map<string, string>, ids: seq<string>, p: map<string, real>, d: map<string, real>)
    requires p.Keys == KeySet(keys) && d.Keys == KeySet(ids) + {ABSTAIN} && |d| == |keys|
    requires forall k :: k in keys ==> Name(options, k) in d && d[Name(options, k)] == p[k]
    ensures OnItsCandidate(keys, options, ids, p, d)
  {
  }

  lemma TotalKept(keys: seq<string>, options: map<string, string>, ids: seq<string>, a: Answer)
    requires Encodes(keys, options, ids) && Accepts(a, keys) && ABSTAIN !in ids
    ensures MassKept(keys, options, Distribution(a, keys))
  {
    var p := Distribution(a, keys);
    MassIsSum(keys, p);
    assert -0.01 <= Sum(keys, p) - 1.0 <= 0.01;
    assert forall k :: 0 <= k < |ids| ==> ids[k] in ids;
    hide ABSTAIN, Decode, Mass, Name, Distribution, Accepts, KeySet, Sum;
    MassKeptIff(keys, options, ids, p);
  }

  lemma FaithfulWithoutAbstain(keys: seq<string>, options: map<string, string>, ids: seq<string>, a: Answer)
    requires Encodes(keys, options, ids) && Accepts(a, keys) && ABSTAIN !in ids
    ensures Faithful(keys, options, ids, a)
  {
    EntriesKept(keys, options, ids, Distribution(a, keys));
    TotalKept(keys, options, ids, a);
    ChoiceStaysMaximal(keys, options, ids, a);
    hide Encodes, ABSTAIN, Decode, Mass, Name, Distribution, Accepts, KeySet, OnItsCandidate, MassKept;
  }

  ghost predicate SomeAnswerLosesMass(keys: seq<string>, options: map<string, string>) {
    exists a: Answer :: Accepts(a, keys) && Mass(Decode(keys, Distribution(a, keys), options)) != Mass(Distribution(a, keys))
  }

  /** Some accepted answer is decoded to a different total exactly when a candidate is called "abstain". */
  lemma LossIff(keys: seq<string>, options: map<string, string>, ids: seq<string>)
    requires Encodes(keys, options, ids)
    ensures SomeAnswerLosesMass(keys, options) <==> ABSTAIN in ids
  {
    if ABSTAIN in ids {
      var k :| 0 <= k < |ids| && ids[k] == ABSTAIN;
      AbstainIdLosesAll(keys, options, ids, k);
      var a := Certain(keys, keys[k]);
      hide Mass, Decode;
      assert Accepts(a, keys) && Mass(Decode(keys, Distribution(a, keys), options)) != Mass(Distribution(a, keys));
    } else {
      forall a: Answer | Accepts(a, keys)
        ensures Mass(Decode(keys, Distribution(a, keys), options)) == Mass(Distribution(a, keys))
      {
        TotalKept(keys, options, ids, a);
      }
    }
  }

  // ---------------------------------------------------------------- V3

  function CandidateId(options: map<string, string>, choice: string): Option<string> {
    if choice in options then Some(options[choice]) else None
  }

  lemma IdsNamed(cs: seq<Candidate>, ids: seq<string>, x: string)
    requires KeySet(ids) == set c | c in cs :: c.id
    ensures x in ids <==> exists c :: c in cs && c.id == x
  {
    assert x in ids <==> x in KeySet(ids);
  }

  lemma ChoiceNamed(keys: seq<string>, options: map<string, string>, ids: seq<string>, a: Answer)
    requires Encodes(keys, options, ids) && Accepts(a, keys) && ABSTAIN !in options
    ensures CandidateId(options, a.choice.value).None? <==> a.choice.value == ABSTAIN
    ensures a.choice.value != ABSTAIN ==> CandidateId(options, a.choice.value).value in ids
  {
    hide ABSTAIN, Distribution, Sum;
    var j :| 0 <= j < |keys| && keys[j] == a.choice.value;
    assert j < |ids| ==> ids[j] in ids;
  }

  /** Any accepted answer to any built request, with any digest, decodes faithfully when no candidate is
      called "abstain". */
  lemma V3RoundTrip(i: Input, seed: Seed, a: Answer)
    requires Build(i, seed).Ok? && Accepts(a, Build(i, seed).value.criteria)
    requires forall c :: c in i.candidates ==> c.id != ABSTAIN
    ensures SetOk(i)
    ensures Faithful(Build(i, seed).value.criteria, Build(i, seed).value.options, OrderedIds(i, seed), a)
  {
    RequestEncodes(i, seed);
    hide *;
    var q, ids := Build(i, seed).value, OrderedIds(i, seed);
    IdsNamed(i.candidates, ids, ABSTAIN);
    FaithfulWithoutAbstain(q.criteria, q.options, ids, a);
  }

  /** The recorded candidate id is one of the candidates', and missing exactly for abstain. */
  lemma V3ChoiceRecorded(i: Input, seed: Seed, a: Answer)
    requires Build(i, seed).Ok? && Accepts(a, Build(i, seed).value.criteria)
    ensures var id := CandidateId(Build(i, seed).value.options, a.choice.value);
      && (id.None? <==> a.choice.value == ABSTAIN)
      && (id.Some? ==> exists c :: c in i.candidates && c.id == id.value)
  {
    RequestEncodes(i, seed);
    OptionsOf(i, seed);
    hide *;
    var q, ids := Build(i, seed).value, OrderedIds(i, seed);
    ChoiceNamed(q.criteria, q.options, ids, a);
    var id := CandidateId(q.options, a.choice.value);
    if id.Some? { IdsNamed(i.candidates, ids, id.value); }
  }

  /** The exact condition, on the candidate set alone. */
  lemma V3LossIff(i: Input, seed: Seed)
    requires Build(i, seed).Ok?
    ensures SomeAnswerLosesMass(Build(i, seed).value.criteria, Build(i, seed).value.options)
            <==> exists c :: c in i.candidates && c.id == ABSTAIN
  {
    RequestEncodes(i, seed);
    hide *;
    var q, ids := Build(i, seed).value, OrderedIds(i, seed);
    IdsNamed(i.candidates, ids, ABSTAIN);
    LossIff(q.criteria, q.options, ids);
  }

  // ---------------------------------------------------------------- V4

  lemma ExitNamesDistinct(i: nat, j: nat)
    requires ExitName(i) == ExitName(j)
    ensures i == j
  {
    assert ExitName(i)[5..] == Decimal(i) && ExitName(j)[5..] == Decimal(j);
    DecimalInjective(i, j);
  }

  lemma ExitIsNotAbstain(i: nat)
    ensures ExitName(i) != ABSTAIN
  {
    assert ExitName(i)[0] == 'e';
  }

  function ExitIds(xs: seq<Exit>): (ids: seq<string>)
    ensures |ids| == |xs|
  {
    seq(|xs|, k requires 0 <= k < |xs| => xs[k].id)
  }

  lemma {:induction false} ExitOptionsName(xs: seq<Exit>)
    ensures ABSTAIN in ExitOptions(xs) && ExitOptions(xs)[ABSTAIN] == ABSTAIN
    ensures forall k :: 0 <= k < |xs| ==> ExitName(k) in ExitOptions(xs) && ExitOptions(xs)[ExitName(k)] == xs[k].id
  {
    hide ExitName, ABSTAIN;
    if xs != [] {
      var n := |xs| - 1;
      ExitOptionsName(xs[..n]);
      ExitIsNotAbstain(n);
      forall k | 0 <= k < |xs| ensures ExitName(k) in ExitOptions(xs) && ExitOptions(xs)[ExitName(k)] == xs[k].id {
        if k < n && ExitName(k) == ExitName(n) { ExitNamesDistinct(k, n); }
      }
    }
  }

  lemma ExitCriteriaDistinct(n: nat)
    ensures Distinct(ExitCriteria(n))
  {
    hide ExitName, ABSTAIN;
    forall k, j | 0 <= k < j <= n ensures ExitCriteria(n)[k] != ExitCriteria(n)[j] {
      ExitIsNotAbstain(k);
      if j < n && ExitName(k) == ExitName(j) { ExitNamesDistinct(k, j); }
    }
  }

  lemma EncodesIf(keys: seq<string>, options: map<string, string>, ids: seq<string>)
    requires |keys| == |ids| + 1 && keys[|ids|] == ABSTAIN && ABSTAIN in options && options[ABSTAIN] == ABSTAIN
    requires forall k :: 0 <= k < |ids| ==> keys[k] in options && options[keys[k]] == ids[k]
    requires Distinct(keys) && Distinct(ids)
    ensures Encodes(keys, options, ids)
  {
    hide ABSTAIN, Distinct;
  }

  lemma ExitsEncode(xs: seq<Exit>)
    requires ExitsOk(xs)
    ensures Encodes(ExitCriteria(|xs|), ExitOptions(xs), ExitIds(xs))
  {
    hide ExitName, ABSTAIN, ExitOptions, ExitsOk, Encodes, Distinct;
    ExitOptionsName(xs);
    ExitCriteriaDistinct(|xs|);
    ExitIdsDistinct(xs);
    var keys := ExitCriteria(|xs|);
    assert forall k :: 0 <= k < |xs| ==> keys[k] == ExitName(k);
    EncodesIf(keys, ExitOptions(xs), ExitIds(xs));
  }

  lemma ExitIdsDistinct(xs: seq<Exit>)
    requires ExitsOk(xs)
    ensures Distinct(ExitIds(xs))
  {
    hide UpdateOk;
    var ids := ExitIds(xs);
    forall k, j | 0 <= k < j < |ids| ensures ids[k] != ids[j] {
      assert xs[k].id != xs[j].id;
    }
  }

  lemma ShuffledMembers<T>(xs: seq<T>, draws: seq<nat>)
    requires DrawsFor(draws, |xs|)
    ensures forall x :: x in Shuffled(xs, draws) <==> x in xs
  {
    ShuffleIsPermutation(xs, draws);
    var p := Shuffled(Identity(|xs|), draws);
    hide Shuffled;
    forall k | 0 <= k < |xs| ensures xs[k] in Pick(xs, p) {
      Pigeonhole(p, |xs|, k);
      var j :| 0 <= j < |xs| && p[j] == k;
      assert Pick(xs, p)[j] == xs[k];
    }
  }

  ghost predicate DistinctExits(xs: seq<Exit>) {
    forall i, j :: 0 <= i < j < |xs| ==> xs[i].id != xs[j].id
  }

  lemma ShuffledDistinct(xs: seq<Exit>, draws: seq<nat>)
    requires DrawsFor(draws, |xs|)
    ensures DistinctExits(Shuffled(xs, draws)) <==> DistinctExits(xs)
  {
    ShuffleIsPermutation(xs, draws);
    var p, n := Shuffled(Identity(|xs|), draws), |xs|;
    hide Shuffled;
    if DistinctExits(Pick(xs, p)) {
      forall k, l | 0 <= k < l < n ensures xs[k].id != xs[l].id {
        Pigeonhole(p, n, k);
        Pigeonhole(p, n, l);
        var i :| 0 <= i < n && p[i] == k;
        var j :| 0 <= j < n && p[j] == l;
        assert Pick(xs, p)[i] == xs[k] && Pick(xs, p)[j] == xs[l];
      }
    }
  }

  /** Neither digest decides whether a V4 request is accepted. */
  lemma ExitAcceptanceIgnoresSeed(xs: seq<Exit>, draws: seq<nat>)
    requires DrawsFor(draws, |xs|)
    ensures ExitsOk(Shuffled(xs, draws)) <==> ExitsOk(xs)
  {
    ShuffledMembers(xs, draws);
    ShuffledDistinct(xs, draws);
    hide Shuffled, UpdateOk;
    assert ExitsOk(xs) <==> DistinctExits(xs) && forall x :: x in xs ==> x.id != "" && forall u :: u in x.updates ==> UpdateOk(u);
  }

  lemma ExitIdsNamed(xs: seq<Exit>, draws: seq<nat>, x: string)
    requires DrawsFor(draws, |xs|)
    ensures x in ExitIds(Shuffled(xs, draws)) <==> exists e :: e in xs && e.id == x
  {
    ShuffledMembers(xs, draws);
    hide Shuffled;
    var ys := Shuffled(xs, draws);
    if e :| e in xs && e.id == x {
      assert e in ys;
      var k :| 0 <= k < |ys| && ys[k] == e;
      assert ExitIds(ys)[k] == x;
    }
    if x in ExitIds(ys) {
      var k :| 0 <= k < |ys| && ExitIds(ys)[k] == x;
      assert ys[k] in xs;
    }
  }

  lemma Unbuild4(i: Input4, gridSeed: Seed, exitSeed: Seed)
    requires Build4(i, gridSeed, exitSeed).Ok?
    ensures DecisionOk(i) && DrawsFor(DrawsV4(exitSeed, |i.exits|), |i.exits|)
    ensures var q, xs := Build4(i, gridSeed, exitSeed).value, Shuffled(i.exits, DrawsV4(exitSeed, |i.exits|));
      && Build(i.grid, gridSeed) == Ok(q.grid) && q.gridOptions == q.grid.options[ABSTAIN := ABSTAIN] && ExitsOk(xs)
      && q.exitOptions == ExitOptions(xs) && q.exitCriteria == ExitCriteria(|xs|)
      && ProjectFine(i.fine, i.grid.observedAt.value, i.grid.policy.symbol) == Ok(q.fine)
  {
    hide Build, ExitsOk, Shuffled, ExitOptions, ExitRows, ExitCriteria, ProjectFine;
  }

  /** Both V4 questions: each accepted answer decodes faithfully when no candidate and no exit plan is
      called "abstain". */
  lemma V4RoundTrip(i: Input4, gridSeed: Seed, exitSeed: Seed, grid: Answer, exit: Answer)
    requires Build4(i, gridSeed, exitSeed).Ok?
    requires Accepts(grid, Build4(i, gridSeed, exitSeed).value.grid.criteria)
    requires Accepts(exit, Build4(i, gridSeed, exitSeed).value.exitCriteria)
    requires forall c :: c in i.grid.candidates ==> c.id != ABSTAIN
    requires forall x :: x in i.exits ==> x.id != ABSTAIN
    ensures SetOk(i.grid) && DecisionOk(i)
    ensures var q := Build4(i, gridSeed, exitSeed).value;
      && Faithful(q.grid.criteria, q.gridOptions, OrderedIds(i.grid, gridSeed), grid)
      && Faithful(q.exitCriteria, q.exitOptions, ExitIds(OrderedExits(i, exitSeed)), exit)
  {
    Unbuild4(i, gridSeed, exitSeed);
    hide *;
    hide OrderedExits;
    var q, ids := Build4(i, gridSeed, exitSeed).value, OrderedIds(i.grid, gridSeed);
    RequestEncodes(i.grid, gridSeed);
    IdsNamed(i.grid.candidates, ids, ABSTAIN);
    FaithfulWithoutAbstain(q.grid.criteria, q.gridOptions, ids, grid);
    var draws := DrawsV4(exitSeed, |i.exits|);
    var xs := Shuffled(i.exits, draws);
    ExitsEncode(xs);
    ExitIdsNamed(i.exits, draws, ABSTAIN);
    FaithfulWithoutAbstain(q.exitCriteria, q.exitOptions, ExitIds(xs), exit);
    OrderedExitsAre(i, exitSeed);
  }

  lemma OrderedExitsAre(i: Input4, seed: Seed)
    requires DecisionOk(i)
    ensures OrderedExits(i, seed) == Shuffled(i.exits, DrawsV4(seed, |i.exits|))
  {
  }

  /** And the exact condition for each question. */
  lemma V4LossIff(i: Input4, gridSeed: Seed, exitSeed: Seed)
    requires Build4(i, gridSeed, exitSeed).Ok?
    ensures var q := Build4(i, gridSeed, exitSeed).value;
      && (SomeAnswerLosesMass(q.grid.criteria, q.gridOptions) <==> exists c :: c in i.grid.candidates && c.id == ABSTAIN)
      && (SomeAnswerLosesMass(q.exitCriteria, q.exitOptions) <==> exists x :: x in i.exits && x.id == ABSTAIN)
  {
    Unbuild4(i, gridSeed, exitSeed);
    hide *;
    var q, ids := Build4(i, gridSeed, exitSeed).value, OrderedIds(i.grid, gridSeed);
    RequestEncodes(i.grid, gridSeed);
    IdsNamed(i.grid.candidates, ids, ABSTAIN);
    LossIff(q.grid.criteria, q.gridOptions, ids);
    var draws := DrawsV4(exitSeed, |i.exits|);
    var xs := Shuffled(i.exits, draws);
    ExitsEncode(xs);
    ExitIdsNamed(i.exits, draws, ABSTAIN);
    LossIff(q.exitCriteria, q.exitOptions, ExitIds(xs));
  }

  // ---------------------------------------------------------------- the fine window

  lemma {:induction false} Progression(cs: seq<Fine>, k: nat)
    requires !Discontinuous(cs) && k < |cs|
    ensures cs[k].closedAt == cs[0].closedAt + FIVE_MINUTES * k
  {
    if k > 0 { Progression(cs, k - 1); }
  }

  /** An accepted fine window is the last at most 24 recorded candles, one every five minutes, none
      closing after observedAt, each with its close and open between low and high. */
  lemma FineWindow(s: Snapshot, observedAt: int, symbol: string)
    requires ProjectFine(Some(s), observedAt, symbol).Ok?
    ensures var cs, n := ProjectFine(Some(s), observedAt, symbol).value.candles, |s.candles|;
      && |cs| == (if n <= 24 then n else 24)
      && forall k :: 0 <= k < |cs| ==>
           && var raw := s.candles[n - |cs| + k];
           && raw == RawFine(Some(cs[k].closedAt - 300_000), Some(cs[k].closedAt), Some(cs[k].open), Some(cs[k].high),
                             Some(cs[k].low), Some(cs[k].close))
           && cs[k].closedAt == cs[0].closedAt + 300_000 * k && cs[k].closedAt <= observedAt
           && 0.0 < cs[k].low <= cs[k].open <= cs[k].high && cs[k].low <= cs[k].close <= cs[k].high
  {
    var cs := ProjectFine(Some(s), observedAt, symbol).value.candles;
    forall k | 0 <= k < |cs| ensures cs[k].closedAt == cs[0].closedAt + FIVE_MINUTES * k {
      Progression(cs, k);
    }
  }

  /** The snapshot is of five-minute USDC candles of this symbol, and counts them right. */
  ghost predicate MetaOk(s: Snapshot, symbol: string) {
    s.resolution == "5m" && s.symbol == symbol && s.quoteSymbol == "USDC" && s.candleCount == |s.candles|
  }

  /** A candle of five minutes that closed by observedAt, with positive prices between its low and its high. */
  ghost predicate SoundFine(c: RawFine, observedAt: int) {
    && c.openedAt.Some? && c.closedAt.Some? && c.closedAt.value == c.openedAt.value + 300_000 && c.closedAt.value <= observedAt
    && c.open.Some? && c.high.Some? && c.low.Some? && c.close.Some?
    && 0.0 < c.low.value <= c.open.value <= c.high.value && c.low.value <= c.close.value <= c.high.value
  }

  lemma SoundFineIff(c: RawFine, observedAt: int)
    ensures FineOk(c, observedAt) <==> SoundFine(c, observedAt)
  {
  }

  /** A snapshot is accepted exactly when its metadata match, every candle of the last 24 is sound, and each
      closes five minutes after the one before. */
  lemma FineAcceptedIff(s: Snapshot, observedAt: int, symbol: string)
    ensures var w := Last24(s.candles);
      ProjectFine(Some(s), observedAt, symbol).Ok? <==>
      && MetaOk(s, symbol)
      && (forall k :: 0 <= k < |w| ==> SoundFine(w[k], observedAt))
      && (forall k :: 0 < k < |w| ==> w[k].closedAt == Some(w[k - 1].closedAt.UnwrapOr(0) + 300_000))
  {
    var w := Last24(s.candles);
    forall k | 0 <= k < |w| ensures FineOk(w[k], observedAt) <==> SoundFine(w[k], observedAt) {
      SoundFineIff(w[k], observedAt);
    }
    hide SoundFine;
    if MetaOk(s, symbol) && forall k :: 0 <= k < |w| ==> FineOk(w[k], observedAt) {
      FineConsecutiveIff(w, observedAt);
    }
  }

  lemma FineConsecutiveIff(w: seq<RawFine>, observedAt: int)
    requires forall k :: 0 <= k < |w| ==> FineOk(w[k], observedAt)
    ensures var cs := seq(|w|, k requires 0 <= k < |w| => assert FineOk(w[k], observedAt); FineOf(w[k]));
      !Discontinuous(cs) <==> forall k :: 0 < k < |w| ==> w[k].closedAt == Some(w[k - 1].closedAt.UnwrapOr(0) + 300_000)
  {
    var cs := seq(|w|, k requires 0 <= k < |w| => assert FineOk(w[k], observedAt); FineOf(w[k]));
    assert forall k :: 0 <= k < |w| ==> w[k].closedAt == Some(cs[k].closedAt);
    if !Discontinuous(cs) {
      forall k | 0 < k < |w| ensures w[k].closedAt == Some(w[k - 1].closedAt.UnwrapOr(0) + 300_000) {
        assert cs[k].closedAt - cs[k - 1].closedAt == FIVE_MINUTES;
      }
    }
  }

  /** The status says how far an accepted window reaches. */
  lemma FineStatus(snapshot: Option<Snapshot>, observedAt: int, symbol: string)
    requires ProjectFine(snapshot, observedAt, symbol).Ok?
    ensures var m := ProjectFine(snapshot, observedAt, symbol).value;
      && (m.status == MissingAtCapture <==> snapshot.None?)
      && (m.status == EmptyAtCapture <==> snapshot.Some? && m.candles == [])
      && (m.candles != [] ==> m.status == ClosedThrough(m.candles[|m.candles| - 1].closedAt))
  {
    hide Discontinuous, FineOk;
  }
}
