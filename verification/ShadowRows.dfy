/** What a built request shows the model: every option's row describes the candidate, or the exit plan, that the
    option is decoded to, and the market numbers are those of the window. */
module ShadowRows {
  import opened ShadowExits
  import opened ShadowQuestions
  import opened ShadowRequests
  import opened ShadowRoundTrip
  import opened ShadowShuffle
  import opened ShadowState
  import opened Text
  import opened Wrappers

  // ---------------------------------------------------------------- which candidates are admitted

  /** A validated candidate, the frozen set's own "keep", or a "policy" candidate that parks or reactivates; with its
      reasons, a rising positive price range, a positive spacing, at least two levels and finite numbers throughout. */
  ghost predicate Admissible(c: Candidate, position: nat) {
    && (c.validation == Validated ||
        (c.validation == Baseline &&
         ((position == 0 && c.id == "keep") || (c.id == "policy" && c.action in {"park", "reactivate"}))))
    && c.reasons.Some? && (c.economicallyValid <==> c.validation == Validated)
    && c.low.Some? && c.high.Some? && 0.0 < c.low.value < c.high.value
    && c.spacing.Some? && c.spacing.value > 0.0 && c.levelCount.Some? && c.levelCount.value >= 2
    && c.requestedCapital.Some?
    && (forall k :: k in c.parameters ==> k != "" && c.parameters[k] != OtherParameter && c.parameters[k] != Number(None))
  }

  lemma CheckedIff(x: Indexed)
    ensures CheckCandidate(x).None? <==> Admissible(x.candidate, x.originalIndex)
  {
  }

  /** A whole input is accepted exactly when its candidates are admissible and everything else is in order. */
  lemma AcceptedIff(i: Input, seed: Seed)
    ensures Build(i, seed).Ok? <==>
            && i.observedAt.Some? && i.stateReadAt.Some? && i.observedAt.value <= i.stateReadAt.value && i.knownVersion
            && 1 <= |i.candidates| <= 6 && i.candidates[0].id == "keep"
            && (forall j, k :: 0 <= j < k < |i.candidates| ==> i.candidates[j].id != i.candidates[k].id)
            && (forall k :: 0 <= k < |i.candidates| ==> Admissible(i.candidates[k], k))
            && (i.policyCandidateId.Some? ==> exists c :: c in i.candidates && c.id == i.policyCandidateId.value)
            && MarketOf(i.candles, i.observedAt.value).Ok? && BandOk(i.policy) && AllFinite(i.policy)
  {
    AcceptanceIgnoresSeed(i, seed);
    hide Build, MarketOf, BandOk, AllFinite, CheckCandidate, Admissible;
    forall k | 0 <= k < |i.candidates| ensures CheckCandidate(IndexAll(i.candidates)[k]).None? <==> Admissible(i.candidates[k], k) {
      CheckedIff(IndexAll(i.candidates)[k]);
    }
  }

  // ---------------------------------------------------------------- rows

  /** The row shows the candidate's own numbers and words under the option's name. */
  ghost predicate Describes(row: Row, option: string, c: Candidate) {
    && row.option == option && row.kind == c.kind && row.action == c.action && row.rationale == c.rationale
    && c.low == Some(row.low) && c.high == Some(row.high) && c.levelCount == Some(row.levelCount)
    && c.spacing.Some? && row.spacingPct * row.low == 100.0 * c.spacing.value
    && c.requestedCapital == Some(row.requestedCapital) && row.validation == c.validation
    && c.reasons == Some(row.reasons) && row.parameters == c.parameters
  }

  lemma RowDescribes(x: Indexed, index: nat)
    requires CheckCandidate(x).None?
    ensures Describes(RowOf(x, index), OptionName(index), x.candidate)
  {
    hide OptionName;
    CheckedIff(x);
    var c := x.candidate;
    DividedBack(100.0 * c.spacing.value, c.low.value);
  }

  lemma DividedBack(x: real, y: real)
    requires y != 0.0
    ensures x / y * y == x
  {
  }

  lemma PreparedSnoc(prior: seq<Indexed>, x: Indexed)
    requires Prepare(prior + [x]).Ok?
    ensures Prepare(prior).Ok? && CheckCandidate(x).None?
    ensures Prepare(prior + [x]).value.rows == Prepare(prior).value.rows + [RowOf(x, |prior|)]
  {
    hide CheckCandidate, RowOf, OptionName, IdSet;
    assert (prior + [x])[..|prior|] == prior;
  }

  lemma NothingPrepared()
    ensures Prepare([]) == Ok(Prepared(map[], []))
  {
  }

  lemma {:induction false} RowsDescribe(xs: seq<Indexed>)
    requires Prepare(xs).Ok?
    ensures |Prepare(xs).value.rows| == |xs|
    ensures forall k :: 0 <= k < |xs| ==> Describes(Prepare(xs).value.rows[k], OptionName(k), xs[k].candidate)
  {
    hide *;
    if xs == [] {
      NothingPrepared();
    } else {
      var prior, x := xs[..|xs| - 1], xs[|xs| - 1];
      assert xs == prior + [x];
      PreparedSnoc(prior, x);
      RowsDescribe(prior);
      RowDescribes(x, |prior|);
    }
  }

  /** Under every digest: every option of a built request is in the option map, and its row describes the one
      candidate of the frozen set with the id it is decoded to. */
  lemma OptionsDescribeCandidates(i: Input, seed: Seed, k: nat) returns (c: Candidate)
    requires Build(i, seed).Ok? && k < |Build(i, seed).value.rows|
    ensures var q := Build(i, seed).value; var row := q.rows[k];
      && q.criteria[..|q.rows|][k] == row.option && row.option in q.options
      && c in i.candidates && c.id == q.options[row.option] && Describes(row, row.option, c)
      && (forall d :: d in i.candidates && d.id == q.options[row.option] ==> d == c)
  {
    BuiltFrom(i, seed);
    OrderedAre(i, seed);
    hide *;
    var q, n := Build(i, seed).value, |i.candidates|;
    var ordered := Shuffled(IndexAll(i.candidates), DrawsV3(seed, n));
    OptionsAreBijective(i, seed);
    RowsDescribe(ordered);
    BijectiveAt(q, i.candidates, Shuffled(Identity(n), DrawsV3(seed, n)), k);
    c := ordered[k].candidate;
    DescribesName(q.rows[k], OptionName(k), c);
    OneOfId(i, seed, c);
  }

  lemma DescribesName(row: Row, option: string, c: Candidate)
    requires Describes(row, option, c)
    ensures row.option == option
  {
  }

  lemma BijectiveAt(q: Request, cs: seq<Candidate>, order: seq<nat>, k: nat)
    requires Bijective(q, cs, order) && k < |q.rows|
    ensures k < |order| && order[k] < |cs| && cs[order[k]] in cs && |q.criteria| == |q.rows| + 1
    ensures q.criteria[k] == OptionName(k) && OptionName(k) in q.options && q.options[OptionName(k)] == cs[order[k]].id
  {
    hide OptionName, Shuffled;
  }

  lemma OneOfId(i: Input, seed: Seed, c: Candidate)
    requires Build(i, seed).Ok? && c in i.candidates
    ensures forall d :: d in i.candidates && d.id == c.id ==> d == c
  {
    AcceptedIff(i, seed);
    hide Build, MarketOf, BandOk, AllFinite, Admissible;
  }

  // ---------------------------------------------------------------- V4

  ghost predicate DescribesExit(row: ExitRow, option: string, x: Exit) {
    row.option == option && row.family == x.kind && row.parameters == x.parameters && row.updates == x.updates
  }

  lemma ExitRowsDescribe(xs: seq<Exit>, k: nat)
    requires k < |xs|
    ensures |ExitRows(xs)| == |xs| && DescribesExit(ExitRows(xs)[k], ExitName(k), xs[k])
  {
    hide ExitName;
  }

  /** In V4 every exit option describes the one plan it is decoded to, and the grid options are as in V3. */
  lemma ExitOptionsDescribePlans(i: Input4, gridSeed: Seed, exitSeed: Seed, k: nat) returns (x: Exit)
    requires Build4(i, gridSeed, exitSeed).Ok? && k < |Build4(i, gridSeed, exitSeed).value.exitRows|
    ensures var q := Build4(i, gridSeed, exitSeed).value; var row := q.exitRows[k];
      && row.option in q.exitOptions
      && x in i.exits && x.id == q.exitOptions[row.option] && DescribesExit(row, row.option, x)
      && (forall y :: y in i.exits && y.id == q.exitOptions[row.option] ==> y == x)
  {
    ExitsBuilt(i, gridSeed, exitSeed);
    OrderedExitsAre(i, exitSeed);
    hide *;
    var q := Build4(i, gridSeed, exitSeed).value;
    var xs := OrderedExits(i, exitSeed);
    ShuffledMembers(i.exits, DrawsV4(exitSeed, |i.exits|));
    RowsOfExits(xs);
    ExitRowsDescribe(xs, k);
    ExitOptionsName(xs);
    x := xs[k];
    assert x in xs;
    ExitNamesRow(q.exitRows[k], ExitName(k), x);
    OneExitOfId(xs, x);
  }

  lemma RowsOfExits(xs: seq<Exit>)
    ensures |ExitRows(xs)| == |xs|
  {
  }

  lemma ExitNamesRow(row: ExitRow, option: string, x: Exit)
    requires DescribesExit(row, option, x)
    ensures row.option == option && DescribesExit(row, row.option, x)
  {
  }

  lemma OneExitOfId(xs: seq<Exit>, x: Exit)
    requires ExitsOk(xs) && x in xs
    ensures forall y :: y in xs && y.id == x.id ==> y == x
  {
    hide UpdateOk;
  }

  lemma ExitsBuilt(i: Input4, gridSeed: Seed, exitSeed: Seed)
    requires Build4(i, gridSeed, exitSeed).Ok?
    ensures DecisionOk(i)
    ensures var q, xs := Build4(i, gridSeed, exitSeed).value, OrderedExits(i, exitSeed);
      && ExitsOk(xs) && q.exitRows == ExitRows(xs) && q.exitOptions == ExitOptions(xs)
      && Build(i.grid, gridSeed) == Ok(q.grid) && q.gridOptions == q.grid.options[ABSTAIN := ABSTAIN] && q.costProfile == i.costProfile
  {
    hide Build, ExitsOk, ExitRows, ExitOptions, ExitCriteria, ProjectFine, OrderedExits;
  }

  /** The same for the grid options of V4, which also hold abstain. */
  lemma GridOptionsDescribeCandidates(i: Input4, gridSeed: Seed, exitSeed: Seed, k: nat) returns (c: Candidate)
    requires Build4(i, gridSeed, exitSeed).Ok? && k < |Build4(i, gridSeed, exitSeed).value.grid.rows|
    ensures var q := Build4(i, gridSeed, exitSeed).value; var row := q.grid.rows[k];
      && row.option in q.gridOptions && row.option != ABSTAIN && q.gridOptions[ABSTAIN] == ABSTAIN
      && c in i.grid.candidates && c.id == q.gridOptions[row.option] && Describes(row, row.option, c)
  {
    ExitsBuilt(i, gridSeed, exitSeed);
    BuiltFrom(i.grid, gridSeed);
    OrderedAre(i.grid, gridSeed);
    hide *;
    var q, n := Build4(i, gridSeed, exitSeed).value, |i.grid.candidates|;
    c := OptionsDescribeCandidates(i.grid, gridSeed, k);
    OptionsAreBijective(i.grid, gridSeed);
    BijectiveAt(q.grid, i.grid.candidates, Shuffled(Identity(n), DrawsV3(gridSeed, n)), k);
    OptionIsNotAbstain(k);
  }

  ghost function Amounts(u: Update): seq<Option<real>> {
    [u.oldTargetPrice, u.newTargetPrice, u.costQuote, u.remainingBaseAmount, u.minimumNetGainUsd, u.minimumRetainedBaseAmount]
  }

  /** A lot's exit change: named lot and band, amounts finite and not negative, a positive new target, and one of the two
      economic rules. */
  ghost predicate SoundUpdate(u: Update) {
    && u.sourceLotId != "" && u.bandId != "" && u.economicRule in {"accumulate_base", "accumulate_usdc"}
    && (forall v :: v in Amounts(u) ==> v.Some? && v.value >= 0.0)
    && u.newTargetPrice != Some(0.0)
  }

  lemma SoundUpdateIff(u: Update)
    ensures UpdateOk(u) <==> SoundUpdate(u)
  {
    var amounts := Amounts(u);
    assert amounts[0] in amounts && amounts[1] in amounts && amounts[2] in amounts;
    assert amounts[3] in amounts && amounts[4] in amounts && amounts[5] in amounts;
  }

  /** Under every pair of digests, a V4 input is accepted exactly when its grid input is, its exit plans are sound with
      distinct names, and its five-minute candles, if there are any, are consecutive, sound and of this symbol. */
  lemma AcceptedIff4(i: Input4, gridSeed: Seed, exitSeed: Seed)
    ensures Build4(i, gridSeed, exitSeed).Ok? <==>
            && i.knownVersion && 1 <= |i.exits| <= 3 && i.exits[0].id == "keep" && Build(i.grid, gridSeed).Ok?
            && (forall j, k :: 0 <= j < k < |i.exits| ==> i.exits[j].id != i.exits[k].id)
            && (forall x :: x in i.exits ==> x.id != "" && forall u :: u in x.updates ==> SoundUpdate(u))
            && (i.fine.Some? ==> ProjectFine(i.fine, i.grid.observedAt.value, i.grid.policy.symbol).Ok?)
  {
    Accepted4Parts(i, gridSeed, exitSeed);
    DecisionIs(i);
    if DecisionOk(i) {
      OrderedExitsAre(i, exitSeed);
      ExitAcceptanceIgnoresSeed(i.exits, DrawsV4(exitSeed, |i.exits|));
      ExitsOkIff(i.exits);
    }
    hide *;
  }

  lemma DecisionIs(i: Input4)
    ensures DecisionOk(i) <==> i.knownVersion && 1 <= |i.exits| <= 3 && i.exits[0].id == "keep"
  {
  }

  lemma ExitsOkIff(xs: seq<Exit>)
    ensures ExitsOk(xs) <==>
            && (forall j, k :: 0 <= j < k < |xs| ==> xs[j].id != xs[k].id)
            && (forall x :: x in xs ==> x.id != "" && forall u :: u in x.updates ==> SoundUpdate(u))
  {
    hide UpdateOk, SoundUpdate;
    forall x, u | x in xs && u in x.updates ensures UpdateOk(u) <==> SoundUpdate(u) {
      SoundUpdateIff(u);
    }
  }

  lemma Accepted4Parts(i: Input4, gridSeed: Seed, exitSeed: Seed)
    ensures Build4(i, gridSeed, exitSeed).Ok? <==>
            && DecisionOk(i) && Build(i.grid, gridSeed).Ok? && ExitsOk(OrderedExits(i, exitSeed))
            && (i.fine.Some? ==> ProjectFine(i.fine, i.grid.observedAt.value, i.grid.policy.symbol).Ok?)
    ensures Build(i.grid, gridSeed).Ok? ==> i.grid.observedAt.Some?
  {
    hide ExitsOk, ExitRows, ExitOptions, ExitCriteria, OrderedExits, Finish, SetOk;
  }

  // ---------------------------------------------------------------- the market numbers

  /** The sum of 100 * (high - low) / close, added up from the end. */
  ghost function RangePercent(w: seq<Closed>): real
    requires forall c :: c in w ==> c.close > 0.0
  {
    if w == [] then 0.0 else
    var c := w[|w| - 1];
    RangePercent(w[..|w| - 1]) + 100.0 * (c.high - c.low) / c.close
  }

  lemma {:induction false} RangeSnoc(init: seq<Closed>, c: Closed)
    requires (forall d :: d in init ==> d.close > 0.0) && c.close > 0.0
    ensures SumRange(init + [c]) == SumRange(init) + 100.0 * (c.high - c.low) / c.close
  {
    if init != [] {
      assert (init + [c])[1..] == init[1..] + [c];
      RangeSnoc(init[1..], c);
    } else {
      assert [c][1..] == [];
    }
  }

  lemma {:induction false} RangeIs(w: seq<Closed>)
    requires forall c :: c in w ==> c.close > 0.0
    ensures SumRange(w) == RangePercent(w)
  {
    if w != [] {
      var init, c := w[..|w| - 1], w[|w| - 1];
      assert w == init + [c];
      RangeIs(init);
      RangeSnoc(init, c);
    }
  }

  /** The change from the first close to the last, the span between the lowest low and the highest high, and the
      mean range of a candle, all in per cent. */
  ghost predicate MarketNumbers(m: Market, high: real, low: real) {
    && m.window != [] && (forall c :: c in m.window ==> c.close > 0.0) && low > 0.0
    && (exists c :: c in m.window && c.high == high) && (exists c :: c in m.window && c.low == low)
    && (forall c :: c in m.window ==> low <= c.low && c.high <= high)
    && m.changePct * m.window[0].close == 100.0 * (m.window[|m.window| - 1].close - m.window[0].close)
    && m.highLowPct * low == 100.0 * (high - low)
    && m.meanRangePct * |m.window| as real == RangePercent(m.window)
  }

  lemma PercentChange(a: real, b: real)
    requires b != 0.0
    ensures 100.0 * (a / b - 1.0) * b == 100.0 * (a - b)
  {
    DividedBack(a, b);
  }

  lemma MarketIs(candles: seq<Candle>, t: int) returns (high: real, low: real)
    requires MarketOf(candles, t).Ok?
    ensures MarketNumbers(MarketOf(candles, t).value, high, low)
  {
    hide Window, MaxHigh, MinLow, SumRange, RangePercent;
    var m := MarketOf(candles, t).value;
    var w := m.window;
    high, low := MaxHigh(w), MinLow(w);
    assert w[0] in w;
    PercentChange(w[|w| - 1].close, w[0].close);
    PercentChange(high, low);
    DividedBack(SumRange(w), |w| as real);
    RangeIs(w);
  }

  /** Every built request shows the numbers of its window, and the objective and state it was given. */
  lemma RequestShowsMarket(i: Input, seed: Seed) returns (high: real, low: real)
    requires Build(i, seed).Ok?
    ensures MarketNumbers(Build(i, seed).value.market, high, low)
    ensures BandOk(i.policy) && StateOf(i.policy) == Some(Build(i, seed).value.state)
    ensures Build(i, seed).value.objective == i.objective
  {
    BuiltMarket(i, seed);
    hide *;
    high, low := MarketIs(i.candles, i.observedAt.value);
  }

  lemma BuiltMarket(i: Input, seed: Seed)
    requires Build(i, seed).Ok?
    ensures i.observedAt.Some? && MarketOf(i.candles, i.observedAt.value) == Ok(Build(i, seed).value.market)
    ensures BandOk(i.policy) && StateOf(i.policy) == Some(Build(i, seed).value.state)
    ensures Build(i, seed).value.objective == i.objective
  {
    hide Prepare, MarketOf, StateOf, BandOk, Shuffled, SetOk, CriteriaKeys;
  }
}
