/** buildJevV4Request and projectFineMarket in apps/worker/src/shadow-jev-v4-questions.ts. */
module ShadowExits {
  import opened ShadowQuestions
  import opened ShadowShuffle
  import opened Text
  import opened Wrappers

  /** An amount that is not finite is None. */
  datatype Update = Update(sourceLotId: string, bandId: string, oldTargetPrice: Option<real>, newTargetPrice: Option<real>,
                           costQuote: Option<real>, remainingBaseAmount: Option<real>, minimumNetGainUsd: Option<real>,
                           minimumRetainedBaseAmount: Option<real>, economicRule: string)

  datatype Exit = Exit(id: string, kind: string, parameters: map<string, Parameter>, updates: seq<Update>)

  datatype ExitRow = ExitRow(option: string, family: string, parameters: map<string, Parameter>, updates: seq<Update>)

  /** A date that does not parse, or a price that is not a finite number, is None. */
  datatype RawFine = RawFine(openedAt: Option<int>, closedAt: Option<int>, open: Option<real>, high: Option<real>,
                             low: Option<real>, close: Option<real>)

  datatype Fine = Fine(closedAt: int, open: real, high: real, low: real, close: real)

  datatype Snapshot = Snapshot(resolution: string, symbol: string, quoteSymbol: string, candles: seq<RawFine>, candleCount: int)

  datatype FineStatus = MissingAtCapture | EmptyAtCapture | ClosedThrough(at: int)

  datatype FineMarket = FineMarket(candles: seq<Fine>, status: FineStatus)

  datatype Input4 = Input4(grid: Input, knownVersion: bool, exits: seq<Exit>, fine: Option<Snapshot>,
                           costProfile: Option<string>)

  datatype Request4 = Request4(grid: Request, gridOptions: map<string, string>, exitRows: seq<ExitRow>,
                               exitOptions: map<string, string>, exitCriteria: seq<string>, fine: FineMarket,
                               costProfile: Option<string>)

  const FIVE_MINUTES := 300_000

  function ExitName(i: nat): string { "exit_" + Decimal(i) }

  predicate NotNegative(v: Option<real>) { v.Some? && v.value >= 0.0 }

  predicate UpdateOk(u: Update) {
    && u.sourceLotId != "" && u.bandId != ""
    && NotNegative(u.oldTargetPrice) && NotNegative(u.newTargetPrice) && NotNegative(u.costQuote)
    && NotNegative(u.remainingBaseAmount) && NotNegative(u.minimumNetGainUsd) && NotNegative(u.minimumRetainedBaseAmount)
    && u.newTargetPrice.value > 0.0
    && (u.economicRule == "accumulate_base" || u.economicRule == "accumulate_usdc")
  }

  // ---------------------------------------------------------------- the exit question

  /** What the exit plans must satisfy, in any order. */
  predicate ExitsOk(xs: seq<Exit>) {
    && (forall i, j :: 0 <= i < j < |xs| ==> xs[i].id != xs[j].id)
    && forall x :: x in xs ==> x.id != "" && forall u :: u in x.updates ==> UpdateOk(u)
  }

  function ExitRows(xs: seq<Exit>): seq<ExitRow> {
    seq(|xs|, i requires 0 <= i < |xs| => ExitRow(ExitName(i), xs[i].kind, xs[i].parameters, xs[i].updates))
  }

  function ExitOptions(xs: seq<Exit>): map<string, string> {
    if xs == [] then map[ABSTAIN := ABSTAIN]
    else ExitOptions(xs[..|xs| - 1])[ExitName(|xs| - 1) := xs[|xs| - 1].id]
  }

  function ExitCriteria(n: nat): seq<string> {
    seq(n, i requires 0 <= i < n => ExitName(i)) + [ABSTAIN]
  }

  datatype PreparedExits = PreparedExits(options: map<string, string>, rows: seq<ExitRow>, criteria: seq<string>)

  lemma NoExits()
    ensures ExitsOk([]) && ExitOptions([]) == map[ABSTAIN := ABSTAIN] && ExitRows([]) == [] && ExitCriteria(0) == [ABSTAIN]
  {
  }

  /** What one more exit adds. */
  lemma ExitsSnoc(xs: seq<Exit>, i: nat)
    requires i < |xs|
    ensures var c := xs[i];
      && ExitOptions(xs[..i + 1]) == ExitOptions(xs[..i])[ExitName(i) := c.id]
      && ExitRows(xs[..i + 1]) == ExitRows(xs[..i]) + [ExitRow(ExitName(i), c.kind, c.parameters, c.updates)]
    ensures forall names :: ExitCriteria(i) == names + [ABSTAIN] ==> ExitCriteria(i + 1) == names + [ExitName(i)] + [ABSTAIN]
  {
    hide ExitName;
    assert xs[..i + 1][..i] == xs[..i];
    forall names | ExitCriteria(i) == names + [ABSTAIN] ensures ExitCriteria(i + 1) == names + [ExitName(i)] + [ABSTAIN] {
      assert |names| == i;
      assert forall k :: 0 <= k < i ==> names[k] == ExitCriteria(i)[k];
    }
  }

  method PrepareExits(ordered: array<Exit>) returns (r: Result<PreparedExits, Error>)
    ensures r.Ok? <==> ExitsOk(ordered[..])
    ensures r.Ok? ==> var xs := ordered[..]; r.value == PreparedExits(ExitOptions(xs), ExitRows(xs), ExitCriteria(|xs|))
    ensures r.Err? ==> r.error == InvalidExit
  {
    hide UpdateOk, ExitName, ExitsOk, ExitOptions, ExitRows, ExitCriteria;
    NoExits();
    var options, rows, criteria, ids: set<string> := map[ABSTAIN := ABSTAIN], [], [], {};
    ghost var xs := ordered[..];
    var i := 0;
    while i < ordered.Length
      invariant 0 <= i <= ordered.Length
      invariant ids == set x | x in xs[..i] :: x.id
      invariant ExitsOk(xs[..i])
      invariant options == ExitOptions(xs[..i]) && rows == ExitRows(xs[..i]) && criteria + [ABSTAIN] == ExitCriteria(i)
    {
      var c := ordered[i];
      ExitsPrefix(xs, i);
      ExitsOkSnoc(xs, i);
      ExitsSnoc(xs, i);
      if c.id == "" || c.id in ids { return Err(InvalidExit); }
      ids := ids + {c.id};
      var u := 0;
      while u < |c.updates|
        invariant 0 <= u <= |c.updates|
        invariant forall k :: 0 <= k < u ==> UpdateOk(c.updates[k])
      {
        if !UpdateOk(c.updates[u]) { return Err(InvalidExit); }
        u := u + 1;
      }
      options := options[ExitName(i) := c.id];
      criteria := criteria + [ExitName(i)];
      rows := rows + [ExitRow(ExitName(i), c.kind, c.parameters, c.updates)];
      assert xs[..i + 1] == xs[..i] + [c];
      i := i + 1;
    }
    assert xs[..i] == xs;
    r := Ok(PreparedExits(options, rows, criteria + [ABSTAIN]));
  }

  lemma ExitsPrefix(xs: seq<Exit>, i: nat)
    requires i < |xs|
    ensures ExitsOk(xs) ==> ExitsOk(xs[..i + 1])
  {
    hide UpdateOk;
    if ExitsOk(xs) {
      forall x | x in xs[..i + 1] ensures x in xs {
      }
    }
  }

  lemma ExitsOkSnoc(xs: seq<Exit>, i: nat)
    requires i < |xs| && ExitsOk(xs[..i])
    ensures ExitsOk(xs[..i + 1]) <==>
            xs[i].id != "" && xs[i].id !in (set x | x in xs[..i] :: x.id) && forall u :: u in xs[i].updates ==> UpdateOk(u)
  {
    var prior, x := xs[..i], xs[i];
    assert xs[..i + 1] == prior + [x];
    if x.id in (set y | y in prior :: y.id) {
      var y :| y in prior && y.id == x.id;
      var k :| 0 <= k < i && prior[k] == y;
      assert xs[..i + 1][k].id == xs[..i + 1][i].id;
    } else {
      forall k | 0 <= k < i ensures prior[k].id != x.id {
        assert prior[k] in prior;
      }
    }
  }

  // ---------------------------------------------------------------- the fine window

  predicate FineOk(c: RawFine, observedAt: int) {
    && c.closedAt.Some? && c.openedAt.Some? && c.closedAt.value <= observedAt
    && c.closedAt.value - c.openedAt.value == FIVE_MINUTES
    && c.open.Some? && c.high.Some? && c.low.Some? && c.close.Some?
    && c.open.value > 0.0 && c.high.value > 0.0 && c.low.value > 0.0 && c.close.value > 0.0
    && c.open.value <= c.high.value && c.close.value <= c.high.value
    && c.low.value <= c.open.value && c.low.value <= c.close.value
  }

  function FineOf(c: RawFine): Fine
    requires exists t :: FineOk(c, t)
  {
    Fine(c.closedAt.value, c.open.value, c.high.value, c.low.value, c.close.value)
  }

  predicate Discontinuous(cs: seq<Fine>) {
    exists k :: 0 < k < |cs| && cs[k].closedAt - cs[k - 1].closedAt != FIVE_MINUTES
  }

  function Last24(cs: seq<RawFine>): seq<RawFine> {
    if |cs| <= 24 then cs else cs[|cs| - 24..]
  }

  function ProjectFine(snapshot: Option<Snapshot>, observedAt: int, symbol: string): Result<FineMarket, Error> {
    if snapshot.None? then Ok(FineMarket([], MissingAtCapture)) else
    var s := snapshot.value;
    var w := Last24(s.candles);
    if s.resolution != "5m" || s.symbol != symbol || s.quoteSymbol != "USDC" || s.candleCount != |s.candles| then Err(InvalidFineSnapshot)
    else if exists k :: 0 <= k < |w| && !FineOk(w[k], observedAt) then Err(InvalidFineCandle)
    else
      var cs := seq(|w|, k requires 0 <= k < |w| => assert FineOk(w[k], observedAt); FineOf(w[k]));
      if Discontinuous(cs) then Err(InvalidFineCandle)
      else Ok(FineMarket(cs, if cs == [] then EmptyAtCapture else ClosedThrough(cs[|cs| - 1].closedAt)))
  }

  // ---------------------------------------------------------------- the request

  predicate DecisionOk(i: Input4) {
    i.knownVersion && 1 <= |i.exits| <= 3 && i.exits[0].id == "keep"
  }

  /** The exits have their own digest. */
  function OrderedExits(i: Input4, seed: Seed): seq<Exit>
    requires DecisionOk(i)
  {
    Shuffled(i.exits, DrawsV4(seed, |i.exits|))
  }

  function Build4(i: Input4, gridSeed: Seed, exitSeed: Seed): Result<Request4, Error> {
    if !DecisionOk(i) then Err(InvalidCandidateSet) else
    match Build(i.grid, gridSeed)
    case Err(e) => Err(e)
    case Ok(g) =>
      var xs := OrderedExits(i, exitSeed);
      if !ExitsOk(xs) then Err(InvalidExit)
      else match ProjectFine(i.fine, i.grid.observedAt.value, i.grid.policy.symbol) {
        case Err(e) => Err(e)
        case Ok(fine) =>
          Ok(Request4(g, g.options[ABSTAIN := ABSTAIN], ExitRows(xs), ExitOptions(xs), ExitCriteria(|xs|), fine, i.costProfile))
      }
  }

  method BuildRequest4(i: Input4, gridSeed: Seed, exitSeed: Seed) returns (r: Result<Request4, Error>)
    ensures r == Build4(i, gridSeed, exitSeed)
  {
    hide Shuffled, ExitsOk, ExitRows, ExitOptions, ExitCriteria, ProjectFine, Prepare, MarketOf;
    if !DecisionOk(i) { return Err(InvalidCandidateSet); }
    var g := BuildRequest(i.grid, gridSeed);
    if g.Err? { return Err(g.error); }
    var n := |i.exits|;
    var ordered := new Exit[n](k requires 0 <= k < n => i.exits[k]);
    assert ordered[..] == i.exits;
    Shuffle(ordered, DrawsV4(exitSeed, n));
    var p := PrepareExits(ordered);
    if p.Err? { return Err(p.error); }
    var fine := ProjectFine(i.fine, i.grid.observedAt.value, i.grid.policy.symbol);
    if fine.Err? { return Err(fine.error); }
    r := Ok(Request4(g.value, g.value.options[ABSTAIN := ABSTAIN], p.value.rows, p.value.options, p.value.criteria,
                     fine.value, i.costProfile));
  }
}
