/** buildJevV3Request in apps/worker/src/shadow-jev-v3-questions.ts. */
module ShadowQuestions {
  import opened ShadowShuffle
  import opened ShadowState
  import opened Sorting
  import opened Text
  import opened Wrappers

  datatype Error =
    | InvalidDate | StateBeforeClose | InvalidCandidateSet | InvalidCandidate | InvalidEconomics | NotFinite
    | InvalidGeometry | InvalidParameters | MissingPolicyCandidate | NoClosingCandle | NonPositivePrice
    | InvalidBand | InvalidExit | InvalidFineSnapshot | InvalidFineCandle

  datatype Validation = Validated | Baseline | OtherValidation

  /** A strategy parameter; a number that is not finite is None. */
  datatype Parameter = Number(number: Option<real>) | Word(word: string) | OtherParameter

  /** Numbers that are not finite, a level count that is not an integer, and reasons that are not a list of
      strings are None. */
  datatype Candidate = Candidate(id: string, kind: string, action: string, validation: Validation,
                                 economicallyValid: bool, reasons: Option<seq<string>>, rationale: string,
                                 low: Option<real>, high: Option<real>, spacing: Option<real>, levelCount: Option<int>,
                                 requestedCapital: Option<real>, parameters: map<string, Parameter>)

  /** A candidate with its position in the frozen set. */
  datatype Indexed = Indexed(candidate: Candidate, originalIndex: nat)

  /** closedAt is None when the recorded date does not parse, a price when it is not finite. */
  datatype Candle = Candle(closedAt: Option<int>, high: Option<real>, low: Option<real>, close: Option<real>)

  datatype Input = Input(observedAt: Option<int>, stateReadAt: Option<int>, knownVersion: bool, candidates: seq<Candidate>,
                         policyCandidateId: Option<string>, candles: seq<Candle>, policy: Policy, objective: string)

  datatype Row = Row(option: string, kind: string, action: string, low: real, high: real, spacingPct: real,
                     levelCount: int, requestedCapital: real, validation: Validation, reasons: seq<string>,
                     rationale: string, parameters: map<string, Parameter>)

  /** A candle closed at or before the observation, and one whose prices have been read. */
  datatype Seen = Seen(at: int, high: Option<real>, low: Option<real>, close: Option<real>)
  datatype Closed = Closed(at: int, high: real, low: real, close: real)

  datatype Market = Market(window: seq<Closed>, changePct: real, highLowPct: real, meanRangePct: real)

  /** criteria are the keys of the Choice question, in order. */
  datatype Request = Request(rows: seq<Row>, options: map<string, string>, criteria: seq<string>, market: Market,
                             state: State, objective: string)

  const ABSTAIN := "abstain"

  function OptionName(i: nat): string { "option_" + Decimal(i) }

  // ---------------------------------------------------------------- candidates

  predicate AdmittedBaseline(x: Indexed) {
    x.candidate.validation.Baseline? &&
      ((x.originalIndex == 0 && x.candidate.id == "keep") ||
       (x.candidate.id == "policy" && (x.candidate.action == "park" || x.candidate.action == "reactivate")))
  }

  predicate ParameterOk(key: string, p: Parameter) {
    key != "" && (p.Word? || (p.Number? && p.number.Some?))
  }

  function CheckCandidate(x: Indexed): Option<Error> {
    var c := x.candidate;
    if !c.validation.Validated? && !AdmittedBaseline(x) then Some(InvalidCandidate)
    else if c.reasons.None? || c.economicallyValid != c.validation.Validated? then Some(InvalidEconomics)
    else if c.low.None? || c.high.None? || c.spacing.None? then Some(NotFinite)
    else if c.low.value <= 0.0 || c.high.value <= c.low.value || c.spacing.value <= 0.0
            || c.levelCount.None? || c.levelCount.value < 2 then Some(InvalidGeometry)
    else if exists k :: k in c.parameters && !ParameterOk(k, c.parameters[k]) then Some(InvalidParameters)
    else if c.requestedCapital.None? then Some(NotFinite)
    else None
  }

  function RowOf(x: Indexed, index: nat): Row
    requires CheckCandidate(x).None?
  {
    var c := x.candidate;
    Row(OptionName(index), c.kind, c.action, c.low.value, c.high.value, 100.0 * c.spacing.value / c.low.value,
        c.levelCount.value, c.requestedCapital.value, c.validation, c.reasons.value, c.rationale, c.parameters)
  }

  function IdSet(xs: seq<Indexed>): set<string> {
    set x | x in xs :: x.candidate.id
  }

  datatype Prepared = Prepared(options: map<string, string>, rows: seq<Row>)

  /** The callback over the shuffled candidates, with the ids seen so far. */
  function Prepare(xs: seq<Indexed>): Result<Prepared, Error> {
    if xs == [] then Ok(Prepared(map[], [])) else
    var index := |xs| - 1;
    var x := xs[index];
    match Prepare(xs[..index])
    case Err(e) => Err(e)
    case Ok(p) =>
      if x.candidate.id in IdSet(xs[..index]) then Err(InvalidCandidate)
      else match CheckCandidate(x) {
        case Some(e) => Err(e)
        case None => Ok(Prepared(p.options[OptionName(index) := x.candidate.id], p.rows + [RowOf(x, index)]))
      }
  }

  function IndexAll(cs: seq<Candidate>): (r: seq<Indexed>)
    ensures |r| == |cs|
  {
    seq(|cs|, i requires 0 <= i < |cs| => Indexed(cs[i], i))
  }

  // ---------------------------------------------------------------- market

  /** Candles closed at or before t; an unreadable date compares false and is dropped. */
  function Past(candles: seq<Candle>, t: int): (r: seq<Seen>)
    ensures forall c :: c in r ==> c.at <= t
  {
    if candles == [] then [] else
    var c := candles[|candles| - 1];
    Past(candles[..|candles| - 1], t)
      + if c.closedAt.Some? && c.closedAt.value <= t then [Seen(c.closedAt.value, c.high, c.low, c.close)] else []
  }

  function ClosedAt(c: Seen): int { c.at }

  function SortByClose(cs: seq<Seen>): (r: seq<Seen>)
    ensures multiset(r) == multiset(cs)
  {
    Sort(ClosedAt, cs)
  }

  function LastN(cs: seq<Seen>, n: nat): seq<Seen> {
    if |cs| <= n then cs else cs[|cs| - n..]
  }

  predicate Finite(c: Seen) { c.high.Some? && c.low.Some? && c.close.Some? }

  function Reading(c: Seen): Closed
    requires Finite(c)
  {
    Closed(c.at, c.high.value, c.low.value, c.close.value)
  }

  function Readings(w: seq<Seen>): (r: seq<Closed>)
    requires forall k :: 0 <= k < |w| ==> Finite(w[k])
    ensures |r| == |w|
  {
    seq(|w|, k requires 0 <= k < |w| => assert Finite(w[k]); Reading(w[k]))
  }

  function MaxHigh(w: seq<Closed>): (m: real)
    requires w != []
    ensures (exists c :: c in w && c.high == m) && forall c :: c in w ==> c.high <= m
  {
    assert w == [w[0]] + w[1..];
    if |w| == 1 || w[0].high >= MaxHigh(w[1..]) then w[0].high else MaxHigh(w[1..])
  }

  function MinLow(w: seq<Closed>): (m: real)
    requires w != []
    ensures (exists c :: c in w && c.low == m) && forall c :: c in w ==> m <= c.low
  {
    assert w == [w[0]] + w[1..];
    if |w| == 1 || w[0].low <= MinLow(w[1..]) then w[0].low else MinLow(w[1..])
  }

  function SumRange(w: seq<Closed>): real
    requires forall c :: c in w ==> c.close > 0.0
  {
    if w == [] then 0.0 else 100.0 * (w[0].high - w[0].low) / w[0].close + SumRange(w[1..])
  }

  function Window(candles: seq<Candle>, t: int): seq<Seen> {
    LastN(SortByClose(Past(candles, t)), 24)
  }

  function MarketOf(candles: seq<Candle>, t: int): Result<Market, Error> {
    var seen := Window(candles, t);
    if exists k :: 0 <= k < |seen| && !Finite(seen[k]) then Err(NotFinite) else
    var w := Readings(seen);
    if w == [] || w[|w| - 1].at != t then Err(NoClosingCandle)
    else if MinLow(w) <= 0.0 || exists c :: c in w && c.close <= 0.0 then Err(NonPositivePrice)
    else Ok(Market(w, 100.0 * (w[|w| - 1].close / w[0].close - 1.0), 100.0 * (MaxHigh(w) / MinLow(w) - 1.0),
                   SumRange(w) / |w| as real))
  }

  // ---------------------------------------------------------------- the request

  function CriteriaKeys(rows: seq<Row>): seq<string> {
    seq(|rows|, i requires 0 <= i < |rows| => rows[i].option) + [ABSTAIN]
  }

  predicate SetOk(i: Input) {
    i.knownVersion && 1 <= |i.candidates| <= 6 && i.candidates[0].id == "keep"
  }

  /** Everything after the shuffle. */
  function Finish(i: Input, t: int, ordered: seq<Indexed>): Result<Request, Error> {
    match Prepare(ordered)
    case Err(e) => Err(e)
    case Ok(p) =>
      if i.policyCandidateId.Some? && i.policyCandidateId.value !in IdSet(ordered) then Err(MissingPolicyCandidate)
      else match MarketOf(i.candles, t) {
        case Err(e) => Err(e)
        case Ok(m) =>
          if !BandOk(i.policy) then Err(InvalidBand)
          else match StateOf(i.policy) {
            case None => Err(NotFinite)
            case Some(s) => Ok(Request(p.rows, p.options, CriteriaKeys(p.rows), m, s, i.objective))
          }
      }
  }

  function Build(i: Input, seed: Seed): Result<Request, Error> {
    if i.observedAt.None? || i.stateReadAt.None? then Err(InvalidDate)
    else if i.stateReadAt.value < i.observedAt.value then Err(StateBeforeClose)
    else if !SetOk(i) then Err(InvalidCandidateSet)
    else Finish(i, i.observedAt.value, Shuffled(IndexAll(i.candidates), DrawsV3(seed, |i.candidates|)))
  }

  // ---------------------------------------------------------------- the code

  method PrepareCandidates(ordered: array<Indexed>) returns (r: Result<Prepared, Error>)
    ensures r == Prepare(ordered[..])
  {
    var options: map<string, string>, rows: seq<Row>, ids: set<string> := map[], [], {};
    ghost var all := ordered[..];
    var i := 0;
    while i < ordered.Length
      invariant 0 <= i <= ordered.Length
      invariant ids == IdSet(all[..i])
      invariant Prepare(all[..i]) == Ok(Prepared(options, rows))
    {
      var x := ordered[i];
      assert all[..i + 1][..i] == all[..i];
      PrepareStops(all, i + 1);
      if x.candidate.id in ids { return Err(InvalidCandidate); }
      var e := CheckCandidate(x);
      if e.Some? { return Err(e.value); }
      ids := ids + {x.candidate.id};
      options := options[OptionName(i) := x.candidate.id];
      rows := rows + [RowOf(x, i)];
      i := i + 1;
    }
    assert all[..ordered.Length] == all;
    r := Ok(Prepared(options, rows));
  }

  /** The first bad candidate decides. */
  lemma {:induction false} PrepareStops(xs: seq<Indexed>, k: nat)
    requires k <= |xs|
    ensures Prepare(xs[..k]).Err? ==> Prepare(xs) == Prepare(xs[..k])
    decreases |xs|
  {
    if k == |xs| {
      assert xs[..k] == xs;
    } else {
      PrepareStops(xs[..|xs| - 1], k);
      assert xs[..|xs| - 1][..k] == xs[..k];
    }
  }

  method BuildRequest(i: Input, seed: Seed) returns (r: Result<Request, Error>)
    ensures r == Build(i, seed)
  {
    if i.observedAt.None? || i.stateReadAt.None? { return Err(InvalidDate); }
    if i.stateReadAt.value < i.observedAt.value { return Err(StateBeforeClose); }
    if !SetOk(i) { return Err(InvalidCandidateSet); }
    var n := |i.candidates|;
    var ordered := new Indexed[n](k requires 0 <= k < n => Indexed(i.candidates[k], k));
    assert ordered[..] == IndexAll(i.candidates);
    Shuffle(ordered, DrawsV3(seed, n));
    var p := PrepareCandidates(ordered);
    if p.Err? { return Err(p.error); }
    if i.policyCandidateId.Some? && i.policyCandidateId.value !in IdSet(ordered[..]) { return Err(MissingPolicyCandidate); }
    var m := MarketOf(i.candles, i.observedAt.value);
    if m.Err? { return Err(m.error); }
    if !BandOk(i.policy) { return Err(InvalidBand); }
    var s := StateOf(i.policy);
    if s.None? { return Err(NotFinite); }
    r := Ok(Request(p.value.rows, p.value.options, CriteriaKeys(p.value.rows), m.value, s.value, i.objective));
  }
}
