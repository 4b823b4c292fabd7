/** Requests that the builders accept, with a candidate and an exit plan called "abstain". */
module ShadowExamples {
  import opened ShadowAnswers
  import opened ShadowDecoding
  import opened ShadowExits
  import opened ShadowQuestions
  import opened ShadowRequests
  import opened ShadowRoundTrip
  import opened ShadowShuffle
  import opened ShadowState
  import opened Wrappers

  function Plan(id: string): Candidate {
    Candidate(id, "grid", "keep", Validated, true, Some([]), "", Some(1.0), Some(2.0), Some(0.1), Some(5), Some(10.0), map[])
  }

  const KEEP := "keep"
  const BAR := Candle(Some(0), Some(2.0), Some(1.0), Some(1.5))
  const BAND := Band(Some(1.0), Some(2.0), Some(0.1), Some(5), "active", Some(10.0), Some(10.0), [])
  const POLICY := Policy("SOL", Some(1.5), BAND, Some(1), Some(10.0), Some(10.0), Some(10.0), None, None, Some(1.0), Some(3_600_000.0))
  const EXAMPLE := Input(Some(0), Some(0), true, [Plan(KEEP), Plan(ABSTAIN)], None, [BAR], POLICY, "accumulate_usdc")

  lemma ExampleMarket()
    ensures MarketOf(EXAMPLE.candles, 0).Ok?
  {
    var seen := Seen(0, Some(2.0), Some(1.0), Some(1.5));
    assert EXAMPLE.candles == [] + [BAR] && [BAR][..0] == [];
    assert Past(EXAMPLE.candles, 0) == [seen];
    assert SortByClose([seen]) == [seen];
    assert Window(EXAMPLE.candles, 0) == [seen];
    var w := Readings([seen]);
    assert w == [Closed(0, 2.0, 1.0, 1.5)];
    assert MinLow(w) == 1.0;
  }

  lemma ExampleCandidates()
    ensures DistinctIds(IndexAll(EXAMPLE.candidates)) && AllChecked(IndexAll(EXAMPLE.candidates)) && SetOk(EXAMPLE)
  {
    assert |KEEP| != |ABSTAIN|;
  }

  lemma ExampleHasAbstain()
    ensures exists c :: c in EXAMPLE.candidates && c.id == ABSTAIN
  {
    assert EXAMPLE.candidates[1] in EXAMPLE.candidates && EXAMPLE.candidates[1].id == ABSTAIN;
  }

  lemma ExampleAcceptable()
    ensures Acceptable(EXAMPLE)
  {
    ExampleMarket();
    ExampleCandidates();
    assert BandOk(EXAMPLE.policy) && AllFinite(EXAMPLE.policy);
    hide MarketOf, DistinctIds, AllChecked, SetOk, BandOk, AllFinite;
  }

  /** Whatever the digest, a V3 request with a candidate called "abstain" is built, and some accepted answer
      to it loses probability when it is decoded. */
  lemma AbstainIsAccepted(seed: Seed)
    ensures Build(EXAMPLE, seed).Ok? && exists c :: c in EXAMPLE.candidates && c.id == ABSTAIN
    ensures SomeAnswerLosesMass(Build(EXAMPLE, seed).value.criteria, Build(EXAMPLE, seed).value.options)
  {
    hide *;
    ExampleAcceptable();
    ExampleHasAbstain();
    AcceptanceIgnoresSeed(EXAMPLE, seed);
    V3LossIff(EXAMPLE, seed);
  }

  const EXAMPLE4 := Input4(EXAMPLE, true, [Exit(KEEP, "keep", map[], []), Exit(ABSTAIN, "hold", map[], [])], None, None)

  lemma ExampleExits()
    ensures DecisionOk(EXAMPLE4) && ExitsOk(EXAMPLE4.exits)
  {
    assert |KEEP| != |ABSTAIN|;
  }

  /** The same for a V4 request in which both a candidate and an exit plan are called "abstain", whatever the
      two digests: each question has an accepted answer that loses probability. */
  lemma AbstainIsAcceptedV4(gridSeed: Seed, exitSeed: Seed)
    ensures Build4(EXAMPLE4, gridSeed, exitSeed).Ok?
    ensures var q := Build4(EXAMPLE4, gridSeed, exitSeed).value;
      SomeAnswerLosesMass(q.grid.criteria, q.gridOptions) && SomeAnswerLosesMass(q.exitCriteria, q.exitOptions)
  {
    AbstainIsAccepted(gridSeed);
    ExampleExits();
    ExitAcceptanceIgnoresSeed(EXAMPLE4.exits, DrawsV4(exitSeed, |EXAMPLE4.exits|));
    Build4Accepts(EXAMPLE4, gridSeed, exitSeed);
    assert EXAMPLE4.exits[1] in EXAMPLE4.exits && EXAMPLE4.exits[1].id == ABSTAIN;
    hide Build, Build4, SomeAnswerLosesMass;
    V4LossIff(EXAMPLE4, gridSeed, exitSeed);
  }

  lemma Build4Accepts(i: Input4, gridSeed: Seed, exitSeed: Seed)
    requires DecisionOk(i) && Build(i.grid, gridSeed).Ok? && i.fine.None?
    requires ExitsOk(Shuffled(i.exits, DrawsV4(exitSeed, |i.exits|)))
    ensures Build4(i, gridSeed, exitSeed).Ok?
  {
    hide Build, ExitsOk, Shuffled, ExitOptions, ExitRows, ExitCriteria;
  }

  const HARMLESS := EXAMPLE.(candidates := [Plan(KEEP)])
  const HARMLESS4 := EXAMPLE4.(grid := HARMLESS, exits := [Exit(KEEP, "keep", map[], [])])

  lemma HarmlessIds()
    ensures DistinctIds(IndexAll(HARMLESS.candidates)) && AllChecked(IndexAll(HARMLESS.candidates)) && SetOk(HARMLESS)
    ensures DecisionOk(HARMLESS4) && ExitsOk(HARMLESS4.exits) && BandOk(HARMLESS.policy) && AllFinite(HARMLESS.policy)
    ensures forall c :: c in HARMLESS.candidates ==> c.id != ABSTAIN
    ensures forall x :: x in HARMLESS4.exits ==> x.id != ABSTAIN
  {
    assert |KEEP| != |ABSTAIN|;
  }

  lemma HarmlessBuilds(gridSeed: Seed, exitSeed: Seed)
    ensures Build(HARMLESS, gridSeed).Ok? && Build4(HARMLESS4, gridSeed, exitSeed).Ok?
  {
    ExampleMarket();
    HarmlessIds();
    hide Build, Build4, MarketOf, DistinctIds, AllChecked, SetOk, ExitsOk, DecisionOk;
    AcceptanceIgnoresSeed(HARMLESS, gridSeed);
    ExitAcceptanceIgnoresSeed(HARMLESS4.exits, DrawsV4(exitSeed, |HARMLESS4.exits|));
    Build4Accepts(HARMLESS4, gridSeed, exitSeed);
  }

  lemma SomeAnswer(keys: seq<string>, options: map<string, string>, ids: seq<string>) returns (a: Answer)
    requires Encodes(keys, options, ids)
    ensures Accepts(a, keys)
  {
    assert keys[|ids|] in keys;
    a := Certain(keys, keys[|ids|]);
  }

  /** With no such id there are requests and accepted answers too, so the round trips speak of something. */
  lemma RoundTripsHappen(gridSeed: Seed, exitSeed: Seed) returns (grid: Answer, exit: Answer)
    ensures Build(HARMLESS, gridSeed).Ok? && Build4(HARMLESS4, gridSeed, exitSeed).Ok?
    ensures forall c :: c in HARMLESS.candidates ==> c.id != ABSTAIN
    ensures forall x :: x in HARMLESS4.exits ==> x.id != ABSTAIN
    ensures Accepts(grid, Build4(HARMLESS4, gridSeed, exitSeed).value.grid.criteria)
    ensures Accepts(exit, Build4(HARMLESS4, gridSeed, exitSeed).value.exitCriteria)
  {
    HarmlessIds();
    HarmlessBuilds(gridSeed, exitSeed);
    Unbuild4(HARMLESS4, gridSeed, exitSeed);
    hide *;
    var q := Build4(HARMLESS4, gridSeed, exitSeed).value;
    var xs := Shuffled(HARMLESS4.exits, DrawsV4(exitSeed, |HARMLESS4.exits|));
    RequestEncodes(HARMLESS4.grid, gridSeed);
    ExitsEncode(xs);
    grid := SomeAnswer(q.grid.criteria, q.grid.options, OrderedIds(HARMLESS4.grid, gridSeed));
    exit := SomeAnswer(q.exitCriteria, q.exitOptions, ExitIds(xs));
  }
}
