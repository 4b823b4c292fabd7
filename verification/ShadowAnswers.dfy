/** parseV3Response in apps/worker/src/shadow-jev-v3-client.ts and the checks of evaluateJevV4 in
    apps/worker/src/shadow-jev-v4-client.ts. None stands for a rejected response. */
module ShadowAnswers {
  import opened ShadowShuffle
  import opened Text
  import opened Wrappers

  /** A member the response need not hold, or that need not be a finite number, is an Option. */
  datatype Answer = Answer(kind: string, choice: Option<string>, probabilities: Option<map<string, Option<real>>>,
                           confidence: Option<real>)

  datatype Usage = Usage(inputTokens: Option<real>, outputTokens: Option<real>)

  datatype Response = Response(answers: Option<map<string, Answer>>, model: Option<string>, usage: Option<Usage>)

  datatype Parsed = Parsed(choice: string, probabilities: map<string, real>, confidence: real)

  datatype Evaluation = Evaluation(answers: map<string, Parsed>, model: string, inputTokens: real, outputTokens: real)

  const GRID := "grid_candidate"
  const EXIT := "exit_candidate"

  ghost predicate Distinct(keys: seq<string>) {
    forall i, j :: 0 <= i < j < |keys| ==> keys[i] != keys[j]
  }

  predicate IsProbability(v: Option<real>) {
    v.Some? && 0.0 <= v.value <= 1.0
  }

  predicate IsCount(v: Option<real>) {
    v.Some? && 0.0 <= v.value && v.value == v.value.Floor as real
  }

  function KeySet(keys: seq<string>): set<string> { set k | k in keys }

  function Sum(keys: seq<string>, p: map<string, real>): real
    requires KeySet(keys) <= p.Keys
  {
    if keys == [] then 0.0 else
    assert keys[|keys| - 1] in keys && KeySet(keys[..|keys| - 1]) <= KeySet(keys);
    Sum(keys[..|keys| - 1], p) + p[keys[|keys| - 1]]
  }

  /** Math.max over the values. */
  function Max(keys: seq<string>, p: map<string, real>): (m: real)
    requires keys != [] && KeySet(keys) <= p.Keys
    ensures (exists k :: k in keys && p[k] == m) && forall k :: k in keys ==> p[k] <= m
  {
    var last := keys[|keys| - 1];
    assert last in keys;
    if |keys| == 1 then p[last] else
    assert keys == keys[..|keys| - 1] + [last];
    var m := Max(keys[..|keys| - 1], p);
    if p[last] >= m then p[last] else m
  }

  // ---------------------------------------------------------------- what is accepted

  /** One answer to a Choice question with the given criteria. */
  ghost predicate Accepts(a: Answer, keys: seq<string>) {
    && a.kind == "choice" && a.choice.Some? && a.choice.value in keys && a.probabilities.Some?
    && a.probabilities.value.Keys == KeySet(keys)
    && (forall k :: k in keys ==> IsProbability(a.probabilities.value[k]))
    && var p := Distribution(a, keys);
    && -0.01 <= Sum(keys, p) - 1.0 <= 0.01
    && (forall k :: k in keys ==> p[k] <= p[a.choice.value] + 0.000000001)
    && IsProbability(a.confidence)
  }

  function Distribution(a: Answer, keys: seq<string>): (p: map<string, real>)
    requires a.probabilities.Some? && KeySet(keys) <= a.probabilities.value.Keys
    requires forall k :: k in keys ==> a.probabilities.value[k].Some?
    ensures p.Keys == KeySet(keys)
  {
    map k | k in KeySet(keys) :: a.probabilities.value[k].value
  }

  function ParsedFrom(a: Answer, keys: seq<string>): Parsed
    requires Accepts(a, keys)
  {
    Parsed(a.choice.value, Distribution(a, keys), a.confidence.value)
  }

  ghost predicate AcceptsEnvelope(r: Response) {
    && r.model.Some? && !Blank(r.model.value)
    && r.usage.Some? && IsCount(r.usage.value.inputTokens) && IsCount(r.usage.value.outputTokens)
  }

  /** Every question has an accepted answer and the envelope is complete. */
  ghost predicate AcceptsAll(raw: Option<Response>, questions: map<string, seq<string>>) {
    && raw.Some? && raw.value.answers.Some? && AcceptsEnvelope(raw.value)
    && forall q :: q in questions ==> q in raw.value.answers.value && Accepts(raw.value.answers.value[q], questions[q])
  }

  ghost function EvaluationOf(raw: Response, questions: map<string, seq<string>>): Evaluation
    requires AcceptsAll(Some(raw), questions)
  {
    Evaluation(map q | q in questions :: ParsedFrom(raw.answers.value[q], questions[q]),
               raw.model.value, raw.usage.value.inputTokens.value, raw.usage.value.outputTokens.value)
  }

  /** An accepted answer in numbers: a choice among the criteria, a probability between 0 and 1 for each of them, none more
      than 1e-9 above the choice's, and a confidence between 0 and 1. */
  lemma AcceptedAnswer(a: Answer, keys: seq<string>)
    requires Accepts(a, keys)
    ensures a.kind == "choice" && a.choice.Some? && a.choice.value in keys
    ensures a.confidence.Some? && 0.0 <= a.confidence.value <= 1.0
    ensures var p := ParsedFrom(a, keys).probabilities;
      && (forall k :: k in p <==> k in keys)
      && (forall k :: k in keys ==> 0.0 <= p[k] <= 1.0 && a.probabilities.value[k] == Some(p[k]) && p[k] <= p[a.choice.value] + 0.000000001)
      && -0.01 <= Sum(keys, p) - 1.0 <= 0.01
  {
  }

  /** Token counts are whole numbers that are not negative. */
  lemma AcceptedEnvelope(r: Response)
    requires AcceptsEnvelope(r)
    ensures r.model.Some? && (exists c :: c in r.model.value && c != ' ' && !('\t' <= c <= '\r'))
    ensures (exists i: nat :: IsTokens(r.usage.value.inputTokens, i)) && exists o: nat :: IsTokens(r.usage.value.outputTokens, o)
  {
    var u := r.usage.value;
    assert IsTokens(u.inputTokens, u.inputTokens.value.Floor) && IsTokens(u.outputTokens, u.outputTokens.value.Floor);
  }

  ghost predicate IsTokens(v: Option<real>, n: nat) { v == Some(n as real) }

  // ---------------------------------------------------------------- the code

  lemma {:induction false} DistinctCount(keys: seq<string>)
    requires Distinct(keys)
    ensures |KeySet(keys)| == |keys|
  {
    if keys != [] {
      var init, last := keys[..|keys| - 1], keys[|keys| - 1];
      DistinctCount(init);
      assert keys == init + [last];
      assert KeySet(keys) == KeySet(init) + {last};
    }
  }

  lemma SubsetSameSize(a: set<string>, b: set<string>)
    requires a <= b && |a| == |b|
    ensures a == b
  {
    if x :| x in b && x !in a {
      assert a <= b - {x};
      SubsetSize(a, b - {x});
    }
  }

  /** The same number of keys, none unknown: exactly the criteria. */
  method SameOptions(raw: map<string, Option<real>>, keys: seq<string>) returns (same: bool)
    requires Distinct(keys)
    ensures same <==> raw.Keys == KeySet(keys)
  {
    same := |raw.Keys| == |keys| && forall k :: k in raw ==> k in keys;
    DistinctCount(keys);
    if same {
      assert raw.Keys <= KeySet(keys);
      SubsetSameSize(raw.Keys, KeySet(keys));
    }
  }

  method ReadDistribution(raw: map<string, Option<real>>, keys: seq<string>) returns (r: Option<map<string, real>>)
    requires raw.Keys == KeySet(keys)
    ensures r.Some? <==> forall k :: k in keys ==> IsProbability(raw[k])
    ensures r.Some? ==> r.value == map k | k in KeySet(keys) :: raw[k].value
  {
    var probabilities: map<string, real> := map[];
    var i := 0;
    while i < |keys|
      invariant 0 <= i <= |keys|
      invariant forall k :: k in keys[..i] ==> IsProbability(raw[k])
      invariant probabilities == map k | k in KeySet(keys[..i]) :: raw[k].value
    {
      assert keys[..i + 1] == keys[..i] + [keys[i]];
      if !IsProbability(raw[keys[i]]) { return None; }
      probabilities := probabilities[keys[i] := raw[keys[i]].value];
      i := i + 1;
    }
    assert keys[..i] == keys;
    r := Some(probabilities);
  }

  /** The checks on one distribution: the sum, then the maximum. */
  method CheckDistribution(keys: seq<string>, p: map<string, real>, choice: string) returns (ok: bool)
    requires p.Keys == KeySet(keys) && choice in keys
    ensures ok <==> -0.01 <= Sum(keys, p) - 1.0 <= 0.01 && forall k :: k in keys ==> p[k] <= p[choice] + 0.000000001
  {
    if Sum(keys, p) - 1.0 > 0.01 || 1.0 - Sum(keys, p) > 0.01 { return false; }
    return p[choice] + 0.000000001 >= Max(keys, p);
  }

  method ParseAnswer(a: Answer, keys: seq<string>) returns (r: Option<Parsed>)
    requires Distinct(keys)
    ensures r.Some? <==> Accepts(a, keys)
    ensures r.Some? ==> r.value == ParsedFrom(a, keys)
  {
    if a.kind != "choice" || a.choice.None? || a.choice.value !in keys || a.probabilities.None? { return None; }
    var same := SameOptions(a.probabilities.value, keys);
    if !same { return None; }
    var p := ReadDistribution(a.probabilities.value, keys);
    if p.None? { return None; }
    assert p.value == Distribution(a, keys);
    var ok := CheckDistribution(keys, p.value, a.choice.value);
    if !ok || !IsProbability(a.confidence) { return None; }
    r := Some(Parsed(a.choice.value, p.value, a.confidence.value));
  }

  method ParseV3Response(raw: Option<Response>, criteria: seq<string>) returns (r: Option<Evaluation>)
    requires Distinct(criteria)
    ensures r.Some? <==> AcceptsAll(raw, map[GRID := criteria])
    ensures r.Some? ==> r.value == EvaluationOf(raw.value, map[GRID := criteria])
  {
    if raw.None? || raw.value.answers.None? || GRID !in raw.value.answers.value { return None; }
    var parsed := ParseAnswer(raw.value.answers.value[GRID], criteria);
    if parsed.None? { return None; }
    if raw.value.model.None? || Blank(raw.value.model.value) || raw.value.usage.None? { return None; }
    var usage := raw.value.usage.value;
    if !IsCount(usage.inputTokens) || !IsCount(usage.outputTokens) { return None; }
    r := Some(Evaluation(map[GRID := parsed.value], raw.value.model.value, usage.inputTokens.value, usage.outputTokens.value));
  }

  /** The loop over the questions. */
  method ParseQuestions(answers: map<string, Answer>, questions: map<string, seq<string>>, ids: seq<string>)
    returns (r: Option<map<string, Parsed>>)
    requires KeySet(ids) == questions.Keys && forall q :: q in questions ==> Distinct(questions[q])
    ensures r.Some? <==> forall q :: q in questions ==> q in answers && Accepts(answers[q], questions[q])
    ensures r.Some? ==> r.value == map q | q in questions :: ParsedFrom(answers[q], questions[q])
  {
    hide Accepts, ParsedFrom, Distinct;
    var parsed: map<string, Parsed> := map[];
    var i := 0;
    while i < |ids|
      invariant 0 <= i <= |ids|
      invariant parsed.Keys == KeySet(ids[..i])
      invariant forall q :: q in ids[..i] ==> q in questions && q in answers && Accepts(answers[q], questions[q])
      invariant forall q :: q in parsed ==> q in ids[..i] && parsed[q] == ParsedFrom(answers[q], questions[q])
    {
      var id := ids[i];
      assert ids[..i + 1] == ids[..i] + [id];
      assert id in KeySet(ids);
      if id !in answers { return None; }
      var p := ParseAnswer(answers[id], questions[id]);
      if p.None? { return None; }
      parsed := parsed[id := p.value];
      i := i + 1;
    }
    assert ids[..i] == ids;
    r := Some(parsed);
  }

  method EvaluateV4(raw: Option<Response>, questions: map<string, seq<string>>) returns (r: Option<Evaluation>)
    requires questions.Keys == {GRID, EXIT} && Distinct(questions[GRID]) && Distinct(questions[EXIT])
    ensures r.Some? <==> AcceptsAll(raw, questions)
    ensures r.Some? ==> r.value == EvaluationOf(raw.value, questions)
  {
    hide Accepts, ParsedFrom, Distinct, Blank;
    if raw.None? || raw.value.answers.None? || raw.value.usage.None? { return None; }
    if raw.value.model.None? || Blank(raw.value.model.value) { return None; }
    assert KeySet([GRID, EXIT]) == questions.Keys;
    var parsed := ParseQuestions(raw.value.answers.value, questions, [GRID, EXIT]);
    if parsed.None? { return None; }
    var usage := raw.value.usage.value;
    if !IsCount(usage.inputTokens) || !IsCount(usage.outputTokens) { return None; }
    r := Some(Evaluation(parsed.value, raw.value.model.value, usage.inputTokens.value, usage.outputTokens.value));
  }
}
