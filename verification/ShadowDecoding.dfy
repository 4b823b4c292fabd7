/** Decoding option probabilities to candidate ids in apps/worker/src/shadow-jev-consumer.ts: what lands
    where, what is lost, and that a built V3 request encodes its candidates. */
module ShadowDecoding {
  import opened ShadowAnswers
  import opened ShadowQuestions
  import opened ShadowRequests
  import opened ShadowShuffle
  import opened Wrappers

  /** What an option stands for: its candidate id, or itself when the map does not know it. */
  function Name(options: map<string, string>, option: string): string {
    if option in options then options[option] else option
  }

  /** Object.fromEntries over the options in criteria order: a later entry overwrites an earlier one. */
  function Decode(keys: seq<string>, p: map<string, real>, options: map<string, string>): map<string, real>
    requires KeySet(keys) <= p.Keys
  {
    if keys == [] then map[] else
    var init, last := keys[..|keys| - 1], keys[|keys| - 1];
    assert keys == init + [last];
    Decode(init, p, options)[Name(options, last) := p[last]]
  }

  // ---------------------------------------------------------------- total mass

  ghost function Picked(m: map<string, real>): (k: string)
    requires m.Keys != {}
    ensures k in m
  {
    var k :| k in m; k
  }

  /** The sum of all values, in no particular order. */
  ghost function Mass(m: map<string, real>): real
    decreases |m.Keys|
  {
    if m.Keys == {} then 0.0 else m[Picked(m)] + Mass(m - {Picked(m)})
  }

  lemma {:induction false} MassWithout(m: map<string, real>, k: string)
    requires k in m
    ensures Mass(m) == m[k] + Mass(m - {k})
    decreases |m.Keys|
  {
    var j := Picked(m);
    if j != k {
      MassWithout(m - {j}, k);
      MassWithout(m - {k}, j);
      assert m - {j} - {k} == m - {k} - {j};
    }
  }

  lemma MassInsert(m: map<string, real>, k: string, v: real)
    ensures Mass(m[k := v]) == Mass(m) + v - (if k in m then m[k] else 0.0)
  {
    MassWithout(m[k := v], k);
    if k in m {
      MassWithout(m, k);
      assert m[k := v] - {k} == m - {k};
    } else {
      assert m[k := v] - {k} == m;
    }
  }

  // ---------------------------------------------------------------- decoding under distinct names

  ghost predicate NamesDistinct(keys: seq<string>, options: map<string, string>) {
    forall i, j :: 0 <= i < j < |keys| ==> Name(options, keys[i]) != Name(options, keys[j])
  }

  ghost predicate Carries(keys: seq<string>, p: map<string, real>, options: map<string, string>, d: map<string, real>)
    requires KeySet(keys) <= p.Keys
  {
    forall k :: 0 <= k < |keys| ==>
      (assert keys[k] in keys; Name(options, keys[k]) in d && d[Name(options, keys[k])] == p[keys[k]])
  }

  lemma Snoc(init: seq<string>, last: string, p: map<string, real>, options: map<string, string>)
    requires KeySet(init + [last]) <= p.Keys
    ensures KeySet(init) <= p.Keys && last in p
    ensures Decode(init + [last], p, options) == Decode(init, p, options)[Name(options, last) := p[last]]
    ensures Sum(init + [last], p) == Sum(init, p) + p[last]
  {
    var keys := init + [last];
    assert keys[|keys| - 1] in keys && keys[..|keys| - 1] == init;
    assert KeySet(init) <= KeySet(keys);
  }

  lemma {:induction false} DecodeKeys(keys: seq<string>, p: map<string, real>, options: map<string, string>)
    requires KeySet(keys) <= p.Keys
    ensures Decode(keys, p, options).Keys == set k | k in keys :: Name(options, k)
  {
    hide Name;
    if keys != [] {
      var init, last := keys[..|keys| - 1], keys[|keys| - 1];
      assert keys == init + [last];
      Snoc(init, last, p, options);
      DecodeKeys(init, p, options);
    }
  }

  lemma SnocNames(init: seq<string>, last: string, p: map<string, real>, options: map<string, string>)
    requires NamesDistinct(init + [last], options) && KeySet(init) <= p.Keys
    ensures NamesDistinct(init, options) && Name(options, last) !in Decode(init, p, options)
  {
    DecodeKeys(init, p, options);
    hide Name, Decode;
    var keys := init + [last];
    forall i, j | 0 <= i < j < |init| ensures Name(options, init[i]) != Name(options, init[j]) {
      assert keys[i] == init[i] && keys[j] == init[j];
    }
    forall k | k in init ensures Name(options, k) != Name(options, last) {
      var i :| 0 <= i < |init| && init[i] == k;
      assert keys[i] == k && keys[|init|] == last;
    }
  }

  lemma {:induction false} DecodeDistinct(keys: seq<string>, p: map<string, real>, options: map<string, string>)
    requires KeySet(keys) <= p.Keys && NamesDistinct(keys, options)
    ensures Carries(keys, p, options, Decode(keys, p, options))
  {
    if keys != [] {
      hide Name, Decode, NamesDistinct, Sum;
      var init, last := keys[..|keys| - 1], keys[|keys| - 1];
      assert keys == init + [last];
      Snoc(init, last, p, options);
      SnocNames(init, last, p, options);
      DecodeDistinct(init, p, options);
      CarriesSnoc(init, last, p, options, Decode(init, p, options));
    }
  }

  lemma CarriesSnoc(init: seq<string>, last: string, p: map<string, real>, options: map<string, string>, d: map<string, real>)
    requires KeySet(init + [last]) <= p.Keys && KeySet(init) <= p.Keys && last in p && Name(options, last) !in d
    requires Carries(init, p, options, d)
    ensures Carries(init + [last], p, options, d[Name(options, last) := p[last]])
  {
    hide Name;
    var keys, e := init + [last], d[Name(options, last) := p[last]];
    forall k | 0 <= k < |keys|
      ensures keys[k] in p && Name(options, keys[k]) in e && e[Name(options, keys[k])] == p[keys[k]]
    {
      if k < |init| {
        assert init[k] in init && Name(options, init[k]) in d;
      }
    }
  }

  lemma {:induction false} DecodeMass(keys: seq<string>, p: map<string, real>, options: map<string, string>)
    requires KeySet(keys) <= p.Keys && NamesDistinct(keys, options)
    ensures Mass(Decode(keys, p, options)) == Sum(keys, p)
  {
    if keys != [] {
      hide Name, Decode, NamesDistinct, Sum, Mass;
      var init, last := keys[..|keys| - 1], keys[|keys| - 1];
      assert keys == init + [last];
      Snoc(init, last, p, options);
      SnocNames(init, last, p, options);
      DecodeMass(init, p, options);
      MassInsert(Decode(init, p, options), Name(options, last), p[last]);
    }
  }

  /** The accepted distribution's own mass is the sum over the criteria. */
  lemma MassIsSum(keys: seq<string>, p: map<string, real>)
    requires Distinct(keys) && p.Keys == KeySet(keys)
    ensures Mass(p) == Sum(keys, p)
  {
    assert forall k :: Name(map[], k) == k;
    hide Name, Decode, Sum, Mass;
    DecodeKeys(keys, p, map[]);
    DecodeDistinct(keys, p, map[]);
    DecodeMass(keys, p, map[]);
    CarriesSelf(keys, p, Decode(keys, p, map[]));
  }

  lemma CarriesSelf(keys: seq<string>, p: map<string, real>, d: map<string, real>)
    requires p.Keys == KeySet(keys) && d.Keys == (set k | k in keys :: Name(map[], k)) && Carries(keys, p, map[], d)
    ensures d == p
  {
    forall k | k in p ensures k in d && d[k] == p[k] {
      var i :| 0 <= i < |keys| && keys[i] == k;
      assert Name(map[], keys[i]) == k;
    }
    assert d.Keys == p.Keys;
  }

  // ---------------------------------------------------------------- options over candidate ids

  /** The criteria are one option per id followed by abstain, and the map sends each option to its id. */
  ghost predicate Encodes(keys: seq<string>, options: map<string, string>, ids: seq<string>) {
    && |keys| == |ids| + 1 && keys[|ids|] == ABSTAIN && Name(options, ABSTAIN) == ABSTAIN
    && (forall k :: 0 <= k < |ids| ==> keys[k] in options && options[keys[k]] == ids[k])
    && Distinct(keys) && Distinct(ids)
  }

  lemma PrefixNames(keys: seq<string>, options: map<string, string>, ids: seq<string>)
    requires Encodes(keys, options, ids)
    ensures NamesDistinct(keys[..|ids|], options)
    ensures forall k :: 0 <= k < |ids| ==> Name(options, keys[k]) == ids[k]
    ensures forall s :: s in ids <==> s in (set k | k in keys[..|ids|] :: Name(options, k))
  {
    forall k | 0 <= k < |ids| ensures ids[k] in (set k | k in keys[..|ids|] :: Name(options, k)) {
      assert keys[k] == keys[..|ids|][k] && Name(options, keys[k]) == ids[k];
    }
  }

  /** The probability decoding loses: that of an option whose candidate id is "abstain". */
  ghost function Overwritten(keys: seq<string>, p: map<string, real>, ids: seq<string>): real
    requires |keys| == |ids| + 1 && p.Keys == KeySet(keys)
  {
    if exists k :: 0 <= k < |ids| && ids[k] == ABSTAIN then
      var k :| 0 <= k < |ids| && ids[k] == ABSTAIN;
      assert keys[k] in keys;
      p[keys[k]]
    else 0.0
  }

  lemma OverwrittenIs(keys: seq<string>, p: map<string, real>, ids: seq<string>, d: map<string, real>)
    requires |keys| == |ids| + 1 && p.Keys == KeySet(keys) && Distinct(ids) && d.Keys == KeySet(ids)
    requires forall k :: 0 <= k < |ids| ==> ids[k] in d && keys[k] in p && d[ids[k]] == p[keys[k]]
    ensures Overwritten(keys, p, ids) == if ABSTAIN in d then d[ABSTAIN] else 0.0
  {
    if ABSTAIN in d {
      var k :| 0 <= k < |ids| && ids[k] == ABSTAIN;
    }
  }

  /** Decoding the options alone, before abstain. */
  lemma DecodeOptions(keys: seq<string>, options: map<string, string>, ids: seq<string>, p: map<string, real>)
    requires Encodes(keys, options, ids) && p.Keys == KeySet(keys)
    ensures KeySet(keys[..|ids|]) <= p.Keys
    ensures var e := Decode(keys[..|ids|], p, options);
      && e.Keys == KeySet(ids) && Mass(e) == Sum(keys[..|ids|], p)
      && forall k :: 0 <= k < |ids| ==> ids[k] in e && keys[k] in p && e[ids[k]] == p[keys[k]]
  {
    hide Name, Decode, Sum, Mass, NamesDistinct;
    var init := keys[..|ids|];
    PrefixNames(keys, options, ids);
    assert KeySet(init) <= KeySet(keys);
    DecodeKeys(init, p, options);
    DecodeDistinct(init, p, options);
    DecodeMass(init, p, options);
    var e := Decode(init, p, options);
    forall k | 0 <= k < |ids| ensures ids[k] in e && keys[k] in p && e[ids[k]] == p[keys[k]] {
      assert init[k] == keys[k];
    }
  }

  lemma DecodeLast(keys: seq<string>, options: map<string, string>, ids: seq<string>, p: map<string, real>)
    requires Encodes(keys, options, ids) && p.Keys == KeySet(keys)
    ensures KeySet(keys[..|ids|]) <= p.Keys && ABSTAIN in p
    ensures Decode(keys, p, options) == Decode(keys[..|ids|], p, options)[ABSTAIN := p[ABSTAIN]]
    ensures Sum(keys, p) == Sum(keys[..|ids|], p) + p[ABSTAIN]
  {
    hide Name, Decode, Sum, ABSTAIN, Distinct;
    assert keys == keys[..|ids|] + [ABSTAIN];
    Snoc(keys[..|ids|], ABSTAIN, p, options);
  }

  lemma DecodedMass(keys: seq<string>, options: map<string, string>, ids: seq<string>, p: map<string, real>)
    requires Encodes(keys, options, ids) && p.Keys == KeySet(keys)
    ensures Mass(Decode(keys, p, options)) == Mass(p) - Overwritten(keys, p, ids)
  {
    hide Name, Decode, Sum, Mass, Overwritten, ABSTAIN;
    DecodeOptions(keys, options, ids, p);
    DecodeLast(keys, options, ids, p);
    var e := Decode(keys[..|ids|], p, options);
    MassInsert(e, ABSTAIN, p[ABSTAIN]);
    MassIsSum(keys, p);
    OverwrittenIs(keys, p, ids, e);
  }

  /** Every candidate whose id is not "abstain" gets exactly its option's probability, abstain keeps its
      own, nothing else appears, and the only mass lost is that of a candidate called "abstain". */
  lemma DecodeCandidates(keys: seq<string>, options: map<string, string>, ids: seq<string>, p: map<string, real>)
    requires Encodes(keys, options, ids) && p.Keys == KeySet(keys)
    ensures var d := Decode(keys, p, options);
      && d.Keys == KeySet(ids) + {ABSTAIN}
      && (forall k :: 0 <= k < |ids| && ids[k] != ABSTAIN ==> ids[k] in d && keys[k] in p && d[ids[k]] == p[keys[k]])
      && ABSTAIN in p && d[ABSTAIN] == p[ABSTAIN]
      && Mass(d) == Mass(p) - Overwritten(keys, p, ids)
  {
    DecodedMass(keys, options, ids, p);
    DecodeOptions(keys, options, ids, p);
    DecodeLast(keys, options, ids, p);
    hide Name, Decode, Sum, Mass, Overwritten, ABSTAIN, Encodes;
    var e, d := Decode(keys[..|ids|], p, options), Decode(keys, p, options);
    assert d.Keys == e.Keys + {ABSTAIN};
  }

  lemma OverwrittenZero(keys: seq<string>, p: map<string, real>, ids: seq<string>)
    requires |keys| == |ids| + 1 && p.Keys == KeySet(keys) && Distinct(ids)
    ensures Overwritten(keys, p, ids) == 0.0 <==>
            forall k :: 0 <= k < |ids| && ids[k] == ABSTAIN ==> (assert keys[k] in keys; p[keys[k]] == 0.0)
  {
  }

  /** Decoding keeps the total probability exactly when no weight sits on a candidate called "abstain". */
  lemma MassKeptIff(keys: seq<string>, options: map<string, string>, ids: seq<string>, p: map<string, real>)
    requires Encodes(keys, options, ids) && p.Keys == KeySet(keys)
    ensures Mass(Decode(keys, p, options)) == Mass(p) <==>
            forall k :: 0 <= k < |ids| && ids[k] == ABSTAIN ==> (assert keys[k] in keys; p[keys[k]] == 0.0)
  {
    hide Decode, Mass, Overwritten, ABSTAIN;
    DecodedMass(keys, options, ids, p);
    OverwrittenZero(keys, p, ids);
  }

  ghost predicate ValuesOf(d: map<string, real>, p: map<string, real>) {
    forall x :: x in d ==> exists k :: k in p && d[x] == p[k]
  }

  lemma ValuesFrom(keys: seq<string>, ids: seq<string>, p: map<string, real>, d: map<string, real>, last: string)
    requires |keys| == |ids| + 1 && d.Keys == KeySet(ids) + {last} && last in p && d[last] == p[last]
    requires forall k :: 0 <= k < |ids| && ids[k] != last ==> ids[k] in d && keys[k] in p && d[ids[k]] == p[keys[k]]
    ensures ValuesOf(d, p)
  {
    forall x | x in d ensures exists k :: k in p && d[x] == p[k] {
      if x != last {
        var k :| 0 <= k < |ids| && ids[k] == x;
        assert keys[k] in p;
      }
    }
  }

  lemma NamesKept(keys: seq<string>, options: map<string, string>, ids: seq<string>, p: map<string, real>, d: map<string, real>)
    requires Encodes(keys, options, ids) && ABSTAIN !in ids && ABSTAIN in p && ABSTAIN in d && d[ABSTAIN] == p[ABSTAIN]
    requires forall k :: 0 <= k < |ids| && ids[k] != ABSTAIN ==> ids[k] in d && keys[k] in p && d[ids[k]] == p[keys[k]]
    ensures forall k :: k in keys ==> k in p && Name(options, k) in d && d[Name(options, k)] == p[k]
  {
    hide ABSTAIN, Distinct;
    forall k | k in keys ensures k in p && Name(options, k) in d && d[Name(options, k)] == p[k] {
      var j :| 0 <= j < |keys| && keys[j] == k;
      if j < |ids| { assert ids[j] in ids; }
    }
  }

  lemma DecodedFrom(keys: seq<string>, options: map<string, string>, ids: seq<string>, p: map<string, real>)
    requires Encodes(keys, options, ids) && p.Keys == KeySet(keys)
    ensures ValuesOf(Decode(keys, p, options), p)
  {
    DecodeCandidates(keys, options, ids, p);
    assert |keys| == |ids| + 1;
    hide *;
    ValuesFrom(keys, ids, p, Decode(keys, p, options), ABSTAIN);
  }

  /** With no id "abstain", every option's probability sits under its name. */
  lemma DecodedNames(keys: seq<string>, options: map<string, string>, ids: seq<string>, p: map<string, real>)
    requires Encodes(keys, options, ids) && p.Keys == KeySet(keys) && ABSTAIN !in ids
    ensures forall k :: k in keys ==>
      k in p && Name(options, k) in Decode(keys, p, options) && Decode(keys, p, options)[Name(options, k)] == p[k]
  {
    DecodeCandidates(keys, options, ids, p);
    hide *;
    NamesKept(keys, options, ids, p, Decode(keys, p, options));
  }

  lemma AcceptedMaximum(a: Answer, keys: seq<string>)
    requires Accepts(a, keys)
    ensures a.choice.value in keys && forall k :: k in Distribution(a, keys) ==>
      Distribution(a, keys)[k] <= Distribution(a, keys)[a.choice.value] + 0.000000001
  {
  }

  lemma MaximalAmong(d: map<string, real>, p: map<string, real>, c: string, choice: string)
    requires c in d && choice in p && d[c] == p[choice]
    requires ValuesOf(d, p)
    requires forall k :: k in p ==> p[k] <= p[choice] + 0.000000001
    ensures forall x :: x in d ==> d[x] <= d[c] + 0.000000001
  {
    forall x | x in d ensures d[x] <= d[c] + 0.000000001 {
      var k :| k in p && d[x] == p[k];
    }
  }

  /** With no id "abstain", the decoded choice is still a maximum within the accepted tolerance. */
  lemma ChoiceStaysMaximal(keys: seq<string>, options: map<string, string>, ids: seq<string>, a: Answer)
    requires Encodes(keys, options, ids) && Accepts(a, keys) && ABSTAIN !in ids
    ensures var d, c := Decode(keys, Distribution(a, keys), options), Name(options, a.choice.value);
      c in d && forall x :: x in d ==> d[x] <= d[c] + 0.000000001
  {
    var p := Distribution(a, keys);
    DecodedFrom(keys, options, ids, p);
    DecodedNames(keys, options, ids, p);
    AcceptedMaximum(a, keys);
    hide *;
    MaximalAmong(Decode(keys, p, options), p, Name(options, a.choice.value), a.choice.value);
  }

  // ---------------------------------------------------------------- what a candidate called "abstain" costs

  function OneHot(keys: seq<string>, hot: string): map<string, real> {
    map k | k in KeySet(keys) :: if k == hot then 1.0 else 0.0
  }

  lemma {:induction false} SumOneHot(keys: seq<string>, p: map<string, real>, hot: string)
    requires Distinct(keys) && KeySet(keys) <= p.Keys
    requires forall k :: k in keys ==> p[k] == if k == hot then 1.0 else 0.0
    ensures Sum(keys, p) == if hot in keys then 1.0 else 0.0
  {
    if keys != [] {
      var init, last := keys[..|keys| - 1], keys[|keys| - 1];
      assert keys == init + [last];
      Snoc(init, last, p, map[]);
      SumOneHot(init, p, hot);
    }
  }

  /** The accepted answer that is sure of one option. */
  ghost function Certain(keys: seq<string>, hot: string): (a: Answer)
    requires Distinct(keys) && hot in keys
    ensures Accepts(a, keys) && Distribution(a, keys) == OneHot(keys, hot)
  {
    var p := OneHot(keys, hot);
    var a := Answer("choice", Some(hot), Some(map k | k in p :: Some(p[k])), Some(1.0));
    assert Distribution(a, keys) == p;
    SumOneHot(keys, p, hot);
    a
  }

  /** Certainty about a candidate called "abstain" is decoded to no probability at all. */
  lemma AbstainIdLosesAll(keys: seq<string>, options: map<string, string>, ids: seq<string>, k: nat)
    requires Encodes(keys, options, ids) && k < |ids| && ids[k] == ABSTAIN
    ensures Accepts(Certain(keys, keys[k]), keys)
    ensures Mass(OneHot(keys, keys[k])) == 1.0 && Mass(Decode(keys, OneHot(keys, keys[k]), options)) == 0.0
  {
    hide Decode, Mass, Name, ABSTAIN, Accepts;
    var p := OneHot(keys, keys[k]);
    var a := Certain(keys, keys[k]);
    MassIsSum(keys, p);
    SumOneHot(keys, p, keys[k]);
    DecodedMass(keys, options, ids, p);
    assert forall j :: 0 <= j < |ids| && ids[j] == ABSTAIN ==> j == k;
  }

  // ---------------------------------------------------------------- from a built request

  /** Candidate ids in the order of their options. */
  ghost function OrderedIds(i: Input, seed: Seed): (ids: seq<string>)
    requires SetOk(i)
    ensures |ids| == |i.candidates|
  {
    var n := |i.candidates|;
    ShuffleIsPermutation(IndexAll(i.candidates), DrawsV3(seed, n));
    seq(n, k requires 0 <= k < n => i.candidates[Shuffled(Identity(n), DrawsV3(seed, n))[k]].id)
  }

  lemma OptionsOf(i: Input, seed: Seed)
    requires Build(i, seed).Ok?
    ensures SetOk(i)
    ensures var q, ids, n := Build(i, seed).value, OrderedIds(i, seed), |i.candidates|;
      && |q.criteria| == n + 1 && q.criteria[n] == ABSTAIN && ABSTAIN !in q.options
      && (forall k :: 0 <= k < n ==> q.criteria[k] == OptionName(k) && OptionName(k) in q.options && q.options[OptionName(k)] == ids[k])
      && (forall a, b :: a in q.options && b in q.options && q.options[a] == q.options[b] ==> a == b)
  {
    OptionsAreBijective(i, seed);
    hide Shuffled, OptionName, Prepare, MarketOf, DrawsV3, ABSTAIN;
    assert SetOk(i);
    hide Build;
    forall k: nat ensures OptionName(k) != ABSTAIN {
      OptionIsNotAbstain(k);
    }
  }

  lemma {:induction false} IdsOf(i: Input, seed: Seed)
    requires SetOk(i)
    ensures KeySet(OrderedIds(i, seed)) == set c | c in i.candidates :: c.id
  {
    var n := |i.candidates|;
    var draws, ids := DrawsV3(seed, n), OrderedIds(i, seed);
    ShuffleIsPermutation(IndexAll(i.candidates), draws);
    var p := Shuffled(Identity(n), draws);
    hide Shuffled, DrawsV3, SetOk;
    forall c | c in i.candidates ensures c.id in ids {
      var k :| 0 <= k < n && i.candidates[k] == c;
      Pigeonhole(p, n, k);
      var j :| 0 <= j < n && p[j] == k;
      assert ids[j] == c.id;
    }
    forall id | id in ids ensures exists c :: c in i.candidates && c.id == id {
      var j :| 0 <= j < n && ids[j] == id;
      assert i.candidates[p[j]] in i.candidates;
    }
  }

  lemma CriteriaDistinct(keys: seq<string>, n: nat)
    requires |keys| == n + 1 && keys[n] == ABSTAIN && forall k :: 0 <= k < n ==> keys[k] == OptionName(k)
    ensures Distinct(keys)
  {
    hide OptionName, ABSTAIN;
    forall k, j | 0 <= k < j <= n ensures keys[k] != keys[j] {
      OptionIsNotAbstain(k);
      if j < n && OptionName(k) == OptionName(j) { OptionNamesDistinct(k, j); }
    }
  }

  lemma EncodesFrom(keys: seq<string>, options: map<string, string>, ids: seq<string>)
    requires |keys| == |ids| + 1 && keys[|ids|] == ABSTAIN && Name(options, ABSTAIN) == ABSTAIN && Distinct(keys)
    requires forall k :: 0 <= k < |ids| ==> keys[k] in options && options[keys[k]] == ids[k]
    requires forall i, j :: 0 <= i < j < |ids| ==> options[keys[i]] != options[keys[j]]
    ensures Encodes(keys, options, ids)
  {
    hide ABSTAIN, Name;
    assert Distinct(ids);
  }

  lemma OptionsDiffer(keys: seq<string>, options: map<string, string>, n: nat)
    requires n < |keys| && Distinct(keys) && forall k :: 0 <= k < n ==> keys[k] in options
    requires forall a, b :: a in options && b in options && options[a] == options[b] ==> a == b
    ensures forall i, j :: 0 <= i < j < n ==> options[keys[i]] != options[keys[j]]
  {
  }

  lemma AddAbstain(keys: seq<string>, options: map<string, string>, ids: seq<string>)
    requires Encodes(keys, options, ids) && ABSTAIN !in options
    ensures Encodes(keys, options[ABSTAIN := ABSTAIN], ids)
  {
    hide ABSTAIN;
  }

  /** A built request's criteria and option map encode its candidates, also after V4 adds abstain. */
  lemma RequestEncodes(i: Input, seed: Seed)
    requires Build(i, seed).Ok?
    ensures SetOk(i)
    ensures var q, ids := Build(i, seed).value, OrderedIds(i, seed);
      && Encodes(q.criteria, q.options, ids) && Encodes(q.criteria, q.options[ABSTAIN := ABSTAIN], ids)
      && KeySet(ids) == set c | c in i.candidates :: c.id
  {
    OptionsOf(i, seed);
    IdsOf(i, seed);
    var q, ids, n := Build(i, seed).value, OrderedIds(i, seed), |i.candidates|;
    hide Build, OptionName, ABSTAIN, OrderedIds, SetOk, Encodes, Distinct, KeySet;
    CriteriaDistinct(q.criteria, n);
    OptionsDiffer(q.criteria, q.options, n);
    EncodesFrom(q.criteria, q.options, ids);
    AddAbstain(q.criteria, q.options, ids);
  }
}
