/** The candle windows of apps/worker/src/shadow-jev-v3-replay-main.ts: warm-up before the observation,
    future candles after it. */
module HistorySplice {
  import opened Wrappers

  const HOUR_MS := 3_600_000
  const WARMUP_HOURS := 80
  const HORIZON_HOURS := 24
  const MINIMUM_WARMUP := 20

  datatype Hourly = Hourly(timestamp: int, open: real, high: real, low: real, close: real)

  /** An entry of a recorded snapshot; a date that is not a readable string, or a price that is not a
      finite number, is None. */
  datatype RawCandle = RawCandle(openedAt: Option<int>, closedAt: Option<int>, open: Option<real>, high: Option<real>,
                                 low: Option<real>, close: Option<real>)

  datatype Row = Row(openTime: int, closeTime: Option<int>, fetchedAt: int, sourceMarket: string,
                     open: real, high: real, low: real, close: real)

  datatype Reason = InvalidProvenance | InsufficientWarmup | MissingFuture

  datatype Windows = Windows(warmup: seq<Hourly>, future: seq<Hourly>)

  /** One candle an hour, the first opening at start: no gap and no duplicate. */
  ghost predicate Series(cs: seq<Hourly>, start: int) {
    forall i :: 0 <= i < |cs| ==> cs[i].timestamp == start + i * 3_600_000
  }

  // ---------------------------------------------------------------- the recorded snapshot

  predicate PriceOk(v: Option<real>) { v.Some? && v.value > 0.0 }

  predicate EntryOk(c: RawCandle) {
    && c.openedAt.Some? && c.closedAt == Some(c.openedAt.value + HOUR_MS)
    && PriceOk(c.open) && PriceOk(c.high) && PriceOk(c.low) && PriceOk(c.close)
  }

  function Entry(c: RawCandle): Hourly
    requires EntryOk(c)
  {
    Hourly(c.openedAt.value, c.open.value, c.high.value, c.low.value, c.close.value)
  }

  /** The entry records this candle: its hour and its four prices. */
  ghost predicate RecordedAs(c: Hourly, raw: RawCandle) {
    raw == RawCandle(Some(c.timestamp), Some(c.timestamp + 3_600_000), Some(c.open), Some(c.high), Some(c.low), Some(c.close))
    && c.open > 0.0 && c.high > 0.0 && c.low > 0.0 && c.close > 0.0
  }

  ghost predicate Recordable(raw: RawCandle) {
    exists c :: RecordedAs(c, raw)
  }

  lemma EntryOkIff(raw: RawCandle)
    ensures EntryOk(raw) <==> Recordable(raw)
    ensures EntryOk(raw) ==> RecordedAs(Entry(raw), raw)
  {
    if EntryOk(raw) { assert RecordedAs(Entry(raw), raw); }
  }

  /** The recorded candles are accepted exactly when each is well formed, there are at least twenty, and
      together they are one hourly series that ends at observedAt. */
  ghost predicate SnapshotOk(raw: seq<RawCandle>, observedAt: int) {
    && (forall i :: 0 <= i < |raw| ==> Recordable(raw[i]))
    && |raw| >= 20
    && forall i :: 0 <= i < |raw| ==> raw[i].openedAt == Some(observedAt - (|raw| - i) * 3_600_000)
  }

  method ParseSnapshotCandles(raw: Option<seq<RawCandle>>, observedAt: int) returns (r: Option<seq<Hourly>>)
    ensures r.Some? <==> raw.Some? && SnapshotOk(raw.value, observedAt)
    ensures r.Some? ==> |r.value| == |raw.value| && forall i :: 0 <= i < |raw.value| ==> RecordedAs(r.value[i], raw.value[i])
    ensures r.Some? ==> Series(r.value, observedAt - |r.value| * HOUR_MS)
  {
    if raw.None? { return None; }
    var parsed: seq<Hourly> := [];
    var i := 0;
    while i < |raw.value|
      invariant 0 <= i <= |raw.value| && |parsed| == i
      invariant forall k :: 0 <= k < i ==> RecordedAs(parsed[k], raw.value[k])
    {
      EntryOkIff(raw.value[i]);
      if !EntryOk(raw.value[i]) { return None; }
      parsed := parsed + [Entry(raw.value[i])];
      i := i + 1;
    }
    if |parsed| >= MINIMUM_WARMUP && parsed[|parsed| - 1].timestamp + HOUR_MS == observedAt
       && forall k :: 0 < k < |parsed| ==> parsed[k].timestamp == parsed[k - 1].timestamp + HOUR_MS {
      forall k | 0 <= k < |parsed| ensures parsed[k].timestamp == observedAt - (|parsed| - k) * HOUR_MS {
        BackFrom(parsed, observedAt, k);
      }
      forall k | 0 <= k < |raw.value|
        ensures Recordable(raw.value[k]) && raw.value[k].openedAt == Some(observedAt - (|raw.value| - k) * 3_600_000)
      {
        assert RecordedAs(parsed[k], raw.value[k]);
      }
      return Some(parsed);
    }
    r := None;
  }

  lemma {:induction false} BackFrom(cs: seq<Hourly>, end: int, k: nat)
    requires k < |cs| && cs[|cs| - 1].timestamp + HOUR_MS == end
    requires forall i :: 0 < i < |cs| ==> cs[i].timestamp == cs[i - 1].timestamp + HOUR_MS
    ensures cs[k].timestamp == end - (|cs| - k) * HOUR_MS
    decreases |cs| - k
  {
    if k + 1 < |cs| { BackFrom(cs, end, k + 1); }
  }

  // ---------------------------------------------------------------- the two loops

  /** The last k candles run up to end, hour by hour. */
  ghost predicate EndsAt(cs: seq<Hourly>, end: int, k: nat) {
    k <= |cs| && forall j :: |cs| - k <= j < |cs| ==> cs[j].timestamp == end - (|cs| - j) * HOUR_MS
  }

  /** The first k candles run on from start, hour by hour. */
  ghost predicate StartsAt(cs: seq<Hourly>, start: int, k: nat) {
    k <= |cs| && forall j :: 0 <= j < k ==> cs[j].timestamp == start + j * HOUR_MS
  }

  /** The longest suffix that runs up to end, at most limit long. */
  ghost predicate LongestSuffix(cs: seq<Hourly>, end: int, limit: nat, r: seq<Hourly>) {
    && |r| <= limit && EndsAt(cs, end, |r|) && r == cs[|cs| - |r|..]
    && forall k: nat :: k <= limit && EndsAt(cs, end, k) ==> k <= |r|
  }

  /** The longest prefix that runs on from start, at most limit long. */
  ghost predicate LongestPrefix(cs: seq<Hourly>, start: int, limit: nat, r: seq<Hourly>) {
    && |r| <= limit && StartsAt(cs, start, |r|) && r == cs[..|r|]
    && forall k: nat :: k <= limit && StartsAt(cs, start, k) ==> k <= |r|
  }

  method ContiguousSuffix(candles: seq<Hourly>, endMs: int, limit: nat) returns (result: seq<Hourly>)
    ensures LongestSuffix(candles, endMs, limit, result)
  {
    result := [];
    var index := |candles| - 1;
    while index >= 0 && |result| < limit
      invariant -1 <= index && index + 1 + |result| == |candles| && |result| <= limit
      invariant result == candles[index + 1..]
      invariant EndsAt(candles, endMs, |result|)
    {
      if candles[index].timestamp != endMs - (|result| + 1) * HOUR_MS {
        NoLongerSuffix(candles, endMs, index);
        return;
      }
      result := [candles[index]] + result;
      index := index - 1;
    }
  }

  lemma NoLongerSuffix(cs: seq<Hourly>, end: int, index: nat)
    requires index < |cs| && cs[index].timestamp != end - (|cs| - index) * HOUR_MS
    ensures forall k: nat :: EndsAt(cs, end, k) ==> k < |cs| - index
  {
  }

  method ContiguousPrefix(candles: seq<Hourly>, startMs: int, limit: nat) returns (result: seq<Hourly>)
    ensures LongestPrefix(candles, startMs, limit, result)
  {
    result := [];
    var i := 0;
    while i < |candles|
      invariant 0 <= i <= |candles| && |result| == i <= limit
      invariant result == candles[..i]
      invariant StartsAt(candles, startMs, i)
    {
      if |result| == limit || candles[i].timestamp != startMs + |result| * HOUR_MS {
        return;
      }
      result := result + [candles[i]];
      i := i + 1;
    }
  }

  // ---------------------------------------------------------------- splicing one market

  predicate RowOk(row: Row, pool: string) {
    row.sourceMarket == pool && row.closeTime == Some(row.openTime + HOUR_MS) && row.fetchedAt >= row.openTime + HOUR_MS
  }

  function CandleFromRow(row: Row): Hourly {
    Hourly(row.openTime, row.open, row.high, row.low, row.close)
  }

  /** The row shows this candle. */
  ghost predicate ShownAs(c: Hourly, row: Row) {
    && row.openTime == c.timestamp && row.open == c.open && row.high == c.high && row.low == c.low && row.close == c.close
  }

  /** A row of this pool, closing an hour after it opens and fetched no earlier than that. */
  ghost predicate Provable(row: Row, pool: string) {
    && row.sourceMarket == pool && row.closeTime.Some? && row.closeTime.value == row.openTime + 3_600_000 <= row.fetchedAt
  }

  lemma RowOkIff(row: Row, pool: string)
    ensures RowOk(row, pool) <==> Provable(row, pool)
  {
  }

  /** rows.filter(...).map(candleFromRow), for the rows that open before observedAt or for the others. */
  function CandlesOf(rows: seq<Row>, observedAt: int, before: bool): seq<Hourly> {
    if rows == [] then [] else
    var row := rows[|rows| - 1];
    CandlesOf(rows[..|rows| - 1], observedAt, before) + if (row.openTime < observedAt) == before then [CandleFromRow(row)] else []
  }

  ghost predicate ShownBy(c: Hourly, rows: seq<Row>) {
    exists row :: row in rows && ShownAs(c, row)
  }

  lemma ShownSnoc(c: Hourly, init: seq<Row>, last: Row)
    ensures ShownBy(c, init + [last]) <==> ShownBy(c, init) || c == CandleFromRow(last)
  {
    var rows := init + [last];
    if row :| row in init && ShownAs(c, row) { assert row in rows; }
    if c == CandleFromRow(last) { assert last in rows && ShownAs(c, last); }
  }

  /** Every row is shown on its side of the observation, and nothing else is. */
  lemma {:induction false} SidesOf(rows: seq<Row>, observedAt: int)
    ensures forall c :: c in CandlesOf(rows, observedAt, true) <==> c.timestamp < observedAt && ShownBy(c, rows)
    ensures forall c :: c in CandlesOf(rows, observedAt, false) <==> c.timestamp >= observedAt && ShownBy(c, rows)
  {
    if rows != [] {
      var init, last := rows[..|rows| - 1], rows[|rows| - 1];
      assert rows == init + [last];
      SidesOf(init, observedAt);
      hide ShownBy;
      forall c ensures ShownBy(c, rows) <==> ShownBy(c, init) || c == CandleFromRow(last) {
        ShownSnoc(c, init, last);
      }
    }
  }

  /** One candle for each row of the side, in the order of the rows. */
  lemma {:induction false} SidesInOrder(init: seq<Row>, rest: seq<Row>, row: Row, observedAt: int, before: bool)
    ensures CandlesOf(init + rest, observedAt, before) == CandlesOf(init, observedAt, before) + CandlesOf(rest, observedAt, before)
    ensures var shown := CandlesOf([row], observedAt, before);
      |shown| == (if before <==> row.openTime < observedAt then 1 else 0) && forall c :: c in shown ==> ShownAs(c, row)
    decreases |rest|
  {
    if rest == [] {
      assert init + rest == init;
    } else {
      var front, last := rest[..|rest| - 1], rest[|rest| - 1];
      assert (init + rest)[..|init + rest| - 1] == init + front;
      SidesInOrder(init, front, row, observedAt, before);
    }
  }

  /** What a prepared market guarantees: warm-up followed by future is one hourly series, and the first
      future candle opens at the instant the last warm-up candle closes, observedAt. */
  ghost predicate Spliced(w: Windows, observedAt: int) {
    && Series(w.warmup + w.future, observedAt - |w.warmup| * 3_600_000)
    && |w.warmup| >= 20 && 1 <= |w.future| <= 24
    && w.warmup[|w.warmup| - 1].timestamp + 3_600_000 == observedAt == w.future[0].timestamp
  }

  lemma SuffixSeries(cs: seq<Hourly>, end: int, limit: nat, r: seq<Hourly>)
    requires LongestSuffix(cs, end, limit, r)
    ensures Series(r, end - |r| * HOUR_MS)
  {
    forall i | 0 <= i < |r| ensures r[i].timestamp == end - |r| * HOUR_MS + i * HOUR_MS {
      assert r[i] == cs[|cs| - |r| + i];
    }
  }

  lemma Splice(warmup: seq<Hourly>, later: seq<Hourly>, future: seq<Hourly>, observedAt: int)
    requires Series(warmup, observedAt - |warmup| * HOUR_MS) && |warmup| >= MINIMUM_WARMUP
    requires LongestPrefix(later, observedAt, HORIZON_HOURS, future) && future != []
    ensures Spliced(Windows(warmup, future), observedAt)
  {
    var w := Windows(warmup, future);
    forall i | 0 <= i < |w.warmup + w.future|
      ensures (w.warmup + w.future)[i].timestamp == observedAt - |w.warmup| * HOUR_MS + i * HOUR_MS
    {
      if i >= |warmup| { assert future[i - |warmup|] == later[i - |warmup|]; }
    }
    assert future[0] == later[0];
  }

  /** When a market is prepared. */
  ghost predicate Preparable(observed: Option<seq<Hourly>>, rows: seq<Row>, pool: string, observedAt: int) {
    && (forall row :: row in rows ==> Provable(row, pool))
    && (observed.Some? || EndsAt(CandlesOf(rows, observedAt, true), observedAt, 20))
    && StartsAt(CandlesOf(rows, observedAt, false), observedAt, 1)
  }

  lemma TwentyHours(cs: seq<Hourly>, end: int, r: seq<Hourly>)
    requires LongestSuffix(cs, end, WARMUP_HOURS, r)
    ensures |r| >= MINIMUM_WARMUP <==> EndsAt(cs, end, MINIMUM_WARMUP)
  {
  }

  lemma FirstHour(cs: seq<Hourly>, start: int, r: seq<Hourly>)
    requires LongestPrefix(cs, start, HORIZON_HOURS, r)
    ensures r != [] <==> StartsAt(cs, start, 1)
  {
  }

  lemma PrefixMembers(cs: seq<Hourly>, start: int, limit: nat, r: seq<Hourly>)
    requires LongestPrefix(cs, start, limit, r)
    ensures forall c :: c in r ==> c in cs
  {
  }

  lemma SuffixMembers(cs: seq<Hourly>, end: int, limit: nat, r: seq<Hourly>)
    requires LongestSuffix(cs, end, limit, r)
    ensures forall c :: c in r ==> c in cs
  {
  }

  /** observed is the parsed snapshot for the target asset, and None for the other one. */
  method PrepareMarket(observed: Option<seq<Hourly>>, rows: seq<Row>, pool: string, observedAt: int)
    returns (r: Result<Windows, Reason>)
    requires observed.Some? ==> |observed.value| >= 20 && Series(observed.value, observedAt - |observed.value| * 3_600_000)
    ensures r.Ok? <==> Preparable(observed, rows, pool, observedAt)
    ensures r.Ok? ==> Spliced(r.value, observedAt)
    ensures r.Ok? ==> LongestPrefix(CandlesOf(rows, observedAt, false), observedAt, 24, r.value.future)
    ensures r.Ok? ==> forall c :: c in r.value.future ==> c.timestamp >= observedAt && ShownBy(c, rows)
    ensures r.Ok? && observed.None? ==> forall c :: c in r.value.warmup ==> c.timestamp < observedAt && ShownBy(c, rows)
    ensures r.Ok? ==> if observed.Some? then r.value.warmup == observed.value
                      else LongestSuffix(CandlesOf(rows, observedAt, true), observedAt, 80, r.value.warmup)
  {
    hide LongestPrefix, LongestSuffix, CandlesOf, RowOk, Provable, EndsAt, StartsAt, Spliced, ShownBy;
    forall row | row in rows ensures RowOk(row, pool) <==> Provable(row, pool) { RowOkIff(row, pool); }
    if exists row :: row in rows && !RowOk(row, pool) { return Err(InvalidProvenance); }
    var past, later := CandlesOf(rows, observedAt, true), CandlesOf(rows, observedAt, false);
    var warmup;
    if observed.Some? {
      warmup := observed.value;
    } else {
      warmup := ContiguousSuffix(past, observedAt, WARMUP_HOURS);
      TwentyHours(past, observedAt, warmup);
      SuffixSeries(past, observedAt, WARMUP_HOURS, warmup);
    }
    if |warmup| < MINIMUM_WARMUP || warmup[|warmup| - 1].timestamp + HOUR_MS != observedAt {
      return Err(InsufficientWarmup);
    }
    var future := ContiguousPrefix(later, observedAt, HORIZON_HOURS);
    FirstHour(later, observedAt, future);
    if |future| == 0 { return Err(MissingFuture); }
    Splice(warmup, later, future, observedAt);
    SidesOf(rows, observedAt);
    PrefixMembers(later, observedAt, HORIZON_HOURS, future);
    if observed.None? { SuffixMembers(past, observedAt, WARMUP_HOURS, warmup); }
    r := Ok(Windows(warmup, future));
  }
}
