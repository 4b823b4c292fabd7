/** buildCandlesFromSnapshots in apps/web/src/lib/charting.ts and mergeLivePriceIntoCandles in
    apps/web/src/components/bot-detail-view.tsx. */
module Candles {
  import opened Calendar
  import opened Numbers
  import opened Sorting
  import opened Wrappers

  datatype Snapshot = Snapshot(at: int, value: real)

  datatype Candle = Candle(time: int, open: real, high: real, low: real, close: real, volume: Option<real>)

  function At(s: Snapshot): int { s.at }

  function Fresh(b: int, v: real): Candle { Candle(b, v, v, v, v, Some(0.0)) }

  function Extended(c: Candle, v: real): Candle {
    c.(high := MaxReal(c.high, v), low := MinReal(c.low, v), close := v)
  }

  // ---------------------------------------------------------------- one pass

  function IndexOf(cs: seq<Candle>, b: int): (r: Option<nat>)
    ensures r.Some? ==> r.value < |cs| && cs[r.value].time == b
    ensures r.None? ==> forall i :: 0 <= i < |cs| ==> cs[i].time != b
  {
    if cs == [] then None
    else if cs[|cs| - 1].time == b then Some(|cs| - 1)
    else IndexOf(cs[..|cs| - 1], b)
  }

  function AddTick(cs: seq<Candle>, s: Snapshot, r: Resolution): seq<Candle> {
    var b := Bucket(s.at, r);
    match IndexOf(cs, b)
    case None => cs + [Fresh(b, s.value)]
    case Some(i) => cs[i := Extended(cs[i], s.value)]
  }

  function AddAll(xs: seq<Snapshot>, r: Resolution): seq<Candle> {
    if xs == [] then [] else AddTick(AddAll(xs[..|xs| - 1], r), xs[|xs| - 1], r)
  }

  function Batch(snapshots: seq<Snapshot>, r: Resolution): seq<Candle> {
    AddAll(Sort(At, snapshots), r)
  }

  // ---------------------------------------------------------------- the code

  /** The values of a Map, in insertion order. */
  function Values(order: seq<int>, candles: map<int, Candle>): seq<Candle>
    requires forall i :: 0 <= i < |order| ==> order[i] in candles
  {
    seq(|order|, i requires 0 <= i < |order| => candles[order[i]])
  }

  ghost predicate IsMap(order: seq<int>, candles: map<int, Candle>) {
    && (forall i :: 0 <= i < |order| ==> order[i] in candles)
    && (forall k :: k in candles ==> k in order)
    && (forall k :: k in candles ==> candles[k].time == k)
    && (forall i, j :: 0 <= i < j < |order| ==> order[i] != order[j])
  }

  lemma MapFinds(order: seq<int>, candles: map<int, Candle>, b: int)
    requires IsMap(order, candles)
    ensures b !in candles ==> IndexOf(Values(order, candles), b).None?
    ensures b in candles ==> IndexOf(Values(order, candles), b).Some? && order[IndexOf(Values(order, candles), b).value] == b
  {
    var vs := Values(order, candles);
    if b in candles {
      var i :| 0 <= i < |order| && order[i] == b;
      assert vs[i].time == b;
    }
  }

  lemma MapUpdates(order: seq<int>, candles: map<int, Candle>, b: int, c: Candle, i: nat)
    requires IsMap(order, candles) && i < |order| && order[i] == b && c.time == b
    ensures IsMap(order, candles[b := c]) && Values(order, candles[b := c]) == Values(order, candles)[i := c]
  {
  }

  lemma MapAppends(order: seq<int>, candles: map<int, Candle>, b: int, c: Candle)
    requires IsMap(order, candles) && b !in candles && c.time == b
    ensures IsMap(order + [b], candles[b := c]) && Values(order + [b], candles[b := c]) == Values(order, candles) + [c]
  {
  }

  method BuildCandles(snapshots: seq<Snapshot>, r: Resolution) returns (result: seq<Candle>)
    ensures result == Batch(snapshots, r)
  {
    hide Bucket, IndexOf, IsMap, Sort;
    var filtered := Sort(At, snapshots);
    var order: seq<int>, candles: map<int, Candle> := [], map[];
    assert IsMap(order, candles) by { NoEntries(); }
    for i := 0 to |filtered|
      invariant IsMap(order, candles)
      invariant forall k :: 0 <= k < |order| ==> order[k] in candles
      invariant Values(order, candles) == AddAll(filtered[..i], r)
    {
      var s := filtered[i];
      var bucket := Bucket(s.at, r);
      assert filtered[..i + 1][..i] == filtered[..i];
      MapFinds(order, candles, bucket);
      if bucket !in candles {
        MapAppends(order, candles, bucket, Fresh(bucket, s.value));
        Covers(order + [bucket], candles[bucket := Fresh(bucket, s.value)]);
        order, candles := order + [bucket], candles[bucket := Fresh(bucket, s.value)];
        continue;
      }
      var existing := candles[bucket];
      ghost var at := IndexOf(Values(order, candles), bucket).value;
      MapUpdates(order, candles, bucket, Extended(existing, s.value), at);
      candles := candles[bucket := existing.(high := MaxReal(existing.high, s.value), low := MinReal(existing.low, s.value),
                                             close := s.value)];
    }
    assert filtered[..|filtered|] == filtered;
    result := Values(order, candles);
  }

  lemma NoEntries()
    ensures IsMap([], map[])
  {
  }

  lemma Covers(order: seq<int>, candles: map<int, Candle>)
    requires IsMap(order, candles)
    ensures forall k :: 0 <= k < |order| ==> order[k] in candles
  {
  }

  /** The live price is absent, or zero, or its time missing or unreadable: nothing to merge. */
  function LiveTick(livePrice: Option<real>, liveTime: Option<Option<int>>): Option<Snapshot> {
    if livePrice.None? || livePrice.value == 0.0 || liveTime.None? || liveTime.value.None? then None
    else Some(Snapshot(liveTime.value.value, livePrice.value))
  }

  method MergeLivePrice(candles: seq<Candle>, r: Resolution, livePrice: Option<real>, liveTime: Option<Option<int>>)
    returns (result: seq<Candle>)
    ensures result == Merged(candles, r, LiveTick(livePrice, liveTime))
    ensures livePrice == None || livePrice == Some(0.0) || liveTime == None || liveTime == Some(None) ==> result == candles
    ensures livePrice.Some? && livePrice.value != 0.0 && liveTime.Some? && liveTime.value.Some? ==>
              result == Merged(candles, r, Some(Snapshot(liveTime.value.value, livePrice.value)))
  {
    hide Bucket;
    if |candles| == 0 || livePrice.None? || livePrice.value == 0.0 || liveTime.None? { return candles; }
    if liveTime.value.None? { return candles; }
    var price, nextCandles := livePrice.value, candles;
    var liveBucket := Bucket(liveTime.value.value, r);
    var lastIndex := |nextCandles| - 1;
    var lastCandle := nextCandles[lastIndex];
    var lastBucket := Bucket(lastCandle.time, r);
    if liveBucket < lastBucket { return candles; }
    if liveBucket == lastBucket {
      var nextHigh, nextLow := MaxReal(lastCandle.high, price), MinReal(lastCandle.low, price);
      if lastCandle.close == price && lastCandle.high == nextHigh && lastCandle.low == nextLow { return candles; }
      nextCandles := nextCandles[lastIndex := lastCandle.(close := price, high := nextHigh, low := nextLow)];
      return nextCandles;
    }
    nextCandles := nextCandles + [Candle(liveBucket, lastCandle.close, MaxReal(lastCandle.close, price),
                                         MinReal(lastCandle.close, price), price, Some(0.0))];
    return nextCandles;
  }

  /** An older tick changes nothing, one in the last candle's bucket extends it, and a newer one starts a
      candle at the last close. */
  function Merged(candles: seq<Candle>, r: Resolution, live: Option<Snapshot>): seq<Candle> {
    if candles == [] || live.None? then candles else
    var last := candles[|candles| - 1];
    var b, v := Bucket(live.value.at, r), live.value.value;
    if b < Bucket(last.time, r) then candles
    else if b == Bucket(last.time, r) then candles[|candles| - 1 := Extended(last, v)]
    else candles + [Extended(Fresh(b, last.close), v)]
  }
}
