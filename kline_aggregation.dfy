/**
 * Bar aggregation of the kline generator: grouping ticks (or lower-period
 * bars) into fixed-length windows aligned to the epoch.
 *
 * `Aggregate` is the windowing state machine of `aggregateTicksToKline` and
 * `aggregateKlineToHigherTimeframe`, written as a function over prefixes of
 * the input; the methods compute it with the source's loops. For input in
 * time order starting at or after the epoch, `AggregateCharacterised` states
 * what the bars are independently of the state machine: one bar per occupied
 * window, in increasing aligned order, each the summary (`BarOf`) of exactly
 * the inputs inside its window.
 */
module KlineAggregation {
  import opened AppData

  /** Ticks contribute their last price to open/high/low; bars their own open/high/low. */
  datatype Source = FromTicks | FromBars

  /** C++ integer division of a 64-bit value, which truncates toward zero. */
  function TruncDiv(a: int, b: int): int
    requires b > 0
  {
    if a >= 0 then a / b else -((-a) / b)
  }

  /** `alignTimestamp`: the millisecond value rounded toward zero to a multiple of the interval. */
  function AlignTimestamp(ms: int, intervalSeconds: int): int
    requires intervalSeconds > 0
  {
    TruncDiv(ms, intervalSeconds * 1000) * (intervalSeconds * 1000)
  }

  /** The start of the window of length `len` holding `ts` (floor rounding). */
  function Bucket(ts: int, len: int): int
    requires len > 0
  {
    (ts / len) * len
  }

  lemma {:induction false} MulMonotone(a: int, b: int, c: int)
    requires a <= b && c > 0
    ensures a * c <= b * c
    decreases b - a
  {
    if a < b {
      MulMonotone(a + 1, b, c);
      assert (a + 1) * c == a * c + c;
    }
  }

  /** A nonzero multiple of `len` is at least `len` away from zero. */
  lemma MulSign(k: int, len: int)
    requires len > 0
    ensures k >= 1 ==> k * len >= len
    ensures k <= -1 ==> k * len <= -len
  {
    if k >= 1 {
      MulMonotone(1, k, len);
    } else if k <= -1 {
      MulMonotone(k, -1, len);
    }
  }

  lemma DivUnique(n: int, len: int, q: int, r: int)
    requires len > 0 && 0 <= r < len && n == q * len + r
    ensures n / len == q && n % len == r
  {
    var q', r' := n / len, n % len;
    assert n == q' * len + r';
    assert (q' - q) * len == q' * len - q * len;
    MulSign(q' - q, len);
  }

  lemma BucketBounds(ts: int, len: int)
    requires len > 0
    ensures Bucket(ts, len) <= ts < Bucket(ts, len) + len
    ensures Bucket(ts, len) % len == 0
    ensures ts >= 0 ==> Bucket(ts, len) >= 0
  {
    DivUnique(Bucket(ts, len), len, ts / len, 0);
  }

  /** An aligned start is the bucket of every instant in its window. */
  lemma BucketOf(s: int, ts: int, len: int)
    requires len > 0 && s % len == 0 && s <= ts < s + len
    ensures Bucket(ts, len) == s
  {
    DivUnique(s, len, s / len, 0);
    DivUnique(ts, len, s / len, ts - s);
  }

  lemma BucketMonotone(a: int, b: int, len: int)
    requires len > 0 && a <= b
    ensures Bucket(a, len) <= Bucket(b, len)
  {
    var qa, qb := a / len, b / len;
    assert a == qa * len + a % len && b == qb * len + b % len;
    assert (qa - qb) * len == qa * len - qb * len;
    MulSign(qa - qb, len);
    assert qa <= qb;
    MulMonotone(qa, qb, len);
  }

  /**
   * For instants at or after the epoch the source's alignment is the window
   * start; before the epoch, truncation rounds up, so a window may start
   * after the instant it was aligned from.
   */
  lemma AlignTimestampWindow(ms: int, intervalSeconds: int)
    requires intervalSeconds > 0
    ensures ms >= 0 ==> AlignTimestamp(ms, intervalSeconds) == Bucket(ms, intervalSeconds * 1000)
    ensures AlignTimestamp(ms, intervalSeconds) % (intervalSeconds * 1000) == 0
    ensures ms < 0 && ms % (intervalSeconds * 1000) != 0 ==> AlignTimestamp(ms, intervalSeconds) > ms
  {
    var len := intervalSeconds * 1000;
    if ms < 0 {
      var q := (-ms) / len;
      DivUnique(-ms, len, q, (-ms) % len);
      DivUnique(-(q * len), len, -q, 0);
      if ms % len != 0 {
        if (-ms) % len == 0 {
          DivUnique(ms, len, -q, 0);
        }
      }
    } else {
      DivUnique(Bucket(ms, len), len, ms / len, 0);
    }
  }

  function OpenOf(src: Source, d: MarketData): real
  {
    if src == FromTicks then d.close else d.open
  }

  function HighOf(src: Source, d: MarketData): real
  {
    if src == FromTicks then d.close else d.high
  }

  function LowOf(src: Source, d: MarketData): real
  {
    if src == FromTicks then d.close else d.low
  }

  function Max(a: real, b: real): real
  {
    if a < b then b else a
  }

  function Min(a: real, b: real): real
  {
    if b < a then b else a
  }

  /** A bar as the source initialises it on the first input of its window. */
  function Open(src: Source, symbol: string, start: int, d: MarketData): MarketData
  {
    DefaultMarketData.(symbol := symbol, timestamp := start, open := OpenOf(src, d),
                       high := HighOf(src, d), low := LowOf(src, d), volume := 0.0, amount := 0.0)
  }

  /** The source's per-input update of the bar under construction. */
  function Update(src: Source, bar: MarketData, d: MarketData): MarketData
  {
    bar.(high := Max(bar.high, HighOf(src, d)),
         low := Min(bar.low, LowOf(src, d)),
         close := d.close,
         volume := bar.volume + d.volume,
         amount := bar.amount + d.amount,
         bidPrice := if d.bidPrice > 0.0 then d.bidPrice else bar.bidPrice,
         bidVolume := if d.bidPrice > 0.0 then bar.bidVolume + d.bidVolume else bar.bidVolume,
         askPrice := if d.askPrice > 0.0 then d.askPrice else bar.askPrice,
         askVolume := if d.askPrice > 0.0 then bar.askVolume + d.askVolume else bar.askVolume)
  }

  /** The bars emitted so far, the current window's start, whether it has a bar, and that bar. */
  datatype Window = Window(bars: seq<MarketData>, start: int, started: bool, cur: MarketData)

  /** Close the current window: emit its bar if it has one and move to the next window. */
  function Flush(w: Window, len: int): Window
  {
    Window(if w.started then w.bars + [w.cur] else w.bars, w.start + len, false, w.cur)
  }

  /** The inner `while` loop: flush windows until `ts` falls before the current window's end. */
  function Advance(w: Window, ts: int, len: int): Window
    requires len > 0
    decreases ts - w.start
  {
    if ts >= w.start + len then Advance(Flush(w, len), ts, len) else w
  }

  function Absorb(src: Source, symbol: string, w: Window, d: MarketData): Window
  {
    var bar := if w.started then w.cur else Open(src, symbol, w.start, d);
    w.(started := true, cur := Update(src, bar, d))
  }

  /** One iteration of the outer loop: inputs earlier than the current window are passed over. */
  function Step(src: Source, symbol: string, len: int, w: Window, d: MarketData): Window
    requires len > 0
  {
    var a := Advance(w, d.timestamp, len);
    if a.start <= d.timestamp < a.start + len then Absorb(src, symbol, a, d) else a
  }

  function Scan(src: Source, symbol: string, len: int, start: int, data: seq<MarketData>): Window
    requires len > 0
  {
    if data == [] then Window([], start, false, DefaultMarketData)
    else Step(src, symbol, len, Scan(src, symbol, len, start, data[..|data| - 1]), data[|data| - 1])
  }

  function Finish(w: Window): seq<MarketData>
  {
    if w.started then w.bars + [w.cur] else w.bars
  }

  /** The bars the source produces from `data` at the given period. */
  function Aggregate(src: Source, data: seq<MarketData>, intervalSeconds: int): seq<MarketData>
    requires intervalSeconds > 0
  {
    if data == [] then []
    else Finish(Scan(src, data[0].symbol, intervalSeconds * 1000,
                     AlignTimestamp(data[0].timestamp, intervalSeconds), data))
  }

  /** The shared loop of both aggregation functions. */
  method AggregateLoop(src: Source, data: seq<MarketData>, intervalSeconds: int) returns (result: seq<MarketData>)
    requires intervalSeconds > 0
    ensures result == Aggregate(src, data, intervalSeconds)
  {
    result := [];
    if |data| == 0 {
      return;
    }
    var symbol := data[0].symbol;
    var len := intervalSeconds * 1000;
    var first := AlignTimestamp(data[0].timestamp, intervalSeconds);
    var start := first;
    var end := start + len;
    var cur := DefaultMarketData;
    var started := false;
    for i := 0 to |data|
      invariant end == start + len
      invariant Window(result, start, started, cur) == Scan(src, symbol, len, first, data[..i])
    {
      var d := data[i];
      ghost var before := Window(result, start, started, cur);
      while d.timestamp >= end
        invariant end == start + len
        invariant Advance(Window(result, start, started, cur), d.timestamp, len) == Advance(before, d.timestamp, len)
        decreases d.timestamp - start
      {
        if started {
          result := result + [cur];
        }
        start := end;
        end := start + len;
        started := false;
      }
      if d.timestamp >= start && d.timestamp < end {
        if !started {
          cur := Open(src, symbol, start, d);
          started := true;
        }
        cur := Update(src, cur, d);
      }
      assert data[..i + 1][..i] == data[..i];
    }
    assert data[..|data|] == data;
    if started {
      result := result + [cur];
    }
  }

  /** `aggregateTicksToKline`. */
  method AggregateTicksToKline(ticks: seq<MarketData>, intervalSeconds: int) returns (bars: seq<MarketData>)
    requires intervalSeconds > 0
    ensures bars == Aggregate(FromTicks, ticks, intervalSeconds)
  {
    bars := AggregateLoop(FromTicks, ticks, intervalSeconds);
  }

  /** `aggregateKlineToHigherTimeframe`; the source period takes no part in the result. */
  method AggregateKlineToHigherTimeframe(klines: seq<MarketData>, sourceInterval: int, targetInterval: int)
    returns (bars: seq<MarketData>)
    requires targetInterval > 0
    ensures bars == Aggregate(FromBars, klines, targetInterval)
  {
    bars := AggregateLoop(FromBars, klines, targetInterval);
  }

  // ---------------------------------------------------------------------
  // The independent description of a bar: a summary of the inputs in its window

  function SumVolume(g: seq<MarketData>): real
  {
    if g == [] then 0.0 else SumVolume(g[..|g| - 1]) + g[|g| - 1].volume
  }

  function SumAmount(g: seq<MarketData>): real
  {
    if g == [] then 0.0 else SumAmount(g[..|g| - 1]) + g[|g| - 1].amount
  }

  /** Bid volume summed over the inputs that quote a positive bid. */
  function SumBidVolume(g: seq<MarketData>): real
  {
    if g == [] then 0.0
    else SumBidVolume(g[..|g| - 1]) + (if g[|g| - 1].bidPrice > 0.0 then g[|g| - 1].bidVolume else 0.0)
  }

  function SumAskVolume(g: seq<MarketData>): real
  {
    if g == [] then 0.0
    else SumAskVolume(g[..|g| - 1]) + (if g[|g| - 1].askPrice > 0.0 then g[|g| - 1].askVolume else 0.0)
  }

  /** The last positive bid quoted, 0 if none. */
  function LastBid(g: seq<MarketData>): real
  {
    if g == [] then 0.0
    else if g[|g| - 1].bidPrice > 0.0 then g[|g| - 1].bidPrice
    else LastBid(g[..|g| - 1])
  }

  function LastAsk(g: seq<MarketData>): real
  {
    if g == [] then 0.0
    else if g[|g| - 1].askPrice > 0.0 then g[|g| - 1].askPrice
    else LastAsk(g[..|g| - 1])
  }

  function MaxHigh(src: Source, g: seq<MarketData>): real
    requires g != []
  {
    if |g| == 1 then HighOf(src, g[0]) else Max(MaxHigh(src, g[..|g| - 1]), HighOf(src, g[|g| - 1]))
  }

  function MinLow(src: Source, g: seq<MarketData>): real
    requires g != []
  {
    if |g| == 1 then LowOf(src, g[0]) else Min(MinLow(src, g[..|g| - 1]), LowOf(src, g[|g| - 1]))
  }

  /** The bar summarising the inputs `g` of the window starting at `start`. */
  function BarOf(src: Source, symbol: string, start: int, g: seq<MarketData>): MarketData
    requires g != []
  {
    DefaultMarketData.(symbol := symbol, timestamp := start,
      open := OpenOf(src, g[0]), high := MaxHigh(src, g), low := MinLow(src, g), close := g[|g| - 1].close,
      volume := SumVolume(g), amount := SumAmount(g),
      bidPrice := LastBid(g), bidVolume := SumBidVolume(g),
      askPrice := LastAsk(g), askVolume := SumAskVolume(g))
  }

  /** The inputs whose window starts at `start`, in input order. */
  function InBucket(data: seq<MarketData>, start: int, len: int): seq<MarketData>
    requires len > 0
  {
    if data == [] then []
    else InBucket(data[..|data| - 1], start, len)
         + (if Bucket(data[|data| - 1].timestamp, len) == start then [data[|data| - 1]] else [])
  }

  predicate SortedByTime(data: seq<MarketData>)
  {
    forall i, j :: 0 <= i <= j < |data| ==> data[i].timestamp <= data[j].timestamp
  }

  /** A single input's summary is the bar the source opens and updates with it. */
  lemma BarOfSingle(src: Source, symbol: string, start: int, d: MarketData)
    ensures BarOf(src, symbol, start, [d]) == Update(src, Open(src, symbol, start, d), d)
  {
    var g := [d];
    assert g[..|g| - 1] == [];
    assert g[|g| - 1] == d && g[0] == d;
    assert MaxHigh(src, g) == HighOf(src, d);
    assert MinLow(src, g) == LowOf(src, d);
    assert SumVolume(g) == SumVolume([]) + d.volume;
    assert SumAmount(g) == SumAmount([]) + d.amount;
    assert LastBid(g) == if d.bidPrice > 0.0 then d.bidPrice else LastBid([]);
    assert LastAsk(g) == if d.askPrice > 0.0 then d.askPrice else LastAsk([]);
    assert SumBidVolume(g) == SumBidVolume([]) + (if d.bidPrice > 0.0 then d.bidVolume else 0.0);
    assert SumAskVolume(g) == SumAskVolume([]) + (if d.askPrice > 0.0 then d.askVolume else 0.0);
  }

  /** Feeding one more input into the summary is the source's per-input update. */
  lemma BarOfSnoc(src: Source, symbol: string, start: int, g: seq<MarketData>, d: MarketData)
    requires g != []
    ensures BarOf(src, symbol, start, g + [d]) == Update(src, BarOf(src, symbol, start, g), d)
  {
    var h := g + [d];
    assert h[..|h| - 1] == g;
    assert h[0] == g[0];
  }

  lemma InBucketSnoc(data: seq<MarketData>, d: MarketData, start: int, len: int)
    requires len > 0
    ensures InBucket(data + [d], start, len)
            == InBucket(data, start, len) + (if Bucket(d.timestamp, len) == start then [d] else [])
  {
    assert (data + [d])[..|data|] == data;
  }

  lemma {:induction false} InBucketEmpty(data: seq<MarketData>, start: int, len: int)
    requires len > 0
    requires forall k :: 0 <= k < |data| ==> Bucket(data[k].timestamp, len) < start
    ensures InBucket(data, start, len) == []
  {
    if data != [] {
      InBucketEmpty(data[..|data| - 1], start, len);
    }
  }

  lemma SumVolumeSnoc(g: seq<MarketData>, d: MarketData)
    ensures SumVolume(g + [d]) == SumVolume(g) + d.volume
    ensures SumAmount(g + [d]) == SumAmount(g) + d.amount
  {
    assert (g + [d])[..|g|] == g;
  }

  function Stamps(bars: seq<MarketData>): set<int>
  {
    set i | 0 <= i < |bars| :: bars[i].timestamp
  }

  /** Every emitted bar starts an aligned window before `limit` and summarises that window's inputs. */
  predicate BarsSummarise(src: Source, symbol: string, len: int, data: seq<MarketData>, bars: seq<MarketData>, limit: int)
    requires len > 0
  {
    (forall i :: 0 <= i < |bars| ==>
       0 <= bars[i].timestamp < limit && bars[i].timestamp % len == 0 &&
       InBucket(data, bars[i].timestamp, len) != [] &&
       bars[i] == BarOf(src, symbol, bars[i].timestamp, InBucket(data, bars[i].timestamp, len))) &&
    (forall i, j :: 0 <= i < j < |bars| ==> bars[i].timestamp < bars[j].timestamp)
  }

  /** What holds of the scan state after every nonempty, time-ordered prefix. */
  predicate ScanInv(src: Source, symbol: string, len: int, data: seq<MarketData>, w: Window)
    requires len > 0
  {
    data != [] &&
    w.started && w.start >= 0 && w.start % len == 0 &&
    Bucket(data[|data| - 1].timestamp, len) == w.start &&
    InBucket(data, w.start, len) != [] &&
    w.cur == BarOf(src, symbol, w.start, InBucket(data, w.start, len)) &&
    BarsSummarise(src, symbol, len, data, w.bars, w.start) &&
    (forall k :: 0 <= k < |data| ==> Bucket(data[k].timestamp, len) in Stamps(w.bars) + {w.start}) &&
    SumVolume(w.bars) + w.cur.volume == SumVolume(data) &&
    SumAmount(w.bars) + w.cur.amount == SumAmount(data)
  }

  /** From an idle window, the inner loop lands on the window holding `ts`. */
  lemma {:induction false} AdvanceIdle(w: Window, ts: int, len: int)
    requires len > 0 && !w.started && w.start % len == 0 && w.start <= ts
    ensures Advance(w, ts, len) == w.(start := Bucket(ts, len))
    decreases ts - w.start
  {
    if ts >= w.start + len {
      DivUnique(w.start + len, len, w.start / len + 1, 0);
      AdvanceIdle(Flush(w, len), ts, len);
    } else {
      BucketOf(w.start, ts, len);
    }
  }

  /** Bars already emitted keep summarising their windows when a later input arrives. */
  lemma SummariseExtend(src: Source, symbol: string, len: int, data: seq<MarketData>, d: MarketData,
                        bars: seq<MarketData>, limit: int, newLimit: int)
    requires len > 0
    requires BarsSummarise(src, symbol, len, data, bars, limit)
    requires limit <= Bucket(d.timestamp, len) && limit <= newLimit
    ensures BarsSummarise(src, symbol, len, data + [d], bars, newLimit)
  {
    forall i | 0 <= i < |bars|
      ensures InBucket(data + [d], bars[i].timestamp, len) == InBucket(data, bars[i].timestamp, len)
    {
      InBucketSnoc(data, d, bars[i].timestamp, len);
    }
  }

  /** Emitting the current window's bar keeps the emitted bars summarising their windows. */
  lemma SummarisePush(src: Source, symbol: string, len: int, data: seq<MarketData>,
                      bars: seq<MarketData>, start: int, cur: MarketData, newLimit: int)
    requires len > 0
    requires BarsSummarise(src, symbol, len, data, bars, start)
    requires 0 <= start < newLimit && start % len == 0
    requires InBucket(data, start, len) != [] && cur == BarOf(src, symbol, start, InBucket(data, start, len))
    ensures BarsSummarise(src, symbol, len, data, bars + [cur], newLimit)
    ensures Stamps(bars + [cur]) == Stamps(bars) + {start}
    ensures SumVolume(bars + [cur]) == SumVolume(bars) + cur.volume
    ensures SumAmount(bars + [cur]) == SumAmount(bars) + cur.amount
  {
    var bars' := bars + [cur];
    assert bars'[|bars|] == cur;
    assert forall i :: 0 <= i < |bars| ==> bars'[i] == bars[i];
    SumVolumeSnoc(bars, cur);
    StampsSnoc(bars, cur);
  }

  lemma StampsSnoc(bars: seq<MarketData>, cur: MarketData)
    ensures Stamps(bars + [cur]) == Stamps(bars) + {cur.timestamp}
  {
    var bars' := bars + [cur];
    forall x | x in Stamps(bars') ensures x in Stamps(bars) + {cur.timestamp} {
      var i :| 0 <= i < |bars'| && bars'[i].timestamp == x;
      if i < |bars| { assert bars[i].timestamp == x; }
    }
    forall x | x in Stamps(bars) ensures x in Stamps(bars') {
      var i :| 0 <= i < |bars| && bars[i].timestamp == x;
      assert bars'[i].timestamp == x;
    }
    assert bars'[|bars|].timestamp == cur.timestamp;
  }

  /** An input inside the current window is folded into the current bar. */
  lemma StepSameWindow(src: Source, symbol: string, len: int, data: seq<MarketData>, w: Window, d: MarketData)
    requires len > 0
    requires ScanInv(src, symbol, len, data, w)
    requires w.start <= d.timestamp < w.start + len
    ensures ScanInv(src, symbol, len, data + [d], Step(src, symbol, len, w, d))
  {
    var data' := data + [d];
    BucketOf(w.start, d.timestamp, len);
    assert Step(src, symbol, len, w, d) == w.(cur := Update(src, w.cur, d));
    InBucketSnoc(data, d, w.start, len);
    BarOfSnoc(src, symbol, w.start, InBucket(data, w.start, len), d);
    SummariseExtend(src, symbol, len, data, d, w.bars, w.start, w.start);
    SumVolumeSnoc(data, d);
    assert forall k :: 0 <= k < |data| ==> data'[k] == data[k];
  }

  /** The state after an input past the current window: that window's bar is emitted, the input's window opened. */
  lemma StepPastWindow(src: Source, symbol: string, len: int, w: Window, d: MarketData)
    requires len > 0 && w.started && w.start % len == 0
    requires d.timestamp >= w.start + len
    ensures Bucket(d.timestamp, len) >= w.start + len
    ensures Step(src, symbol, len, w, d)
            == Window(w.bars + [w.cur], Bucket(d.timestamp, len), true, Update(src, Open(src, symbol, Bucket(d.timestamp, len), d), d))
  {
    var nb := Bucket(d.timestamp, len);
    BucketBounds(d.timestamp, len);
    DivUnique(w.start + len, len, w.start / len + 1, 0);
    AdvanceIdle(Flush(w, len), d.timestamp, len);
    BucketMonotone(w.start + len, d.timestamp, len);
    BucketOf(w.start + len, w.start + len, len);
    assert Advance(w, d.timestamp, len) == Flush(w, len).(start := nb);
  }

  /** An input past the current window closes it and opens the input's own window. */
  lemma StepNewWindow(src: Source, symbol: string, len: int, data: seq<MarketData>, w: Window, d: MarketData)
    requires len > 0
    requires ScanInv(src, symbol, len, data, w)
    requires d.timestamp >= w.start + len
    requires forall k :: 0 <= k < |data| ==> Bucket(data[k].timestamp, len) <= w.start
    ensures ScanInv(src, symbol, len, data + [d], Step(src, symbol, len, w, d))
  {
    var nb := Bucket(d.timestamp, len);
    StepPastWindow(src, symbol, len, w, d);
    BucketBounds(d.timestamp, len);
    NewWindowBar(src, symbol, len, data, d, nb);
    SummarisePush(src, symbol, len, data, w.bars, w.start, w.cur, nb);
    SummariseExtend(src, symbol, len, data, d, w.bars + [w.cur], nb, nb);
    SumVolumeSnoc(data, d);
    NewWindowCovers(len, data, d, w.bars + [w.cur], w.start, nb);
  }

  /** The input that opens a window later than every earlier input's is that window's only input. */
  lemma NewWindowBar(src: Source, symbol: string, len: int, data: seq<MarketData>, d: MarketData, nb: int)
    requires len > 0 && nb == Bucket(d.timestamp, len)
    requires forall k :: 0 <= k < |data| ==> Bucket(data[k].timestamp, len) < nb
    ensures InBucket(data + [d], nb, len) == [d]
    ensures Update(src, Open(src, symbol, nb, d), d) == BarOf(src, symbol, nb, InBucket(data + [d], nb, len))
  {
    InBucketEmpty(data, nb, len);
    InBucketSnoc(data, d, nb, len);
    BarOfSingle(src, symbol, nb, d);
  }

  /** After the new window opens, every input's window is an emitted bar's or the new one. */
  lemma NewWindowCovers(len: int, data: seq<MarketData>, d: MarketData, bars: seq<MarketData>, start: int, nb: int)
    requires len > 0 && nb == Bucket(d.timestamp, len)
    requires forall k :: 0 <= k < |data| ==> Bucket(data[k].timestamp, len) in Stamps(bars) + {start}
    requires start in Stamps(bars)
    ensures forall k :: 0 <= k < |data + [d]| ==> Bucket((data + [d])[k].timestamp, len) in Stamps(bars) + {nb}
  {
    var data' := data + [d];
    forall k | 0 <= k < |data'| ensures Bucket(data'[k].timestamp, len) in Stamps(bars) + {nb} {
      if k < |data| {
        assert data'[k] == data[k];
      }
    }
  }

  lemma StepKeepsInv(src: Source, symbol: string, len: int, data: seq<MarketData>, w: Window, d: MarketData)
    requires len > 0
    requires ScanInv(src, symbol, len, data, w)
    requires data[|data| - 1].timestamp <= d.timestamp
    requires SortedByTime(data)
    ensures ScanInv(src, symbol, len, data + [d], Step(src, symbol, len, w, d))
  {
    var last := data[|data| - 1];
    BucketBounds(last.timestamp, len);
    if d.timestamp < w.start + len {
      StepSameWindow(src, symbol, len, data, w, d);
    } else {
      forall k | 0 <= k < |data| ensures Bucket(data[k].timestamp, len) <= w.start {
        BucketMonotone(data[k].timestamp, last.timestamp, len);
      }
      StepNewWindow(src, symbol, len, data, w, d);
    }
  }

  lemma {:induction false} ScanKeepsInv(src: Source, len: int, data: seq<MarketData>)
    requires len > 0 && data != [] && SortedByTime(data) && data[0].timestamp >= 0
    ensures ScanInv(src, data[0].symbol, len, data, Scan(src, data[0].symbol, len, Bucket(data[0].timestamp, len), data))
  {
    var symbol := data[0].symbol;
    var s0 := Bucket(data[0].timestamp, len);
    var prefix := data[..|data| - 1];
    var d := data[|data| - 1];
    assert data == prefix + [d];
    if |data| == 1 {
      assert prefix == [];
      ScanFirst(src, symbol, len, d);
    } else {
      assert prefix[0] == data[0];
      SortedPrefix(data);
      ScanKeepsInv(src, len, prefix);
      StepKeepsInv(src, symbol, len, prefix, Scan(src, symbol, len, s0, prefix), d);
    }
  }

  /** The first input opens its own window. */
  lemma ScanFirst(src: Source, symbol: string, len: int, d: MarketData)
    requires len > 0 && d.timestamp >= 0
    ensures ScanInv(src, symbol, len, [d],
                    Step(src, symbol, len, Window([], Bucket(d.timestamp, len), false, DefaultMarketData), d))
  {
    var s0 := Bucket(d.timestamp, len);
    BucketBounds(d.timestamp, len);
    var w0 := Window([], s0, false, DefaultMarketData);
    assert Advance(w0, d.timestamp, len) == w0;
    InBucketSnoc([], d, s0, len);
    assert [] + [d] == [d];
    assert InBucket([], s0, len) == [];
    BarOfSingle(src, symbol, s0, d);
    SumVolumeSnoc([], d);
    assert Stamps([]) == {};
  }

  /** A prefix of time-ordered input is time-ordered, and its last element is no later than the next. */
  lemma SortedPrefix(data: seq<MarketData>)
    requires |data| >= 2 && SortedByTime(data)
    ensures SortedByTime(data[..|data| - 1])
    ensures data[..|data| - 1][|data| - 2].timestamp <= data[|data| - 1].timestamp
  {
  }

  /** What the bars of time-ordered input are, independently of the windowing state machine. */
  predicate Characterised(src: Source, len: int, data: seq<MarketData>, bars: seq<MarketData>)
    requires len > 0 && data != []
  {
    BarsSummarise(src, data[0].symbol, len, data, bars, data[|data| - 1].timestamp + 1) &&
    (forall k :: 0 <= k < |data| ==> Bucket(data[k].timestamp, len) in Stamps(bars)) &&
    SumVolume(bars) == SumVolume(data) &&
    SumAmount(bars) == SumAmount(data)
  }

  lemma AggregateIsScan(src: Source, data: seq<MarketData>, intervalSeconds: int)
    requires intervalSeconds > 0 && data != [] && data[0].timestamp >= 0
    ensures Aggregate(src, data, intervalSeconds)
            == Finish(Scan(src, data[0].symbol, intervalSeconds * 1000, Bucket(data[0].timestamp, intervalSeconds * 1000), data))
  {
    AlignTimestampWindow(data[0].timestamp, intervalSeconds);
  }

  lemma FinishCharacterised(src: Source, len: int, data: seq<MarketData>, w: Window)
    requires len > 0 && data != [] && ScanInv(src, data[0].symbol, len, data, w)
    ensures Characterised(src, len, data, Finish(w))
  {
    FinishSummarises(src, len, data, w);
    FinishCovers(src, len, data, w);
    SumVolumeSnoc(w.bars, w.cur);
  }

  /** The final bars, the current one included, summarise their windows. */
  lemma FinishSummarises(src: Source, len: int, data: seq<MarketData>, w: Window)
    requires len > 0 && data != [] && ScanInv(src, data[0].symbol, len, data, w)
    ensures BarsSummarise(src, data[0].symbol, len, data, Finish(w), data[|data| - 1].timestamp + 1)
  {
    BucketBounds(data[|data| - 1].timestamp, len);
    SummarisePush(src, data[0].symbol, len, data, w.bars, w.start, w.cur, data[|data| - 1].timestamp + 1);
  }

  /** Every input's window has a final bar. */
  lemma FinishCovers(src: Source, len: int, data: seq<MarketData>, w: Window)
    requires len > 0 && data != [] && ScanInv(src, data[0].symbol, len, data, w)
    ensures forall k :: 0 <= k < |data| ==> Bucket(data[k].timestamp, len) in Stamps(Finish(w))
  {
    StampsSnoc(w.bars, w.cur);
    assert w.cur.timestamp == w.start;
  }

  /**
   * For time-ordered input whose first instant is at or after the epoch:
   * bars start on aligned, strictly increasing window boundaries; each bar
   * is the summary of exactly the inputs in its window (so no bar is empty);
   * every input's window has a bar (so the last, partial window is emitted
   * too); and volume and amount are conserved.
   */
  lemma AggregateCharacterised(src: Source, data: seq<MarketData>, intervalSeconds: int)
    requires intervalSeconds > 0 && data != [] && SortedByTime(data) && data[0].timestamp >= 0
    ensures Characterised(src, intervalSeconds * 1000, data, Aggregate(src, data, intervalSeconds))
  {
    var len := intervalSeconds * 1000;
    AggregateIsScan(src, data, intervalSeconds);
    ScanKeepsInv(src, len, data);
    FinishCharacterised(src, len, data, Scan(src, data[0].symbol, len, Bucket(data[0].timestamp, len), data));
  }

  /** Every tick price of a window lies between its bar's low and high. */
  lemma {:induction false} TickPricesInRange(g: seq<MarketData>, i: int)
    requires 0 <= i < |g|
    ensures MinLow(FromTicks, g) <= g[i].close <= MaxHigh(FromTicks, g)
  {
    if |g| > 1 && i < |g| - 1 {
      TickPricesInRange(g[..|g| - 1], i);
    }
  }

  /** A bar built from ticks has its open and close between its low and high. */
  lemma TickBarsWellFormed(ticks: seq<MarketData>, intervalSeconds: int)
    requires intervalSeconds > 0 && ticks != [] && SortedByTime(ticks) && ticks[0].timestamp >= 0
    ensures forall b :: b in Aggregate(FromTicks, ticks, intervalSeconds) ==>
              b.low <= b.open <= b.high && b.low <= b.close <= b.high
  {
    var len := intervalSeconds * 1000;
    var bars := Aggregate(FromTicks, ticks, intervalSeconds);
    AggregateCharacterised(FromTicks, ticks, intervalSeconds);
    forall b | b in bars ensures b.low <= b.open <= b.high && b.low <= b.close <= b.high {
      var i :| 0 <= i < |bars| && bars[i] == b;
      var g := InBucket(ticks, b.timestamp, len);
      TickPricesInRange(g, 0);
      TickPricesInRange(g, |g| - 1);
    }
  }

  /**
   * Three ticks at 10:00:00, 10:00:30 and 10:01:05 (of the first day after
   * the epoch) make two one-minute bars: 100/102/100/102 with volume 3, and
   * 101/101/101/101 with volume 1.
   */
  lemma ThreeTickExample()
    ensures var t0 := DefaultMarketData.(symbol := "X", timestamp := 36000000, close := 100.0, volume := 1.0);
            var t1 := DefaultMarketData.(symbol := "X", timestamp := 36030000, close := 102.0, volume := 2.0);
            var t2 := DefaultMarketData.(symbol := "X", timestamp := 36065000, close := 101.0, volume := 1.0);
            var bars := Aggregate(FromTicks, [t0, t1, t2], 60);
            |bars| == 2 &&
            bars[0].timestamp == 36000000 && bars[0].open == 100.0 && bars[0].high == 102.0 &&
            bars[0].low == 100.0 && bars[0].close == 102.0 && bars[0].volume == 3.0 &&
            bars[1].timestamp == 36060000 && bars[1].open == 101.0 && bars[1].high == 101.0 &&
            bars[1].low == 101.0 && bars[1].close == 101.0 && bars[1].volume == 1.0
  {
    var t0 := DefaultMarketData.(symbol := "X", timestamp := 36000000, close := 100.0, volume := 1.0);
    var t1 := DefaultMarketData.(symbol := "X", timestamp := 36030000, close := 102.0, volume := 2.0);
    var t2 := DefaultMarketData.(symbol := "X", timestamp := 36065000, close := 101.0, volume := 1.0);
    var data := [t0, t1, t2];
    var len := 60000;
    assert AlignTimestamp(36000000, 60) == 36000000;
    assert data[..2] == [t0, t1] && data[..2][..1] == [t0] && data[..2][..1][..0] == [];
    var w0 := Window([], 36000000, false, DefaultMarketData);
    var w1 := Step(FromTicks, "X", len, w0, t0);
    assert w1 == Window([], 36000000, true, Update(FromTicks, Open(FromTicks, "X", 36000000, t0), t0));
    var w2 := Step(FromTicks, "X", len, w1, t1);
    assert w2 == w1.(cur := Update(FromTicks, w1.cur, t1));
    var w3 := Step(FromTicks, "X", len, w2, t2);
    assert Advance(w2, 36065000, len) == Advance(Flush(w2, len), 36065000, len);
    assert Advance(Flush(w2, len), 36065000, len) == Flush(w2, len);
    assert w3 == Window([w2.cur], 36060000, true, Update(FromTicks, Open(FromTicks, "X", 36060000, t2), t2));
    assert Scan(FromTicks, "X", len, 36000000, [t0]) == w1 by {
      assert [t0][..0] == [];
    }
    assert Scan(FromTicks, "X", len, 36000000, [t0, t1]) == w2 by {
      assert [t0, t1][..1] == [t0];
    }
    assert Scan(FromTicks, "X", len, 36000000, data) == w3;
  }
}
