/**
 * The kline generator: turns ticks into bars of a period, or bars into bars
 * of a longer period, and keeps one bounded cache of results per bar period.
 */
module KlineGenerator {
  import opened AppData
  import opened KlineAggregation

  /** `getTimeFrameSeconds`: the period length; an unlisted period counts as one minute. */
  function TimeFrameSeconds(tf: TimeFrame): (seconds: int)
    ensures seconds >= 1
    ensures tf == Tick <==> seconds == 1
  {
    match tf
    case Tick => 1
    case M1 => 60
    case M5 => 300
    case M15 => 900
    case M30 => 1800
    case H1 => 3600
    case H4 => 14400
    case D1 => 86400
    case W1 => 604800
    case KUnknown => 60
  }

  /** `isMultipleTimeframe`: the longer period is a whole number of the shorter. */
  predicate IsMultipleTimeframe(low: TimeFrame, high: TimeFrame)
  {
    TimeFrameSeconds(high) % TimeFrameSeconds(low) == 0
  }

  /** The listed periods form a ladder: each divides every later one. */
  lemma PeriodsNest(low: TimeFrame, high: TimeFrame)
    requires low != KUnknown && high != KUnknown
    ensures TimeFrameValue(low) <= TimeFrameValue(high) <==> IsMultipleTimeframe(low, high)
  {
  }

  /**
   * The cache key. The source hashes the symbol, the first and last
   * timestamps in ISO form (whole seconds) and the period; two series whose
   * ends fall in the same seconds share a key. Hash collisions are not modelled.
   */
  datatype CacheKey = CacheKey(symbol: string, firstSecond: int, lastSecond: int, timeFrame: TimeFrame)

  function KeyOf(data: seq<MarketData>, tf: TimeFrame): CacheKey
    requires data != []
  {
    CacheKey(data[0].symbol, data[0].timestamp / 1000, data[|data| - 1].timestamp / 1000, tf)
  }

  /** A `QCache` whose entries all cost 1: at most `maxCost` entries; which one it evicts is left open. */
  datatype Cache = Cache(entries: map<CacheKey, seq<MarketData>>, maxCost: int)

  predicate CacheValid(c: Cache)
  {
    c.maxCost >= 1 && |c.entries| <= c.maxCost
  }

  lemma MapRemoveSize<K, V>(m: map<K, V>, k: K)
    requires k in m
    ensures |m - {k}| == |m| - 1
  {
    assert (m - {k}).Keys == m.Keys - {k};
  }

  lemma MapAddSize<K, V>(m: map<K, V>, k: K, v: V)
    ensures |m[k := v]| == if k in m then |m| else |m| + 1
  {
    if k in m {
      assert m[k := v].Keys == m.Keys;
    } else {
      assert m[k := v].Keys == m.Keys + {k};
    }
  }

  /**
   * `QCache::insert(key, object, 1)`: afterwards the key holds the object,
   * the bound still holds, and every other entry left was there before with
   * the same value (at most one was evicted to make room).
   */
  method CacheInsert(c: Cache, k: CacheKey, v: seq<MarketData>) returns (r: Cache)
    requires CacheValid(c)
    ensures CacheValid(r) && r.maxCost == c.maxCost
    ensures k in r.entries && r.entries[k] == v
    ensures forall k' :: k' in r.entries && k' != k ==> k' in c.entries && r.entries[k'] == c.entries[k']
    ensures |c.entries| < c.maxCost ==> forall k' :: k' in c.entries ==> k' in r.entries
  {
    MapAddSize(c.entries, k, v);
    if k in c.entries || |c.entries| < c.maxCost {
      r := c.(entries := c.entries[k := v]);
    } else {
      var victim :| victim in c.entries;
      MapRemoveSize(c.entries, victim);
      MapAddSize(c.entries - {victim}, k, v);
      r := c.(entries := (c.entries - {victim})[k := v]);
    }
  }

  /** `QCache::setMaxCost(n)`: entries are evicted until at most `n` remain. */
  method CacheSetMaxCost(c: Cache, n: int) returns (r: Cache)
    requires n >= 1
    ensures CacheValid(r) && r.maxCost == n
    ensures forall k :: k in r.entries ==> k in c.entries && r.entries[k] == c.entries[k]
    ensures |c.entries| <= n ==> r.entries == c.entries
  {
    var entries := c.entries;
    while |entries| > n
      invariant forall k :: k in entries ==> k in c.entries && entries[k] == c.entries[k]
      invariant |c.entries| <= n ==> entries == c.entries
      decreases |entries|
    {
      var victim :| victim in entries;
      MapRemoveSize(entries, victim);
      entries := entries - {victim};
    }
    r := Cache(entries, n);
  }

  /** The slot of a period's cache; ticks and the unknown period have none. */
  function Slot(tf: TimeFrame): (slot: int)
    ensures -1 <= slot < 8
    ensures slot == -1 <==> tf == Tick || tf == KUnknown
  {
    match tf
    case M1 => 0
    case M5 => 1
    case M15 => 2
    case M30 => 3
    case H1 => 4
    case H4 => 5
    case D1 => 6
    case W1 => 7
    case _ => -1
  }

  predicate Cached(tf: TimeFrame)
  {
    Slot(tf) >= 0
  }

  /** Different cached periods have different slots. */
  lemma SlotInjective(a: TimeFrame, b: TimeFrame)
    requires Cached(a) && Slot(a) == Slot(b)
    ensures a == b
  {
  }

  class KlineGenerator {
    var cacheSize: int
    /** One cache per cached period, at the period's slot. */
    var caches: seq<Cache>

    ghost predicate Valid()
      reads this
    {
      cacheSize >= 1 && |caches| == 8 &&
      forall i :: 0 <= i < |caches| ==> CacheValid(caches[i]) && caches[i].maxCost == cacheSize
    }

    /** The cache of a cached period. */
    function CacheOf(tf: TimeFrame): Cache
      reads this
      requires Valid() && Cached(tf)
    {
      caches[Slot(tf)]
    }

    /** Eight empty caches of capacity 100. */
    constructor ()
      ensures Valid() && cacheSize == 100
      ensures forall i :: 0 <= i < |caches| ==> caches[i].entries == map[]
    {
      cacheSize := 100;
      caches := seq(8, _ => Cache(map[], 100));
    }

    /** Store a freshly computed series under its key, if its period has a cache. */
    method Remember(tf: TimeFrame, key: CacheKey, bars: seq<MarketData>)
      requires Valid()
      modifies this
      ensures Valid() && cacheSize == old(cacheSize)
      ensures !Cached(tf) ==> caches == old(caches)
      ensures Cached(tf) ==>
                key in CacheOf(tf).entries && CacheOf(tf).entries[key] == bars &&
                (forall k :: k in CacheOf(tf).entries && k != key ==>
                   k in old(CacheOf(tf).entries) && CacheOf(tf).entries[k] == old(CacheOf(tf).entries[k]))
      ensures forall i :: 0 <= i < |caches| && i != Slot(tf) ==> caches[i] == old(caches[i])
    {
      if Cached(tf) {
        var updated := CacheInsert(caches[Slot(tf)], key, bars);
        caches := caches[Slot(tf) := updated];
      }
    }

    /**
     * `generateKlineFromTicks`: ticks are returned as they are for the tick
     * period; nothing comes of no ticks; unless forced, a cached series for
     * the same key is returned; otherwise the ticks are aggregated at the
     * period's length and the result is cached under its key.
     */
    method GenerateKlineFromTicks(ticks: seq<MarketData>, tf: TimeFrame, forceRegenerate: bool)
      returns (bars: seq<MarketData>)
      requires Valid()
      modifies this
      ensures Valid() && cacheSize == old(cacheSize)
      ensures tf == Tick ==> bars == ticks && caches == old(caches)
      ensures tf != Tick && ticks == [] ==> bars == [] && caches == old(caches)
      ensures tf != Tick && ticks != [] && !forceRegenerate && Cached(tf) && KeyOf(ticks, tf) in old(CacheOf(tf).entries) ==>
                bars == old(CacheOf(tf).entries[KeyOf(ticks, tf)]) && caches == old(caches)
      ensures tf != Tick && ticks != [] && (forceRegenerate || !Cached(tf) || KeyOf(ticks, tf) !in old(CacheOf(tf).entries)) ==>
                bars == Aggregate(FromTicks, ticks, TimeFrameSeconds(tf)) &&
                (Cached(tf) ==> KeyOf(ticks, tf) in CacheOf(tf).entries && CacheOf(tf).entries[KeyOf(ticks, tf)] == bars)
      ensures forall i :: 0 <= i < |caches| && i != Slot(tf) ==> caches[i] == old(caches[i])
    {
      if tf == Tick {
        return ticks;
      }
      if |ticks| == 0 {
        return [];
      }
      var key := KeyOf(ticks, tf);
      if !forceRegenerate && Cached(tf) && key in caches[Slot(tf)].entries {
        return caches[Slot(tf)].entries[key];
      }
      bars := AggregateTicksToKline(ticks, TimeFrameSeconds(tf));
      Remember(tf, key, bars);
    }

    /**
     * `generateKlineFromKline`: nothing comes of no bars or of a target period
     * not after the source period; a target that is not a whole multiple of
     * the source is still aggregated. Cache use is as for ticks, keyed by the
     * target period.
     */
    method GenerateKlineFromKline(source: seq<MarketData>, sourceTf: TimeFrame, targetTf: TimeFrame, forceRegenerate: bool)
      returns (bars: seq<MarketData>)
      requires Valid()
      modifies this
      ensures Valid() && cacheSize == old(cacheSize)
      ensures source == [] || TimeFrameValue(targetTf) <= TimeFrameValue(sourceTf) ==> bars == [] && caches == old(caches)
      ensures source != [] && TimeFrameValue(targetTf) > TimeFrameValue(sourceTf) && !forceRegenerate &&
              Cached(targetTf) && KeyOf(source, targetTf) in old(CacheOf(targetTf).entries) ==>
                bars == old(CacheOf(targetTf).entries[KeyOf(source, targetTf)]) && caches == old(caches)
      ensures source != [] && TimeFrameValue(targetTf) > TimeFrameValue(sourceTf) &&
              (forceRegenerate || !Cached(targetTf) || KeyOf(source, targetTf) !in old(CacheOf(targetTf).entries)) ==>
                bars == Aggregate(FromBars, source, TimeFrameSeconds(targetTf)) &&
                (Cached(targetTf) ==> KeyOf(source, targetTf) in CacheOf(targetTf).entries &&
                                      CacheOf(targetTf).entries[KeyOf(source, targetTf)] == bars)
      ensures forall i :: 0 <= i < |caches| && i != Slot(targetTf) ==> caches[i] == old(caches[i])
    {
      if |source| == 0 {
        return [];
      }
      if TimeFrameValue(targetTf) <= TimeFrameValue(sourceTf) {
        return [];
      }
      var key := KeyOf(source, targetTf);
      if !forceRegenerate && Cached(targetTf) && key in caches[Slot(targetTf)].entries {
        return caches[Slot(targetTf)].entries[key];
      }
      bars := AggregateKlineToHigherTimeframe(source, TimeFrameSeconds(sourceTf), TimeFrameSeconds(targetTf));
      Remember(targetTf, key, bars);
    }

    /**
     * `preGenerateKlines`: a forced generation for every listed period but
     * ticks; afterwards each listed cached period holds its fresh series.
     */
    method PreGenerateKlines(ticks: seq<MarketData>, tfs: seq<TimeFrame>)
      requires Valid()
      modifies this
      ensures Valid() && cacheSize == old(cacheSize)
      ensures ticks == [] || tfs == [] ==> caches == old(caches)
      ensures ticks != [] ==>
                forall j :: 0 <= j < |tfs| && Cached(tfs[j]) ==>
                  KeyOf(ticks, tfs[j]) in CacheOf(tfs[j]).entries &&
                  CacheOf(tfs[j]).entries[KeyOf(ticks, tfs[j])] == Aggregate(FromTicks, ticks, TimeFrameSeconds(tfs[j]))
      ensures forall i :: 0 <= i < |caches| && (forall j :: 0 <= j < |tfs| ==> Slot(tfs[j]) != i) ==> caches[i] == old(caches[i])
    {
      if |ticks| == 0 || |tfs| == 0 {
        return;
      }
      for n := 0 to |tfs|
        invariant Valid() && cacheSize == old(cacheSize)
        invariant forall j :: 0 <= j < n && Cached(tfs[j]) ==>
                    KeyOf(ticks, tfs[j]) in CacheOf(tfs[j]).entries &&
                    CacheOf(tfs[j]).entries[KeyOf(ticks, tfs[j])] == Aggregate(FromTicks, ticks, TimeFrameSeconds(tfs[j]))
        invariant forall i :: 0 <= i < |caches| && (forall j :: 0 <= j < n ==> Slot(tfs[j]) != i) ==> caches[i] == old(caches[i])
      {
        if tfs[n] != Tick {
          var _ := GenerateKlineFromTicks(ticks, tfs[n], true);
          forall j | 0 <= j < n && Cached(tfs[j]) && Slot(tfs[j]) == Slot(tfs[n])
            ensures tfs[j] == tfs[n]
          {
            SlotInjective(tfs[j], tfs[n]);
          }
        }
      }
    }

    /** `clearCache`: the unknown period empties every cache; another period empties its own, if it has one. */
    method ClearCache(tf: TimeFrame)
      requires Valid()
      modifies this
      ensures Valid() && cacheSize == old(cacheSize)
      ensures tf == KUnknown ==> forall i :: 0 <= i < |caches| ==> caches[i] == old(caches[i]).(entries := map[])
      ensures tf != KUnknown ==>
                (Cached(tf) ==> CacheOf(tf) == old(CacheOf(tf)).(entries := map[])) &&
                (forall i :: 0 <= i < |caches| && i != Slot(tf) ==> caches[i] == old(caches[i]))
    {
      if tf == KUnknown {
        caches := seq(|caches|, i requires 0 <= i < |caches| reads this => caches[i].(entries := map[]));
      } else if Cached(tf) {
        caches := caches[Slot(tf) := caches[Slot(tf)].(entries := map[])];
      }
    }

    /** `setCacheSize`: a size of zero or less is ignored; otherwise every cache is bounded by it. */
    method SetCacheSize(size: int)
      requires Valid()
      modifies this
      ensures Valid()
      ensures size <= 0 ==> cacheSize == old(cacheSize) && caches == old(caches)
      ensures size > 0 ==> cacheSize == size
      ensures size > 0 ==>
                forall i :: 0 <= i < |caches| ==>
                  forall k :: k in caches[i].entries ==> k in old(caches[i].entries) && caches[i].entries[k] == old(caches[i].entries[k])
    {
      if size <= 0 {
        return;
      }
      var before := caches;
      for i := 0 to |before|
        invariant |caches| == |before|
        invariant forall j :: 0 <= j < i ==> CacheValid(caches[j]) && caches[j].maxCost == size
        invariant forall j :: 0 <= j < i ==>
                    forall k :: k in caches[j].entries ==> k in before[j].entries && caches[j].entries[k] == before[j].entries[k]
        invariant forall j :: i <= j < |caches| ==> caches[j] == before[j]
      {
        var shrunk := CacheSetMaxCost(before[i], size);
        caches := caches[i := shrunk];
      }
      cacheSize := size;
    }
  }
}
