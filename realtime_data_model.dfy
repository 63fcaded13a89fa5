/**
 * The live view's model: the trade blotter, the latest account snapshot and
 * a market-data series in which a quote with the same timestamp as the
 * newest row replaces it instead of adding a row.
 */
module RealtimeDataModels {
  import opened AppData

  /** No two neighbouring rows share a timestamp. */
  predicate NoRepeats(s: seq<MarketData>)
  {
    forall i :: 0 < i < |s| ==> s[i - 1].timestamp != s[i].timestamp
  }

  /** The series after one quote: appended, or replacing the newest row when the timestamps agree. */
  function Merged(s: seq<MarketData>, d: MarketData): seq<MarketData>
  {
    if s == [] || s[|s| - 1].timestamp != d.timestamp then s + [d] else s[|s| - 1 := d]
  }

  /** The series after a stream of quotes. */
  function Feed(s: seq<MarketData>, ds: seq<MarketData>): seq<MarketData>
  {
    if ds == [] then s else Merged(Feed(s, ds[..|ds| - 1]), ds[|ds| - 1])
  }

  /** A merged quote is always the newest row, the older rows stay, and no timestamp repeats. */
  lemma MergedProps(s: seq<MarketData>, d: MarketData)
    requires NoRepeats(s)
    ensures NoRepeats(Merged(s, d))
    ensures |Merged(s, d)| > 0 && Merged(s, d)[|Merged(s, d)| - 1] == d
    ensures |s| <= |Merged(s, d)| <= |s| + 1
    ensures Merged(s, d)[..|Merged(s, d)| - 1] == if |Merged(s, d)| == |s| then s[..|s| - 1] else s
  {
  }

  /**
   * After any stream of quotes the series still has no repeated neighbouring
   * timestamp, and it ends with the last quote received.
   */
  lemma {:induction false} FeedProps(s: seq<MarketData>, ds: seq<MarketData>)
    requires NoRepeats(s)
    ensures NoRepeats(Feed(s, ds))
    ensures ds != [] ==> |Feed(s, ds)| > 0 && Feed(s, ds)[|Feed(s, ds)| - 1] == ds[|ds| - 1]
    ensures |s| <= |Feed(s, ds)| <= |s| + |ds|
  {
    if ds != [] {
      FeedProps(s, ds[..|ds| - 1]);
      MergedProps(Feed(s, ds[..|ds| - 1]), ds[|ds| - 1]);
    }
  }

  class RealtimeDataModel {
    var marketData: seq<MarketData>
    var trades: seq<Trade>
    var account: Account

    ghost predicate Valid()
      reads this
    {
      NoRepeats(marketData)
    }

    constructor ()
      ensures Valid() && marketData == [] && trades == [] && account == DefaultAccount
    {
      marketData := [];
      trades := [];
      account := DefaultAccount;
    }

    /** `rowCount`: one row per trade. */
    function RowCount(): (n: nat)
      reads this
      ensures n == |trades|
    {
      |trades|
    }

    /** `onNewMarketData`. */
    method OnNewMarketData(d: MarketData)
      requires Valid()
      modifies this`marketData
      ensures Valid()
      ensures marketData == Merged(old(marketData), d)
    {
      MergedProps(marketData, d);
      if marketData == [] || marketData[|marketData| - 1].timestamp != d.timestamp {
        marketData := marketData + [d];
      } else {
        marketData := marketData[|marketData| - 1 := d];
      }
    }

    /** `onNewTrade`: one more row at the end. */
    method OnNewTrade(t: Trade)
      modifies this`trades
      ensures trades == old(trades) + [t]
    {
      trades := trades + [t];
    }

    /** `onAccountUpdate`: the snapshot is replaced wholesale. */
    method OnAccountUpdate(a: Account)
      modifies this`account
      ensures account == a
    {
      account := a;
    }
  }
}
