/**
 * The A-share quote client: a stock code with its market prefix, a fetch
 * mode (polling a REST endpoint or a WebSocket subscription), the on/off
 * state, and the last-value cache that fills in the fields a WebSocket tick
 * leaves out. Network traffic is the log `io` of what the client sends or
 * asks for; the messages it receives are given as already-decoded values.
 */
module OnlineMarketA {
  import opened Options

  /** "1" for Shanghai; "0" for Shenzhen, and for the Beijing codes filed under Shenzhen. */
  function MarketType(symbol: string): (t: string)
    ensures t == "0" || t == "1"
  {
    if |symbol| > 0 && symbol[0] == '6' then "1"
    else if |symbol| > 0 && (symbol[0] == '0' || symbol[0] == '3') then "0"
    else if |symbol| > 0 && (symbol[0] == '4' || symbol[0] == '8') then "0"
    else "1"
  }

  /** Codes opening with 0, 3, 4 or 8 are Shenzhen's; every other code, the empty one included, is Shanghai's. */
  lemma MarketTypeCases(symbol: string)
    ensures MarketType(symbol) == "0" <==> |symbol| > 0 && symbol[0] in {'0', '3', '4', '8'}
    ensures MarketType(symbol) == "1" <==> !(|symbol| > 0 && symbol[0] in {'0', '3', '4', '8'})
  {
  }

  /** `formatStockCode`: the market type, a dot, then the code. */
  function FormatStockCode(symbol: string): string
  {
    MarketType(symbol) + "." + symbol
  }

  /** The code a formatted code was made from: everything after the market prefix. */
  function StockCodeOf(code: string): string
  {
    if |code| >= 2 then code[2..] else ""
  }

  /** A formatted code is two characters of prefix followed by the code itself, so the code can be read back. */
  lemma FormatRoundTrip(symbol: string)
    ensures |FormatStockCode(symbol)| == |symbol| + 2
    ensures FormatStockCode(symbol)[..2] == MarketType(symbol) + "."
    ensures StockCodeOf(FormatStockCode(symbol)) == symbol
  {
    var f := FormatStockCode(symbol);
    assert f == (MarketType(symbol) + ".") + symbol;
  }

  /** Different codes never share a formatted code. */
  lemma FormatInjective(a: string, b: string)
    requires FormatStockCode(a) == FormatStockCode(b)
    ensures a == b
  {
    FormatRoundTrip(a);
    FormatRoundTrip(b);
  }

  datatype DataFetchMode = RestApi | WebSocket

  /** The text messages the client sends over the WebSocket. */
  datatype WsMessage = Sub(code: string) | Unsub(code: string) | Heartbeat(ts: int)

  /** What the client does on the network, in order. */
  datatype Io = Fetch(secid: string) | OpenSocket | CloseSocket | Send(msg: WsMessage) | ScheduleReconnect

  /** The codes the sent messages leave subscribed. */
  function Subscriptions(log: seq<Io>): set<string>
  {
    if log == [] then {}
    else
      var before := Subscriptions(log[..|log| - 1]);
      match log[|log| - 1]
      case Send(Sub(c)) => before + {c}
      case Send(Unsub(c)) => before - {c}
      case _ => before
  }

  lemma SubscriptionsAppend(log: seq<Io>, more: seq<Io>)
    requires |more| <= 2
    ensures more == [] ==> Subscriptions(log + more) == Subscriptions(log)
    ensures |more| == 1 ==> Subscriptions(log + more) == Subscriptions(log + [more[0]])
    ensures |more| == 2 ==> Subscriptions(log + more) == Subscriptions((log + [more[0]]) + [more[1]])
  {
    if |more| == 2 {
      assert log + more == (log + [more[0]]) + [more[1]];
    } else if |more| == 1 {
      assert more == [more[0]];
    } else {
      assert log + more == log;
    }
  }

  /** As written, a symbol change while subscribed unsubscribes the new code, not the old one, then subscribes it. */
  function ResubscribeAsWritten(oldCode: string, newCode: string): seq<Io>
  {
    [Send(Unsub(newCode)), Send(Sub(newCode))]
  }

  /** Corrected: the old code is unsubscribed and the new one subscribed. */
  function Resubscribe(oldCode: string, newCode: string): seq<Io>
  {
    [Send(Unsub(oldCode)), Send(Sub(newCode))]
  }

  /** As written, the old code stays subscribed after the switch: both codes are now streamed. */
  lemma ResubscribeAsWrittenKeepsOld(log: seq<Io>, oldCode: string, newCode: string)
    requires oldCode in Subscriptions(log) && oldCode != newCode
    ensures Subscriptions(log + ResubscribeAsWritten(oldCode, newCode)) == Subscriptions(log) + {newCode}
    ensures oldCode in Subscriptions(log + ResubscribeAsWritten(oldCode, newCode))
  {
    SubscriptionsAppend(log, ResubscribeAsWritten(oldCode, newCode));
  }

  /** Corrected, the switch replaces the old code by the new one. */
  lemma ResubscribeSwitches(log: seq<Io>, oldCode: string, newCode: string)
    ensures Subscriptions(log + Resubscribe(oldCode, newCode)) == Subscriptions(log) - {oldCode} + {newCode}
  {
    SubscriptionsAppend(log, Resubscribe(oldCode, newCode));
  }

  /** A quote as the client reports it. */
  datatype Quote = Quote(symbol: string, lastPrice: real, volume: real, high: real, low: real, open: real,
                         preClose: real)

  /** A cached value, 0 when the cache has none. */
  function Cached(cache: map<string, real>, key: string): real
  {
    if key in cache then cache[key] else 0.0
  }

  /** The quote the cache describes. */
  function QuoteOf(symbol: string, cache: map<string, real>): Quote
  {
    Quote(symbol, Cached(cache, "lastPrice"), Cached(cache, "volume"), Cached(cache, "high"), Cached(cache, "low"),
          Cached(cache, "open"), Cached(cache, "preClose"))
  }

  /** The message field behind each cache entry. */
  function CacheKey(field: string): string
  {
    if field == "price" then "lastPrice" else field
  }

  predicate QuoteField(field: string)
  {
    field in {"price", "volume", "high", "low", "open", "preClose"}
  }

  /** The message's value of a field when it has one, otherwise the cached one. */
  function Pick(data: map<string, real>, field: string, cache: map<string, real>): real
  {
    if field in data then data[field] else Cached(cache, CacheKey(field))
  }

  /** One field of a tick written into the cache, when the tick carries it. */
  function Put(cache: map<string, real>, data: map<string, real>, field: string): map<string, real>
  {
    if field in data then cache[CacheKey(field) := data[field]] else cache
  }

  /** The cache after a tick: each of the six quote fields the tick carries is written, in the code's order. */
  function Refreshed(cache: map<string, real>, data: map<string, real>): map<string, real>
  {
    Put(Put(Put(Put(Put(Put(cache, data, "price"), data, "volume"), data, "high"), data, "low"), data, "open"),
        data, "preClose")
  }

  /** The cache the REST reply leaves: all six entries replaced by the reply's scaled values. */
  function Snapshot(cache: map<string, real>, q: Quote): map<string, real>
  {
    cache["lastPrice" := q.lastPrice]["volume" := q.volume]["high" := q.high]["low" := q.low]
         ["open" := q.open]["preClose" := q.preClose]
  }

  /** A received WebSocket message, decoded: each data value is its number, and 0 when it is not one. */
  datatype WsInput =
    | Unparsable
    | Message(action: Option<string>, result: bool, hasData: bool, data: map<string, real>)

  /** A received REST reply, decoded the same way. */
  datatype RestReply = BadReply | Reply(rc: int, data: map<string, real>)

  /** What the handlers report: nothing, an error, or a quote. */
  datatype Event = Quiet | Error | NewData(quote: Quote)

  /** A REST field value: a missing field reads as 0. */
  function Field(data: map<string, real>, key: string): real
  {
    if key in data then data[key] else 0.0
  }

  /** The REST reply's quote: prices in cents, volume in hundreds. */
  function RestQuote(symbol: string, data: map<string, real>): Quote
  {
    Quote(symbol, Field(data, "f43") / 100.0, Field(data, "f47") / 100.0, Field(data, "f44") / 100.0,
          Field(data, "f45") / 100.0, Field(data, "f46") / 100.0, Field(data, "f60") / 100.0)
  }

  /** The interval the poll timer is given: at least 100 ms. */
  function ClampInterval(ms: int): (r: int)
    ensures r >= 100 && r >= ms && (r == ms || r == 100)
  {
    if ms > 100 then ms else 100
  }

  class OnlineMarket {
    var symbol: string
    var formattedSymbol: string
    var mode: DataFetchMode
    var active: bool
    var connected: bool
    var interval: int
    var fetchTimerRunning: bool
    var heartbeatRunning: bool
    var lastData: map<string, real>
    var io: seq<Io>

    ghost predicate Valid()
      reads this
    {
      formattedSymbol == FormatStockCode(symbol) && interval >= 100
    }

    /** The code "600000", REST polling every second, inactive and unconnected. */
    constructor ()
      ensures Valid()
      ensures symbol == "600000" && formattedSymbol == "1.600000" && mode == RestApi && interval == 1000
      ensures !active && !connected && !fetchTimerRunning && !heartbeatRunning && lastData == map[] && io == []
    {
      symbol := "600000";
      formattedSymbol := FormatStockCode("600000");
      mode := RestApi;
      active := false;
      connected := false;
      interval := 1000;
      fetchTimerRunning := false;
      heartbeatRunning := false;
      lastData := map[];
      io := [];
    }

    /** `subscribeToChannel`: only over an open connection. */
    method Subscribe()
      modifies this`io
      ensures io == if connected then old(io) + [Send(Sub(formattedSymbol))] else old(io)
    {
      if connected {
        io := io + [Send(Sub(formattedSymbol))];
      }
    }

    /** `startFetchingData`: nothing when active; else poll now and start the timer, or connect or subscribe. */
    method StartFetchingData()
      modifies this`active, this`io, this`fetchTimerRunning
      ensures active
      ensures old(active) ==> io == old(io) && fetchTimerRunning == old(fetchTimerRunning)
      ensures !old(active) && mode == RestApi ==> io == old(io) + [Fetch(formattedSymbol)] && fetchTimerRunning
      ensures !old(active) && mode == WebSocket ==> (fetchTimerRunning == old(fetchTimerRunning)
              && io == old(io) + [if connected then Send(Sub(formattedSymbol)) else OpenSocket])
    {
      if active {
        return;
      }
      active := true;
      if mode == RestApi {
        io := io + [Fetch(formattedSymbol)];
        fetchTimerRunning := true;
      } else if !connected {
        io := io + [OpenSocket];
      } else {
        Subscribe();
      }
    }

    /** `stopFetchingData`: nothing when inactive; else stop the timer, or unsubscribe and close. */
    method StopFetchingData()
      modifies this`active, this`io, this`fetchTimerRunning, this`heartbeatRunning
      ensures !active
      ensures old(active) && mode == RestApi ==> (io == old(io) && !fetchTimerRunning
                                                  && heartbeatRunning == old(heartbeatRunning))
      ensures old(active) && mode == WebSocket && connected ==>
                (io == old(io) + [Send(Unsub(formattedSymbol)), CloseSocket] && !heartbeatRunning
                 && fetchTimerRunning == old(fetchTimerRunning))
      ensures !old(active) || (mode == WebSocket && !connected) ==>
                (io == old(io) && fetchTimerRunning == old(fetchTimerRunning)
                 && heartbeatRunning == old(heartbeatRunning))
    {
      if !active {
        return;
      }
      active := false;
      if mode == RestApi {
        fetchTimerRunning := false;
      } else if connected {
        io := io + [Send(Unsub(formattedSymbol)), CloseSocket];
        heartbeatRunning := false;
      }
    }

    /** `setDataFetchMode`: the same mode changes nothing; otherwise stop, switch, and start again if it was on. */
    method SetDataFetchMode(m: DataFetchMode)
      modifies this`mode, this`active, this`io, this`fetchTimerRunning, this`heartbeatRunning
      ensures mode == m && active == old(active)
      ensures old(mode) == m || !old(active) ==>
                (io == old(io) && fetchTimerRunning == old(fetchTimerRunning)
                 && heartbeatRunning == old(heartbeatRunning))
      ensures old(mode) != m && old(active) && m == WebSocket ==>
                (io == old(io) + [if connected then Send(Sub(formattedSymbol)) else OpenSocket]
                 && !fetchTimerRunning && heartbeatRunning == old(heartbeatRunning))
      ensures old(mode) != m && old(active) && m == RestApi ==>
                (io == old(io) + (if connected then [Send(Unsub(formattedSymbol)), CloseSocket] else [])
                                + [Fetch(formattedSymbol)]
                 && fetchTimerRunning && heartbeatRunning == (old(heartbeatRunning) && !connected))
    {
      if mode == m {
        return;
      }
      var wasActive := active;
      if wasActive {
        StopFetchingData();
      }
      mode := m;
      if wasActive {
        StartFetchingData();
      }
    }

    /**
     * `setSymbol`: new code and formatted code; a live subscription moves
     * from the old code to the new one.
     */
    method SetSymbol(s: string)
      requires Valid()
      modifies this`symbol, this`formattedSymbol, this`io
      ensures Valid() && symbol == s
      ensures active && mode == WebSocket && connected ==>
                io == old(io) + Resubscribe(old(formattedSymbol), FormatStockCode(s))
      ensures !(active && mode == WebSocket && connected) ==> io == old(io)
    {
      var previous := formattedSymbol;
      symbol := s;
      formattedSymbol := FormatStockCode(s);
      if active && mode == WebSocket && connected {
        io := io + [Send(Unsub(previous))];
        Subscribe();
      }
    }

    /** `setUpdateInterval`: at least 100 ms; a running timer restarts with it. */
    method SetUpdateInterval(ms: int)
      requires Valid()
      modifies this`interval
      ensures Valid() && interval == ClampInterval(ms)
    {
      interval := ClampInterval(ms);
    }

    /** `onWebSocketConnected`: connected; when active, subscribe and start the heartbeat. */
    method OnWebSocketConnected()
      modifies this`connected, this`io, this`heartbeatRunning
      ensures connected
      ensures active ==> io == old(io) + [Send(Sub(formattedSymbol))] && heartbeatRunning
      ensures !active ==> io == old(io) && heartbeatRunning == old(heartbeatRunning)
    {
      connected := true;
      if active {
        Subscribe();
        heartbeatRunning := true;
      }
    }

    /** `onWebSocketDisconnected`: stop the heartbeat; while active in WebSocket mode, schedule a reconnect. */
    method OnWebSocketDisconnected()
      modifies this`connected, this`io, this`heartbeatRunning
      ensures !connected && !heartbeatRunning
      ensures io == if active && mode == WebSocket then old(io) + [ScheduleReconnect] else old(io)
    {
      connected := false;
      heartbeatRunning := false;
      if active && mode == WebSocket {
        io := io + [ScheduleReconnect];
      }
    }

    /** The delayed reconnect: reopen only if still active, in WebSocket mode and unconnected. */
    method OnReconnectTimer()
      modifies this`io
      ensures io == if active && mode == WebSocket && !connected then old(io) + [OpenSocket] else old(io)
    {
      if active && mode == WebSocket && !connected {
        io := io + [OpenSocket];
      }
    }

    /** `onWebSocketError`: report the error (`errorOccurred`); the connection counts as lost. */
    method OnWebSocketError() returns (e: Event)
      modifies this`connected
      ensures e == Error && !connected
    {
      e := Error;
      connected := false;
    }

    /** `sendHeartbeat`: only over an open connection. */
    method SendHeartbeat(now: int)
      modifies this`io
      ensures io == if connected then old(io) + [Send(Heartbeat(now))] else old(io)
    {
      if connected {
        io := io + [Send(Heartbeat(now))];
      }
    }

    /** `fetchMarketData`: one request for the formatted code. */
    method FetchMarketData()
      modifies this`io
      ensures io == old(io) + [Fetch(formattedSymbol)]
    {
      io := io + [Fetch(formattedSymbol)];
    }

    /**
     * `parseMarketData`: an unreadable reply, a nonzero result code or an
     * empty data object is an error; otherwise the scaled quote is cached and
     * reported.
     */
    method ParseMarketData(reply: RestReply) returns (e: Event)
      modifies this`lastData
      ensures reply.BadReply? || reply.rc != 0 || reply.data == map[] ==> e == Error && lastData == old(lastData)
      ensures reply.Reply? && reply.rc == 0 && reply.data != map[] ==>
                (e == NewData(RestQuote(symbol, reply.data))
                 && lastData == Snapshot(old(lastData), RestQuote(symbol, reply.data)))
    {
      if reply.BadReply? || reply.rc != 0 || reply.data == map[] {
        return Error;
      }
      var q := RestQuote(symbol, reply.data);
      lastData := lastData["lastPrice" := q.lastPrice]["volume" := q.volume]["high" := q.high]["low" := q.low];
      lastData := lastData["open" := q.open]["preClose" := q.preClose];
      return NewData(q);
    }

    /**
     * `parseWebSocketMessage`: heartbeat replies and subscription acks give
     * no data (a failed ack is an error); a data message reports each field
     * from the message when present and from the cache otherwise, and caches
     * the fields it carried.
     */
    method ParseWebSocketMessage(m: WsInput) returns (e: Event)
      modifies this`lastData
      ensures m.Unparsable? ==> e == Error && lastData == old(lastData)
      ensures m.Message? && m.action == Some("heartbeat") ==> e == Quiet && lastData == old(lastData)
      ensures m.Message? && m.action == Some("sub") ==> e == (if m.result then Quiet else Error)
                                                        && lastData == old(lastData)
      ensures m.Message? && m.action != Some("heartbeat") && m.action != Some("sub") ==>
                if m.hasData && m.data != map[] then
                  e == NewData(Quote(symbol, Pick(m.data, "price", old(lastData)), Pick(m.data, "volume", old(lastData)),
                                     Pick(m.data, "high", old(lastData)), Pick(m.data, "low", old(lastData)),
                                     Pick(m.data, "open", old(lastData)), Pick(m.data, "preClose", old(lastData))))
                  && lastData == Refreshed(old(lastData), m.data)
                else e == Quiet && lastData == old(lastData)
    {
      if m.Unparsable? {
        return Error;
      }
      if m.action == Some("heartbeat") {
        return Quiet;
      }
      if m.action == Some("sub") {
        return if m.result then Quiet else Error;
      }
      if !m.hasData || m.data == map[] {
        return Quiet;
      }
      var d := m.data;
      var lastPrice := Pick(d, "price", lastData);
      var volume := Pick(d, "volume", lastData);
      var high := Pick(d, "high", lastData);
      var low := Pick(d, "low", lastData);
      var open := Pick(d, "open", lastData);
      var preClose := Pick(d, "preClose", lastData);
      lastData := Put(lastData, d, "price");
      lastData := Put(lastData, d, "volume");
      lastData := Put(lastData, d, "high");
      lastData := Put(lastData, d, "low");
      lastData := Put(lastData, d, "open");
      lastData := Put(lastData, d, "preClose");
      return NewData(Quote(symbol, lastPrice, volume, high, low, open, preClose));
    }
  }

  /** A cache entry, when there is one. */
  function Lookup(cache: map<string, real>, k: string): Option<real>
  {
    if k in cache then Some(cache[k]) else None
  }

  /** The message field that feeds a cache entry; the entries outside the quote have none. */
  function Source(k: string): Option<string>
  {
    if k == "lastPrice" then Some("price")
    else if k in {"volume", "high", "low", "open", "preClose"} then Some(k)
    else None
  }

  lemma PutAt(cache: map<string, real>, d: map<string, real>, f: string, k: string)
    ensures Lookup(Put(cache, d, f), k) == if f in d && CacheKey(f) == k then Some(d[f]) else Lookup(cache, k)
  {
  }

  /**
   * What a tick does to one cache entry: an entry whose field the tick
   * carries takes the tick's value; every other entry, of a field the tick
   * leaves out or outside the quote altogether, is kept as it was, present
   * or absent.
   */
  lemma RefreshedAt(cache: map<string, real>, d: map<string, real>, k: string)
    ensures Lookup(Refreshed(cache, d), k) ==
            if Source(k).Some? && Source(k).value in d then Some(d[Source(k).value]) else Lookup(cache, k)
  {
    var m1 := Put(cache, d, "price");
    var m2 := Put(m1, d, "volume");
    var m3 := Put(m2, d, "high");
    var m4 := Put(m3, d, "low");
    var m5 := Put(m4, d, "open");
    PutAt(cache, d, "price", k);
    PutAt(m1, d, "volume", k);
    PutAt(m2, d, "high", k);
    PutAt(m3, d, "low", k);
    PutAt(m4, d, "open", k);
    PutAt(m5, d, "preClose", k);
  }

  lemma LookupExtensional(a: map<string, real>, b: map<string, real>)
    requires forall k :: Lookup(a, k) == Lookup(b, k)
    ensures a == b
  {
    assert a.Keys == b.Keys by {
      forall k ensures k in a <==> k in b {
        assert Lookup(a, k) == Lookup(b, k);
      }
    }
    forall k | k in a ensures a[k] == b[k] {
      assert Lookup(a, k) == Lookup(b, k);
    }
  }

  /** A REST reply's quote is what the cache then holds. */
  lemma SnapshotHoldsQuote(cache: map<string, real>, q: Quote)
    ensures QuoteOf(q.symbol, Snapshot(cache, q)) == q
  {
  }

  /** A reported field is the message's or the cache's, as the entry lookup says. */
  lemma PickAt(cache: map<string, real>, d: map<string, real>, f: string)
    requires QuoteField(f)
    ensures Cached(Refreshed(cache, d), CacheKey(f)) == Pick(d, f, cache)
  {
    RefreshedAt(cache, d, CacheKey(f));
    assert Source(CacheKey(f)) == Some(f);
  }

  /**
   * The quote a tick reports is what the refreshed cache now holds: the
   * cache always mirrors the last reported quote.
   */
  lemma TickQuoteIsCached(symbol: string, cache: map<string, real>, d: map<string, real>)
    ensures QuoteOf(symbol, Refreshed(cache, d))
            == Quote(symbol, Pick(d, "price", cache), Pick(d, "volume", cache), Pick(d, "high", cache),
                     Pick(d, "low", cache), Pick(d, "open", cache), Pick(d, "preClose", cache))
  {
    PickAt(cache, d, "price");
    PickAt(cache, d, "volume");
    PickAt(cache, d, "high");
    PickAt(cache, d, "low");
    PickAt(cache, d, "open");
    PickAt(cache, d, "preClose");
  }

  /** Processing the same tick twice leaves the same cache, and so reports the same quote. */
  lemma RefreshIdempotent(cache: map<string, real>, d: map<string, real>)
    ensures Refreshed(Refreshed(cache, d), d) == Refreshed(cache, d)
  {
    forall k ensures Lookup(Refreshed(Refreshed(cache, d), d), k) == Lookup(Refreshed(cache, d), k) {
      RefreshedAt(cache, d, k);
      RefreshedAt(Refreshed(cache, d), d, k);
    }
    LookupExtensional(Refreshed(Refreshed(cache, d), d), Refreshed(cache, d));
  }
}
