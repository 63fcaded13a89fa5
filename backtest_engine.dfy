/**
 * The back-test engine: it loads bars for the configured symbols, replays
 * them in time order, lets the strategies place and cancel orders, matches
 * the resting orders against each bar, books the trades on a simulated
 * account and finally computes the performance metrics.
 */
module Backtest {
  import opened Options
  import opened Text
  import opened AppData
  import opened QMaps
  import opened Ledger
  import KlineAggregation

  /* ---------- order matching ---------- */

  /**
   * The price an order fills at against one bar, if it fills. A market order
   * fills at the close, a limit order at its limit price once the bar trades
   * through it, a stop order at its stop price once the bar reaches it; stop-limit
   * and trailing orders, and non-market orders of unknown direction, never fill.
   * The order's symbol is not compared with the bar's.
   */
  function Fill(o: Order, d: MarketData): Option<real>
  {
    match o.orderType
    case Market => Some(d.close)
    case Limit =>
      if (o.direction == Long && o.price >= d.low) || (o.direction == Short && o.price <= d.high)
      then Some(o.price) else None
    case Stop =>
      if (o.direction == Long && d.high >= o.stopPrice) || (o.direction == Short && d.low <= o.stopPrice)
      then Some(o.stopPrice) else None
    case _ => None
  }

  /** What a fill guarantees: a buy limit is never paid above its limit, a sell limit never sold below it. */
  lemma FillPrices(o: Order, d: MarketData)
    ensures o.orderType == Market ==> Fill(o, d) == Some(d.close)
    ensures o.orderType == Limit && Fill(o, d).Some? ==>
              (Fill(o, d).value == o.price && (o.direction == Long ==> d.low <= o.price) &&
               (o.direction == Short ==> o.price <= d.high))
    ensures o.orderType == Stop && Fill(o, d).Some? ==>
              (Fill(o, d).value == o.stopPrice && (o.direction == Long ==> o.stopPrice <= d.high) &&
               (o.direction == Short ==> d.low <= o.stopPrice))
    ensures o.orderType in {StopLimit, TrailingStop} ==> Fill(o, d) == None
    ensures o.orderType != Market && o.direction == Unknown ==> Fill(o, d) == None
    ensures forall s :: Fill(o, d.(symbol := s)) == Fill(o, d)
  {
  }

  /** The trade recorded for a fill; `n` is its one-based number among all trades. */
  function TradeOf(o: Order, price: real, n: nat, time: int, rate: real, accountId: string): Trade
  {
    Trade("trade_" + NatToString(n), o.orderId, o.symbol, time, o.direction, price, o.quantity,
          price * o.quantity * rate, "", accountId)
  }

  predicate PositiveEntries(es: seq<(string, Order)>)
  {
    forall i :: 0 <= i < |es| ==> es[i].1.quantity > 0.0
  }

  /** The trades matching produces from the orders `es`, in iteration order, numbered from `base + 1`. */
  function Fills(es: seq<(string, Order)>, d: MarketData, base: nat, time: int, rate: real, accountId: string)
    : (ts: seq<Trade>)
    ensures |ts| <= |es|
  {
    if es == [] then []
    else
      var prev := Fills(es[..|es| - 1], d, base, time, rate, accountId);
      var o := es[|es| - 1].1;
      match Fill(o, d)
      case None => prev
      case Some(price) => prev + [TradeOf(o, price, base + |prev| + 1, time, rate, accountId)]
  }

  /** One more order either adds its trade to the end of the pass or changes nothing. */
  lemma FillsSnoc(es: seq<(string, Order)>, i: int, d: MarketData, base: nat, time: int, rate: real, accountId: string)
    requires 0 <= i < |es|
    ensures var prev := Fills(es[..i], d, base, time, rate, accountId);
            Fills(es[..i + 1], d, base, time, rate, accountId) ==
            match Fill(es[i].1, d)
            case None => prev
            case Some(price) => prev + [TradeOf(es[i].1, price, base + |prev| + 1, time, rate, accountId)]
  {
    assert es[..i + 1][..i] == es[..i];
  }

  /** Orders of positive quantity make trades of positive quantity. */
  lemma {:induction false} FillsPositive(es: seq<(string, Order)>, d: MarketData, base: nat, time: int, rate: real,
                                         accountId: string)
    requires PositiveEntries(es)
    ensures AllPositive(Fills(es, d, base, time, rate, accountId))
  {
    if es != [] {
      assert PositiveEntries(es[..|es| - 1]);
      FillsPositive(es[..|es| - 1], d, base, time, rate, accountId);
    }
  }

  /** The order ids of a list of trades, in order. */
  function OrderIds(ts: seq<Trade>): (ids: seq<string>)
    ensures |ids| == |ts|
  {
    if ts == [] then [] else OrderIds(ts[..|ts| - 1]) + [ts[|ts| - 1].orderId]
  }

  /** Trades are numbered one after the other: the `j`-th trade of a list is `trade_<j+1>`. */
  predicate Numbered(ts: seq<Trade>)
  {
    forall j :: 0 <= j < |ts| ==> ts[j].tradeId == "trade_" + NatToString(j + 1)
  }

  /** The trades of one matching pass continue the numbering of the trades before them. */
  lemma {:induction false} FillsNumbered(es: seq<(string, Order)>, d: MarketData, before: seq<Trade>,
                                         time: int, rate: real, accountId: string)
    requires Numbered(before)
    ensures Numbered(before + Fills(es, d, |before|, time, rate, accountId))
  {
    if es != [] {
      var prefix := es[..|es| - 1];
      FillsNumbered(prefix, d, before, time, rate, accountId);
      var prev := Fills(prefix, d, |before|, time, rate, accountId);
      var o := es[|es| - 1].1;
      if Fill(o, d).Some? {
        var t := TradeOf(o, Fill(o, d).value, |before| + |prev| + 1, time, rate, accountId);
        assert before + Fills(es, d, |before|, time, rate, accountId) == (before + prev) + [t];
        assert t.tradeId == "trade_" + NatToString(|before + prev| + 1);
      }
    }
  }

  /** Numbered trades have pairwise distinct ids. */
  lemma NumberedDistinct(ts: seq<Trade>, i: int, j: int)
    requires Numbered(ts) && 0 <= i < j < |ts|
    ensures ts[i].tradeId != ts[j].tradeId
  {
    var a, b := NatToString(i + 1), NatToString(j + 1);
    if ts[i].tradeId == ts[j].tradeId {
      assert ("trade_" + a)[6..] == a && ("trade_" + b)[6..] == b;
      NatToStringInjective(i + 1, j + 1);
    }
  }

  /** Some order among `es` with id `k` fills against the bar. */
  ghost predicate FilledId(es: seq<(string, Order)>, d: MarketData, k: string)
  {
    exists i :: 0 <= i < |es| && es[i].1.orderId == k && Fill(es[i].1, d).Some?
  }

  lemma FilledIdSnoc(es: seq<(string, Order)>, d: MarketData, k: string)
    requires es != []
    ensures FilledId(es, d, k) <==>
            FilledId(es[..|es| - 1], d, k) || (es[|es| - 1].1.orderId == k && Fill(es[|es| - 1].1, d).Some?)
  {
    var prefix := es[..|es| - 1];
    if FilledId(prefix, d, k) {
      var i :| 0 <= i < |prefix| && prefix[i].1.orderId == k && Fill(prefix[i].1, d).Some?;
      assert es[i] == prefix[i];
    }
    if FilledId(es, d, k) {
      var i :| 0 <= i < |es| && es[i].1.orderId == k && Fill(es[i].1, d).Some?;
      if i < |prefix| {
        assert prefix[i] == es[i];
      }
    }
  }

  /** An order id is among the matched ones exactly when one of the orders with that id fills. */
  lemma {:induction false} FillsOrderIds(es: seq<(string, Order)>, d: MarketData, base: nat, time: int,
                                         rate: real, accountId: string, k: string)
    ensures k in OrderIds(Fills(es, d, base, time, rate, accountId)) <==> FilledId(es, d, k)
  {
    if es != [] {
      var prefix := es[..|es| - 1];
      FillsOrderIds(prefix, d, base, time, rate, accountId, k);
      FilledIdSnoc(es, d, k);
      var prev := Fills(prefix, d, base, time, rate, accountId);
      var o := es[|es| - 1].1;
      if Fill(o, d).Some? {
        assert OrderIds(Fills(es, d, base, time, rate, accountId)) == OrderIds(prev) + [o.orderId];
      }
    }
  }

  /** What every strategy is told about a fill: the order as completed (`updateOrder`) and its trade (`onTrade`). */
  datatype Notice = Notice(order: Order, trade: Trade)

  /** The resting order as `matchOrders` completes it: fully filled at the fill price, at the current time. */
  function FilledOrder(o: Order, price: real, time: int): Order
  {
    o.(status := Completed, filledQuantity := o.quantity, avgFillPrice := price, updateTime := time)
  }

  /** The notices of one matching pass, one per fill, in the order of the fills. */
  function Notices(es: seq<(string, Order)>, d: MarketData, base: nat, time: int, rate: real, accountId: string)
    : (ns: seq<Notice>)
    ensures |ns| == |Fills(es, d, base, time, rate, accountId)|
  {
    if es == [] then []
    else
      var prefix := es[..|es| - 1];
      var o := es[|es| - 1].1;
      match Fill(o, d)
      case None => Notices(prefix, d, base, time, rate, accountId)
      case Some(price) =>
        Notices(prefix, d, base, time, rate, accountId)
          + [Notice(FilledOrder(o, price, time),
                    TradeOf(o, price, base + |Fills(prefix, d, base, time, rate, accountId)| + 1, time, rate, accountId))]
  }

  /** The notice for the `i`-th trade of a pass carries that trade and the resting order it filled, completed. */
  ghost predicate NoticeOf(es: seq<(string, Order)>, d: MarketData, time: int, n: Notice, t: Trade)
  {
    && n.trade == t
    && exists j :: 0 <= j < |es| && Fill(es[j].1, d) == Some(t.price) && n.order == FilledOrder(es[j].1, t.price, time)
  }

  /**
   * Each notice of a pass reports its trade and the order that made it, now
   * completed: status Completed, filled in full at the trade's price, at the
   * time of the pass.
   */
  lemma {:induction false} NoticesMeaning(es: seq<(string, Order)>, d: MarketData, base: nat, time: int, rate: real,
                                          accountId: string, i: int)
    requires 0 <= i < |Fills(es, d, base, time, rate, accountId)|
    ensures var n, t := Notices(es, d, base, time, rate, accountId)[i], Fills(es, d, base, time, rate, accountId)[i];
            && NoticeOf(es, d, time, n, t)
            && n.order.status == Completed && n.order.orderId == t.orderId
            && n.order.filledQuantity == n.order.quantity == t.quantity
            && n.order.avgFillPrice == t.price && n.order.updateTime == time
  {
    var prefix := es[..|es| - 1];
    var prev := Fills(prefix, d, base, time, rate, accountId);
    var o := es[|es| - 1].1;
    if i < |prev| {
      NoticesMeaning(prefix, d, base, time, rate, accountId, i);
      var j :| 0 <= j < |prefix| && Fill(prefix[j].1, d) == Some(prev[i].price)
               && Notices(prefix, d, base, time, rate, accountId)[i].order == FilledOrder(prefix[j].1, prev[i].price, time);
      assert es[j] == prefix[j];
    } else {
      assert Fill(o, d).Some?;
      assert Fill(es[|es| - 1].1, d) == Some(Fills(es, d, base, time, rate, accountId)[i].price);
    }
  }

  /* ---------- the order book and account as one state ---------- */

  /** Resting orders are stored under their own id and have a positive quantity. */
  predicate OrdersKeyed(m: QMap<Order>)
  {
    forall k :: k in ToMap(m) ==> ToMap(m)[k].orderId == k && ToMap(m)[k].quantity > 0.0
  }

  /** The part of the engine that matching and the strategies' requests change. */
  datatype Book = Book(orders: QMap<Order>, trades: seq<Trade>, account: Account)

  predicate BookValid(b: Book)
  {
    QMaps.Valid(b.orders) && OrdersKeyed(b.orders) &&
    QMaps.Valid(b.account.positions) && PositionsPositive(b.account.positions)
  }

  /** The entries of a keyed order map carry their key as order id and a positive quantity. */
  lemma EntriesKeyed(m: QMap<Order>)
    requires QMaps.Valid(m) && OrdersKeyed(m)
    ensures PositiveEntries(m.entries)
    ensures forall i :: 0 <= i < |m.entries| ==> m.entries[i].1.orderId == m.entries[i].0
  {
    forall i | 0 <= i < |m.entries|
      ensures m.entries[i].1.quantity > 0.0 && m.entries[i].1.orderId == m.entries[i].0
    {
      EntryValue(m, i);
    }
  }

  /** The trades one pass of `matchOrders` makes against a bar at time `time`. */
  function PassTrades(b: Book, d: MarketData, time: int, rate: real): seq<Trade>
  {
    Fills(b.orders.entries, d, |b.trades|, time, rate, b.account.accountId)
  }

  /** The accounts `setAccount` hands the strategies during one matching pass over the book. */
  function PassAccounts(b: Book, d: MarketData, time: int, rate: real): (r: seq<Account>)
    requires BookValid(b)
    ensures |r| == |PassTrades(b, d, time, rate)|
  {
    EntriesKeyed(b.orders);
    FillsPositive(b.orders.entries, d, |b.trades|, time, rate, b.account.accountId);
    Accounts(b.account, PassTrades(b, d, time, rate), time)
  }

  /** `matchOrders`: fill what fills, record and book the trades, drop the filled orders. */
  function MatchBook(b: Book, d: MarketData, time: int, rate: real): (r: Book)
    requires BookValid(b)
    ensures BookValid(r)
  {
    EntriesKeyed(b.orders);
    FillsPositive(b.orders.entries, d, |b.trades|, time, rate, b.account.accountId);
    var ts := PassTrades(b, d, time, rate);
    Book(RemoveAll(b.orders, OrderIds(ts)), b.trades + ts, SettleAll(b.account, ts, time))
  }

  /**
   * After a matching pass a resting order is gone exactly when it filled
   * against the bar, and an order that did not fill is left as it was.
   */
  lemma MatchRemovesFilled(b: Book, d: MarketData, time: int, rate: real, k: string)
    requires BookValid(b) && k in ToMap(b.orders)
    ensures k !in ToMap(MatchBook(b, d, time, rate).orders) <==> Fill(ToMap(b.orders)[k], d).Some?
    ensures k in ToMap(MatchBook(b, d, time, rate).orders) ==>
            ToMap(MatchBook(b, d, time, rate).orders)[k] == ToMap(b.orders)[k]
  {
    var es := b.orders.entries;
    EntriesKeyed(b.orders);
    var ts := PassTrades(b, d, time, rate);
    FillsOrderIds(es, d, |b.trades|, time, rate, b.account.accountId, k);
    var ids := OrderIds(ts);
    assert k in ToMap(MatchBook(b, d, time, rate).orders) <==> k !in ids;
    if FilledId(es, d, k) {
      var i :| 0 <= i < |es| && es[i].1.orderId == k && Fill(es[i].1, d).Some?;
      EntryValue(b.orders, i);
    }
    if Fill(ToMap(b.orders)[k], d).Some? {
      EntriesMapKeys(es, k);
      var i :| 0 <= i < |es| && es[i].0 == k;
      EntryValue(b.orders, i);
    }
  }

  /** A matching pass books every new trade's commission and nothing else against the balance. */
  lemma MatchBalance(b: Book, d: MarketData, time: int, rate: real)
    requires BookValid(b)
    ensures MatchBook(b, d, time, rate).trades == b.trades + PassTrades(b, d, time, rate)
    ensures MatchBook(b, d, time, rate).account.balance == b.account.balance - SumCommission(PassTrades(b, d, time, rate))
    ensures MatchBook(b, d, time, rate).account.accountId == b.account.accountId
  {
    EntriesKeyed(b.orders);
    FillsPositive(b.orders.entries, d, |b.trades|, time, rate, b.account.accountId);
    SettleAllCash(b.account, PassTrades(b, d, time, rate), time);
  }

  /* ---------- strategy requests and the replay ---------- */

  /** What a strategy asks of the engine through its callbacks while it sees one bar. */
  datatype Request = Submit(order: Order) | Cancel(orderId: string)

  predicate PositiveRequests(rs: seq<Request>)
  {
    forall i :: 0 <= i < |rs| ==> rs[i].Submit? ==> rs[i].order.quantity > 0.0
  }

  /** `processOrder` stores (or replaces) an order under its id; `processCancelOrder` drops a present id. */
  function Apply(b: Book, r: Request): (b': Book)
    requires BookValid(b) && (r.Submit? ==> r.order.quantity > 0.0)
    ensures BookValid(b')
  {
    match r
    case Submit(o) => b.(orders := Put(b.orders, o.orderId, o))
    case Cancel(id) => if id in ToMap(b.orders) then b.(orders := Remove(b.orders, id)) else b
  }

  /** Submitting makes the order rest under its id; cancelling leaves the id absent; trades and account stay. */
  lemma ApplyEffect(b: Book, r: Request)
    requires BookValid(b) && (r.Submit? ==> r.order.quantity > 0.0)
    ensures r.Submit? ==> ToMap(Apply(b, r).orders) == ToMap(b.orders)[r.order.orderId := r.order]
    ensures r.Cancel? ==> ToMap(Apply(b, r).orders) == ToMap(b.orders) - {r.orderId}
    ensures Apply(b, r).trades == b.trades && Apply(b, r).account == b.account
  {
  }

  function ApplyAll(b: Book, rs: seq<Request>): (b': Book)
    requires BookValid(b) && PositiveRequests(rs)
    ensures BookValid(b')
  {
    if rs == [] then b
    else
      assert PositiveRequests(rs[..|rs| - 1]);
      Apply(ApplyAll(b, rs[..|rs| - 1]), rs[|rs| - 1])
  }

  /** Requests change only the resting orders. */
  lemma {:induction false} ApplyAllKeepsTrades(b: Book, rs: seq<Request>)
    requires BookValid(b) && PositiveRequests(rs)
    ensures ApplyAll(b, rs).trades == b.trades && ApplyAll(b, rs).account == b.account
  {
    if rs != [] {
      assert PositiveRequests(rs[..|rs| - 1]);
      ApplyAllKeepsTrades(b, rs[..|rs| - 1]);
    }
  }

  /** Every request any strategy can make submits only orders of positive quantity. */
  ghost predicate Reactive(react: (nat, MarketData) -> seq<Request>)
  {
    forall k: nat, d: MarketData :: PositiveRequests(react(k, d))
  }

  /**
   * `execute`: for each bar in turn, the strategies' requests for that bar
   * (the `k`-th bar yields `react(k, bar)`) are applied, then the orders are
   * matched at the bar's own timestamp.
   */
  function Run(b: Book, data: seq<MarketData>, react: (nat, MarketData) -> seq<Request>, rate: real): (b': Book)
    requires BookValid(b) && Reactive(react)
    ensures BookValid(b')
  {
    if data == [] then b
    else
      var k := |data| - 1;
      MatchBook(ApplyAll(Run(b, data[..k], react, rate), react(k, data[k])), data[k], data[k].timestamp, rate)
  }

  /** The replay of one more bar. */
  lemma RunSnoc(b: Book, data: seq<MarketData>, k: int, react: (nat, MarketData) -> seq<Request>, rate: real)
    requires BookValid(b) && Reactive(react) && 0 <= k < |data|
    ensures Run(b, data[..k + 1], react, rate) ==
            MatchBook(ApplyAll(Run(b, data[..k], react, rate), react(k, data[k])), data[k], data[k].timestamp, rate)
  {
    assert data[..k + 1][..k] == data[..k] && data[..k + 1][k] == data[k];
  }

  /**
   * `r` continues `b`'s ledger: the trade list only grew, the numbering carries
   * on, and the balance fell by exactly the commissions of the new trades.
   */
  predicate Extends(b: Book, r: Book)
  {
    |b.trades| <= |r.trades| && r.trades[..|b.trades|] == b.trades && Numbered(r.trades) &&
    r.account.balance == b.account.balance - SumCommission(r.trades[|b.trades|..]) &&
    r.account.accountId == b.account.accountId
  }

  /** A matching pass extends the ledger. */
  lemma MatchExtends(b: Book, d: MarketData, time: int, rate: real)
    requires BookValid(b) && Numbered(b.trades)
    ensures Extends(b, MatchBook(b, d, time, rate))
  {
    MatchBalance(b, d, time, rate);
    var ts := PassTrades(b, d, time, rate);
    FillsNumbered(b.orders.entries, d, b.trades, time, rate, b.account.accountId);
    var r := MatchBook(b, d, time, rate);
    assert r.trades[..|b.trades|] == b.trades;
    assert r.trades[|b.trades|..] == ts;
  }

  lemma ExtendsTrans(a: Book, b: Book, c: Book)
    requires Extends(a, b) && Extends(b, c)
    ensures Extends(a, c)
  {
    assert c.trades[..|b.trades|][..|a.trades|] == c.trades[..|a.trades|];
    assert c.trades[|a.trades|..] == b.trades[|a.trades|..] + c.trades[|b.trades|..];
    SumCommissionAppend(b.trades[|a.trades|..], c.trades[|b.trades|..]);
  }

  /** One bar of a replay keeps extending the ledger. */
  lemma StepExtends(b: Book, before: Book, rs: seq<Request>, d: MarketData, rate: real)
    requires BookValid(before) && PositiveRequests(rs) && Extends(b, before)
    ensures Extends(b, MatchBook(ApplyAll(before, rs), d, d.timestamp, rate))
  {
    var applied := ApplyAll(before, rs);
    ApplyAllKeepsTrades(before, rs);
    MatchExtends(applied, d, d.timestamp, rate);
    ExtendsTrans(b, applied, MatchBook(applied, d, d.timestamp, rate));
  }

  /**
   * Over a whole replay the trade list only grows, trade numbering carries on
   * from the trades already recorded, and the balance falls by exactly the
   * commissions of the new trades.
   */
  lemma {:induction false} RunLedger(b: Book, data: seq<MarketData>, react: (nat, MarketData) -> seq<Request>, rate: real)
    requires BookValid(b) && Reactive(react) && Numbered(b.trades)
    ensures Extends(b, Run(b, data, react, rate))
  {
    if data == [] {
      assert b.trades[|b.trades|..] == [];
      assert b.trades[..|b.trades|] == b.trades;
    } else {
      var k := |data| - 1;
      RunLedger(b, data[..k], react, rate);
      StepExtends(b, Run(b, data[..k], react, rate), react(k, data[k]), data[k], rate);
    }
  }

  lemma {:induction false} SumCommissionAppend(xs: seq<Trade>, ys: seq<Trade>)
    ensures SumCommission(xs + ys) == SumCommission(xs) + SumCommission(ys)
    decreases |ys|
  {
    if ys == [] {
      assert xs + ys == xs;
    } else {
      var ys' := ys[..|ys| - 1];
      assert (xs + ys)[..|xs + ys| - 1] == xs + ys';
      SumCommissionAppend(xs, ys');
    }
  }

  /* ---------- progress ---------- */

  /** The percentage reported after step `k` of `n`, truncated as the integer cast does. */
  function Progress(k: nat, n: nat): int
    requires 0 < n
  {
    (k * 100) / n
  }

  /** The reports of the first `k` steps of `n`. */
  function Reports(k: nat, n: nat): (rs: seq<int>)
    requires k <= n
    ensures |rs| == k
  {
    if k == 0 then [] else Reports(k - 1, n) + [Progress(k, n)]
  }

  lemma ReportsSnoc(k: nat, n: nat)
    requires k < n
    ensures Reports(k + 1, n) == Reports(k, n) + [Progress(k + 1, n)]
  {
  }

  lemma {:induction false} ReportsAt(k: nat, n: nat, i: nat)
    requires k <= n && i < k
    ensures Reports(k, n)[i] == Progress(i + 1, n)
  {
    if i < k - 1 {
      ReportsAt(k - 1, n, i);
    }
  }

  lemma DivMonotone(a: nat, b: nat, n: nat)
    requires 0 < n && a <= b
    ensures a / n <= b / n
  {
    var qa, qb := a / n, b / n;
    assert a == qa * n + a % n && b == qb * n + b % n;
    assert (qa - qb) * n == qa * n - qb * n;
    KlineAggregation.MulSign(qa - qb, n);
  }

  lemma ProgressBounds(k: nat, l: nat, n: nat)
    requires 1 <= k <= l <= n
    ensures 0 <= Progress(k, n) <= Progress(l, n) <= 100
    ensures Progress(n, n) == 100
  {
    KlineAggregation.MulMonotone(k, l, 100);
    KlineAggregation.MulMonotone(l, n, 100);
    DivMonotone(k * 100, l * 100, n);
    DivMonotone(l * 100, n * 100, n);
    KlineAggregation.DivUnique(n * 100, n, 100, 0);
  }

  /** The progress reports of a full run rise monotonically from at least 0 to exactly 100. */
  lemma ProgressReports(n: nat, i: nat, j: nat)
    requires i <= j < n
    ensures 0 <= Reports(n, n)[i] <= Reports(n, n)[j] <= 100
    ensures Reports(n, n)[n - 1] == 100
  {
    ReportsAt(n, n, i);
    ReportsAt(n, n, j);
    ReportsAt(n, n, n - 1);
    ProgressBounds(i + 1, j + 1, n);
  }

  /* ---------- performance metrics ---------- */

  function Max(a: real, b: real): real
  {
    if a < b then b else a
  }

  /** A trade's effect on the equity curve: a long trade adds its value net of commission, any other trade subtracts it. */
  function Signed(t: Trade): real
  {
    (if t.direction == Long then 1.0 else -1.0) * (t.price * t.quantity - t.commission)
  }

  /** The equity after the trades `ts`, starting from `init`. */
  function Equity(init: real, ts: seq<Trade>): real
  {
    if ts == [] then init else Equity(init, ts[..|ts| - 1]) + Signed(ts[|ts| - 1])
  }

  /** The highest of the starting capital and the equity after each trade so far. */
  function Peak(init: real, ts: seq<Trade>): (p: real)
    ensures p >= init
    ensures ts != [] ==> p >= Equity(init, ts) && p >= Peak(init, ts[..|ts| - 1])
  {
    if ts == [] then init else Max(Peak(init, ts[..|ts| - 1]), Equity(init, ts))
  }

  /** The drawdown just after the last trade: the fall from the running peak, relative to that peak. */
  function Drawdown(init: real, ts: seq<Trade>): real
    requires init > 0.0 && ts != []
  {
    Fall(Peak(init, ts), Equity(init, ts))
  }

  /** The fall from `peak` to `equity`, relative to `peak`. */
  function Fall(peak: real, equity: real): real
    requires peak > 0.0
  {
    (peak - equity) / peak
  }

  /** The largest drawdown after any trade, and 0 when there is none. */
  function MaxDrawdown(init: real, ts: seq<Trade>): (m: real)
    requires init > 0.0
    ensures m >= 0.0
  {
    if ts == [] then 0.0 else Max(MaxDrawdown(init, ts[..|ts| - 1]), Drawdown(init, ts))
  }

  /** The maximum drawdown bounds every drawdown along the curve. */
  lemma {:induction false} MaxDrawdownIsMaximum(init: real, ts: seq<Trade>)
    requires init > 0.0
    ensures forall i :: 1 <= i <= |ts| ==> Drawdown(init, ts[..i]) <= MaxDrawdown(init, ts)
  {
    if ts != [] {
      var n := |ts|;
      var prefix := ts[..n - 1];
      MaxDrawdownIsMaximum(init, prefix);
      forall i | 1 <= i <= n
        ensures Drawdown(init, ts[..i]) <= MaxDrawdown(init, ts)
      {
        if i == n {
          assert ts[..i] == ts;
        } else {
          assert ts[..i] == prefix[..i];
        }
      }
    }
  }

  /** The maximum drawdown is one of the drawdowns along the curve, or 0. */
  lemma {:induction false} MaxDrawdownAttained(init: real, ts: seq<Trade>)
    requires init > 0.0
    ensures MaxDrawdown(init, ts) == 0.0 ||
            exists i :: 1 <= i <= |ts| && MaxDrawdown(init, ts) == Drawdown(init, ts[..i])
  {
    if ts != [] {
      var n := |ts|;
      var prefix := ts[..n - 1];
      assert ts[..n] == ts;
      if MaxDrawdown(init, ts) != Drawdown(init, ts) && MaxDrawdown(init, ts) != 0.0 {
        MaxDrawdownAttained(init, prefix);
        var i :| 1 <= i <= n - 1 && MaxDrawdown(init, prefix) == Drawdown(init, prefix[..i]);
        assert ts[..i] == prefix[..i];
      }
    }
  }

  /** While the equity never goes negative, no drawdown exceeds 100%. */
  lemma {:induction false} MaxDrawdownAtMostOne(init: real, ts: seq<Trade>)
    requires init > 0.0
    requires forall i :: 1 <= i <= |ts| ==> Equity(init, ts[..i]) >= 0.0
    ensures MaxDrawdown(init, ts) <= 1.0
  {
    if ts != [] {
      var n := |ts|;
      var prefix := ts[..n - 1];
      forall i | 1 <= i <= n - 1
        ensures Equity(init, prefix[..i]) >= 0.0
      {
        assert prefix[..i] == ts[..i];
      }
      MaxDrawdownAtMostOne(init, prefix);
      assert ts[..n] == ts;
      RatioInUnit(Peak(init, ts) - Equity(init, ts), Peak(init, ts));
    }
  }

  /** A quantity between 0 and a positive bound, divided by that bound, lies in [0, 1]. */
  lemma RatioInUnit(x: real, p: real)
    requires p > 0.0 && x <= p
    ensures x / p <= 1.0
    ensures x >= 0.0 ==> x / p >= 0.0
  {
    var y := x / p;
    assert y * p == x;
    assert (1.0 - y) * p == p - x;
  }

  /** The bar-to-bar comparisons of `calculateMetrics`: a trade priced above the previous one is a win. */
  function Wins(ts: seq<Trade>): nat
  {
    if |ts| < 2 then 0
    else Wins(ts[..|ts| - 1]) + (if ts[|ts| - 1].price > ts[|ts| - 2].price then 1 else 0)
  }

  /** A trade priced at or below the previous one is a loss. */
  function Losses(ts: seq<Trade>): nat
  {
    if |ts| < 2 then 0
    else Losses(ts[..|ts| - 1]) + (if ts[|ts| - 1].price > ts[|ts| - 2].price then 0 else 1)
  }

  function Profit(ts: seq<Trade>): real
  {
    if |ts| < 2 then 0.0
    else Profit(ts[..|ts| - 1]) +
         (if ts[|ts| - 1].price > ts[|ts| - 2].price then ts[|ts| - 1].price - ts[|ts| - 2].price else 0.0)
  }

  function Loss(ts: seq<Trade>): real
  {
    if |ts| < 2 then 0.0
    else Loss(ts[..|ts| - 1]) +
         (if ts[|ts| - 1].price > ts[|ts| - 2].price then 0.0 else ts[|ts| - 2].price - ts[|ts| - 1].price)
  }

  /** No trade is priced below the one before it. */
  predicate NeverFalls(ts: seq<Trade>)
  {
    forall j :: 1 <= j < |ts| ==> ts[j - 1].price <= ts[j].price
  }

  lemma PrefixPairs(ts: seq<Trade>)
    requires |ts| >= 2
    ensures ts[..|ts| - 1][|ts| - 2] == ts[|ts| - 2]
    ensures NeverFalls(ts) <==> NeverFalls(ts[..|ts| - 1]) && ts[|ts| - 2].price <= ts[|ts| - 1].price
  {
    var prefix := ts[..|ts| - 1];
    if NeverFalls(prefix) && ts[|ts| - 2].price <= ts[|ts| - 1].price {
      forall j | 1 <= j < |ts|
        ensures ts[j - 1].price <= ts[j].price
      {
        if j < |ts| - 1 {
          assert prefix[j - 1] == ts[j - 1] && prefix[j] == ts[j];
        }
      }
    }
    if NeverFalls(ts) {
      forall j | 1 <= j < |prefix|
        ensures prefix[j - 1].price <= prefix[j].price
      {
        assert prefix[j - 1] == ts[j - 1] && prefix[j] == ts[j];
      }
    }
  }

  /**
   * Every consecutive pair of trades is either a win or a loss; the total
   * profit is positive exactly when there is a win, and the total loss is
   * zero exactly when no trade is priced below its predecessor.
   */
  lemma {:induction false} WinLossCounts(ts: seq<Trade>)
    ensures Wins(ts) + Losses(ts) == if ts == [] then 0 else |ts| - 1
    ensures Profit(ts) >= 0.0 && (Profit(ts) > 0.0 <==> Wins(ts) > 0)
    ensures Loss(ts) >= 0.0 && (Loss(ts) == 0.0 <==> NeverFalls(ts))
  {
    if |ts| >= 2 {
      WinLossCounts(ts[..|ts| - 1]);
      PrefixPairs(ts);
    }
  }

  /** The equity after each trade, in order. */
  function Curve(init: real, ts: seq<Trade>): (c: seq<real>)
    ensures |c| == |ts|
  {
    if ts == [] then [] else Curve(init, ts[..|ts| - 1]) + [Equity(init, ts)]
  }

  /** The time of each trade, in order. */
  function Times(ts: seq<Trade>): (c: seq<int>)
    ensures |c| == |ts|
    ensures forall i :: 0 <= i < |ts| ==> c[i] == ts[i].tradeTime
  {
    if ts == [] then [] else Times(ts[..|ts| - 1]) + [ts[|ts| - 1].tradeTime]
  }

  /** The curve's `i`-th point is the equity after the first `i + 1` trades. */
  lemma {:induction false} CurvePoints(init: real, ts: seq<Trade>)
    ensures forall i :: 0 <= i < |ts| ==> Curve(init, ts)[i] == Equity(init, ts[..i + 1])
  {
    if ts != [] {
      var n := |ts|;
      var prefix := ts[..n - 1];
      CurvePoints(init, prefix);
      forall i | 0 <= i < n
        ensures Curve(init, ts)[i] == Equity(init, ts[..i + 1])
      {
        if i == n - 1 {
          assert ts[..i + 1] == ts;
        } else {
          assert prefix[..i + 1] == ts[..i + 1];
        }
      }
    }
  }

  /** The peak bounds every point of the curve. */
  lemma {:induction false} CurveBelowPeak(init: real, ts: seq<Trade>)
    ensures forall i :: 0 <= i < |ts| ==> Curve(init, ts)[i] <= Peak(init, ts)
  {
    if ts != [] {
      var prefix := ts[..|ts| - 1];
      CurveBelowPeak(init, prefix);
      assert forall i :: 0 <= i < |ts| - 1 ==> Curve(init, ts)[i] == Curve(init, prefix)[i];
    }
  }

  /** The peak is the starting capital or a point of the curve. */
  lemma {:induction false} PeakOnCurve(init: real, ts: seq<Trade>)
    ensures Peak(init, ts) == init || exists i :: 0 <= i < |ts| && Peak(init, ts) == Curve(init, ts)[i]
  {
    if ts != [] {
      var n := |ts|;
      var prefix := ts[..n - 1];
      assert Curve(init, ts)[n - 1] == Equity(init, ts);
      if Peak(init, ts) != init && Peak(init, ts) != Equity(init, ts) {
        PeakOnCurve(init, prefix);
        var i :| 0 <= i < n - 1 && Peak(init, prefix) == Curve(init, prefix)[i];
        assert Curve(init, ts)[i] == Curve(init, prefix)[i];
      }
    }
  }

  /**
   * The result `calculateMetrics` leaves: the figures below replace the
   * previous result's, the equity curve and its times are appended to the
   * previous result's, and the annual return and Sharpe ratio are kept.
   */
  function Metrics(prev: BacktestResult, balance: real, init: real, ts: seq<Trade>): BacktestResult
    requires init > 0.0
  {
    var w, l := Wins(ts), Losses(ts);
    var p, q := Profit(ts), Loss(ts);
    prev.(finalCapital := balance, totalReturn := (balance - init) / init,
          maxDrawdown := MaxDrawdown(init, ts),
          winTrades := w, lossTrades := l, totalTrades := w + l,
          winRate := Divide(w as real, (w + l) as real), profitFactor := Divide(p, q),
          averageProfit := if w > 0 then p / w as real else 0.0,
          averageLoss := if l > 0 then q / l as real else 0.0,
          trades := ts,
          equityCurve := prev.equityCurve + Curve(init, ts),
          equityTimes := prev.equityTimes + Times(ts))
  }

  /**
   * The counts exclude the first trade; the win rate is a number exactly
   * when there are two trades or more, and then lies in [0, 1]; the profit
   * factor is a number exactly when some trade is priced below its predecessor.
   */
  lemma MetricsDefined(prev: BacktestResult, balance: real, init: real, ts: seq<Trade>)
    requires init > 0.0
    ensures var r := Metrics(prev, balance, init, ts);
            r.totalTrades == (if ts == [] then 0 else |ts| - 1) &&
            (r.winRate.Finite? <==> |ts| >= 2) &&
            (r.winRate.Finite? ==> 0.0 <= r.winRate.value <= 1.0) &&
            (r.profitFactor.Finite? <==> !NeverFalls(ts)) &&
            r.averageProfit >= 0.0 && r.averageLoss >= 0.0
  {
    var w, l := Wins(ts), Losses(ts);
    WinLossCounts(ts);
    if w + l > 0 {
      RatioInUnit(w as real, (w + l) as real);
    }
    if w > 0 {
      assert Profit(ts) / w as real >= 0.0;
    }
    if l > 0 {
      assert Loss(ts) / l as real >= 0.0;
    }
  }

  /* ---------- loading ---------- */

  /** Inserts a bar into a time-ordered list. */
  function InsertByTime(x: MarketData, s: seq<MarketData>): (r: seq<MarketData>)
    requires KlineAggregation.SortedByTime(s)
    ensures KlineAggregation.SortedByTime(r)
    ensures multiset(r) == multiset(s) + multiset{x}
  {
    if s == [] then [x]
    else if x.timestamp < s[0].timestamp then
      SortedTail(s);
      SortedCons(x, s);
      [x] + s
    else
      SortedTail(s);
      var rest := InsertByTime(x, s[1..]);
      assert s == [s[0]] + s[1..];
      BoundCarries(rest, s[1..], x, s[0].timestamp);
      SortedCons(s[0], rest);
      [s[0]] + rest
  }

  /** The tail of an ordered list is ordered, and its head is no later than any of it. */
  lemma SortedTail(s: seq<MarketData>)
    requires s != [] && KlineAggregation.SortedByTime(s)
    ensures KlineAggregation.SortedByTime(s[1..])
    ensures forall k :: 0 <= k < |s| - 1 ==> s[0].timestamp <= s[1..][k].timestamp
    ensures forall k :: 0 <= k < |s| ==> s[0].timestamp <= s[k].timestamp
  {
    var t := s[1..];
    forall i, j | 0 <= i <= j < |t|
      ensures t[i].timestamp <= t[j].timestamp
    {
      assert t[i] == s[i + 1] && t[j] == s[j + 1];
    }
  }

  /** A bar no later than the first of an ordered list, in front of it, keeps it ordered. */
  lemma SortedCons(h: MarketData, s: seq<MarketData>)
    requires KlineAggregation.SortedByTime(s)
    requires forall k :: 0 <= k < |s| ==> h.timestamp <= s[k].timestamp
    ensures KlineAggregation.SortedByTime([h] + s)
  {
    var r := [h] + s;
    forall i, j | 0 <= i <= j < |r|
      ensures r[i].timestamp <= r[j].timestamp
    {
      if i > 0 {
        assert r[i] == s[i - 1] && r[j] == s[j - 1];
      } else if j > 0 {
        assert r[j] == s[j - 1];
      }
    }
  }

  /** A rearrangement of bars no earlier than `t`, plus one more no earlier than `t`, is no earlier than `t`. */
  lemma BoundCarries(r: seq<MarketData>, s: seq<MarketData>, x: MarketData, t: int)
    requires multiset(r) == multiset(s) + multiset{x}
    requires x.timestamp >= t && forall k :: 0 <= k < |s| ==> s[k].timestamp >= t
    ensures forall j :: 0 <= j < |r| ==> r[j].timestamp >= t
  {
    forall j | 0 <= j < |r|
      ensures r[j].timestamp >= t
    {
      assert r[j] in multiset(r);
      if r[j] != x {
        assert r[j] in multiset(s);
        var k :| 0 <= k < |s| && s[k] == r[j];
      }
    }
  }

  /** A time-ordered rearrangement of the bars (`std::sort` by timestamp; ties in no promised order). */
  function SortByTime(s: seq<MarketData>): (r: seq<MarketData>)
    ensures KlineAggregation.SortedByTime(r)
    ensures multiset(r) == multiset(s)
  {
    if s == [] then []
    else
      assert s == [s[0]] + s[1..];
      InsertByTime(s[0], SortByTime(s[1..]))
  }

  /** The account `initialize` sets up: the back-test id and name, the initial capital, no margin or profit; positions stay. */
  function Reset(a: Account, capital: real): Account
  {
    a.(accountId := "backtest_account", name := "\U{56de}\U{6d4b}\U{8d26}\U{6237}", balance := capital, available := capital,
       margin := 0.0, unrealizedPnL := 0.0, realizedPnL := 0.0)
  }

  /** The bars of every symbol that loaded, one symbol after another. */
  function Loaded(load: string -> Option<seq<MarketData>>, symbols: seq<string>): seq<MarketData>
  {
    if symbols == [] then []
    else Loaded(load, symbols[..|symbols| - 1]) +
         match load(symbols[|symbols| - 1]) case Some(d) => d case None => []
  }

  /** The position of the first symbol that fails to load, or the number of symbols when all load. */
  function FirstFailure(load: string -> Option<seq<MarketData>>, symbols: seq<string>): (n: nat)
    ensures n <= |symbols|
    ensures forall i :: 0 <= i < n ==> load(symbols[i]).Some?
    ensures n < |symbols| ==> load(symbols[n]).None?
  {
    if symbols == [] then 0
    else if load(symbols[0]).None? then 0
    else 1 + FirstFailure(load, symbols[1..])
  }

  /** The first failure is the one a loop that stops at the first failing symbol finds. */
  lemma FirstFailureAt(load: string -> Option<seq<MarketData>>, symbols: seq<string>, i: nat)
    requires i <= |symbols| && forall j :: 0 <= j < i ==> load(symbols[j]).Some?
    requires i < |symbols| ==> load(symbols[i]).None?
    ensures FirstFailure(load, symbols) == i
  {
  }

  /** The loading loop of `initialize`: append each symbol's bars in turn, stopping at the first that fails. */
  method AppendLoaded(load: string -> Option<seq<MarketData>>, symbols: seq<string>, start: seq<MarketData>)
    returns (data: seq<MarketData>, ok: bool)
    ensures ok <==> forall i :: 0 <= i < |symbols| ==> load(symbols[i]).Some?
    ensures ok ==> FirstFailure(load, symbols) == |symbols|
    ensures data == start + Loaded(load, symbols[..FirstFailure(load, symbols)])
  {
    data := start;
    for i := 0 to |symbols|
      invariant forall j :: 0 <= j < i ==> load(symbols[j]).Some?
      invariant data == start + Loaded(load, symbols[..i])
    {
      var r := load(symbols[i]);
      assert symbols[..i + 1][..i] == symbols[..i];
      if r.None? {
        FirstFailureAt(load, symbols, i);
        return data, false;
      }
      data := data + r.value;
    }
    FirstFailureAt(load, symbols, |symbols|);
    ok := true;
  }

  /**
   * The first loop of `matchOrders`: walk the resting orders in id order and,
   * for each one that fills, number and record its trade, book it on the
   * account and note the order id for removal.
   */
  method MatchPass(es: seq<(string, Order)>, d: MarketData, base: nat, time: int, rate: real, accountId: string,
                   a: Account)
    returns (fills: seq<Trade>, acct: Account, toRemove: seq<string>, notices: seq<Notice>, seen: seq<Account>)
    requires PositiveEntries(es) && QMaps.Valid(a.positions) && PositionsPositive(a.positions)
    ensures fills == Fills(es, d, base, time, rate, accountId)
    ensures AllPositive(fills)
    ensures acct == SettleAll(a, fills, time)
    ensures toRemove == OrderIds(fills)
    ensures notices == Notices(es, d, base, time, rate, accountId)
    ensures seen == Accounts(a, fills, time)
  {
    fills := [];
    acct := a;
    toRemove := [];
    notices := [];
    seen := [];
    for i := 0 to |es|
      invariant fills == Fills(es[..i], d, base, time, rate, accountId)
      invariant AllPositive(fills)
      invariant acct == SettleAll(a, fills, time)
      invariant toRemove == OrderIds(fills)
      invariant notices == Notices(es[..i], d, base, time, rate, accountId)
      invariant seen == Accounts(a, fills, time)
    {
      FillsSnoc(es, i, d, base, time, rate, accountId);
      NoticesSnoc(es, i, d, base, time, rate, accountId);
      var o := es[i].1;
      var f := Fill(o, d);
      if f.Some? {
        var t := TradeOf(o, f.value, base + |fills| + 1, time, rate, accountId);
        PassTake(es, i, d, base, time, rate, accountId, a, fills, t);
        assert (fills + [t])[..|fills|] == fills;
        fills := fills + [t];
        acct := Settle(acct, t, time);
        toRemove := toRemove + [o.orderId];
        notices := notices + [Notice(FilledOrder(o, f.value, time), t)];
        seen := seen + [acct];
      }
    }
    assert es[..|es|] == es;
  }

  /**
   * The accounts the strategies are handed (`setAccount`) while the trades
   * `ts` are booked: one after each trade, with every trade up to it settled.
   */
  function Accounts(a: Account, ts: seq<Trade>, now: int): (r: seq<Account>)
    requires QMaps.Valid(a.positions) && PositionsPositive(a.positions) && AllPositive(ts)
    ensures |r| == |ts|
  {
    if ts == [] then [] else Accounts(a, ts[..|ts| - 1], now) + [SettleAll(a, ts, now)]
  }

  /** The `j`-th account handed out is the starting account with the first `j + 1` trades settled. */
  lemma {:induction false} AccountsMeaning(a: Account, ts: seq<Trade>, now: int, j: int)
    requires QMaps.Valid(a.positions) && PositionsPositive(a.positions) && AllPositive(ts)
    requires 0 <= j < |ts|
    ensures AllPositive(ts[..j + 1]) && Accounts(a, ts, now)[j] == SettleAll(a, ts[..j + 1], now)
  {
    if j < |ts| - 1 {
      var prefix := ts[..|ts| - 1];
      AccountsMeaning(a, prefix, now, j);
      assert prefix[..j + 1] == ts[..j + 1];
    } else {
      assert ts[..j + 1] == ts;
    }
  }

  /** One more order either adds its notice to the end of the pass or changes nothing. */
  lemma NoticesSnoc(es: seq<(string, Order)>, i: int, d: MarketData, base: nat, time: int, rate: real,
                    accountId: string)
    requires 0 <= i < |es|
    ensures var prev := Notices(es[..i], d, base, time, rate, accountId);
            Notices(es[..i + 1], d, base, time, rate, accountId) ==
            match Fill(es[i].1, d)
            case None => prev
            case Some(price) =>
              prev + [Notice(FilledOrder(es[i].1, price, time),
                             TradeOf(es[i].1, price, base + |Fills(es[..i], d, base, time, rate, accountId)| + 1,
                                     time, rate, accountId))]
  {
    assert es[..i + 1][..i] == es[..i];
  }

  /** A step of the first loop of `matchOrders` on an order that fills. */
  lemma PassTake(es: seq<(string, Order)>, i: int, d: MarketData, base: nat, time: int, rate: real, accountId: string,
                 a: Account, fills: seq<Trade>, t: Trade)
    requires 0 <= i < |es| && PositiveEntries(es) && QMaps.Valid(a.positions) && PositionsPositive(a.positions)
    requires fills == Fills(es[..i], d, base, time, rate, accountId) && AllPositive(fills)
    requires Fill(es[i].1, d).Some?
    requires t == TradeOf(es[i].1, Fill(es[i].1, d).value, base + |fills| + 1, time, rate, accountId)
    ensures Fills(es[..i + 1], d, base, time, rate, accountId) == fills + [t]
    ensures AllPositive(fills + [t])
    ensures SettleAll(a, fills + [t], time) == Settle(SettleAll(a, fills, time), t, time)
    ensures OrderIds(fills + [t]) == OrderIds(fills) + [t.orderId]
  {
    FillsSnoc(es, i, d, base, time, rate, accountId);
    assert t.quantity > 0.0;
    SettleAllSnoc(a, fills, t, time);
    assert (fills + [t])[..|fills|] == fills;
  }

  /** The second loop of `matchOrders`: remove each noted id in turn. */
  method RemoveEach(m: QMap<Order>, ids: seq<string>) returns (r: QMap<Order>)
    requires QMaps.Valid(m)
    ensures r == RemoveAll(m, ids)
  {
    r := m;
    for j := 0 to |ids|
      invariant QMaps.Valid(r)
      invariant r == RemoveAll(m, ids[..j])
    {
      assert ids[..j + 1] == ids[..j] + [ids[j]];
      RemoveAllSnoc(m, ids[..j], ids[j]);
      r := Remove(r, ids[j]);
    }
    assert ids[..|ids|] == ids;
  }

  /** One trade of the drawdown loop: a new high moves the peak and leaves the maximum drawdown alone. */
  lemma DrawdownStep(init: real, ts: seq<Trade>)
    requires init > 0.0 && ts != []
    ensures var prefix := ts[..|ts| - 1];
            Equity(init, ts) == Equity(init, prefix) + Signed(ts[|ts| - 1]) &&
            (Equity(init, ts) > Peak(init, prefix) ==>
               Peak(init, ts) == Equity(init, ts) && MaxDrawdown(init, ts) == MaxDrawdown(init, prefix)) &&
            (Equity(init, ts) <= Peak(init, prefix) ==>
               Peak(init, ts) == Peak(init, prefix) &&
               MaxDrawdown(init, ts) ==
                 Max(MaxDrawdown(init, prefix), Fall(Peak(init, prefix), Equity(init, ts))))
  {
    var prefix := ts[..|ts| - 1];
    if Equity(init, ts) > Peak(init, prefix) {
      assert Fall(Peak(init, ts), Equity(init, ts)) == 0.0 / Equity(init, ts);
    }
  }

  /** The drawdown loop of `calculateMetrics`: track equity and its peak, keep the largest relative fall. */
  method DrawdownLoop(init: real, ts: seq<Trade>) returns (maxDrawdown: real)
    requires init > 0.0
    ensures maxDrawdown == MaxDrawdown(init, ts)
  {
    var peak := init;
    maxDrawdown := 0.0;
    var equity := init;
    for i := 0 to |ts|
      invariant peak == Peak(init, ts[..i]) && equity == Equity(init, ts[..i])
      invariant maxDrawdown == MaxDrawdown(init, ts[..i])
    {
      var t := ts[i];
      assert ts[..i + 1][..i] == ts[..i] && ts[..i + 1][i] == t;
      DrawdownStep(init, ts[..i + 1]);
      equity := equity + Signed(t);
      if equity > peak {
        peak := equity;
      } else {
        var drawdown := Fall(peak, equity);
        if drawdown > maxDrawdown {
          maxDrawdown := drawdown;
        }
      }
    }
    assert ts[..|ts|] == ts;
  }

  /** The win/loss loop of `calculateMetrics` over consecutive pairs of trades. */
  method WinLossLoop(ts: seq<Trade>) returns (winTrades: nat, lossTrades: nat, totalProfit: real, totalLoss: real)
    ensures winTrades == Wins(ts) && lossTrades == Losses(ts)
    ensures totalProfit == Profit(ts) && totalLoss == Loss(ts)
  {
    winTrades, lossTrades, totalProfit, totalLoss := 0, 0, 0.0, 0.0;
    if ts == [] {
      return;
    }
    var i := 1;
    while i < |ts|
      invariant 1 <= i <= |ts|
      invariant winTrades == Wins(ts[..i]) && lossTrades == Losses(ts[..i])
      invariant totalProfit == Profit(ts[..i]) && totalLoss == Loss(ts[..i])
    {
      var prefix := ts[..i + 1];
      assert prefix[..i] == ts[..i] && prefix[i] == ts[i] && prefix[i - 1] == ts[i - 1];
      if ts[i].price > ts[i - 1].price {
        winTrades := winTrades + 1;
        totalProfit := totalProfit + (ts[i].price - ts[i - 1].price);
      } else {
        lossTrades := lossTrades + 1;
        totalLoss := totalLoss + (ts[i - 1].price - ts[i].price);
      }
      i := i + 1;
    }
    assert ts[..|ts|] == ts;
  }

  /** The equity-curve loop of `calculateMetrics`: append the equity and time after each trade. */
  method CurveLoop(init: real, curve0: seq<real>, times0: seq<int>, ts: seq<Trade>)
    returns (curve: seq<real>, times: seq<int>)
    ensures curve == curve0 + Curve(init, ts)
    ensures times == times0 + Times(ts)
  {
    var equity := init;
    curve, times := curve0, times0;
    for i := 0 to |ts|
      invariant equity == Equity(init, ts[..i])
      invariant curve == curve0 + Curve(init, ts[..i]) && times == times0 + Times(ts[..i])
    {
      var t := ts[i];
      assert ts[..i + 1][..i] == ts[..i] && ts[..i + 1][i] == t;
      equity := equity + Signed(t);
      curve := curve + [equity];
      times := times + [t.tradeTime];
    }
    assert ts[..|ts|] == ts;
  }

  /* ---------- the engine ---------- */

  class BacktestEngine {
    var params: BacktestParams
    var marketData: seq<MarketData>
    var activeOrders: QMap<Order>
    var trades: seq<Trade>
    var account: Account
    var currentTime: int
    var result: BacktestResult
    /** The progress percentages reported so far. */
    var progress: seq<int>

    ghost function State(): Book
      reads this
    {
      Book(activeOrders, trades, account)
    }

    ghost predicate Valid()
      reads this
    {
      BookValid(State()) && Numbered(trades)
    }

    constructor()
      ensures Valid()
      ensures params == DefaultBacktestParams && marketData == [] && activeOrders == Empty()
      ensures trades == [] && account == DefaultAccount && currentTime == 0
      ensures result == DefaultBacktestResult && progress == []
    {
      params := DefaultBacktestParams;
      marketData := [];
      activeOrders := Empty();
      trades := [];
      account := DefaultAccount;
      currentTime := 0;
      result := DefaultBacktestResult;
      progress := [];
    }

    method SetBacktestParams(p: BacktestParams)
      modifies this`params
      ensures params == p
    {
      params := p;
    }

    /**
     * `initialize`: reset the account, append the bars of each symbol in turn
     * (stopping at the first symbol that fails to load, keeping what was
     * appended), then put all bars in time order. Earlier bars, orders and
     * trades are kept.
     */
    method Initialize(load: string -> Option<seq<MarketData>>) returns (ok: bool)
      requires Valid()
      modifies this`account, this`marketData
      ensures Valid()
      ensures account == Reset(old(account), params.initialCapital)
      ensures ok <==> forall i :: 0 <= i < |params.symbols| ==> load(params.symbols[i]).Some?
      ensures !ok ==> marketData == old(marketData) + Loaded(load, params.symbols[..FirstFailure(load, params.symbols)])
      ensures ok ==> KlineAggregation.SortedByTime(marketData)
      ensures ok ==> multiset(marketData) == multiset(old(marketData) + Loaded(load, params.symbols))
    {
      account := Reset(account, params.initialCapital);
      var all;
      marketData, all := AppendLoaded(load, params.symbols, marketData);
      if !all {
        return false;
      }
      assert params.symbols[..|params.symbols|] == params.symbols;
      marketData := SortByTime(marketData);
      ok := true;
    }

    /** `processOrder`: store the order under its id, replacing one with the same id. */
    method ProcessOrder(o: Order)
      requires Valid() && o.quantity > 0.0
      modifies this`activeOrders
      ensures Valid()
      ensures State() == Apply(old(State()), Submit(o))
    {
      activeOrders := Put(activeOrders, o.orderId, o);
    }

    /** `processCancelOrder`: drop the order if it is resting. */
    method ProcessCancelOrder(orderId: string)
      requires Valid()
      modifies this`activeOrders
      ensures Valid()
      ensures State() == Apply(old(State()), Cancel(orderId))
    {
      if Get(activeOrders, orderId).Some? {
        activeOrders := Remove(activeOrders, orderId);
      }
    }

    /**
     * `matchOrders`: walk the resting orders in id order, record a trade and
     * book it on the account for each one that fills, then remove the filled
     * orders.
     */
    method MatchOrders(d: MarketData) returns (sent: seq<Notice>, seen: seq<Account>)
      requires Valid()
      modifies this`activeOrders, this`trades, this`account
      ensures Valid()
      ensures State() == MatchBook(old(State()), d, currentTime, params.commission)
      ensures sent == Notices(old(activeOrders).entries, d, |old(trades)|, currentTime, params.commission,
                              old(account).accountId)
      ensures seen == PassAccounts(old(State()), d, currentTime, params.commission)
    {
      EntriesKeyed(activeOrders);
      ghost var b := State();
      var es := activeOrders.entries;
      var time, rate, accountId := currentTime, params.commission, account.accountId;
      var fills, acct, toRemove;
      fills, acct, toRemove, sent, seen := MatchPass(es, d, |trades|, time, rate, accountId, account);
      trades := trades + fills;
      account := acct;
      activeOrders := RemoveEach(activeOrders, toRemove);
      FillsNumbered(es, d, b.trades, time, rate, accountId);
      assert toRemove[..|toRemove|] == toRemove;
    }

    /** The strategies' requests while they see one bar, each handed to `processOrder` or `processCancelOrder`. */
    method Dispatch(rs: seq<Request>)
      requires Valid() && PositiveRequests(rs)
      modifies this`activeOrders
      ensures Valid()
      ensures State() == ApplyAll(old(State()), rs)
    {
      for j := 0 to |rs|
        invariant Valid()
        invariant State() == ApplyAll(old(State()), rs[..j])
      {
        assert rs[..j + 1][..j] == rs[..j];
        match rs[j]
        case Submit(o) => ProcessOrder(o);
        case Cancel(id) => ProcessCancelOrder(id);
      }
      assert rs[..|rs|] == rs;
    }

    /**
     * `execute`: for each bar in time order set the clock, let the strategies
     * react, match the orders and report the progress.
     */
    method Execute(react: (nat, MarketData) -> seq<Request>)
      requires Valid() && Reactive(react)
      modifies this`currentTime, this`activeOrders, this`trades, this`account, this`progress
      ensures Valid()
      ensures State() == Run(old(State()), marketData, react, params.commission)
      ensures progress == old(progress) + Reports(|marketData|, |marketData|)
      ensures currentTime == if marketData == [] then old(currentTime) else marketData[|marketData| - 1].timestamp
    {
      var data := marketData;
      ghost var b := State();
      ghost var reported := progress;
      for k := 0 to |data|
        invariant Valid()
        invariant State() == Run(b, data[..k], react, params.commission)
        invariant progress == reported + Reports(k, |data|)
        invariant currentTime == if k == 0 then old(currentTime) else data[k - 1].timestamp
      {
        OnBar(data, k, react, b, reported);
      }
      assert data[..|data|] == data;
    }

    /** The body of the loop in `execute`, for the bar at position `k`. */
    method OnBar(data: seq<MarketData>, k: nat, react: (nat, MarketData) -> seq<Request>,
                 ghost b: Book, ghost reported: seq<int>)
      requires Valid() && BookValid(b) && Reactive(react) && k < |data|
      requires State() == Run(b, data[..k], react, params.commission)
      requires progress == reported + Reports(k, |data|)
      modifies this`currentTime, this`activeOrders, this`trades, this`account, this`progress
      ensures Valid()
      ensures State() == Run(b, data[..k + 1], react, params.commission)
      ensures progress == reported + Reports(k + 1, |data|)
      ensures currentTime == data[k].timestamp
    {
      var d := data[k];
      var rs := react(k, d);
      assert PositiveRequests(rs);
      RunSnoc(b, data, k, react, params.commission);
      Tick(d, rs);
      ReportProgress(k, |data|, reported);
    }

    /** The progress report after bar `k` of `n`. */
    method ReportProgress(k: nat, n: nat, ghost reported: seq<int>)
      requires k < n && progress == reported + Reports(k, n)
      modifies this`progress
      ensures progress == reported + Reports(k + 1, n)
    {
      ReportsSnoc(k, n);
      progress := progress + [Progress(k + 1, n)];
    }

    /** Set the clock to the bar, let the strategies' requests through, and match. */
    method Tick(d: MarketData, rs: seq<Request>)
      requires Valid() && PositiveRequests(rs)
      modifies this`currentTime, this`activeOrders, this`trades, this`account
      ensures Valid()
      ensures State() == MatchBook(ApplyAll(old(State()), rs), d, d.timestamp, params.commission)
      ensures currentTime == d.timestamp
    {
      currentTime := d.timestamp;
      Dispatch(rs);
      var _, _ := MatchOrders(d);
    }

    /** `calculateMetrics`, on the trades recorded and the final balance. */
    method CalculateMetrics()
      requires params.initialCapital > 0.0
      modifies this`result
      ensures result == Metrics(old(result), account.balance, params.initialCapital, trades)
    {
      var init := params.initialCapital;
      var maxDrawdown := DrawdownLoop(init, trades);
      var winTrades, lossTrades, totalProfit, totalLoss := WinLossLoop(trades);
      var curve, times := CurveLoop(init, result.equityCurve, result.equityTimes, trades);
      result := result.(
        finalCapital := account.balance,
        totalReturn := (account.balance - init) / init,
        maxDrawdown := maxDrawdown,
        winTrades := winTrades,
        lossTrades := lossTrades,
        totalTrades := winTrades + lossTrades,
        winRate := Divide(winTrades as real, (winTrades + lossTrades) as real),
        profitFactor := Divide(totalProfit, totalLoss),
        averageProfit := if winTrades > 0 then totalProfit / winTrades as real else 0.0,
        averageLoss := if lossTrades > 0 then totalLoss / lossTrades as real else 0.0,
        trades := trades,
        equityCurve := curve,
        equityTimes := times);
    }

    /** `runBacktest`: initialise, and if every symbol loaded, replay the bars and compute the metrics. */
    method RunBacktest(load: string -> Option<seq<MarketData>>, react: (nat, MarketData) -> seq<Request>)
      returns (ok: bool)
      requires Valid() && Reactive(react) && params.initialCapital > 0.0
      modifies this`account, this`marketData, this`currentTime, this`activeOrders, this`trades, this`progress,
               this`result
      ensures Valid()
      ensures ok <==> forall i :: 0 <= i < |params.symbols| ==> load(params.symbols[i]).Some?
      ensures ok ==> State() == Run(Book(old(activeOrders), old(trades), Reset(old(account), params.initialCapital)),
                                    marketData, react, params.commission)
      ensures ok ==> result == Metrics(old(result), account.balance, params.initialCapital, trades)
      ensures ok ==> KlineAggregation.SortedByTime(marketData)
      ensures ok ==> multiset(marketData) == multiset(old(marketData) + Loaded(load, params.symbols))
      ensures !ok ==> result == old(result) && trades == old(trades) && activeOrders == old(activeOrders)
      ensures !ok ==> account == Reset(old(account), params.initialCapital) && currentTime == old(currentTime) &&
                      progress == old(progress)
      ensures !ok ==> marketData == old(marketData) + Loaded(load, params.symbols[..FirstFailure(load, params.symbols)])
    {
      ok := Initialize(load);
      if !ok {
        return;
      }
      Execute(react);
      CalculateMetrics();
    }
  }
}
