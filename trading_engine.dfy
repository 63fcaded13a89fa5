/**
 * The live trading simulator: a start/stop state machine around the same
 * account ledger the back-tester uses. Every order a strategy sends while
 * trading runs is filled at once, in full, at the order's own price.
 * The wall clock is the parameter `now`; strategies are counted, not run.
 */
module Trading {
  import opened Options
  import opened Text
  import opened AppData
  import opened QMaps
  import opened Ledger
  import Backtest

  /** The simulator's fixed commission rate, 0.03%. */
  const LiveRate: real := 0.0003

  /** The trade an executed order produces: numbered `n`, full quantity at the order's price, no account id. */
  function Executed(o: Order, n: nat, now: int): (t: Trade)
    ensures t.orderId == o.orderId && t.symbol == o.symbol && t.direction == o.direction
    ensures t.price == o.price && t.quantity == o.quantity && t.tradeTime == now
    ensures t.commission == o.price * o.quantity * LiveRate && t.accountId == ""
  {
    Backtest.TradeOf(o, o.price, n, now, LiveRate, "")
  }

  /** The order as reported back to the strategies after execution. */
  function CompletedOrder(o: Order, now: int): Order
  {
    Backtest.FilledOrder(o, o.price, now)
  }

  /**
   * `updateAccount` of the simulator: the back-tester's ledger, except that the
   * position book is the engine's own map rather than the account's.
   */
  function LiveSettle(a: Account, ps: QMap<Position>, t: Trade, now: int): (r: (Account, QMap<Position>))
    requires Valid(ps) && PositionsPositive(ps) && t.quantity > 0.0
    ensures Valid(r.1) && PositionsPositive(r.1)
  {
    (Cash(a, RealizedPnL(ps, t), t), Book(ps, t, now))
  }

  /** The simulator's ledger is the back-tester's, run on an account that carries the engine's positions. */
  lemma LiveSettleIsSettle(a: Account, ps: QMap<Position>, t: Trade, now: int)
    requires Valid(ps) && PositionsPositive(ps) && t.quantity > 0.0
    ensures LiveSettle(a, ps, t, now).0 == Settle(a.(positions := ps), t, now).(positions := a.positions)
    ensures LiveSettle(a, ps, t, now).1 == Settle(a.(positions := ps), t, now).positions
  {
  }

  /** One execution, cash side: commission price·qty·0.0003 leaves the balance, and available follows it. */
  lemma LiveCash(a: Account, ps: QMap<Position>, o: Order, n: nat, now: int)
    requires Valid(ps) && PositionsPositive(ps) && o.quantity > 0.0
    ensures LiveSettle(a, ps, Executed(o, n, now), now).0.balance == a.balance - o.price * o.quantity * LiveRate
    ensures LiveSettle(a, ps, Executed(o, n, now), now).0.available == LiveSettle(a, ps, Executed(o, n, now), now).0.balance
    ensures LiveSettle(a, ps, Executed(o, n, now), now).0.positions == a.positions
  {
  }

  /** A completed order reports its whole quantity filled at its own price. */
  lemma CompletedFilled(o: Order, now: int)
    ensures CompletedOrder(o, now).status == AppData.Completed
    ensures CompletedOrder(o, now).filledQuantity == o.quantity && CompletedOrder(o, now).avgFillPrice == o.price
    ensures CompletedOrder(o, now).(status := o.status, filledQuantity := o.filledQuantity,
                               avgFillPrice := o.avgFillPrice, updateTime := o.updateTime) == o
  {
  }

  /**
   * As written, `executeOrder` numbers a trade from the size of the account's
   * own trade list, which nothing in the engine appends to: every execution
   * after the same account update carries the same number.
   */
  function AsWrittenLog(os: seq<Order>, accountTrades: nat, now: int): (ts: seq<Trade>)
    ensures |ts| == |os|
    ensures forall i :: 0 <= i < |os| ==> ts[i].orderId == os[i].orderId && ts[i].quantity == os[i].quantity
  {
    seq(|os|, i requires 0 <= i < |os| => Executed(os[i], accountTrades + 1, now))
  }

  /** Two executions in a row get the same trade id, so the log is never numbered one past the other. */
  lemma AsWrittenIdsRepeat(os: seq<Order>, accountTrades: nat, now: int)
    requires |os| >= 2
    ensures forall i, j :: 0 <= i < j < |os| ==>
              (AsWrittenLog(os, accountTrades, now)[i].tradeId == AsWrittenLog(os, accountTrades, now)[j].tradeId)
    ensures !Backtest.Numbered(AsWrittenLog(os, accountTrades, now))
  {
    var ts := AsWrittenLog(os, accountTrades, now);
    if Backtest.Numbered(ts) {
      Backtest.NumberedDistinct(ts, 0, 1);
      assert false;
    }
  }

  class TradingEngine {
    var trading: bool
    /** How many strategies were added; they are the engine's subscribers, not modelled further. */
    var strategies: nat
    var account: Account
    var positions: QMap<Position>
    var activeOrders: QMap<Order>
    /** The trades executed since the last `initialize`; the next trade is numbered one past them. */
    var trades: seq<Trade>

    ghost predicate Valid()
      reads this
    {
      QMaps.Valid(positions) && PositionsPositive(positions) && QMaps.Valid(activeOrders) && Backtest.Numbered(trades)
    }

    constructor ()
      ensures Valid() && !trading && strategies == 0
      ensures account == DefaultAccount && ToMap(positions) == map[] && ToMap(activeOrders) == map[] && trades == []
    {
      trading := false;
      strategies := 0;
      account := DefaultAccount;
      positions := Empty();
      activeOrders := Empty();
      trades := [];
    }

    /** `initialize`: refused while trading; otherwise a default account and no positions or orders. */
    method Initialize() returns (ok: bool)
      requires Valid()
      modifies this`account, this`positions, this`activeOrders, this`trades
      ensures Valid()
      ensures ok <==> !trading
      ensures ok ==> account == DefaultAccount && ToMap(positions) == map[] && ToMap(activeOrders) == map[] && trades == []
      ensures !ok ==> (account == old(account) && positions == old(positions)
                       && activeOrders == old(activeOrders) && trades == old(trades))
    {
      if trading {
        return false;
      }
      account := DefaultAccount;
      positions := Empty();
      activeOrders := Empty();
      trades := [];
      return true;
    }

    /** `addStrategy`: ignored while trading and for a null strategy. */
    method AddStrategy(present: bool)
      modifies this`strategies
      ensures strategies == if !trading && present then old(strategies) + 1 else old(strategies)
    {
      if !trading && present {
        strategies := strategies + 1;
      }
    }

    /** `setAccount`: ignored while trading. */
    method SetAccount(a: Account)
      modifies this`account
      ensures account == if trading then old(account) else a
    {
      if !trading {
        account := a;
      }
    }

    /** `startTrading`: fails when already trading or when no strategy was added. */
    method StartTrading() returns (ok: bool)
      modifies this`trading
      ensures ok <==> !old(trading) && strategies > 0
      ensures trading == (old(trading) || ok)
    {
      if trading || strategies == 0 {
        return false;
      }
      trading := true;
      return true;
    }

    /** `getPositions`. */
    /** `getPositions`: the engine's own position map, keyed and iterated by symbol. */
    function GetPositions(): (r: QMap<Position>)
      reads this
      requires Valid()
      ensures QMaps.Valid(r) && PositionsPositive(r) && ToMap(r) == ToMap(positions)
    {
      positions
    }

    /** `cancelOrder`: a present id is removed, an absent one changes nothing. */
    method CancelOrder(orderId: string)
      requires Valid()
      modifies this`activeOrders
      ensures Valid()
      ensures ToMap(activeOrders) == ToMap(old(activeOrders)) - {orderId}
      ensures orderId !in ToMap(old(activeOrders)) ==> activeOrders == old(activeOrders)
    {
      if Get(activeOrders, orderId).Some? {
        activeOrders := Remove(activeOrders, orderId);
      }
    }

    /** `stopTrading`: when trading, stop and cancel every active order, one key at a time. */
    method StopTrading()
      requires Valid()
      modifies this`trading, this`activeOrders
      ensures Valid()
      ensures !old(trading) ==> !trading && activeOrders == old(activeOrders)
      ensures old(trading) ==> !trading && ToMap(activeOrders) == map[]
    {
      if !trading {
        return;
      }
      trading := false;
      ghost var before := ToMap(activeOrders);
      var ids := Keys(activeOrders);
      forall k | k in before ensures k in ids {
        KeysAreDomain(old(activeOrders), k);
      }
      var i := 0;
      while i < |ids|
        invariant 0 <= i <= |ids| && Valid() && !trading
        invariant forall k :: k in ToMap(activeOrders) ==> k in before && k !in ids[..i]
      {
        CancelOrder(ids[i]);
        assert ids[..i + 1] == ids[..i] + [ids[i]];
        i := i + 1;
      }
      assert ids[..|ids|] == ids;
      assert ToMap(activeOrders).Keys == {};
    }

    /** The ledger step of `executeOrder`. */
    method UpdateAccount(t: Trade, now: int)
      requires Valid() && t.quantity > 0.0
      modifies this`account, this`positions
      ensures Valid()
      ensures (account, positions) == LiveSettle(old(account), old(positions), t, now)
    {
      var pnl := RealizedPnL(positions, t);
      account := Cash(account, pnl, t);
      positions := Book(positions, t, now);
    }

    /**
     * `executeOrder`: while trading, fill the order in full at its price and settle
     * the trade; the completed order and the trade go to the strategies. The active
     * orders are not touched.
     */
    method ExecuteOrder(o: Order, now: int) returns (sent: Option<(Order, Trade)>)
      requires Valid() && (trading ==> o.quantity > 0.0)
      modifies this`account, this`positions, this`trades
      ensures Valid()
      ensures !trading ==> (sent == None && account == old(account) && positions == old(positions)
                            && trades == old(trades))
      ensures trading ==> (var t := Executed(o, |old(trades)| + 1, now);
                           && sent == Some((CompletedOrder(o, now), t))
                           && trades == old(trades) + [t]
                           && (account, positions) == LiveSettle(old(account), old(positions), t, now))
    {
      if !trading {
        return None;
      }
      var t := Executed(o, |trades| + 1, now);
      UpdateAccount(t, now);
      trades := trades + [t];
      return Some((CompletedOrder(o, now), t));
    }
  }
}
