/**
 * The strategy base class: order-construction helpers that hand each new
 * order to the engine's callback, the strategy's own order, position and
 * parameter tables, and the active-order query. Concrete strategies
 * (`initialize`, `onBar`, `onTrade`, ...) are not part of this model.
 */
module Strategies {
  import opened Options
  import opened AppData
  import opened QMaps
  import Backtest

  /** A `QVariant` parameter value; `Invalid` is what an absent name reads as. */
  datatype Variant = Invalid | BoolValue(b: bool) | IntValue(i: int) | RealValue(r: real) | TextValue(s: string)

  /** The order every helper builds: no id, status Created, created `now`, all else default. */
  function NewOrder(symbol: string, d: Direction, kind: OrderType, price: real, stopPrice: real,
                    quantity: real, now: int): (o: Order)
    ensures o.orderId == "" && o.status == Created && o.filledQuantity == 0.0
  {
    DefaultOrder.(symbol := symbol, direction := d, orderType := kind, price := price,
                  stopPrice := stopPrice, quantity := quantity, createTime := now)
  }

  /** `buyMarket` / `sellMarket`: price and stop price stay 0. */
  function MarketOrder(symbol: string, d: Direction, quantity: real, now: int): Order
  {
    NewOrder(symbol, d, Market, 0.0, 0.0, quantity, now)
  }

  /** `buyLimit` / `sellLimit`: the limit price, stop price 0. */
  function LimitOrder(symbol: string, d: Direction, price: real, quantity: real, now: int): Order
  {
    NewOrder(symbol, d, Limit, price, 0.0, quantity, now)
  }

  /** `buyStop` / `sellStop`: the stop price, limit price 0. */
  function StopOrder(symbol: string, d: Direction, stopPrice: real, quantity: real, now: int): Order
  {
    NewOrder(symbol, d, Stop, 0.0, stopPrice, quantity, now)
  }

  /** What each helper's order carries, and that it differs from the default only where the helper sets it. */
  lemma HelperOrders(symbol: string, d: Direction, p: real, q: real, now: int)
    ensures MarketOrder(symbol, d, q, now).orderType == Market
    ensures MarketOrder(symbol, d, q, now).price == 0.0 && MarketOrder(symbol, d, q, now).stopPrice == 0.0
    ensures LimitOrder(symbol, d, p, q, now).orderType == Limit
    ensures LimitOrder(symbol, d, p, q, now).price == p && LimitOrder(symbol, d, p, q, now).stopPrice == 0.0
    ensures StopOrder(symbol, d, p, q, now).orderType == Stop
    ensures StopOrder(symbol, d, p, q, now).stopPrice == p && StopOrder(symbol, d, p, q, now).price == 0.0
    ensures forall o :: o in [MarketOrder(symbol, d, q, now), LimitOrder(symbol, d, p, q, now),
                              StopOrder(symbol, d, p, q, now)] ==>
              (&& o.symbol == symbol && o.direction == d && o.quantity == q && o.createTime == now
               && o.orderId == "" && o.status == Created
               && o.(symbol := "", direction := Unknown, orderType := Market, price := 0.0, stopPrice := 0.0,
                     quantity := 0.0, createTime := 0) == DefaultOrder)
  {
  }

  /**
   * Two helper orders submitted to the back-tester land under the same key ""
   * (no helper assigns an id), so the second one replaces the first.
   */
  lemma HelperOrdersCollide(b: Backtest.Book, o1: Order, o2: Order)
    requires Backtest.BookValid(b) && o1.orderId == "" && o2.orderId == ""
    requires o1.quantity > 0.0 && o2.quantity > 0.0
    ensures ToMap(Backtest.ApplyAll(b, [Backtest.Submit(o1), Backtest.Submit(o2)]).orders) == ToMap(b.orders)["" := o2]
  {
    var one := [Backtest.Submit(o1)];
    var rs := one + [Backtest.Submit(o2)];
    assert one[..0] == [] && rs[..1] == one;
    assert Backtest.ApplyAll(b, []) == b;
    var first := Backtest.ApplyAll(b, one);
    assert first == Backtest.Apply(b, Backtest.Submit(o1));
    assert Backtest.ApplyAll(b, rs) == Backtest.Apply(first, Backtest.Submit(o2));
    Backtest.ApplyEffect(b, Backtest.Submit(o1));
    Backtest.ApplyEffect(first, Backtest.Submit(o2));
    assert ToMap(b.orders)["" := o1]["" := o2] == ToMap(b.orders)["" := o2];
  }

  /** The working orders among `vs`, in their order. */
  function ActiveOrders(vs: seq<Order>): seq<Order>
  {
    if vs == [] then []
    else
      ActiveOrders(vs[..|vs| - 1]) + (if IsActiveStatus(vs[|vs| - 1].status) then [vs[|vs| - 1]] else [])
  }

  /** The active orders are exactly the orders whose status is Created, Submitted, Accepted or Partial. */
  lemma {:induction false} ActiveOrdersMembers(vs: seq<Order>, o: Order)
    ensures o in ActiveOrders(vs) <==> o in vs && IsActiveStatus(o.status)
    ensures |ActiveOrders(vs)| <= |vs|
  {
    if vs != [] {
      var init := vs[..|vs| - 1];
      ActiveOrdersMembers(init, o);
      assert vs == init + [vs[|vs| - 1]];
    }
  }

  class Strategy {
    var parameters: QMap<Variant>
    var account: Account
    var positions: QMap<Position>
    var orders: QMap<Order>
    var backtest: bool
    /** Whether the engine installed its order and cancel callbacks. */
    var hasOrderCallback: bool
    var hasCancelCallback: bool
    /** Every order handed to the order callback, and every id handed to the cancel callback, in order. */
    var sent: seq<Order>
    var cancels: seq<string>

    ghost predicate Valid()
      reads this
    {
      QMaps.Valid(parameters) && QMaps.Valid(positions) && QMaps.Valid(orders)
    }

    constructor ()
      ensures Valid() && !backtest && !hasOrderCallback && !hasCancelCallback
      ensures ToMap(parameters) == map[] && ToMap(positions) == map[] && ToMap(orders) == map[]
      ensures account == DefaultAccount && sent == [] && cancels == []
    {
      parameters := Empty();
      account := DefaultAccount;
      positions := Empty();
      orders := Empty();
      backtest := false;
      hasOrderCallback := false;
      hasCancelCallback := false;
      sent := [];
      cancels := [];
    }

    /** `setParameter`: insert or overwrite by name. */
    method SetParameter(name: string, v: Variant)
      requires Valid()
      modifies this`parameters
      ensures Valid() && ToMap(parameters) == ToMap(old(parameters))[name := v]
    {
      parameters := Put(parameters, name, v);
    }

    /** `getParameter`: the stored value, or an invalid variant for an unknown name. */
    function GetParameter(name: string): (v: Variant)
      reads this
      ensures name in ToMap(parameters) ==> v == ToMap(parameters)[name]
      ensures name !in ToMap(parameters) ==> v == Invalid
    {
      match Get(parameters, name)
      case Some(x) => x
      case None => Invalid
    }

    method SetBacktestMode(on: bool)
      modifies this`backtest
      ensures backtest == on
    {
      backtest := on;
    }

    /** `setOrderCallback` / `setCancelOrderCallback`, with whether a callable was given. */
    method SetCallbacks(order: bool, cancel: bool)
      modifies this`hasOrderCallback, this`hasCancelCallback
      ensures hasOrderCallback == order && hasCancelCallback == cancel
    {
      hasOrderCallback := order;
      hasCancelCallback := cancel;
    }

    /** The tail every helper shares: hand the order to the callback when one is set, and return it. */
    method Send(o: Order) returns (r: Order)
      modifies this`sent
      ensures r == o
      ensures sent == old(sent) + if hasOrderCallback then [o] else []
    {
      if hasOrderCallback {
        sent := sent + [o];
      }
      return o;
    }

    method BuyMarket(symbol: string, quantity: real, now: int) returns (r: Order)
      modifies this`sent
      ensures r == MarketOrder(symbol, Long, quantity, now)
      ensures sent == old(sent) + if hasOrderCallback then [r] else []
    {
      r := Send(MarketOrder(symbol, Long, quantity, now));
    }

    method SellMarket(symbol: string, quantity: real, now: int) returns (r: Order)
      modifies this`sent
      ensures r == MarketOrder(symbol, Short, quantity, now)
      ensures sent == old(sent) + if hasOrderCallback then [r] else []
    {
      r := Send(MarketOrder(symbol, Short, quantity, now));
    }

    method BuyLimit(symbol: string, price: real, quantity: real, now: int) returns (r: Order)
      modifies this`sent
      ensures r == LimitOrder(symbol, Long, price, quantity, now)
      ensures sent == old(sent) + if hasOrderCallback then [r] else []
    {
      r := Send(LimitOrder(symbol, Long, price, quantity, now));
    }

    method SellLimit(symbol: string, price: real, quantity: real, now: int) returns (r: Order)
      modifies this`sent
      ensures r == LimitOrder(symbol, Short, price, quantity, now)
      ensures sent == old(sent) + if hasOrderCallback then [r] else []
    {
      r := Send(LimitOrder(symbol, Short, price, quantity, now));
    }

    method BuyStop(symbol: string, stopPrice: real, quantity: real, now: int) returns (r: Order)
      modifies this`sent
      ensures r == StopOrder(symbol, Long, stopPrice, quantity, now)
      ensures sent == old(sent) + if hasOrderCallback then [r] else []
    {
      r := Send(StopOrder(symbol, Long, stopPrice, quantity, now));
    }

    method SellStop(symbol: string, stopPrice: real, quantity: real, now: int) returns (r: Order)
      modifies this`sent
      ensures r == StopOrder(symbol, Short, stopPrice, quantity, now)
      ensures sent == old(sent) + if hasOrderCallback then [r] else []
    {
      r := Send(StopOrder(symbol, Short, stopPrice, quantity, now));
    }

    /** `cancelOrder`: forwarded, and true, only when a cancel callback is set. */
    method CancelOrder(orderId: string) returns (ok: bool)
      modifies this`cancels
      ensures ok == hasCancelCallback
      ensures cancels == old(cancels) + if ok then [orderId] else []
    {
      if hasCancelCallback {
        cancels := cancels + [orderId];
        return true;
      }
      return false;
    }

    /** `getPositions`: the positions in ascending symbol order. */
    method GetPositions() returns (r: seq<Position>)
      ensures r == Values(positions)
    {
      r := [];
      var i := 0;
      while i < |positions.entries|
        invariant 0 <= i <= |positions.entries|
        invariant r == Values(positions)[..i]
      {
        r := r + [positions.entries[i].1];
        i := i + 1;
      }
    }

    /** `getPosition`: the position held, or a default one. */
    function GetPosition(symbol: string): (p: Position)
      reads this
      ensures symbol in ToMap(positions) ==> p == ToMap(positions)[symbol]
      ensures symbol !in ToMap(positions) ==> p == DefaultPosition
    {
      match Get(positions, symbol)
      case Some(x) => x
      case None => DefaultPosition
    }

    /** `getActiveOrders`: the working orders, in ascending id order. */
    method GetActiveOrders() returns (r: seq<Order>)
      ensures r == ActiveOrders(Values(orders))
    {
      r := [];
      var i := 0;
      ghost var vs := Values(orders);
      while i < |orders.entries|
        invariant 0 <= i <= |orders.entries|
        invariant r == ActiveOrders(vs[..i])
      {
        var o := orders.entries[i].1;
        assert vs[..i + 1][..i] == vs[..i] && vs[..i + 1][i] == o;
        if IsActiveStatus(o.status) {
          r := r + [o];
        }
        i := i + 1;
      }
      assert vs[..|orders.entries|] == vs;
    }

    /** `getOrder`: the order stored under the id, or a default one. */
    function GetOrder(orderId: string): (o: Order)
      reads this
      ensures orderId in ToMap(orders) ==> o == ToMap(orders)[orderId]
      ensures orderId !in ToMap(orders) ==> o == DefaultOrder
    {
      match Get(orders, orderId)
      case Some(x) => x
      case None => DefaultOrder
    }

    method SetAccount(a: Account)
      modifies this`account
      ensures account == a
    {
      account := a;
    }

    /** `addPosition`: insert or overwrite by symbol. */
    method AddPosition(p: Position)
      requires Valid()
      modifies this`positions
      ensures Valid() && ToMap(positions) == ToMap(old(positions))[p.symbol := p]
    {
      positions := Put(positions, p.symbol, p);
    }

    /** `addOrder`: insert or overwrite by id. */
    method AddOrder(o: Order)
      requires Valid()
      modifies this`orders
      ensures Valid() && ToMap(orders) == ToMap(old(orders))[o.orderId := o]
    {
      orders := Put(orders, o.orderId, o);
    }

    /** `updateOrder`: replace an order already stored; an unknown id changes nothing. */
    method UpdateOrder(o: Order)
      requires Valid()
      modifies this`orders
      ensures Valid()
      ensures o.orderId in ToMap(old(orders)) ==> ToMap(orders) == ToMap(old(orders))[o.orderId := o]
      ensures o.orderId !in ToMap(old(orders)) ==> orders == old(orders)
    {
      if Get(orders, o.orderId).Some? {
        orders := Put(orders, o.orderId, o);
      }
    }
  }

  /** Reading a parameter back after setting it gives the value set; other names are untouched. */
  lemma ParameterRoundTrip(ps: QMap<Variant>, name: string, other: string, v: Variant)
    requires Valid(ps)
    ensures Get(Put(ps, name, v), name) == Some(v)
    ensures other != name ==> Get(Put(ps, other, v), name) == Get(ps, name)
  {
  }
}
