/**
 * The exchange adapter's decoding: order statuses and sides in the
 * exchange's spelling, the orders its reports describe, and the account
 * its balance lists describe (the USDT entry's free amount). Replies are
 * given already decoded from JSON; number texts are read by `toDouble`.
 * Requests, signing and the sockets themselves are not part of this model.
 */
module Binance {
  import opened Options
  import opened AppData
  import Trading

  /** `parseOrderStatus`. */
  function ParseOrderStatus(status: string): OrderStatus
  {
    if status == "NEW" then Created
    else if status == "PARTIALLY_FILLED" then Partial
    else if status == "FILLED" then Completed
    else if status == "CANCELED" then Canceled
    else if status == "REJECTED" then Rejected
    else if status == "EXPIRED" then Expired
    else UnknownStatus
  }

  /** The exchange's name for a status, for the six it has. */
  function ExchangeStatus(s: OrderStatus): Option<string>
  {
    match s
    case Created => Some("NEW")
    case Partial => Some("PARTIALLY_FILLED")
    case Completed => Some("FILLED")
    case Canceled => Some("CANCELED")
    case Rejected => Some("REJECTED")
    case Expired => Some("EXPIRED")
    case _ => None
  }

  /**
   * The parser inverts the exchange's naming: each of the six names gives
   * its status and every other text gives the unknown status, so Submitted
   * and Accepted never come out.
   */
  lemma ParseOrderStatusInverts(status: string, s: OrderStatus)
    ensures ExchangeStatus(s).Some? ==> ParseOrderStatus(ExchangeStatus(s).value) == s
    ensures ExchangeStatus(ParseOrderStatus(status)) == Some(status) || ParseOrderStatus(status) == UnknownStatus
    ensures ParseOrderStatus(status) != Submitted && ParseOrderStatus(status) != Accepted
    ensures ParseOrderStatus(status) == UnknownStatus <==>
              status !in {"NEW", "PARTIALLY_FILLED", "FILLED", "CANCELED", "REJECTED", "EXPIRED"}
  {
  }

  /** The side an order is placed with. */
  function SideName(d: Direction): string
  {
    if d == Long then "BUY" else "SELL"
  }

  /** The side an execution report names. */
  function ParseSide(side: string): Direction
  {
    if side == "BUY" then Long else Short
  }

  /** A placed side reads back as the order's direction, except that an unknown direction goes out and comes back as a sell. */
  lemma SideRoundTrip(d: Direction)
    ensures ParseSide(SideName(d)) == if d == Unknown then Short else d
    ensures SideName(d) == "BUY" <==> d == Long
  {
  }

  /** An execution report's fields, as texts, and its event time. */
  datatype ExecutionReport = ExecutionReport(c: string, s: string, side: string, p: string, q: string, z: string,
                                             x: string, e: int)

  /** `handleWsOrderUpdate`: the order a report describes. */
  function ReportOrder(toDouble: string -> real, r: ExecutionReport): (o: Order)
    ensures o.status == ParseOrderStatus(r.x) && o.direction == ParseSide(r.side)
    ensures o.orderId == r.c && o.symbol == r.s && o.updateTime == r.e
    ensures o.price == toDouble(r.p) && o.quantity == toDouble(r.q) && o.filledQuantity == toDouble(r.z)
    ensures o.(orderId := "", symbol := "", direction := Unknown, price := 0.0, quantity := 0.0,
               filledQuantity := 0.0, status := Created, updateTime := 0) == DefaultOrder
  {
    DefaultOrder.(orderId := r.c, symbol := r.s, direction := ParseSide(r.side), price := toDouble(r.p),
                  quantity := toDouble(r.q), filledQuantity := toDouble(r.z), status := ParseOrderStatus(r.x),
                  updateTime := r.e)
  }

  /** Where a stream message goes, by its event type. */
  datatype Route = OrderUpdate | AccountUpdate | Ignored

  function RouteOf(eventType: string): (r: Route)
    ensures r == OrderUpdate <==> eventType == "executionReport"
    ensures r == AccountUpdate <==> eventType == "outboundAccountPosition"
  {
    if eventType == "executionReport" then OrderUpdate
    else if eventType == "outboundAccountPosition" then AccountUpdate
    else Ignored
  }

  /** One entry of a balance list: the asset's name and its free amount as text. */
  datatype Balance = Balance(asset: string, free: string)

  /** The free amount of the first USDT entry, if any. */
  function FirstUsdt(bs: seq<Balance>): (r: Option<string>)
    ensures r.Some? <==> exists i :: 0 <= i < |bs| && bs[i].asset == "USDT"
    ensures r.Some? ==> exists i :: 0 <= i < |bs| && bs[i].asset == "USDT" && bs[i].free == r.value &&
                                    forall j :: 0 <= j < i ==> bs[j].asset != "USDT"
  {
    if bs == [] then None
    else if bs[0].asset == "USDT" then Some(bs[0].free)
    else
      var r := FirstUsdt(bs[1..]);
      if r.Some? then
        var i :| 0 <= i < |bs[1..]| && bs[1..][i].asset == "USDT" && bs[1..][i].free == r.value &&
                 forall j :: 0 <= j < i ==> bs[1..][j].asset != "USDT";
        assert bs[i + 1] == bs[1..][i];
        r
      else r
  }

  /** The account a balance list describes: balance and available are the USDT amount, or 0 without one. */
  function UsdtAccount(toDouble: string -> real, bs: seq<Balance>): Account
  {
    var free := if FirstUsdt(bs).Some? then toDouble(FirstUsdt(bs).value) else 0.0;
    DefaultAccount.(balance := free, available := free, realizedPnL := 0.0, unrealizedPnL := 0.0)
  }

  /** Only the first USDT entry counts: entries after it, of any asset, change nothing. */
  lemma UsdtAccountFirst(toDouble: string -> real, bs: seq<Balance>, more: seq<Balance>)
    requires FirstUsdt(bs).Some?
    ensures UsdtAccount(toDouble, bs + more) == UsdtAccount(toDouble, bs)
  {
    FirstUsdtPrefix(bs, more);
  }

  lemma {:induction false} FirstUsdtPrefix(bs: seq<Balance>, more: seq<Balance>)
    requires FirstUsdt(bs).Some?
    ensures FirstUsdt(bs + more) == FirstUsdt(bs)
  {
    if bs[0].asset != "USDT" {
      assert (bs + more)[1..] == bs[1..] + more;
      FirstUsdtPrefix(bs[1..], more);
    }
  }

  /** The balance loop: scan for the first USDT entry and stop there. */
  method UsdtFree(toDouble: string -> real, bs: seq<Balance>) returns (free: real)
    ensures free == if FirstUsdt(bs).Some? then toDouble(FirstUsdt(bs).value) else 0.0
  {
    free := 0.0;
    var i := 0;
    while i < |bs|
      invariant 0 <= i <= |bs|
      invariant FirstUsdt(bs) == FirstUsdt(bs[i..])
    {
      if bs[i].asset == "USDT" {
        free := toDouble(bs[i].free);
        return;
      }
      assert bs[i..][1..] == bs[i + 1..];
      i := i + 1;
    }
  }

  /** A reply of the exchange's REST interface, decoded. */
  datatype Reply<T> = NetworkError | NotObject | ApiError(msg: string) | Body(body: T)

  /** The order reply's fields: executed quantity and price as texts, and the update time. */
  datatype OrderAck = OrderAck(executedQty: string, price: string, updateTime: int)

  /**
   * `handleOrderResponse`: a transport error, a reply that is not an object
   * and an error code report nothing; otherwise the order comes back
   * completed, with the reply's fill quantity, price and time.
   */
  function OrderResponse(toDouble: string -> real, order: Order, reply: Reply<OrderAck>): (r: Option<Order>)
    ensures r.Some? <==> reply.Body?
    ensures r.Some? ==> (r.value.status == Completed && r.value.filledQuantity == toDouble(reply.body.executedQty)
                         && r.value.avgFillPrice == toDouble(reply.body.price)
                         && r.value.updateTime == reply.body.updateTime)
    ensures r.Some? ==> r.value.(status := order.status, filledQuantity := order.filledQuantity,
                                 avgFillPrice := order.avgFillPrice, updateTime := order.updateTime) == order
  {
    match reply
    case Body(ack) =>
      Some(order.(status := Completed, filledQuantity := toDouble(ack.executedQty),
                  avgFillPrice := toDouble(ack.price), updateTime := ack.updateTime))
    case _ => None
  }

  /** `handleCancelResponse`: the order id is reported canceled only on a clean reply. */
  function CancelResponse(orderId: string, reply: Reply<()>): (r: Option<string>)
    ensures r.Some? <==> reply.Body?
    ensures r.Some? ==> r.value == orderId
  {
    if reply.Body? then Some(orderId) else None
  }

  /**
   * `handleAccountResponse`: on a clean reply the engine's account becomes
   * the USDT account (which the engine ignores while it trades); on any
   * failure the account stays as it was.
   */
  method HandleAccountResponse(engine: Trading.TradingEngine, toDouble: string -> real, reply: Reply<seq<Balance>>)
    returns (reported: Option<Account>)
    modifies engine`account
    ensures reply.Body? ==> reported == Some(UsdtAccount(toDouble, reply.body))
    ensures reply.Body? ==> engine.account == if engine.trading then old(engine.account) else reported.value
    ensures !reply.Body? ==> reported == None && engine.account == old(engine.account)
  {
    if !reply.Body? {
      return None;
    }
    reported := HandleWsAccountUpdate(engine, toDouble, reply.body);
  }

  /** `handleWsAccountUpdate`: the same account update from a stream message's balance list. */
  method HandleWsAccountUpdate(engine: Trading.TradingEngine, toDouble: string -> real, bs: seq<Balance>)
    returns (reported: Option<Account>)
    modifies engine`account
    ensures reported == Some(UsdtAccount(toDouble, bs))
    ensures engine.account == if engine.trading then old(engine.account) else reported.value
  {
    var free := UsdtFree(toDouble, bs);
    var account := DefaultAccount.(balance := free, available := free, realizedPnL := 0.0, unrealizedPnL := 0.0);
    engine.SetAccount(account);
    return Some(account);
  }
}
