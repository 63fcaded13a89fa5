/**
 * The account ledger both engines apply to every trade: realised profit
 * against the position held, commission paid from the balance, and the
 * position's quantity and average cost. Positions are never netted: a trade
 * in either direction adds to the position already held in its symbol.
 */
module Ledger {
  import opened Options
  import opened AppData
  import opened QMaps

  /** Every position held has a positive quantity (so the average-cost division is defined). */
  predicate PositionsPositive(ps: QMap<Position>)
  {
    forall k :: k in ToMap(ps) ==> ToMap(ps)[k].quantity > 0.0
  }

  /** The profit a trade realises: only against a position in the trade's own direction. */
  function RealizedPnL(ps: QMap<Position>, t: Trade): real
  {
    match Get(ps, t.symbol)
    case None => 0.0
    case Some(p) =>
      if t.direction == Long then (if p.direction == Long then (t.price - p.avgPrice) * t.quantity else 0.0)
      else (if p.direction == Short then (p.avgPrice - t.price) * t.quantity else 0.0)
  }

  /**
   * Profit is realised only against a position held in the trade's own side
   * (a trade of unknown direction counts as short): a long trade against a
   * long position gains exactly when it is priced above the average cost, a
   * short one against a short position exactly when it is priced below it.
   */
  lemma RealizedSign(ps: QMap<Position>, t: Trade)
    requires t.quantity > 0.0
    ensures RealizedPnL(ps, t) != 0.0 ==>
              t.symbol in ToMap(ps) && ToMap(ps)[t.symbol].direction == (if t.direction == Long then Long else Short)
    ensures t.symbol in ToMap(ps) && t.direction == Long && ToMap(ps)[t.symbol].direction == Long ==>
              (RealizedPnL(ps, t) > 0.0 <==> t.price > ToMap(ps)[t.symbol].avgPrice)
    ensures t.symbol in ToMap(ps) && t.direction != Long && ToMap(ps)[t.symbol].direction == Short ==>
              (RealizedPnL(ps, t) > 0.0 <==> t.price < ToMap(ps)[t.symbol].avgPrice)
  {
    if t.symbol in ToMap(ps) {
      var p := ToMap(ps)[t.symbol];
      ProductSign(t.price - p.avgPrice, t.quantity);
      ProductSign(p.avgPrice - t.price, t.quantity);
    }
  }

  /** A product with a positive factor has the other factor's sign. */
  lemma ProductSign(x: real, q: real)
    requires q > 0.0
    ensures x * q > 0.0 <==> x > 0.0
    ensures x * q == 0.0 <==> x == 0.0
  {
    if x > 0.0 {
      assert x * q > 0.0 * q;
    } else if x < 0.0 {
      assert (-x) * q > 0.0;
    }
  }

  /** The position a trade opens where none is held: a long trade opens long, any other short. */
  function Opened(t: Trade, now: int): Position
  {
    DefaultPosition.(symbol := t.symbol, direction := if t.direction == Long then Long else Short,
                     quantity := t.quantity, avgPrice := t.price, openTime := now)
  }

  /** A position after adding a trade to it: quantity-weighted average cost. */
  function Added(p: Position, t: Trade): Position
    requires p.quantity + t.quantity != 0.0
  {
    p.(avgPrice := (p.avgPrice * p.quantity + t.price * t.quantity) / (p.quantity + t.quantity),
       quantity := p.quantity + t.quantity)
  }

  /** The position book after a trade. */
  function Book(ps: QMap<Position>, t: Trade, now: int): (r: QMap<Position>)
    requires Valid(ps) && PositionsPositive(ps) && t.quantity > 0.0
    ensures Valid(r) && PositionsPositive(r)
  {
    match Get(ps, t.symbol)
    case None => Put(ps, t.symbol, Opened(t, now))
    case Some(p) => Put(ps, t.symbol, Added(p, t))
  }

  /** The cash side of a trade: profit realised, commission paid, available set to the balance. */
  function Cash(a: Account, pnl: real, t: Trade): Account
  {
    a.(realizedPnL := a.realizedPnL + pnl, balance := a.balance - t.commission, available := a.balance - t.commission)
  }

  /** `updateAccount` of the back-tester, on the account's own position map. */
  function Settle(a: Account, t: Trade, now: int): Account
    requires Valid(a.positions) && PositionsPositive(a.positions) && t.quantity > 0.0
  {
    Cash(a, RealizedPnL(a.positions, t), t).(positions := Book(a.positions, t, now))
  }

  predicate AllPositive(ts: seq<Trade>)
  {
    forall i :: 0 <= i < |ts| ==> ts[i].quantity > 0.0
  }

  /** The account after a sequence of trades, one after the other. */
  function SettleAll(a: Account, ts: seq<Trade>, now: int): (r: Account)
    requires Valid(a.positions) && PositionsPositive(a.positions) && AllPositive(ts)
    ensures Valid(r.positions) && PositionsPositive(r.positions)
  {
    if ts == [] then a
    else
      var before := SettleAll(a, ts[..|ts| - 1], now);
      Settle(before, ts[|ts| - 1], now)
  }

  /** Settling one more trade is one more step of the fold. */
  lemma SettleAllSnoc(a: Account, ts: seq<Trade>, t: Trade, now: int)
    requires Valid(a.positions) && PositionsPositive(a.positions) && AllPositive(ts) && t.quantity > 0.0
    ensures AllPositive(ts + [t])
    ensures SettleAll(a, ts + [t], now) == Settle(SettleAll(a, ts, now), t, now)
  {
    assert (ts + [t])[..|ts|] == ts;
  }

  function SumCommission(ts: seq<Trade>): real
  {
    if ts == [] then 0.0 else SumCommission(ts[..|ts| - 1]) + ts[|ts| - 1].commission
  }

  /**
   * The balance falls by exactly the commissions paid, the available funds
   * follow the balance, and nothing but balance, available funds, realised
   * profit and positions changes.
   */
  lemma {:induction false} SettleAllCash(a: Account, ts: seq<Trade>, now: int)
    requires Valid(a.positions) && PositionsPositive(a.positions) && AllPositive(ts)
    ensures SettleAll(a, ts, now).balance == a.balance - SumCommission(ts)
    ensures ts != [] ==> SettleAll(a, ts, now).available == SettleAll(a, ts, now).balance
    ensures SettleAll(a, ts, now).(balance := a.balance, available := a.available, realizedPnL := a.realizedPnL,
                                   positions := a.positions) == a
  {
    if ts != [] {
      SettleAllCash(a, ts[..|ts| - 1], now);
    }
  }

  /** A trade touches only its own symbol's position; every other position is left as it was. */
  lemma BookOtherSymbols(ps: QMap<Position>, t: Trade, now: int, k: string)
    requires Valid(ps) && PositionsPositive(ps) && t.quantity > 0.0 && k != t.symbol
    ensures k in ToMap(Book(ps, t, now)) <==> k in ToMap(ps)
    ensures k in ToMap(ps) ==> ToMap(Book(ps, t, now))[k] == ToMap(ps)[k]
  {
  }

  /** A trade of unknown direction in a symbol with no position opens a short position. */
  lemma UnknownOpensShort(ps: QMap<Position>, t: Trade, now: int)
    requires Valid(ps) && PositionsPositive(ps) && t.quantity > 0.0
    requires t.direction == Unknown && t.symbol !in ToMap(ps)
    ensures ToMap(Book(ps, t, now))[t.symbol].direction == Short
    ensures RealizedPnL(ps, t) == 0.0
  {
  }

  function SumQuantity(ts: seq<Trade>): real
  {
    if ts == [] then 0.0 else SumQuantity(ts[..|ts| - 1]) + ts[|ts| - 1].quantity
  }

  function SumCost(ts: seq<Trade>): real
  {
    if ts == [] then 0.0 else SumCost(ts[..|ts| - 1]) + ts[|ts| - 1].price * ts[|ts| - 1].quantity
  }

  predicate SameSymbol(ts: seq<Trade>, s: string)
  {
    forall i :: 0 <= i < |ts| ==> ts[i].symbol == s
  }

  lemma {:induction false} SumQuantityPositive(ts: seq<Trade>)
    requires ts != [] && AllPositive(ts)
    ensures SumQuantity(ts) > 0.0
  {
    if |ts| > 1 {
      SumQuantityPositive(ts[..|ts| - 1]);
    }
  }

  /** One step of the average-cost recurrence keeps the average equal to total cost over total quantity. */
  lemma AverageStep(avg: real, q: real, cost: real, price: real, tq: real)
    requires q > 0.0 && tq > 0.0 && avg * q == cost
    ensures ((avg * q + price * tq) / (q + tq)) * (q + tq) == cost + price * tq
  {
  }

  /** Adding a trade to a position keeps its average equal to total cost over total quantity. */
  lemma AddedAverage(p: Position, t: Trade, q: real, cost: real)
    requires t.quantity > 0.0 && p.quantity == q && q > 0.0 && p.avgPrice * q == cost
    ensures Added(p, t).quantity == q + t.quantity
    ensures Added(p, t).avgPrice * (q + t.quantity) == cost + t.price * t.quantity
    ensures Added(p, t).direction == p.direction && Added(p, t).openTime == p.openTime
  {
    AverageStep(p.avgPrice, q, cost, t.price, t.quantity);
  }

  /** A trade in a symbol already held adds to that position. */
  lemma SettleHeld(b: Account, t: Trade, now: int)
    requires Valid(b.positions) && PositionsPositive(b.positions) && t.quantity > 0.0
    requires t.symbol in ToMap(b.positions)
    ensures t.symbol in ToMap(Settle(b, t, now).positions)
    ensures ToMap(Settle(b, t, now).positions)[t.symbol] == Added(ToMap(b.positions)[t.symbol], t)
  {
  }

  /** A trade in a symbol not held opens a position. */
  lemma SettleFresh(b: Account, t: Trade, now: int)
    requires Valid(b.positions) && PositionsPositive(b.positions) && t.quantity > 0.0
    requires t.symbol !in ToMap(b.positions)
    ensures t.symbol in ToMap(Settle(b, t, now).positions)
    ensures ToMap(Settle(b, t, now).positions)[t.symbol] == Opened(t, now)
  {
  }

  predicate Averaged(b: Account, s: string, q: real, cost: real, d: Direction, now: int)
  {
    s in ToMap(b.positions) &&
    var p := ToMap(b.positions)[s];
    p.quantity == q && p.avgPrice * q == cost && p.direction == d && p.openTime == now
  }

  /** The first trade in a symbol opens a position averaged over that trade alone. */
  lemma AveragedFresh(b: Account, t: Trade, now: int)
    requires Valid(b.positions) && PositionsPositive(b.positions) && t.quantity > 0.0
    requires t.symbol !in ToMap(b.positions)
    ensures Averaged(Settle(b, t, now), t.symbol, t.quantity, t.price * t.quantity,
                     if t.direction == Long then Long else Short, now)
  {
    SettleFresh(b, t, now);
  }

  /** A further trade in a symbol extends the total quantity and total cost of its position. */
  lemma AveragedHeld(b: Account, t: Trade, now: int, q: real, cost: real, d: Direction, since: int)
    requires Valid(b.positions) && PositionsPositive(b.positions) && t.quantity > 0.0
    requires q > 0.0 && Averaged(b, t.symbol, q, cost, d, since)
    ensures Averaged(Settle(b, t, now), t.symbol, q + t.quantity, cost + t.price * t.quantity, d, since)
  {
    SettleHeld(b, t, now);
    AddedAverage(ToMap(b.positions)[t.symbol], t, q, cost);
  }

  predicate AveragedOver(a: Account, ts: seq<Trade>, now: int, s: string)
    requires Valid(a.positions) && PositionsPositive(a.positions) && AllPositive(ts) && ts != []
  {
    Averaged(SettleAll(a, ts, now), s, SumQuantity(ts), SumCost(ts), if ts[0].direction == Long then Long else Short, now)
  }

  lemma AverageCostOne(a: Account, ts: seq<Trade>, now: int, s: string)
    requires Valid(a.positions) && PositionsPositive(a.positions) && AllPositive(ts)
    requires |ts| == 1 && ts[0].symbol == s && s !in ToMap(a.positions)
    ensures AveragedOver(a, ts, now, s)
  {
    var t := ts[0];
    var none := ts[..0];
    assert none == [];
    assert SumQuantity(none) == 0.0 && SumCost(none) == 0.0 && SettleAll(a, none, now) == a;
    assert SumQuantity(ts) == SumQuantity(none) + t.quantity;
    assert SumCost(ts) == SumCost(none) + t.price * t.quantity;
    assert SettleAll(a, ts, now) == Settle(SettleAll(a, none, now), t, now);
    AveragedFresh(a, t, now);
  }

  lemma AverageCostNext(a: Account, ts: seq<Trade>, now: int, s: string)
    requires Valid(a.positions) && PositionsPositive(a.positions) && AllPositive(ts)
    requires |ts| > 1 && ts[|ts| - 1].symbol == s
    requires AllPositive(ts[..|ts| - 1]) && AveragedOver(a, ts[..|ts| - 1], now, s)
    ensures AveragedOver(a, ts, now, s)
  {
    var prefix := ts[..|ts| - 1];
    var t := ts[|ts| - 1];
    assert prefix[0] == ts[0];
    var before := SettleAll(a, prefix, now);
    assert SettleAll(a, ts, now) == Settle(before, t, now);
    SumQuantityPositive(prefix);
    var q, c := SumQuantity(prefix), SumCost(prefix);
    assert SumQuantity(ts) == q + t.quantity;
    assert SumCost(ts) == c + t.price * t.quantity;
    AveragedHeld(before, t, now, q, c, if ts[0].direction == Long then Long else Short, now);
  }

  /**
   * However the trades' directions mix, trades in a symbol with no position
   * leave one position whose quantity is their total and whose average cost
   * is their quantity-weighted mean price (written multiplied out), with the
   * direction and opening time fixed by the first trade.
   */
  lemma {:induction false} AverageCost(a: Account, ts: seq<Trade>, now: int, s: string)
    requires Valid(a.positions) && PositionsPositive(a.positions) && AllPositive(ts)
    requires ts != [] && SameSymbol(ts, s) && s !in ToMap(a.positions)
    ensures Averaged(SettleAll(a, ts, now), s, SumQuantity(ts), SumCost(ts),
                     if ts[0].direction == Long then Long else Short, now)
  {
    if |ts| == 1 {
      AverageCostOne(a, ts, now, s);
    } else {
      var prefix := ts[..|ts| - 1];
      assert AllPositive(prefix) && SameSymbol(prefix, s);
      AverageCost(a, prefix, now, s);
      AverageCostNext(a, ts, now, s);
    }
  }
}
