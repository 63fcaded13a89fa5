/**
 * The trade-history table: `loadFromCsv` reads a file of past trades, one
 * per line after a header, and replaces the table's trades with them. The
 * file's text is the parameter `text` (None when the file cannot be
 * opened); field conversions come from a `Codec`.
 */
module HistoryDataModels {
  import opened Options
  import opened Text
  import opened AppData
  import opened HistoryCsv

  /**
   * The trade a row describes: symbol, ISO time, price, a signed quantity
   * whose sign gives the side, and commission, from fields 0, 1, 5, 6 and 7.
   * A row of fewer than eight fields describes none.
   */
  function TradeFields(c: Codec, f: seq<string>): (r: Option<Trade>)
    ensures r.Some? <==> |f| >= 8
  {
    if |f| < 8 then None
    else
      var q := c.toDouble(f[6]);
      Some(DefaultTrade.(symbol := f[0], tradeTime := c.fromIso(f[1]), price := c.toDouble(f[5]),
                         direction := if q > 0.0 then Long else Short,
                         quantity := if q < 0.0 then -q else q,
                         commission := c.toDouble(f[7])))
  }

  /** The trades of the data lines, in file order. */
  function ParseTrades(c: Codec, lines: seq<string>): (ts: seq<Trade>)
    ensures |ts| <= |lines|
  {
    if lines == [] then []
    else
      ParseTrades(c, lines[..|lines| - 1]) +
      match TradeFields(c, Split(lines[|lines| - 1], ',')) {
        case None => []
        case Some(t) => [t]
      }
  }

  /** The trades a file's text holds: the first line is the header. */
  function LoadTrades(c: Codec, text: string): seq<Trade>
  {
    ParseTrades(c, Body(ReadLines(text)))
  }

  /** A loaded trade is always a buy or a sell, of a quantity that is never negative. */
  predicate Normalized(t: Trade)
  {
    t.quantity >= 0.0 && (t.direction == Long || t.direction == Short)
  }

  /**
   * What a row says about its trade: the side is Long exactly when the
   * signed quantity is positive, and the quantity is its absolute value.
   */
  lemma TradeFieldsMeaning(c: Codec, f: seq<string>)
    requires |f| >= 8
    ensures var t := TradeFields(c, f).value;
            && Normalized(t)
            && (t.direction == Long <==> c.toDouble(f[6]) > 0.0)
            && (t.quantity == c.toDouble(f[6]) || t.quantity == -c.toDouble(f[6]))
            && t.symbol == f[0] && t.tradeTime == c.fromIso(f[1])
            && t.price == c.toDouble(f[5]) && t.commission == c.toDouble(f[7])
  {
  }

  /** Every trade the loader produces is normalized. */
  lemma {:induction false} ParseTradesNormalized(c: Codec, lines: seq<string>)
    ensures forall i :: 0 <= i < |ParseTrades(c, lines)| ==> Normalized(ParseTrades(c, lines)[i])
  {
    if lines != [] {
      ParseTradesNormalized(c, lines[..|lines| - 1]);
      var f := Split(lines[|lines| - 1], ',');
      if |f| >= 8 {
        TradeFieldsMeaning(c, f);
      }
    }
  }

  /** The quantity a row writes for a trade: negative for a sell. */
  function SignedQuantity(t: Trade): real
  {
    if t.direction == Long then t.quantity else -t.quantity
  }

  /** A row for a trade, with the three columns the loader does not read left empty. */
  function TradeCells(c: Codec, t: Trade): (f: seq<string>)
    ensures |f| == 8
  {
    [t.symbol, c.iso(t.tradeTime), "", "", "", c.number(t.price), c.number(SignedQuantity(t)), c.number(t.commission)]
  }

  /** The part of a trade a row carries: the rest comes back as the defaults. */
  function Carried(t: Trade): Trade
  {
    DefaultTrade.(symbol := t.symbol, tradeTime := t.tradeTime, price := t.price, direction := t.direction,
                  quantity := t.quantity, commission := t.commission)
  }

  /** A trade a row can carry: a buy of a positive quantity or a sell, and values the codec reads back. */
  predicate Writable(c: Codec, t: Trade)
  {
    && Plain(t.symbol)
    && ((t.direction == Long && t.quantity > 0.0) || (t.direction == Short && t.quantity >= 0.0))
    && c.fromIso(c.iso(t.tradeTime)) == t.tradeTime
    && c.toDouble(c.number(t.price)) == t.price
    && c.toDouble(c.number(SignedQuantity(t))) == SignedQuantity(t)
    && c.toDouble(c.number(t.commission)) == t.commission
  }

  /** One trade row reads back as the trade it was written from. */
  lemma TradeRowRoundTrip(c: Codec, t: Trade)
    requires WellFormed(c) && Writable(c, t)
    ensures TradeFields(c, Split(Join(TradeCells(c, t), ','), ',')) == Some(Carried(t))
    ensures '\n' !in Join(TradeCells(c, t), ',')
  {
    var f := TradeCells(c, t);
    forall i | 0 <= i < 8 ensures Plain(f[i]) {
      if i == 1 {
        assert Plain(c.iso(t.tradeTime));
      } else if i >= 5 {
        assert f[i] == c.number([t.price, SignedQuantity(t), t.commission][i - 5]);
      }
    }
    SplitJoin(f, ',');
    JoinWithout(f, ',', '\n');
  }

  function TradeRows(c: Codec, ts: seq<Trade>): (rs: seq<string>)
    ensures |rs| == |ts|
  {
    seq(|ts|, i requires 0 <= i < |ts| => Join(TradeCells(c, ts[i]), ','))
  }

  function CarriedAll(ts: seq<Trade>): (r: seq<Trade>)
    ensures |r| == |ts|
  {
    seq(|ts|, i requires 0 <= i < |ts| => Carried(ts[i]))
  }

  lemma {:induction false} ParseTradeRows(c: Codec, ts: seq<Trade>)
    requires WellFormed(c)
    requires forall i :: 0 <= i < |ts| ==> Writable(c, ts[i])
    ensures ParseTrades(c, TradeRows(c, ts)) == CarriedAll(ts)
  {
    if ts != [] {
      var init, last := ts[..|ts| - 1], ts[|ts| - 1];
      var rows := TradeRows(c, ts);
      ParseTradeRows(c, init);
      assert rows[..|rows| - 1] == TradeRows(c, init);
      assert CarriedAll(ts) == CarriedAll(init) + [Carried(last)];
      TradeRowRoundTrip(c, last);
    }
  }

  /**
   * A file of a header and one row per trade loads back as those trades, in
   * order, whatever the header says as long as it is a single line.
   */
  lemma LoadTradeFile(c: Codec, header: string, ts: seq<Trade>)
    requires WellFormed(c) && '\n' !in header
    requires forall i :: 0 <= i < |ts| ==> Writable(c, ts[i])
    ensures LoadTrades(c, JoinLines([header] + TradeRows(c, ts))) == CarriedAll(ts)
  {
    var lines := [header] + TradeRows(c, ts);
    forall i | 0 <= i < |lines| ensures '\n' !in lines[i] {
      if i > 0 {
        TradeRowRoundTrip(c, ts[i - 1]);
      }
    }
    ReadTerminatedLines(lines);
    assert Body(lines) == TradeRows(c, ts);
    ParseTradeRows(c, ts);
  }

  class HistoryDataModel {
    var trades: seq<Trade>
    var marketData: seq<MarketData>
    var account: Account

    constructor ()
      ensures trades == [] && marketData == [] && account == DefaultAccount
    {
      trades := [];
      marketData := [];
      account := DefaultAccount;
    }

    /** `rowCount`: one row per trade. */
    function RowCount(): (n: nat)
      reads this
      ensures n == |trades|
    {
      |trades|
    }

    /**
     * `loadFromCsv`: a file that cannot be opened fails and leaves the table
     * alone; otherwise the table's trades are replaced by the file's.
     */
    method LoadFromCsv(c: Codec, text: Option<string>) returns (ok: bool)
      modifies this`trades
      ensures ok <==> text.Some?
      ensures ok ==> trades == LoadTrades(c, text.value)
      ensures !ok ==> trades == old(trades)
    {
      if text.None? {
        return false;
      }
      var newTrades := ReadTrades(c, text.value);
      trades := newTrades;
      return true;
    }
  }

  /** The read loop of `loadFromCsv`: skip the header, then one trade per row of at least eight fields. */
  method ReadTrades(c: Codec, text: string) returns (r: seq<Trade>)
    ensures r == LoadTrades(c, text)
  {
    var lines := ReadLines(text);
    ghost var body := Body(lines);
    r := [];
    var i := 1;
    while i < |lines|
      invariant 1 <= i <= |lines| || lines == []
      invariant lines != [] ==> r == ParseTrades(c, body[..i - 1])
      invariant lines == [] ==> r == []
    {
      assert body[..i] == body[..i - 1] + [lines[i]];
      assert body[..i][..i - 1] == body[..i - 1];
      var fields := Split(lines[i], ',');
      var parsed := TradeFields(c, fields);
      if parsed.Some? {
        r := r + [parsed.value];
      }
      i := i + 1;
    }
    if lines != [] {
      assert body[..|lines| - 1] == body;
    }
  }
}
