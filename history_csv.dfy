/**
 * The row layout of the history files: one header line, then one line of
 * twelve comma-separated fields per market-data record. Number and date
 * rendering and parsing are the parameters of a `Codec`.
 */
module HistoryCsv {
  import opened Options
  import opened Text
  import opened AppData

  /** The text conversions the file layer relies on. */
  datatype Codec = Codec(
    toDouble: string -> real,   // QString::toDouble, 0 for text that is not a number
    number: real -> string,     // QString::number(x, 'f', 8)
    iso: int -> string,         // QDateTime::toString(Qt::ISODate)
    fromIso: string -> int,     // QDateTime::fromString(s, Qt::ISODate)
    stamp: int -> string,       // QDateTime::toString("yyyyMMdd-HHmmss")
    fromStamp: string -> int)   // QDateTime::fromString(s, "yyyyMMdd-HHmmss")

  /** A field text that holds neither the field nor the line separator. */
  predicate Plain(s: string)
  {
    ',' !in s && '\n' !in s
  }

  /** Rendered numbers and dates hold no separator, and file-name stamps hold no '_' or '.'. */
  ghost predicate WellFormed(c: Codec)
  {
    && (forall x: real :: Plain(c.number(x)))
    && (forall t: int :: Plain(c.iso(t)))
    && (forall t: int :: '_' !in c.stamp(t) && '.' !in c.stamp(t))
  }

  /** Every value of the record reads back as itself after rendering. */
  predicate RoundTrips(c: Codec, d: MarketData)
  {
    && c.fromIso(c.iso(d.timestamp)) == d.timestamp
    && c.toDouble(c.number(d.open)) == d.open && c.toDouble(c.number(d.high)) == d.high
    && c.toDouble(c.number(d.low)) == d.low && c.toDouble(c.number(d.close)) == d.close
    && c.toDouble(c.number(d.volume)) == d.volume && c.toDouble(c.number(d.amount)) == d.amount
    && c.toDouble(c.number(d.bidPrice)) == d.bidPrice && c.toDouble(c.number(d.bidVolume)) == d.bidVolume
    && c.toDouble(c.number(d.askPrice)) == d.askPrice && c.toDouble(c.number(d.askVolume)) == d.askVolume
  }

  /** The header line, the twelve column names separated by commas. */
  const Header: string := "Symbol,Timestamp," + "Open,High," + "Low,Close," + "Volume,Amount," +
                           "BidPrice,BidVolume," + "AskPrice,AskVolume"

  /** The twelve fields `saveToCsv` writes for a record. */
  function Fields(c: Codec, d: MarketData): (f: seq<string>)
    ensures |f| == 12
  {
    [d.symbol, c.iso(d.timestamp), c.number(d.open), c.number(d.high), c.number(d.low), c.number(d.close),
     c.number(d.volume), c.number(d.amount), c.number(d.bidPrice), c.number(d.bidVolume),
     c.number(d.askPrice), c.number(d.askVolume)]
  }

  function Row(c: Codec, d: MarketData): string
  {
    Join(Fields(c, d), ',')
  }

  function Rows(c: Codec, ds: seq<MarketData>): (rs: seq<string>)
    ensures |rs| == |ds|
  {
    seq(|ds|, i requires 0 <= i < |ds| => Row(c, ds[i]))
  }

  /** The text `saveToCsv` writes, as written: the header and rows run together with no line terminator. */
  function CsvTextAsWritten(c: Codec, ds: seq<MarketData>): string
  {
    if ds == [] then Header else CsvTextAsWritten(c, ds[..|ds| - 1]) + Row(c, ds[|ds| - 1])
  }

  /** The text `saveToCsv` evidently means to write: the header and every row each on its own line. */
  function CsvText(c: Codec, ds: seq<MarketData>): string
  {
    JoinLines([Header] + Rows(c, ds))
  }

  /** The first eight fields read into a record; everything else keeps its default. */
  function BaseRecord(c: Codec, f: seq<string>): MarketData
    requires |f| >= 8
  {
    DefaultMarketData.(symbol := f[0], timestamp := c.fromIso(f[1]), open := c.toDouble(f[2]),
                       high := c.toDouble(f[3]), low := c.toDouble(f[4]), close := c.toDouble(f[5]),
                       volume := c.toDouble(f[6]), amount := c.toDouble(f[7]))
  }

  /** Fields 8 to 11 read into the best bid and ask. */
  function WithQuotes(c: Codec, d: MarketData, f: seq<string>): MarketData
    requires |f| >= 12
  {
    d.(bidPrice := c.toDouble(f[8]), bidVolume := c.toDouble(f[9]),
       askPrice := c.toDouble(f[10]), askVolume := c.toDouble(f[11]))
  }

  /** One row of `loadFromCsv` as written: skipped, read, or a read of field 11 that is not there. */
  datatype RowRead = Skipped | Read(record: MarketData) | OutOfRange

  /** As written: the bid/ask block is guarded by "at least 11 fields" but reads field 11. */
  function ParseFieldsAsWritten(c: Codec, f: seq<string>): RowRead
  {
    if |f| < 8 then Skipped
    else if |f| >= 11 then (if |f| >= 12 then Read(WithQuotes(c, BaseRecord(c, f), f)) else OutOfRange)
    else Read(BaseRecord(c, f))
  }

  /** Corrected: the bid/ask block is read only when all four of its fields are present. */
  function ParseFields(c: Codec, f: seq<string>): (r: Option<MarketData>)
    ensures r.Some? <==> |f| >= 8
  {
    if |f| < 8 then None
    else if |f| >= 12 then Some(WithQuotes(c, BaseRecord(c, f), f))
    else Some(BaseRecord(c, f))
  }

  /** A row of exactly eleven fields passes the guard and indexes past its end. */
  lemma ElevenFieldsOutOfRange(c: Codec, f: seq<string>)
    requires |f| == 11
    ensures ParseFieldsAsWritten(c, f) == OutOfRange
    ensures ParseFields(c, f) == Some(BaseRecord(c, f))
  {
  }

  /** On every other row the corrected parser does what the written one does. */
  lemma ParseFieldsAgree(c: Codec, f: seq<string>)
    requires |f| != 11
    ensures ParseFieldsAsWritten(c, f) == Skipped <==> ParseFields(c, f) == None
    ensures ParseFieldsAsWritten(c, f).Read? ==> ParseFields(c, f) == Some(ParseFieldsAsWritten(c, f).record)
  {
  }

  /** The records of the data lines. */
  function ParseLines(c: Codec, lines: seq<string>): (ds: seq<MarketData>)
    ensures |ds| <= |lines|
  {
    if lines == [] then []
    else
      ParseLines(c, lines[..|lines| - 1]) +
      match ParseFields(c, Split(lines[|lines| - 1], ',')) {
        case None => []
        case Some(d) => [d]
      }
  }

  /** The lines after the header. */
  function Body(lines: seq<string>): seq<string>
  {
    if lines == [] then [] else lines[1..]
  }

  /** The records `loadFromCsv` appends for a file's text. */
  function ParseCsv(c: Codec, text: string): seq<MarketData>
  {
    ParseLines(c, Body(ReadLines(text)))
  }

  /** What survives a save and a load: the two fields the file has no column for come back as 0. */
  function Stored(d: MarketData): MarketData
  {
    d.(tickCount := 0, openInterest := 0.0)
  }

  function StoredAll(ds: seq<MarketData>): (r: seq<MarketData>)
    ensures |r| == |ds|
  {
    seq(|ds|, i requires 0 <= i < |ds| => Stored(ds[i]))
  }

  /** The fields of a record hold no separator when its symbol holds none. */
  lemma FieldsPlain(c: Codec, d: MarketData)
    requires WellFormed(c) && Plain(d.symbol)
    ensures NoSeparator(Fields(c, d), ',') && NoSeparator(Fields(c, d), '\n')
  {
    var f := Fields(c, d);
    forall i | 0 <= i < 12 ensures Plain(f[i]) {
      if i == 1 {
        assert Plain(c.iso(d.timestamp));
      } else if i >= 2 {
        assert f[i] == c.number([d.open, d.high, d.low, d.close, d.volume, d.amount,
                                 d.bidPrice, d.bidVolume, d.askPrice, d.askVolume][i - 2]);
      }
    }
  }

  /** One row reads back as the record it was written from. */
  lemma RowRoundTrip(c: Codec, d: MarketData)
    requires WellFormed(c) && Plain(d.symbol) && RoundTrips(c, d)
    ensures ParseFields(c, Split(Row(c, d), ',')) == Some(Stored(d))
    ensures '\n' !in Row(c, d)
  {
    FieldsPlain(c, d);
    SplitJoin(Fields(c, d), ',');
    JoinWithout(Fields(c, d), ',', '\n');
  }

  /** The header is a line of its own: it holds no line terminator. */
  lemma HeaderOneLine()
    ensures '\n' !in Header
  {
    assert '\n' !in "Symbol,Timestamp," && '\n' !in "Open,High,";
    assert '\n' !in "Low,Close," && '\n' !in "Volume,Amount,";
    assert '\n' !in "BidPrice,BidVolume,";
    assert '\n' !in "AskPrice,AskVolume";
  }

  lemma RowsSnoc(c: Codec, ds: seq<MarketData>)
    requires ds != []
    ensures Rows(c, ds)[..|ds| - 1] == Rows(c, ds[..|ds| - 1]) && Rows(c, ds)[|ds| - 1] == Row(c, ds[|ds| - 1])
    ensures StoredAll(ds) == StoredAll(ds[..|ds| - 1]) + [Stored(ds[|ds| - 1])]
  {
  }

  lemma {:induction false} ParseRows(c: Codec, ds: seq<MarketData>)
    requires WellFormed(c)
    requires forall i :: 0 <= i < |ds| ==> Plain(ds[i].symbol) && RoundTrips(c, ds[i])
    ensures ParseLines(c, Rows(c, ds)) == StoredAll(ds)
  {
    if ds != [] {
      var init, last := ds[..|ds| - 1], ds[|ds| - 1];
      var rows := Rows(c, ds);
      assert forall i :: 0 <= i < |init| ==> init[i] == ds[i];
      ParseRows(c, init);
      RowsSnoc(c, ds);
      RowRoundTrip(c, last);
      ParseLinesLast(c, rows, Stored(last));
    }
  }

  /** A last line that parses to `d` adds `d` after the records of the lines before it. */
  lemma ParseLinesLast(c: Codec, lines: seq<string>, d: MarketData)
    requires lines != [] && ParseFields(c, Split(lines[|lines| - 1], ',')) == Some(d)
    ensures ParseLines(c, lines) == ParseLines(c, lines[..|lines| - 1]) + [d]
  {
  }

  /**
   * Loading the corrected file gives back every record written, in order,
   * with only tick count and open interest reset, provided the symbols hold
   * no separator and the codec reads its own renderings back.
   */
  lemma LoadSaved(c: Codec, ds: seq<MarketData>)
    requires WellFormed(c)
    requires forall i :: 0 <= i < |ds| ==> Plain(ds[i].symbol) && RoundTrips(c, ds[i])
    ensures ParseCsv(c, CsvText(c, ds)) == StoredAll(ds)
  {
    var lines := [Header] + Rows(c, ds);
    forall i | 0 <= i < |lines| ensures '\n' !in lines[i] {
      if i > 0 {
        RowRoundTrip(c, ds[i - 1]);
      } else {
        HeaderOneLine();
      }
    }
    ReadTerminatedLines(lines);
    assert Body(lines) == Rows(c, ds);
    ParseRows(c, ds);
  }

  /** The text as written is one single line, the header followed by all rows. */
  lemma {:induction false} AsWrittenOneLine(c: Codec, ds: seq<MarketData>)
    requires WellFormed(c)
    requires forall i :: 0 <= i < |ds| ==> Plain(ds[i].symbol)
    ensures '\n' !in CsvTextAsWritten(c, ds)
  {
    if ds == [] {
      HeaderOneLine();
    } else {
      AsWrittenOneLine(c, ds[..|ds| - 1]);
      FieldsPlain(c, ds[|ds| - 1]);
      JoinWithout(Fields(c, ds[|ds| - 1]), ',', '\n');
    }
  }

  /** A file written as the code writes it loads back as nothing at all, whatever was saved. */
  lemma AsWrittenLoadsNothing(c: Codec, ds: seq<MarketData>)
    requires WellFormed(c)
    requires forall i :: 0 <= i < |ds| ==> Plain(ds[i].symbol)
    ensures ParseCsv(c, CsvTextAsWritten(c, ds)) == []
  {
    var text := CsvTextAsWritten(c, ds);
    AsWrittenOneLine(c, ds);
    if text != [] {
      SplitWithout(text, '\n');
      assert ReadLines(text) == [text];
    }
  }
}
