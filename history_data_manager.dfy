/**
 * The history file store: one directory per bar period and symbol, holding
 * csv files named `symbol_<first>_<last>.csv` after the time range they
 * cover. Directory listing, file reading and file writing are parameters:
 * `files` is the listing of `*.csv` names in name order, `read` gives a
 * file's text (None when it cannot be opened), `writable` says whether a
 * file can be opened for writing.
 */
module HistoryData {
  import opened Options
  import opened Text
  import opened AppData
  import opened HistoryCsv
  import Backtest
  import KlineAggregation

  /** The directory name of a bar period. */
  function PeriodName(tf: TimeFrame): string
  {
    match tf
    case Tick => "tick"
    case M1 => "1m"
    case M5 => "5m"
    case M15 => "15m"
    case M30 => "30m"
    case H1 => "1h"
    case H4 => "4h"
    case D1 => "1d"
    case W1 => "1w"
    case KUnknown => "unknown"
  }

  /** Each known period has its own directory; only the unknown period maps to "unknown". */
  lemma PeriodNamesDistinct(a: TimeFrame, b: TimeFrame)
    ensures PeriodName(a) == PeriodName(b) <==> a == b
    ensures PeriodName(a) == "unknown" <==> a == KUnknown
  {
  }

  /** `dataDir/period/symbol`. */
  function DataFilePath(dataDir: string, symbol: string, tf: TimeFrame): string
  {
    dataDir + "/" + PeriodName(tf) + "/" + symbol
  }

  /** The file a batch of records is saved to: its symbol and the time stamps of its first and last record. */
  function FileName(c: Codec, symbol: string, first: int, last: int): string
  {
    symbol + "_" + c.stamp(first) + "_" + c.stamp(last) + ".csv"
  }

  /** As written: the range is read from the second and third '_'-separated parts of the name. */
  function FileRangeAsWritten(c: Codec, name: string): Option<(int, int)>
  {
    var parts := Split(name, '_');
    if |parts| < 3 then None else Some((c.fromStamp(parts[1]), c.fromStamp(Split(parts[2], '.')[0])))
  }

  /** Corrected: the range is read from the last two parts, so a symbol may itself hold '_'. */
  function FileRange(c: Codec, name: string): Option<(int, int)>
  {
    var parts := Split(name, '_');
    if |parts| < 3 then None
    else Some((c.fromStamp(parts[|parts| - 2]), c.fromStamp(Split(parts[|parts| - 1], '.')[0])))
  }

  lemma StampTail(c: Codec, first: int, last: int)
    requires WellFormed(c)
    ensures Split(c.stamp(first) + "_" + c.stamp(last) + ".csv", '_') == [c.stamp(first), c.stamp(last) + ".csv"]
    ensures Split(c.stamp(last) + ".csv", '.') == [c.stamp(last), "csv"]
  {
    var a, b := c.stamp(first), c.stamp(last);
    assert a + "_" + b + ".csv" == a + ['_'] + (b + ".csv");
    SplitAfter(a, '_', b + ".csv");
    assert '_' !in ".csv";
    SplitWithout(b + ".csv", '_');
    assert b + ".csv" == b + ['.'] + "csv";
    SplitAfter(b, '.', "csv");
    SplitWithout("csv", '.');
  }

  /** The corrected reader recovers the stamps of every file name the saver makes, whatever the symbol. */
  lemma {:induction false} FileNameRoundTrip(c: Codec, symbol: string, first: int, last: int)
    requires WellFormed(c)
    ensures FileRange(c, FileName(c, symbol, first, last)) ==
            Some((c.fromStamp(c.stamp(first)), c.fromStamp(c.stamp(last))))
    decreases |symbol|
  {
    var tail := c.stamp(first) + "_" + c.stamp(last) + ".csv";
    StampTail(c, first, last);
    assert FileName(c, symbol, first, last) == symbol + "_" + tail;
    SplitSuffix(symbol, tail);
    var ps := Split(symbol + "_" + tail, '_');
    assert ps[|ps| - 2..] == [c.stamp(first), c.stamp(last) + ".csv"];
    assert ps[|ps| - 2] == c.stamp(first) && ps[|ps| - 1] == c.stamp(last) + ".csv";
  }

  /** Splitting `symbol + "_" + tail` on '_' ends with the parts of `tail`. */
  lemma {:induction false} SplitSuffix(symbol: string, tail: string)
    ensures |Split(symbol + "_" + tail, '_')| >= |Split(tail, '_')| + 1
    ensures var ps := Split(symbol + "_" + tail, '_');
            ps[|ps| - |Split(tail, '_')|..] == Split(tail, '_')
    decreases |symbol|
  {
    var ps := Split(symbol + "_" + tail, '_');
    if symbol == [] {
      assert symbol + "_" + tail == [] + ['_'] + tail;
      SplitAfter([], '_', tail);
    } else {
      var s := symbol + "_" + tail;
      assert s[1..] == symbol[1..] + "_" + tail;
      SplitSuffix(symbol[1..], tail);
      var rest, t := Split(s[1..], '_'), Split(tail, '_');
      if s[0] == '_' {
        assert ps == [""] + rest;
      } else {
        assert ps == [[s[0]] + rest[0]] + rest[1..];
      }
      assert ps[|ps| - |t|..] == rest[|rest| - |t|..];
    }
  }

  /** With a symbol free of '_' both readers agree on the saver's names. */
  lemma PlainSymbolAgrees(c: Codec, symbol: string, first: int, last: int)
    requires WellFormed(c) && '_' !in symbol
    ensures FileRangeAsWritten(c, FileName(c, symbol, first, last)) == FileRange(c, FileName(c, symbol, first, last))
  {
    var tail := c.stamp(first) + "_" + c.stamp(last) + ".csv";
    StampTail(c, first, last);
    assert FileName(c, symbol, first, last) == symbol + ['_'] + tail;
    SplitAfter(symbol, '_', tail);
  }

  /** A symbol such as "BTC_USDT" makes the written reader take "USDT" for the start time. */
  lemma UnderscoreSymbolMisread(c: Codec, first: int, last: int)
    requires WellFormed(c)
    ensures FileRangeAsWritten(c, FileName(c, "BTC_USDT", first, last)) ==
            Some((c.fromStamp("USDT"), c.fromStamp(c.stamp(first))))
  {
    var tail := c.stamp(first) + "_" + c.stamp(last) + ".csv";
    StampTail(c, first, last);
    assert FileName(c, "BTC_USDT", first, last) == "BTC" + ['_'] + ("USDT" + ['_'] + tail);
    SplitAfter("USDT", '_', tail);
    SplitAfter("BTC", '_', "USDT" + ['_'] + tail);
    assert '.' !in c.stamp(first);
    SplitWithout(c.stamp(first), '.');
  }

  /* ---------- loading ---------- */

  /** The records that fall in the requested range, in order. */
  function InRange(ds: seq<MarketData>, start: int, end: int): seq<MarketData>
  {
    if ds == [] then []
    else InRange(ds[..|ds| - 1], start, end) +
         (if start <= ds[|ds| - 1].timestamp <= end then [ds[|ds| - 1]] else [])
  }

  lemma {:induction false} InRangeMembers(ds: seq<MarketData>, start: int, end: int, x: MarketData)
    ensures x in InRange(ds, start, end) <==> x in ds && start <= x.timestamp <= end
  {
    if ds != [] {
      InRangeMembers(ds[..|ds| - 1], start, end, x);
      assert ds == ds[..|ds| - 1] + [ds[|ds| - 1]];
    }
  }

  /** Whether a listed file is read: its name has a range, and the range meets the request. */
  function Candidate(c: Codec, name: string, start: int, end: int): bool
  {
    match FileRange(c, name)
    case None => false
    case Some(r) => !(r.1 < start || r.0 > end)
  }

  /** Whether any file was loaded, and the in-range records of the loaded files, file by file. */
  datatype Gather = Gather(found: bool, recs: seq<MarketData>)

  function Gathered(c: Codec, dir: string, files: seq<string>, read: string -> Option<string>,
                    start: int, end: int): Gather
  {
    if files == [] then Gather(false, [])
    else
      var before := Gathered(c, dir, files[..|files| - 1], read, start, end);
      var name := files[|files| - 1];
      if !Candidate(c, name, start, end) then before
      else match read(dir + "/" + name)
        case None => before
        case Some(text) => Gather(true, before.recs + InRange(ParseCsv(c, text), start, end))
  }

  /** Every gathered record lies in the requested range, and nothing is gathered unless a file loaded. */
  lemma {:induction false} GatheredInRange(c: Codec, dir: string, files: seq<string>, read: string -> Option<string>,
                                           start: int, end: int)
    ensures var g := Gathered(c, dir, files, read, start, end);
            (!g.found ==> g.recs == []) && forall x :: x in g.recs ==> start <= x.timestamp <= end
  {
    if files != [] {
      GatheredInRange(c, dir, files[..|files| - 1], read, start, end);
      var name := files[|files| - 1];
      if Candidate(c, name, start, end) && read(dir + "/" + name).Some? {
        var g := Gathered(c, dir, files[..|files| - 1], read, start, end);
        AppendInRange(g.recs, ParseCsv(c, read(dir + "/" + name).value), start, end);
      }
    }
  }

  /** In-range records followed by the in-range part of more records are all in range. */
  lemma AppendInRange(recs: seq<MarketData>, ds: seq<MarketData>, start: int, end: int)
    requires forall x :: x in recs ==> start <= x.timestamp <= end
    ensures forall x :: x in recs + InRange(ds, start, end) ==> start <= x.timestamp <= end
  {
    forall x | x in recs + InRange(ds, start, end) ensures start <= x.timestamp <= end {
      InRangeMembers(ds, start, end, x);
    }
  }

  /** `loadFromCsv`: nothing when the file cannot be opened, else the parsed rows appended to `data`. */
  method LoadFromCsv(c: Codec, text: Option<string>, data: seq<MarketData>) returns (ok: bool, r: seq<MarketData>)
    ensures ok <==> text.Some?
    ensures r == if ok then data + ParseCsv(c, text.value) else data
  {
    if text.None? {
      return false, data;
    }
    var lines := ReadLines(text.value);
    ghost var body := Body(lines);
    r := data;
    var i := 1;
    while i < |lines|
      invariant 1 <= i <= |lines| || lines == []
      invariant lines != [] ==> r == data + ParseLines(c, body[..i - 1])
      invariant lines == [] ==> r == data
    {
      assert body[..i] == body[..i - 1] + [lines[i]];
      assert body[..i][..i - 1] == body[..i - 1];
      var fields := Split(lines[i], ',');
      var parsed := ParseFields(c, fields);
      if parsed.Some? {
        r := r + [parsed.value];
      }
      i := i + 1;
    }
    if lines != [] {
      assert body[..|lines| - 1] == body;
    }
    return true, r;
  }

  /** One more listed file is one more step of the gathering. */
  lemma GatheredSnoc(c: Codec, dir: string, files: seq<string>, i: int, read: string -> Option<string>,
                     start: int, end: int)
    requires 0 <= i < |files|
    ensures var before := Gathered(c, dir, files[..i], read, start, end);
            var name := files[i];
            Gathered(c, dir, files[..i + 1], read, start, end) ==
            if Candidate(c, name, start, end) && read(dir + "/" + name).Some?
            then Gather(true, before.recs + InRange(ParseCsv(c, read(dir + "/" + name).value), start, end))
            else before
  {
    assert files[..i + 1][..i] == files[..i] && files[..i + 1][i] == files[i];
  }

  /** The body of the file loop: check the name's range, load the file, keep the in-range records. */
  method LoadFile(c: Codec, dir: string, name: string, start: int, end: int, read: string -> Option<string>)
    returns (loaded: bool, kept: seq<MarketData>)
    ensures loaded <==> Candidate(c, name, start, end) && read(dir + "/" + name).Some?
    ensures loaded ==> kept == InRange(ParseCsv(c, read(dir + "/" + name).value), start, end)
  {
    var range := FileRange(c, name);
    kept := [];
    if range.None? || range.value.1 < start || range.value.0 > end {
      return false, kept;
    }
    var fileData;
    loaded, fileData := LoadFromCsv(c, read(dir + "/" + name), []);
    if loaded {
      assert [] + ParseCsv(c, read(dir + "/" + name).value) == ParseCsv(c, read(dir + "/" + name).value);
      kept := InRange(fileData, start, end);
    }
  }

  /** `loadHistoricalData`: gather the in-range records of the matching files, then sort them by time. */
  method LoadHistoricalData(c: Codec, dataDir: string, symbol: string, start: int, end: int,
                            data: seq<MarketData>, tf: TimeFrame, dirExists: bool,
                            files: seq<string>, read: string -> Option<string>)
    returns (ok: bool, r: seq<MarketData>)
    ensures !dirExists || files == [] ==> !ok
    ensures var g := Gathered(c, DataFilePath(dataDir, symbol, tf), files, read, start, end);
            && (dirExists && files != [] ==> ok == g.found)
            && (ok ==> KlineAggregation.SortedByTime(r) && multiset(r) == multiset(data + g.recs))
            && (!ok ==> r == data)
  {
    var dir := DataFilePath(dataDir, symbol, tf);
    GatheredInRange(c, dir, files, read, start, end);
    if !dirExists || files == [] {
      return false, data;
    }
    var found, acc := GatherFiles(c, dir, files, read, start, end);
    if found {
      r := Backtest.SortByTime(data + acc);
      return true, r;
    }
    return false, data;
  }

  /** The file loop of `loadHistoricalData`. */
  method GatherFiles(c: Codec, dir: string, files: seq<string>, read: string -> Option<string>, start: int, end: int)
    returns (found: bool, acc: seq<MarketData>)
    ensures Gather(found, acc) == Gathered(c, dir, files, read, start, end)
  {
    found, acc := false, [];
    var i := 0;
    while i < |files|
      invariant 0 <= i <= |files|
      invariant Gather(found, acc) == Gathered(c, dir, files[..i], read, start, end)
    {
      GatheredSnoc(c, dir, files, i, read, start, end);
      var loaded, kept := LoadFile(c, dir, files[i], start, end, read);
      if loaded {
        acc := acc + kept;
        found := true;
      }
      i := i + 1;
    }
    assert files[..|files|] == files;
  }

  /* ---------- saving ---------- */

  /** ⌊2³⁰ / 200⌋: a file of this many 200-byte records stays under 1 GiB. */
  const MaxRecordsPerFile: int := 1073741824 / 200

  lemma MaxRecordsValue()
    ensures MaxRecordsPerFile == 5368709
  {
  }

  /** Consecutive batches of at most `k` records. */
  function Batches(ds: seq<MarketData>, k: int): seq<seq<MarketData>>
    requires k > 0
    decreases |ds|
  {
    if ds == [] then []
    else if |ds| <= k then [ds]
    else [ds[..k]] + Batches(ds[k..], k)
  }

  function Flatten(bs: seq<seq<MarketData>>): seq<MarketData>
  {
    if bs == [] then [] else bs[0] + Flatten(bs[1..])
  }

  /** The batches together are the input, in order. */
  lemma {:induction false} BatchesFlatten(ds: seq<MarketData>, k: int)
    requires k > 0
    ensures Flatten(Batches(ds, k)) == ds
    decreases |ds|
  {
    if |ds| > k {
      BatchesFlatten(ds[k..], k);
      assert ds[..k] + ds[k..] == ds;
      assert Batches(ds, k)[1..] == Batches(ds[k..], k);
    } else if ds != [] {
      assert [ds][1..] == [];
    }
  }

  /** Every batch is non-empty and holds at most `k` records, and there are ⌈n / k⌉ of them. */
  lemma {:induction false} BatchesSizes(ds: seq<MarketData>, k: int)
    requires k > 0
    ensures forall i :: 0 <= i < |Batches(ds, k)| ==> 0 < |Batches(ds, k)[i]| <= k
    ensures |Batches(ds, k)| == (|ds| + k - 1) / k
    decreases |ds|
  {
    if |ds| > k {
      BatchesSizes(ds[k..], k);
      CeilStep(|ds|, k);
    } else if ds != [] {
      CeilOne(|ds|, k);
    }
  }

  lemma CeilStep(n: int, k: int)
    requires 0 < k < n
    ensures (n + k - 1) / k == (n - k + k - 1) / k + 1
  {
    var x := n - k + k - 1;
    var q, r := x / k, x % k;
    assert n + k - 1 == (q + 1) * k + r;
    KlineAggregation.DivUnique(n + k - 1, k, q + 1, r);
  }

  lemma CeilOne(n: int, k: int)
    requires 0 < n <= k
    ensures (n + k - 1) / k == 1
  {
    assert k <= n + k - 1 < 2 * k;
  }

  /** The path and the text of the file a batch is written to. */
  function BatchFile(c: Codec, dir: string, symbol: string, b: seq<MarketData>): (string, string)
  {
    if b == [] then (dir, "")
    else (dir + "/" + FileName(c, symbol, b[0].timestamp, b[|b| - 1].timestamp), CsvText(c, b))
  }

  function Plan(c: Codec, dir: string, symbol: string, bs: seq<seq<MarketData>>): (p: seq<(string, string)>)
    ensures |p| == |bs|
  {
    if bs == [] then [] else [BatchFile(c, dir, symbol, bs[0])] + Plan(c, dir, symbol, bs[1..])
  }

  /** File `j` of the plan is the batch `j`'s file. */
  lemma {:induction false} PlanIndex(c: Codec, dir: string, symbol: string, bs: seq<seq<MarketData>>, j: int)
    requires 0 <= j < |bs|
    ensures Plan(c, dir, symbol, bs)[j] == BatchFile(c, dir, symbol, bs[j])
  {
    if j > 0 {
      PlanIndex(c, dir, symbol, bs[1..], j - 1);
    }
  }

  /** Every record of a batch is a record of the input. */
  lemma {:induction false} BatchMembers(ds: seq<MarketData>, k: int, j: int, x: MarketData)
    requires k > 0 && 0 <= j < |Batches(ds, k)| && x in Batches(ds, k)[j]
    ensures x in ds
    decreases |ds|
  {
    if |ds| > k && j > 0 {
      assert Batches(ds, k)[j] == Batches(ds[k..], k)[j - 1];
      BatchMembers(ds[k..], k, j - 1, x);
    }
  }

  /**
   * Every file the save plans is named after its batch's first and last time
   * stamp, inside the period's directory, and loading its text gives back that
   * batch, when symbols hold no separator and the codec reads its renderings back.
   */
  lemma SavedFileLoads(c: Codec, dir: string, symbol: string, data: seq<MarketData>, k: int, j: int)
    requires k > 0 && 0 <= j < |Batches(data, k)|
    requires WellFormed(c)
    requires forall i :: 0 <= i < |data| ==> Plain(data[i].symbol) && RoundTrips(c, data[i])
    ensures var b := Batches(data, k)[j];
            var f := Plan(c, dir, symbol, Batches(data, k))[j];
            && b != []
            && f.0 == dir + "/" + FileName(c, symbol, b[0].timestamp, b[|b| - 1].timestamp)
            && ParseCsv(c, f.1) == StoredAll(b)
  {
    var b := Batches(data, k)[j];
    BatchesSizes(data, k);
    PlanIndex(c, dir, symbol, Batches(data, k), j);
    forall i | 0 <= i < |b| ensures Plain(b[i].symbol) && RoundTrips(c, b[i]) {
      BatchMembers(data, k, j, b[i]);
    }
    LoadSaved(c, b);
  }

  /** The files actually written: the plan up to, not including, the first file that cannot be opened. */
  function Writes(p: seq<(string, string)>, writable: string -> bool): seq<(string, string)>
  {
    if p == [] then []
    else if !writable(p[0].0) then []
    else [p[0]] + Writes(p[1..], writable)
  }

  /** The files written are a prefix of the plan: every one of them opened, and the next planned one did not. */
  lemma {:induction false} WritesPrefix(p: seq<(string, string)>, writable: string -> bool)
    ensures var w := Writes(p, writable);
            && |w| <= |p| && w == p[..|w|]
            && (forall j :: 0 <= j < |w| ==> writable(w[j].0))
            && (|w| < |p| ==> !writable(p[|w|].0))
  {
    if p != [] && writable(p[0].0) {
      WritesPrefix(p[1..], writable);
    }
  }

  /** One step of the batch loop: the batch starting at `i` is the first batch of `ds[i..]`. */
  lemma BatchAt(ds: seq<MarketData>, i: int, k: int)
    requires k > 0 && 0 <= i < |ds|
    ensures var e := if i + k < |ds| then i + k else |ds|;
            Batches(ds[i..], k) == [ds[i..e]] + Batches(ds[e..], k)
  {
    var e := if i + k < |ds| then i + k else |ds|;
    if |ds[i..]| <= k {
      assert ds[i..] == ds[i..e] && ds[e..] == [];
    } else {
      assert ds[i..][..k] == ds[i..e] && ds[i..][k..] == ds[e..];
    }
  }

  /** The plan of the batches from `i` on starts with the file of the batch at `i`. */
  lemma PlanAt(c: Codec, dir: string, symbol: string, data: seq<MarketData>, i: int, k: int)
    requires k > 0 && 0 <= i < |data|
    ensures var e := if i + k < |data| then i + k else |data|;
            Plan(c, dir, symbol, Batches(data[i..], k))
            == [BatchFile(c, dir, symbol, data[i..e])] + Plan(c, dir, symbol, Batches(data[e..], k))
  {
    BatchAt(data, i, k);
  }

  /** The writing stops at the first planned file that does not open. */
  lemma {:induction false} WritesUpTo(p: seq<(string, string)>, n: int, writable: string -> bool)
    requires 0 <= n <= |p|
    requires forall j :: 0 <= j < n ==> writable(p[j].0)
    requires n < |p| ==> !writable(p[n].0)
    ensures Writes(p, writable) == p[..n]
  {
    if n > 0 {
      WritesUpTo(p[1..], n - 1, writable);
      assert p[..n] == [p[0]] + p[1..][..n - 1];
    }
  }

  /** A suffix that starts with `f` moves one place on. */
  lemma SuffixStep<T>(p: seq<T>, n: int, f: T, rest: seq<T>)
    requires 0 <= n <= |p| && p[n..] == [f] + rest
    ensures n < |p| && p[n] == f && p[n + 1..] == rest && p[..n + 1] == p[..n] + [f]
  {
    assert p[n..][0] == f && p[n..][1..] == rest;
  }

  /** The loop body of the save: the next batch, its file, and whether that file opens. */
  method SaveBatch(c: Codec, dir: string, symbol: string, data: seq<MarketData>, i: int, k: int,
                   writable: string -> bool)
    returns (opens: bool, file: (string, string), e: int)
    requires k > 0 && 0 <= i < |data|
    ensures i < e <= |data| && opens == writable(file.0)
    ensures Plan(c, dir, symbol, Batches(data[i..], k)) == [file] + Plan(c, dir, symbol, Batches(data[e..], k))
  {
    e := if i + k < |data| then i + k else |data|;
    var batch := CopyBatch(data, i, e);
    file := BatchFile(c, dir, symbol, batch);
    PlanAt(c, dir, symbol, data, i, k);
    opens := writable(file.0);
  }

  /** The save loop proper, for any batch size. */
  method WriteBatches(c: Codec, dir: string, symbol: string, data: seq<MarketData>, k: int, writable: string -> bool)
    returns (ok: bool, written: seq<(string, string)>)
    requires k > 0
    ensures written == Writes(Plan(c, dir, symbol, Batches(data, k)), writable)
    ensures ok <==> |written| == |Batches(data, k)|
  {
    ghost var plan := Plan(c, dir, symbol, Batches(data, k));
    written := [];
    var i := 0;
    assert data[0..] == data;
    while i < |data|
      invariant 0 <= i <= |data| && 0 <= |written| <= |plan|
      invariant written == plan[..|written|] && plan[|written|..] == Plan(c, dir, symbol, Batches(data[i..], k))
      invariant forall j :: 0 <= j < |written| ==> writable(plan[j].0)
      decreases |data| - i
    {
      var opens, file, e := SaveBatch(c, dir, symbol, data, i, k, writable);
      SuffixStep(plan, |written|, file, Plan(c, dir, symbol, Batches(data[e..], k)));
      if !opens {
        WritesUpTo(plan, |written|, writable);
        return false, written;
      }
      written := written + [file];
      i := e;
    }
    assert Batches(data[|data|..], k) == [];
    WritesUpTo(plan, |written|, writable);
    return true, written;
  }

  /**
   * `saveHistoricalData`: nothing to save is a failure; otherwise write the
   * batches one file each, in order, and fail at the first file that cannot
   * be opened (the batches before it stay written).
   */
  method SaveHistoricalData(c: Codec, dataDir: string, symbol: string, data: seq<MarketData>, tf: TimeFrame,
                            writable: string -> bool)
    returns (ok: bool, written: seq<(string, string)>)
    ensures data == [] ==> !ok && written == []
    ensures var plan := Plan(c, DataFilePath(dataDir, symbol, tf), symbol, Batches(data, MaxRecordsPerFile));
            && written == Writes(plan, writable)
            && (ok <==> data != [] && |written| == |plan|)
  {
    var dir := DataFilePath(dataDir, symbol, tf);
    if data == [] {
      return false, [];
    }
    ok, written := WriteBatches(c, dir, symbol, data, MaxRecordsPerFile, writable);
  }

  /** The inner copy loop of the batch split. */
  method CopyBatch(data: seq<MarketData>, i: int, e: int) returns (batch: seq<MarketData>)
    requires 0 <= i <= e <= |data|
    ensures batch == data[i..e]
  {
    batch := [];
    var j := i;
    while j < e
      invariant i <= j <= e && batch == data[i..j]
    {
      batch := batch + [data[j]];
      j := j + 1;
    }
  }

  /** The store's settings: the data directory, "D:/data" unless set. */
  class HistoryDataManager {
    var dataDir: string

    constructor ()
      ensures dataDir == "D:/data"
    {
      dataDir := "D:/data";
    }

    method SetDataDir(dirPath: string)
      modifies this`dataDir
      ensures dataDir == dirPath
    {
      dataDir := dirPath;
    }

    /** `getDataFilePath`: the directory holding the files of a symbol and period. */
    function GetDataFilePath(symbol: string, tf: TimeFrame): (path: string)
      reads this
      ensures path == DataFilePath(dataDir, symbol, tf)
      ensures |path| > |dataDir| + |symbol| && path[..|dataDir| + 1] == dataDir + "/"
      ensures path[|path| - |symbol| - 1..] == "/" + symbol
    {
      DataFilePath(dataDir, symbol, tf)
    }
  }
}
