/**
 * The bounded market-data list behind the quote views: appends drop the
 * oldest rows once the capacity is exceeded, so the list always holds the
 * most recent rows, at most `maxDataCount` of them.
 */
module MarketDataModels {
  import opened Options
  import opened AppData

  /** The capacity a new list starts with. */
  const DefaultCapacity: int := 1000

  /** The newest `cap` elements of `s` (all of `s` when it is no longer than that). */
  function Window<T>(s: seq<T>, cap: nat): (r: seq<T>)
    ensures |r| == if |s| <= cap then |s| else cap
    ensures r == s[|s| - |r|..]
  {
    if |s| <= cap then s else s[|s| - cap..]
  }

  /** Trimming after each append is trimming once after a bulk append. */
  lemma WindowAppend<T>(s: seq<T>, t: seq<T>, cap: nat)
    ensures Window(Window(s, cap) + t, cap) == Window(s + t, cap)
  {
    var w := Window(s, cap);
    if |s| > cap {
      var x := s + t;
      assert w + t == x[|s| - cap..];
      assert x[|s| - cap..][|x| - (|s| - cap) - cap..] == x[|x| - cap..];
    }
  }

  /** The first index whose row has the same symbol and timestamp as `d`, if any. */
  function FindRow(s: seq<MarketData>, d: MarketData): (r: Option<nat>)
    ensures r.Some? ==> r.value < |s| && s[r.value].symbol == d.symbol && s[r.value].timestamp == d.timestamp
    ensures r.Some? ==> forall j :: 0 <= j < r.value ==> !(s[j].symbol == d.symbol && s[j].timestamp == d.timestamp)
    ensures r.None? <==> forall j :: 0 <= j < |s| ==> !(s[j].symbol == d.symbol && s[j].timestamp == d.timestamp)
  {
    if s == [] then None
    else if s[0].symbol == d.symbol && s[0].timestamp == d.timestamp then Some(0)
    else
      match FindRow(s[1..], d)
      case None => None
      case Some(i) => Some(i + 1)
  }

  class MarketDataModel {
    var dataList: seq<MarketData>
    var maxDataCount: int

    ghost predicate Valid()
      reads this
    {
      0 < maxDataCount && |dataList| <= maxDataCount
    }

    constructor ()
      ensures Valid() && dataList == [] && maxDataCount == DefaultCapacity
    {
      dataList := [];
      maxDataCount := DefaultCapacity;
    }

    function RowCount(): (n: nat)
      reads this
      ensures n == |dataList|
    {
      |dataList|
    }

    /** `appendData(data)`: append, then drop the first row if the list grew past capacity. */
    method AppendData(d: MarketData)
      requires Valid()
      modifies this`dataList
      ensures Valid()
      ensures dataList == Window(old(dataList) + [d], maxDataCount)
    {
      dataList := dataList + [d];
      if |dataList| > maxDataCount {
        dataList := dataList[1..];
      }
    }

    /** `appendData(list)`: an empty list is ignored; otherwise append and drop the excess from the front. */
    method AppendList(ds: seq<MarketData>)
      requires Valid()
      modifies this`dataList
      ensures Valid()
      ensures ds == [] ==> dataList == old(dataList)
      ensures dataList == Window(old(dataList) + ds, maxDataCount)
    {
      if ds == [] {
        assert dataList + ds == dataList;
        return;
      }
      dataList := dataList + ds;
      if |dataList| > maxDataCount {
        var removeCount := |dataList| - maxDataCount;
        dataList := dataList[removeCount..];
      }
    }

    /** `updateData`: replace one row; an index out of range changes nothing. */
    method UpdateData(index: int, d: MarketData)
      requires Valid()
      modifies this`dataList
      ensures Valid()
      ensures 0 <= index < |old(dataList)| ==> dataList == old(dataList)[index := d]
      ensures !(0 <= index < |old(dataList)|) ==> dataList == old(dataList)
    {
      if index < 0 || index >= |dataList| {
        return;
      }
      dataList := dataList[index := d];
    }

    method ClearData()
      modifies this`dataList
      ensures dataList == []
    {
      dataList := [];
    }

    /** `getMarketData`: the row, or a default row for an index out of range. */
    function GetMarketData(index: int): (d: MarketData)
      reads this
      ensures 0 <= index < |dataList| ==> d == dataList[index]
      ensures !(0 <= index < |dataList|) ==> d == DefaultMarketData
    {
      if index < 0 || index >= |dataList| then DefaultMarketData else dataList[index]
    }

    /** `setMaxDataCount`: a non-positive count is ignored; otherwise keep only the newest `count` rows. */
    method SetMaxDataCount(count: int)
      requires Valid()
      modifies this`dataList, this`maxDataCount
      ensures Valid()
      ensures count <= 0 ==> dataList == old(dataList) && maxDataCount == old(maxDataCount)
      ensures count > 0 ==> maxDataCount == count && dataList == Window(old(dataList), count)
    {
      if count <= 0 {
        return;
      }
      maxDataCount := count;
      if |dataList| > maxDataCount {
        var removeCount := |dataList| - maxDataCount;
        dataList := dataList[removeCount..];
      }
    }

    /** `onNewMarketData`: overwrite the first row with the same symbol and timestamp, or append. */
    method OnNewMarketData(d: MarketData)
      requires Valid()
      modifies this`dataList
      ensures Valid()
      ensures FindRow(old(dataList), d).Some? ==> dataList == old(dataList)[FindRow(old(dataList), d).value := d]
      ensures FindRow(old(dataList), d).None? ==> dataList == Window(old(dataList) + [d], maxDataCount)
    {
      var i := 0;
      while i < |dataList|
        invariant 0 <= i <= |dataList| && dataList == old(dataList)
        invariant forall j :: 0 <= j < i ==> !(dataList[j].symbol == d.symbol && dataList[j].timestamp == d.timestamp)
      {
        if dataList[i].symbol == d.symbol && dataList[i].timestamp == d.timestamp {
          assert FindRow(dataList, d) == Some(i);
          UpdateData(i, d);
          return;
        }
        i := i + 1;
      }
      AppendData(d);
    }
  }

  /** The list after appending rows one at a time, trimming after each. */
  function AppendEach(s: seq<MarketData>, ds: seq<MarketData>, cap: nat): seq<MarketData>
  {
    if ds == [] then s else Window(AppendEach(s, ds[..|ds| - 1], cap) + [ds[|ds| - 1]], cap)
  }

  /** Appending rows one at a time leaves the same list as appending them all at once. */
  lemma {:induction false} AppendOneByOne(s: seq<MarketData>, ds: seq<MarketData>, cap: nat)
    ensures Window(s + ds, cap) == AppendEach(Window(s, cap), ds, cap)
    decreases |ds|
  {
    if ds == [] {
      assert s + ds == s;
      WindowIdempotent(s, cap);
    } else {
      var init := ds[..|ds| - 1];
      AppendOneByOne(s, init, cap);
      WindowAppend(s + init, [ds[|ds| - 1]], cap);
      assert s + ds == (s + init) + [ds[|ds| - 1]];
    }
  }

  lemma WindowIdempotent<T>(s: seq<T>, cap: nat)
    ensures Window(Window(s, cap), cap) == Window(s, cap)
  {
  }

  /** The row just appended is always kept, as the newest one, and every kept row is one of the rows given. */
  lemma WindowKeepsNewest(s: seq<MarketData>, d: MarketData, cap: nat)
    requires cap > 0
    ensures |Window(s + [d], cap)| > 0 && Window(s + [d], cap)[|Window(s + [d], cap)| - 1] == d
    ensures forall x :: x in Window(s + [d], cap) ==> x in s || x == d
  {
    var w := Window(s + [d], cap);
    forall x | x in w ensures x in s || x == d {
      var i :| 0 <= i < |w| && w[i] == x;
      assert x == (s + [d])[|s| + 1 - |w| + i];
    }
  }
}
