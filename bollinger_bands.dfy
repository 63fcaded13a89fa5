/**
 * Bollinger bands: over each window of `period` closes, the middle band is
 * the window's mean and the upper and lower bands lie `multiplier` standard
 * deviations above and below it. The square root is the parameter `sqrt`;
 * only `calculate` changes the bands.
 */
module Bollinger {
  import opened AppData
  import opened MovingAverages

  /** Σ over t < j of (close(i - t) - mid)², newest close first. */
  function SquaredDeviations(xs: seq<real>, i: nat, j: nat, mid: real): (s: real)
    requires j <= i + 1 <= |xs|
    ensures s >= 0.0
  {
    if j == 0 then 0.0
    else
      var d := xs[i - (j - 1)] - mid;
      SquareNonnegative(d);
      SquaredDeviations(xs, i, j - 1, mid) + d * d
  }

  lemma SquareNonnegative(d: real)
    ensures d * d >= 0.0
  {
  }

  /** The mean of window k: closes k through k + p - 1. */
  function Middle(xs: seq<real>, p: Period, k: nat): real
    requires k + p <= |xs|
  {
    Sum(xs[k..k + p]) / p as real
  }

  /** The standard deviation of window k: the root of the mean squared deviation from its mean. */
  function StdDev(sqrt: real -> real, xs: seq<real>, p: Period, k: nat): real
    requires k + p <= |xs|
  {
    sqrt(SquaredDeviations(xs, k + p - 1, p, Middle(xs, p, k)) / p as real)
  }

  /** How far window k's upper and lower bands lie from its middle. */
  function Offset(sqrt: real -> real, xs: seq<real>, p: Period, multiplier: real, k: nat): real
    requires k + p <= |xs|
  {
    multiplier * StdDev(sqrt, xs, p, k)
  }

  /** The three bands. */
  datatype Bands = Bands(upper: seq<real>, middle: seq<real>, lower: seq<real>)

  /** What `calculate` leaves: no bands with fewer closes than the period. */
  function BandsOf(sqrt: real -> real, xs: seq<real>, p: Period, multiplier: real): (b: Bands)
    ensures |xs| < p ==> b == Bands([], [], [])
    ensures |xs| >= p ==> (|b.upper| == |xs| - p + 1 && |b.middle| == |xs| - p + 1
                           && |b.lower| == |xs| - p + 1)
  {
    if |xs| < p then Bands([], [], [])
    else
      var n := |xs| - p + 1;
      Bands(seq(n, k requires 0 <= k < n => Middle(xs, p, k) + Offset(sqrt, xs, p, multiplier, k)),
            seq(n, k requires 0 <= k < n => Middle(xs, p, k)),
            seq(n, k requires 0 <= k < n => Middle(xs, p, k) - Offset(sqrt, xs, p, multiplier, k)))
  }

  /**
   * The middle band is the simple moving average of the closes, and the
   * upper and lower bands are symmetric about it, each `multiplier`
   * standard deviations away.
   */
  lemma BandsShape(sqrt: real -> real, xs: seq<real>, p: Period, multiplier: real)
    requires |xs| >= p
    ensures var b := BandsOf(sqrt, xs, p, multiplier);
            && b.middle == SmaSeries(xs, p)
            && forall k :: 0 <= k < |b.middle| ==>
                 (b.upper[k] - b.middle[k] == b.middle[k] - b.lower[k] == multiplier * StdDev(sqrt, xs, p, k))
  {
    var b := BandsOf(sqrt, xs, p, multiplier);
    assert |b.middle| == |SmaSeries(xs, p)|;
    forall k | 0 <= k < |b.middle|
      ensures b.middle[k] == SmaSeries(xs, p)[k]
    {
    }
  }

  /**
   * With a nonnegative multiplier and a root that is never negative on a
   * nonnegative argument, upper >= middle >= lower everywhere.
   */
  lemma BandsOrdered(sqrt: real -> real, xs: seq<real>, p: Period, multiplier: real)
    requires |xs| >= p && multiplier >= 0.0
    requires forall v :: v >= 0.0 ==> sqrt(v) >= 0.0
    ensures var b := BandsOf(sqrt, xs, p, multiplier);
            forall k :: 0 <= k < |b.middle| ==> b.lower[k] <= b.middle[k] <= b.upper[k]
  {
    var b := BandsOf(sqrt, xs, p, multiplier);
    forall k | 0 <= k < |b.middle|
      ensures b.lower[k] <= b.middle[k] <= b.upper[k]
    {
      var v := SquaredDeviations(xs, k + p - 1, p, Middle(xs, p, k));
      QuotientWithin(v, p as real, 0.0, v);
      var d := StdDev(sqrt, xs, p, k);
      assert d >= 0.0;
      assert multiplier * d >= 0.0;
    }
  }

  /** Deviations from a window's own constant value are all zero. */
  lemma {:induction false} FlatDeviations(xs: seq<real>, i: nat, j: nat, c: real)
    requires j <= i + 1 <= |xs|
    requires forall t :: 0 <= t < |xs| ==> xs[t] == c
    ensures SquaredDeviations(xs, i, j, c) == 0.0
  {
    if j > 0 {
      FlatDeviations(xs, i, j - 1, c);
    }
  }

  /** Flat closes and a root with sqrt(0) = 0 collapse all three bands onto the close. */
  lemma FlatBands(sqrt: real -> real, xs: seq<real>, p: Period, multiplier: real, c: real)
    requires |xs| >= p && sqrt(0.0) == 0.0
    requires forall t :: 0 <= t < |xs| ==> xs[t] == c
    ensures var b := BandsOf(sqrt, xs, p, multiplier);
            forall k :: 0 <= k < |b.middle| ==> b.upper[k] == c && b.middle[k] == c && b.lower[k] == c
  {
    var b := BandsOf(sqrt, xs, p, multiplier);
    SmaWithin(xs, p, c, c);
    forall k | 0 <= k < |b.middle|
      ensures b.upper[k] == c && b.middle[k] == c && b.lower[k] == c
    {
      assert Middle(xs, p, k) == SmaSeries(xs, p)[k];
      FlatDeviations(xs, k + p - 1, p, c);
      assert StdDev(sqrt, xs, p, k) == sqrt(0.0 / p as real);
    }
  }

  /** The variance loop: squared deviations of window i's closes from its mean, newest first. */
  method Deviations(data: seq<MarketData>, i: nat, p: nat, middle: real) returns (variance: real)
    requires p <= i + 1 <= |data|
    ensures variance == SquaredDeviations(Closes(data), i, p, middle)
  {
    variance := 0.0;
    var j := 0;
    while j < p
      invariant 0 <= j <= p
      invariant variance == SquaredDeviations(Closes(data), i, j, middle)
    {
      var deviation := data[i - j].close - middle;
      variance := variance + deviation * deviation;
      j := j + 1;
    }
  }

  /** One window: its middle band and its deviation, `multiplier` standard deviations. */
  method Window(sqrt: real -> real, data: seq<MarketData>, p: Period, multiplier: real, i: nat)
    returns (middle: real, offset: real)
    requires p <= i + 1 <= |data|
    ensures middle == Middle(Closes(data), p, i + 1 - p)
    ensures offset == Offset(sqrt, Closes(data), p, multiplier, i + 1 - p)
  {
    var sum := WindowSum(data, i, p);
    middle := sum / p as real;
    var variance := Deviations(data, i, p, middle);
    var stddev := sqrt(variance / p as real);
    offset := multiplier * stddev;
  }

  /** Three sequences holding each window's band values are the bands. */
  lemma BandsEqual(sqrt: real -> real, xs: seq<real>, p: Period, multiplier: real,
                   upper: seq<real>, middle: seq<real>, lower: seq<real>)
    requires p <= |xs|
    requires |upper| == |xs| - p + 1 && |middle| == |xs| - p + 1 && |lower| == |xs| - p + 1
    requires forall k :: 0 <= k < |middle| ==> middle[k] == Middle(xs, p, k)
    requires forall k :: 0 <= k < |upper| ==> upper[k] == Middle(xs, p, k) + Offset(sqrt, xs, p, multiplier, k)
    requires forall k :: 0 <= k < |lower| ==> lower[k] == Middle(xs, p, k) - Offset(sqrt, xs, p, multiplier, k)
    ensures Bands(upper, middle, lower) == BandsOf(sqrt, xs, p, multiplier)
  {
    var b := BandsOf(sqrt, xs, p, multiplier);
    assert upper == b.upper;
    assert middle == b.middle;
    assert lower == b.lower;
  }

  /** The loop of `calculate`: one value of each band per window end, from close p - 1 on. */
  method ComputeBands(sqrt: real -> real, data: seq<MarketData>, p: Period, multiplier: real)
    returns (upper: seq<real>, middle: seq<real>, lower: seq<real>)
    requires p <= |data|
    ensures Bands(upper, middle, lower) == BandsOf(sqrt, Closes(data), p, multiplier)
  {
    ghost var xs := Closes(data);
    upper, middle, lower := [], [], [];
    var i := p - 1;
    while i < |data|
      invariant p - 1 <= i <= |data|
      invariant |upper| == i - (p - 1) && |middle| == i - (p - 1) && |lower| == i - (p - 1)
      invariant forall k :: 0 <= k < |middle| ==> middle[k] == Middle(xs, p, k)
      invariant forall k :: 0 <= k < |upper| ==> upper[k] == Middle(xs, p, k) + Offset(sqrt, xs, p, multiplier, k)
      invariant forall k :: 0 <= k < |lower| ==> lower[k] == Middle(xs, p, k) - Offset(sqrt, xs, p, multiplier, k)
    {
      var mid, offset := Window(sqrt, data, p, multiplier, i);
      middle := middle + [mid];
      upper := upper + [mid + offset];
      lower := lower + [mid - offset];
      i := i + 1;
    }
    BandsEqual(sqrt, xs, p, multiplier, upper, middle, lower);
  }

  class BollingerBands {
    const period: Period
    const multiplier: real
    var upper: seq<real>
    var middle: seq<real>
    var lower: seq<real>

    constructor (period: Period, multiplier: real)
      ensures this.period == period && this.multiplier == multiplier
      ensures upper == [] && middle == [] && lower == []
    {
      this.period := period;
      this.multiplier := multiplier;
      upper, middle, lower := [], [], [];
    }

    /** `calculate`: the bands are recomputed from the bars' closes. */
    method Calculate(sqrt: real -> real, data: seq<MarketData>)
      modifies this`upper, this`middle, this`lower
      ensures Bands(upper, middle, lower) == BandsOf(sqrt, Closes(data), period, multiplier)
    {
      upper, middle, lower := [], [], [];
      if |data| < period {
        return;
      }
      upper, middle, lower := ComputeBands(sqrt, data, period, multiplier);
    }

    /** `update`: the bands need a window the model does not keep, so nothing changes. */
    method Update(d: MarketData)
      ensures upper == old(upper) && middle == old(middle) && lower == old(lower)
    {
    }

    /** `values`: the middle band. */
    function Values(): (v: seq<real>)
      reads this
      ensures v == middle
    {
      middle
    }

    /** `lastValue`: the newest middle value, or 0 with none. */
    function LastValue(): (v: real)
      reads this
      ensures middle == [] ==> v == 0.0
      ensures middle != [] ==> v == middle[|middle| - 1]
    {
      if middle == [] then 0.0 else middle[|middle| - 1]
    }
  }
}
