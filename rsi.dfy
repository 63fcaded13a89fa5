/**
 * The relative strength index: average gains and losses over the first
 * `period` close-to-close changes, then Wilder smoothing, and one index
 * value per close after the first `period`. `update` extends the series
 * by one close.
 */
module RelativeStrength {
  import opened AppData
  import opened MovingAverages

  /** The part of a change that is a gain. */
  function Gain(change: real): real
  {
    if change > 0.0 then change else 0.0
  }

  /** The part of a change that is a loss, as a positive amount. */
  function Loss(change: real): real
  {
    if change < 0.0 then -change else 0.0
  }

  /** The total gain over the consecutive changes of xs. */
  function GainSum(xs: seq<real>): (s: real)
    ensures s >= 0.0
  {
    if |xs| <= 1 then 0.0 else GainSum(xs[..|xs| - 1]) + Gain(xs[|xs| - 1] - xs[|xs| - 2])
  }

  /** The total loss over the consecutive changes of xs. */
  function LossSum(xs: seq<real>): (s: real)
    ensures s >= 0.0
  {
    if |xs| <= 1 then 0.0 else LossSum(xs[..|xs| - 1]) + Loss(xs[|xs| - 1] - xs[|xs| - 2])
  }

  /** Wilder smoothing: the old average weighs p - 1 and the new observation 1. */
  function Smooth(avg: real, x: real, p: Period): real
  {
    (avg * (p - 1) as real + x) / p as real
  }

  /** Smoothing nonnegative amounts gives a nonnegative average that lies between them. */
  lemma SmoothWithin(avg: real, x: real, p: Period)
    requires avg >= 0.0 && x >= 0.0
    ensures Smooth(avg, x, p) >= 0.0
    ensures avg <= x ==> avg <= Smooth(avg, x, p) <= x
    ensures x <= avg ==> x <= Smooth(avg, x, p) <= avg
  {
    var w, q := (p - 1) as real, p as real;
    var s := avg * w + x;
    assert q == w + 1.0;
    assert avg * q == avg * w + avg && x * q == x * w + x;
    if avg <= x {
      ScaleMonotone(avg, x, w);
      QuotientWithin(s, q, avg, x);
    } else {
      ScaleMonotone(x, avg, w);
      QuotientWithin(s, q, x, avg);
    }
  }

  /** Scaling by a nonnegative factor keeps the order, and keeps a nonnegative value nonnegative. */
  lemma ScaleMonotone(a: real, b: real, c: real)
    requires 0.0 <= a <= b && c >= 0.0
    ensures 0.0 <= a * c <= b * c
  {
    assert (b - a) * c >= 0.0;
  }

  /** One close-to-close change folded into both averages by Wilder smoothing. */
  function Step(a: Averages, change: real, p: Period): (b: Averages)
    requires a.gain >= 0.0 && a.loss >= 0.0
    ensures b.gain >= 0.0 && b.loss >= 0.0
  {
    SmoothWithin(a.gain, Gain(change), p);
    SmoothWithin(a.loss, Loss(change), p);
    Averages(Smooth(a.gain, Gain(change), p), Smooth(a.loss, Loss(change), p))
  }

  /** The average gain and the average loss. */
  datatype Averages = Averages(gain: real, loss: real)

  /**
   * The averages after the closes xs: the plain means of the first p gains
   * and losses once there are p + 1 closes, then one smoothing step per close.
   */
  function AveragesOf(xs: seq<real>, p: Period): (a: Averages)
    requires |xs| > p
    ensures a.gain >= 0.0 && a.loss >= 0.0
    decreases |xs|
  {
    if |xs| == p + 1 then
      QuotientWithin(GainSum(xs), p as real, 0.0, GainSum(xs));
      QuotientWithin(LossSum(xs), p as real, 0.0, LossSum(xs));
      Averages(GainSum(xs) / p as real, LossSum(xs) / p as real)
    else
      Step(AveragesOf(xs[..|xs| - 1], p), xs[|xs| - 1] - xs[|xs| - 2], p)
  }

  /** The index of a pair of averages: 100 with no average loss. */
  function Index(a: Averages): real
    requires a.gain >= 0.0 && a.loss >= 0.0
  {
    if a.loss == 0.0 then 100.0 else 100.0 - 100.0 / (1.0 + a.gain / a.loss)
  }

  /**
   * With nonnegative averages the index lies in [0, 100]; it is 100 exactly
   * when there is no average loss and 0 exactly when there is no average gain
   * but some loss.
   */
  lemma IndexRange(a: Averages)
    requires a.gain >= 0.0 && a.loss >= 0.0
    ensures 0.0 <= Index(a) <= 100.0
    ensures Index(a) == 100.0 <==> a.loss == 0.0
    ensures Index(a) == 0.0 <==> a.gain == 0.0 && a.loss > 0.0
  {
    if a.loss > 0.0 {
      var rs := a.gain / a.loss;
      assert rs * a.loss == a.gain;
      assert rs >= 0.0;
      assert rs == 0.0 <==> a.gain == 0.0;
      var d := 1.0 + rs;
      var q := 100.0 / d;
      assert q * d == 100.0;
      assert q > 0.0;
      assert q <= 100.0 by {
        assert q * d == q + q * rs;
        assert q * rs >= 0.0;
      }
      assert q == 100.0 <==> rs == 0.0 by {
        assert q * d == q + q * rs;
        if q == 100.0 {
          assert q * rs == 0.0;
        }
      }
    }
  }

  /** The index series: one value per close after the first p. */
  function RsiSeries(xs: seq<real>, p: Period): (r: seq<real>)
    ensures |xs| <= p ==> r == []
    ensures |xs| > p ==> |r| == |xs| - p
  {
    if |xs| <= p then [] else RsiSeries(xs[..|xs| - 1], p) + [Index(AveragesOf(xs, p))]
  }

  /** The changes from each close to the next. */
  function Gains(xs: seq<real>): (g: seq<real>)
    requires xs != []
  {
    seq(|xs| - 1, i requires 0 <= i < |xs| - 1 => Gain(xs[i + 1] - xs[i]))
  }

  function Losses(xs: seq<real>): (g: seq<real>)
    requires xs != []
  {
    seq(|xs| - 1, i requires 0 <= i < |xs| - 1 => Loss(xs[i + 1] - xs[i]))
  }

  /** The running total of gains is the sum of the gains. */
  lemma {:induction false} GainTotal(xs: seq<real>)
    requires xs != []
    ensures GainSum(xs) == Sum(Gains(xs))
  {
    if |xs| > 1 {
      var init := xs[..|xs| - 1];
      GainTotal(init);
      assert Gains(xs) == Gains(init) + [Gain(xs[|xs| - 1] - xs[|xs| - 2])];
      SumSnoc(Gains(init), Gain(xs[|xs| - 1] - xs[|xs| - 2]));
    } else {
      assert Gains(xs) == [];
    }
  }

  /** The running total of losses is the sum of the losses. */
  lemma {:induction false} LossTotal(xs: seq<real>)
    requires xs != []
    ensures LossSum(xs) == Sum(Losses(xs))
  {
    if |xs| > 1 {
      var init := xs[..|xs| - 1];
      LossTotal(init);
      assert Losses(xs) == Losses(init) + [Loss(xs[|xs| - 1] - xs[|xs| - 2])];
      SumSnoc(Losses(init), Loss(xs[|xs| - 1] - xs[|xs| - 2]));
    } else {
      assert Losses(xs) == [];
    }
  }

  /** The first averages are the plain means of the first p gains and of the first p losses. */
  lemma InitialMeans(xs: seq<real>, p: Period)
    requires |xs| > p
    ensures |Gains(xs[..p + 1])| == p && |Losses(xs[..p + 1])| == p
    ensures AveragesOf(xs[..p + 1], p) == Averages(Sum(Gains(xs[..p + 1])) / p as real, Sum(Losses(xs[..p + 1])) / p as real)
  {
    GainTotal(xs[..p + 1]);
    LossTotal(xs[..p + 1]);
  }

  /** Every index value lies in [0, 100]. */
  lemma {:induction false} RsiInRange(xs: seq<real>, p: Period)
    ensures forall i :: 0 <= i < |RsiSeries(xs, p)| ==> 0.0 <= RsiSeries(xs, p)[i] <= 100.0
  {
    if |xs| > p {
      RsiInRange(xs[..|xs| - 1], p);
      IndexRange(AveragesOf(xs, p));
    }
  }

  /** One more close: one smoothing step with its change and one more index value. */
  lemma RsiExtend(xs: seq<real>, x: real, p: Period)
    requires |xs| > p
    ensures AveragesOf(xs + [x], p) == Step(AveragesOf(xs, p), x - xs[|xs| - 1], p)
    ensures RsiSeries(xs + [x], p) == RsiSeries(xs, p) + [Index(AveragesOf(xs + [x], p))]
  {
    var ys := xs + [x];
    assert ys[..|ys| - 1] == xs;
    assert ys[|ys| - 1] - ys[|ys| - 2] == x - xs[|xs| - 1];
  }

  /** The sums of the first loop, one change at a time. */
  lemma SumsSnoc(xs: seq<real>, i: nat)
    requires 1 <= i < |xs|
    ensures GainSum(xs[..i + 1]) == GainSum(xs[..i]) + Gain(xs[i] - xs[i - 1])
    ensures LossSum(xs[..i + 1]) == LossSum(xs[..i]) + Loss(xs[i] - xs[i - 1])
  {
    assert xs[..i + 1][..i] == xs[..i];
  }

  /** The first loop: total gain and total loss over the first p changes. */
  method InitialSums(data: seq<MarketData>, p: Period) returns (sumGain: real, sumLoss: real)
    requires |data| > p
    ensures sumGain == GainSum(Closes(data)[..p + 1]) && sumLoss == LossSum(Closes(data)[..p + 1])
  {
    ghost var xs := Closes(data);
    sumGain, sumLoss := 0.0, 0.0;
    var i := 1;
    while i <= p
      invariant 1 <= i <= p + 1
      invariant sumGain == GainSum(xs[..i]) && sumLoss == LossSum(xs[..i])
    {
      SumsSnoc(xs, i);
      var change := data[i].close - data[i - 1].close;
      if change > 0.0 {
        sumGain := sumGain + change;
      } else {
        sumLoss := sumLoss + (if change < 0.0 then -change else change);
      }
      i := i + 1;
    }
  }

  /** The first index value, from the plain means. */
  lemma FirstValue(xs: seq<real>, p: Period)
    requires |xs| > p
    ensures AveragesOf(xs[..p + 1], p) == Averages(GainSum(xs[..p + 1]) / p as real, LossSum(xs[..p + 1]) / p as real)
    ensures RsiSeries(xs[..p + 1], p) == [Index(AveragesOf(xs[..p + 1], p))]
  {
    assert xs[..p + 1][..p] == xs[..p];
  }

  /** The smoothing loop, one close at a time. */
  lemma SeriesSnoc(xs: seq<real>, i: nat, p: Period)
    requires p < i < |xs|
    ensures AveragesOf(xs[..i + 1], p) == Step(AveragesOf(xs[..i], p), xs[i] - xs[i - 1], p)
    ensures RsiSeries(xs[..i + 1], p) == RsiSeries(xs[..i], p) + [Index(AveragesOf(xs[..i + 1], p))]
  {
    assert xs[..i + 1] == xs[..i] + [xs[i]];
    RsiExtend(xs[..i], xs[i], p);
  }

  /** The first index value, from the plain means of the first p gains and losses. */
  method FirstIndex(data: seq<MarketData>, p: Period) returns (vs: seq<real>, a: Averages)
    requires |data| > p
    ensures vs == RsiSeries(Closes(data)[..p + 1], p)
    ensures a == AveragesOf(Closes(data)[..p + 1], p)
  {
    var sumGain, sumLoss := InitialSums(data, p);
    FirstValue(Closes(data), p);
    a := Averages(sumGain / p as real, sumLoss / p as real);
    vs := [Index(a)];
  }

  /** The loops of `calculate`: the first value from the plain means, then one smoothed value per close. */
  method ComputeRsi(data: seq<MarketData>, p: Period) returns (vs: seq<real>, a: Averages)
    requires |data| > p
    ensures vs == RsiSeries(Closes(data), p)
    ensures a == AveragesOf(Closes(data), p)
  {
    ghost var xs := Closes(data);
    vs, a := FirstIndex(data, p);
    var i := p + 1;
    while i < |data|
      invariant p + 1 <= i <= |data|
      invariant vs == RsiSeries(xs[..i], p)
      invariant a == AveragesOf(xs[..i], p)
    {
      SeriesSnoc(xs, i, p);
      assert xs[i] - xs[i - 1] == data[i].close - data[i - 1].close;
      var change := data[i].close - data[i - 1].close;
      a := Step(a, change, p);
      vs := vs + [Index(a)];
      i := i + 1;
    }
    assert xs[..|data|] == xs;
  }

  class Rsi {
    const period: Period
    var lastClose: real
    var avgGain: real
    var avgLoss: real
    var values: seq<real>

    /** Between calls: the averages are nonnegative and every value is in [0, 100]. */
    predicate Valid()
      reads this
    {
      && avgGain >= 0.0 && avgLoss >= 0.0
      && forall i :: 0 <= i < |values| ==> 0.0 <= values[i] <= 100.0
    }

    constructor (period: Period)
      ensures Valid()
      ensures this.period == period && values == []
      ensures lastClose == 0.0 && avgGain == 0.0 && avgLoss == 0.0
    {
      this.period := period;
      lastClose, avgGain, avgLoss := 0.0, 0.0, 0.0;
      values := [];
    }

    /**
     * `calculate`: with no more closes than the period there are no values
     * and the rest stays; otherwise the values, the averages after the last
     * close and that close are recomputed.
     */
    method Calculate(data: seq<MarketData>)
      requires Valid()
      modifies this`values, this`avgGain, this`avgLoss, this`lastClose
      ensures Valid()
      ensures values == RsiSeries(Closes(data), period)
      ensures |data| <= period ==> avgGain == old(avgGain) && avgLoss == old(avgLoss) && lastClose == old(lastClose)
      ensures |data| > period ==> (Averages(avgGain, avgLoss) == AveragesOf(Closes(data), period)
                                   && lastClose == data[|data| - 1].close)
    {
      values := [];
      if |data| <= period {
        return;
      }
      var a;
      values, a := ComputeRsi(data, period);
      avgGain, avgLoss := a.gain, a.loss;
      lastClose := data[|data| - 1].close;
      RsiInRange(Closes(data), period);
    }

    /**
     * `update`: with no values only the close is recorded; otherwise the
     * averages take one smoothing step with the change from the last close,
     * one index value is appended and the close is recorded.
     */
    method Update(d: MarketData)
      requires Valid()
      modifies this`values, this`avgGain, this`avgLoss, this`lastClose
      ensures Valid()
      ensures lastClose == d.close
      ensures old(values) == [] ==> values == [] && avgGain == old(avgGain) && avgLoss == old(avgLoss)
      ensures old(values) != [] ==> (
                && Averages(avgGain, avgLoss) == Step(Averages(old(avgGain), old(avgLoss)), d.close - old(lastClose), period)
                && values == old(values) + [Index(Averages(avgGain, avgLoss))])
    {
      if values == [] {
        lastClose := d.close;
        return;
      }
      var change := d.close - lastClose;
      var a := Step(Averages(avgGain, avgLoss), change, period);
      avgGain, avgLoss := a.gain, a.loss;
      IndexRange(a);
      values := values + [Index(Averages(avgGain, avgLoss))];
      lastClose := d.close;
    }

    /** `lastValue`: the newest value, or the neutral 50 with none. */
    function LastValue(): (v: real)
      reads this
      ensures values == [] ==> v == 50.0
      ensures values != [] ==> v == values[|values| - 1]
    {
      if values == [] then 50.0 else values[|values| - 1]
    }
  }
}
