/**
 * The moving-average indicator: simple, exponential and weighted averages
 * of a bar series' closes, recomputed in full by `calculate` and extended
 * one bar at a time by `update`. Prices are exact reals.
 */
module MovingAverages {
  import opened AppData

  /** An indicator period: at least one bar. */
  type Period = p: nat | p > 0 witness 1

  /** The three kinds of moving average. */
  datatype MaType = Sma | Ema | Wma

  /** The closes of a bar series, in order. */
  function Closes(data: seq<MarketData>): seq<real>
  {
    seq(|data|, i requires 0 <= i < |data| => data[i].close)
  }

  /** The sum of a sequence of reals. */
  function Sum(xs: seq<real>): real
  {
    if xs == [] then 0.0 else xs[0] + Sum(xs[1..])
  }

  /** Adding a value at the end adds it to the sum. */
  lemma {:induction false} SumSnoc(xs: seq<real>, x: real)
    ensures Sum(xs + [x]) == Sum(xs) + x
  {
    if xs != [] {
      assert (xs + [x])[1..] == xs[1..] + [x];
      SumSnoc(xs[1..], x);
    }
  }

  /** A sum of values within [lo, hi] lies within [lo·n, hi·n]. */
  lemma {:induction false} SumWithin(xs: seq<real>, lo: real, hi: real)
    requires forall i :: 0 <= i < |xs| ==> lo <= xs[i] <= hi
    ensures lo * |xs| as real <= Sum(xs) <= hi * |xs| as real
  {
    if xs != [] {
      assert forall i :: 0 <= i < |xs[1..]| ==> xs[1..][i] == xs[i + 1];
      SumWithin(xs[1..], lo, hi);
      assert lo * |xs| as real == lo + lo * |xs[1..]| as real;
      assert hi * |xs| as real == hi + hi * |xs[1..]| as real;
    }
  }

  /** Dividing by a positive total keeps a bounded sum's quotient within the bounds. */
  lemma QuotientWithin(s: real, w: real, lo: real, hi: real)
    requires w > 0.0 && lo * w <= s <= hi * w
    ensures lo <= s / w <= hi
  {
    var q := s / w;
    assert q * w == s;
    assert (q - lo) * w >= 0.0;
    assert (hi - q) * w >= 0.0;
  }

  /** The simple moving average: value k is the mean of closes k through k + p - 1. */
  function SmaSeries(xs: seq<real>, p: Period): (r: seq<real>)
    requires p <= |xs|
    ensures |r| == |xs| - p + 1
  {
    seq(|xs| - p + 1, k requires 0 <= k <= |xs| - p => Sum(xs[k..k + p]) / p as real)
  }

  /** Every simple average lies between the lowest and the highest close. */
  lemma SmaWithin(xs: seq<real>, p: Period, lo: real, hi: real)
    requires p <= |xs|
    requires forall i :: 0 <= i < |xs| ==> lo <= xs[i] <= hi
    ensures forall k :: 0 <= k < |SmaSeries(xs, p)| ==> lo <= SmaSeries(xs, p)[k] <= hi
  {
    forall k | 0 <= k < |SmaSeries(xs, p)|
      ensures lo <= SmaSeries(xs, p)[k] <= hi
    {
      var w := xs[k..k + p];
      assert forall i :: 0 <= i < |w| ==> w[i] == xs[k + i];
      SumWithin(w, lo, hi);
      QuotientWithin(Sum(w), p as real, lo, hi);
    }
  }

  /** The smoothing factor of a p-bar exponential average, 2/(p + 1). */
  function Multiplier(p: int): real
    requires p >= 0
  {
    2.0 / (p as real + 1.0)
  }

  lemma MultiplierRange(p: Period)
    ensures 0.0 < Multiplier(p) <= 1.0
  {
  }

  /** One exponential smoothing step from `prev` towards `x`. */
  function EmaStep(prev: real, x: real, m: real): real
  {
    (x - prev) * m + prev
  }

  /** The exponential average: it starts at the first close and then takes one step per close. */
  function EmaSeries(xs: seq<real>, m: real): (r: seq<real>)
    ensures |r| == |xs|
  {
    if xs == [] then []
    else if |xs| == 1 then [xs[0]]
    else
      var r := EmaSeries(xs[..|xs| - 1], m);
      r + [EmaStep(r[|r| - 1], xs[|xs| - 1], m)]
  }

  /** A further close adds exactly one value, the step from the last one. */
  lemma EmaExtend(xs: seq<real>, x: real, m: real)
    requires xs != []
    ensures EmaSeries(xs + [x], m) == EmaSeries(xs, m) + [EmaStep(EmaSeries(xs, m)[|xs| - 1], x, m)]
  {
    assert (xs + [x])[..|xs|] == xs;
  }

  /** The exponential average of one more close, as the loop builds it. */
  lemma EmaSnoc(xs: seq<real>, i: nat, m: real)
    requires 1 <= i < |xs|
    ensures EmaSeries(xs[..i + 1], m) == EmaSeries(xs[..i], m) + [EmaStep(EmaSeries(xs[..i], m)[i - 1], xs[i], m)]
  {
    assert xs[..i + 1] == xs[..i] + [xs[i]];
    EmaExtend(xs[..i], xs[i], m);
  }

  /** The exponential average of a prefix is the prefix of the exponential average. */
  lemma {:induction false} EmaPrefix(xs: seq<real>, m: real, n: nat)
    requires n <= |xs|
    ensures EmaSeries(xs[..n], m) == EmaSeries(xs, m)[..n]
    decreases |xs|
  {
    if n < |xs| {
      var init := xs[..|xs| - 1];
      EmaPrefix(init, m, n);
      assert init[..n] == xs[..n];
      assert EmaSeries(xs, m)[..|xs| - 1] == EmaSeries(init, m) by {
        if |xs| > 1 {
        }
      }
    } else {
      assert xs[..n] == xs;
    }
  }

  /** The recurrence, index by index: v0 is the first close and vi = (close_i - v(i-1))·m + v(i-1). */
  lemma EmaRecurrence(xs: seq<real>, m: real, i: nat)
    requires 0 < i < |xs|
    ensures EmaSeries(xs, m)[0] == xs[0]
    ensures EmaSeries(xs, m)[i] == EmaStep(EmaSeries(xs, m)[i - 1], xs[i], m)
  {
    EmaPrefix(xs, m, i + 1);
    EmaPrefix(xs, m, 1);
    assert xs[..i + 1][..i] == xs[..i];
    EmaPrefix(xs[..i + 1], m, i);
    assert xs[..1] == [xs[0]];
  }

  /** A smoothing step with a factor in [0, 1] stays between the bounds of its two ends. */
  lemma StepWithin(prev: real, x: real, m: real, lo: real, hi: real)
    requires 0.0 <= m <= 1.0 && lo <= prev <= hi && lo <= x <= hi
    ensures lo <= EmaStep(prev, x, m) <= hi
  {
    assert m * (x - lo) >= 0.0 && (1.0 - m) * (prev - lo) >= 0.0;
    assert m * (hi - x) >= 0.0 && (1.0 - m) * (hi - prev) >= 0.0;
    assert EmaStep(prev, x, m) - lo == m * (x - lo) + (1.0 - m) * (prev - lo);
    assert hi - EmaStep(prev, x, m) == m * (hi - x) + (1.0 - m) * (hi - prev);
  }

  /** Every exponential average lies between the lowest and the highest close. */
  lemma {:induction false} EmaWithin(xs: seq<real>, m: real, lo: real, hi: real)
    requires 0.0 <= m <= 1.0
    requires forall i :: 0 <= i < |xs| ==> lo <= xs[i] <= hi
    ensures forall i :: 0 <= i < |xs| ==> lo <= EmaSeries(xs, m)[i] <= hi
  {
    if |xs| > 1 {
      var init := xs[..|xs| - 1];
      EmaWithin(init, m, lo, hi);
      var r := EmaSeries(init, m);
      StepWithin(r[|r| - 1], xs[|xs| - 1], m, lo, hi);
    }
  }

  /** Σ over t < j of close(i - t)·(t + 1): close i weighs 1, close i - 1 weighs 2, and so on. */
  function WeightedSum(xs: seq<real>, i: nat, j: nat): real
    requires j <= i + 1 <= |xs|
  {
    if j == 0 then 0.0 else WeightedSum(xs, i, j - 1) + xs[i - (j - 1)] * j as real
  }

  /** The sum of the weights 1 … p. */
  function TotalWeight(p: nat): (r: real)
    ensures r >= p as real
  {
    if p == 0 then 0.0 else TotalWeight(p - 1) + p as real
  }

  /** The weights 1 … p total p(p + 1)/2, the divisor the weighted loop uses. */
  lemma {:induction false} TotalWeightClosed(p: nat)
    ensures TotalWeight(p) == (p * (p + 1)) as real / 2.0
  {
    if p > 0 {
      TotalWeightClosed(p - 1);
      assert p * (p + 1) == (p - 1) * p + 2 * p;
    }
  }

  /** The weighted moving average: value k is the weighted sum of the window ending at close k + p - 1, over p(p + 1)/2. */
  function WmaSeries(xs: seq<real>, p: Period): (r: seq<real>)
    requires p <= |xs|
    ensures |r| == |xs| - p + 1
  {
    seq(|xs| - p + 1, k requires 0 <= k <= |xs| - p => WeightedSum(xs, k + p - 1, p) / TotalWeight(p))
  }

  /** A window's weighted sum in its own order: the window's u-th close weighs |w| - u. */
  function OldestHeaviest(w: seq<real>): real
  {
    if w == [] then 0.0 else w[0] * |w| as real + OldestHeaviest(w[1..])
  }

  /**
   * The weighted sum over the window ending at close i is the window's sum
   * with the oldest close weighted most (weight j) and the newest least (weight 1).
   */
  lemma {:induction false} WeightedSumWindow(xs: seq<real>, i: nat, j: nat)
    requires j <= i + 1 <= |xs|
    ensures WeightedSum(xs, i, j) == OldestHeaviest(xs[i + 1 - j..i + 1])
  {
    if j > 0 {
      WeightedSumWindow(xs, i, j - 1);
      assert xs[i + 1 - j..i + 1][1..] == xs[i + 1 - (j - 1)..i + 1];
    }
  }

  /** The weights of a j-close weighted sum total j(j + 1)/2, so bounded closes give a bounded sum. */
  lemma {:induction false} WeightedSumWithin(xs: seq<real>, i: nat, j: nat, lo: real, hi: real)
    requires j <= i + 1 <= |xs|
    requires forall t :: 0 <= t < |xs| ==> lo <= xs[t] <= hi
    ensures lo * TotalWeight(j) <= WeightedSum(xs, i, j) <= hi * TotalWeight(j)
  {
    if j > 0 {
      WeightedSumWithin(xs, i, j - 1, lo, hi);
      AddWithin(lo, hi, WeightedSum(xs, i, j - 1), TotalWeight(j - 1), xs[i - (j - 1)], j as real,
                WeightedSum(xs, i, j), TotalWeight(j));
    }
  }

  /**
   * One more weighted term: with the partial sum within its bounds and the
   * new value within [lo, hi], the extended sum is within the extended bounds.
   */
  lemma AddWithin(lo: real, hi: real, s: real, t: real, x: real, w: real, s': real, t': real)
    requires lo * t <= s <= hi * t && lo <= x <= hi && w >= 0.0
    requires s' == s + x * w && t' == t + w
    ensures lo * t' <= s' <= hi * t'
  {
    assert (x - lo) * w >= 0.0 && (hi - x) * w >= 0.0;
    assert lo * t' == lo * t + lo * w;
    assert hi * t' == hi * t + hi * w;
  }

  /** Every weighted average lies between the lowest and the highest close. */
  lemma WmaWithin(xs: seq<real>, p: Period, lo: real, hi: real)
    requires p <= |xs|
    requires forall i :: 0 <= i < |xs| ==> lo <= xs[i] <= hi
    ensures forall k :: 0 <= k < |WmaSeries(xs, p)| ==> lo <= WmaSeries(xs, p)[k] <= hi
  {
    forall k | 0 <= k < |WmaSeries(xs, p)|
      ensures lo <= WmaSeries(xs, p)[k] <= hi
    {
      WmaValueWithin(xs, p, lo, hi, k);
    }
  }

  lemma WmaValueWithin(xs: seq<real>, p: Period, lo: real, hi: real, k: nat)
    requires k + p <= |xs|
    requires forall i :: 0 <= i < |xs| ==> lo <= xs[i] <= hi
    ensures lo <= WmaSeries(xs, p)[k] <= hi
  {
    var s := WeightedSum(xs, k + p - 1, p);
    WeightedSumWithin(xs, k + p - 1, p, lo, hi);
    assert TotalWeight(p) > 0.0;
    QuotientWithin(s, TotalWeight(p), lo, hi);
    assert WmaSeries(xs, p)[k] == s / TotalWeight(p);
  }

  /** What `calculate` leaves in the values: nothing with fewer closes than the period. */
  function MaValues(t: MaType, xs: seq<real>, p: Period): (r: seq<real>)
    ensures |xs| < p ==> r == []
    ensures |xs| >= p ==> |r| == if t == Ema then |xs| else |xs| - p + 1
  {
    if |xs| < p then []
    else
      match t
      case Sma => SmaSeries(xs, p)
      case Ema => EmaSeries(xs, Multiplier(p))
      case Wma => WmaSeries(xs, p)
  }

  /**
   * After a full calculation, an exponential update gives exactly what a
   * calculation over the longer series would.
   */
  lemma EmaUpdateAgrees(xs: seq<real>, x: real, p: Period)
    requires |xs| >= p
    ensures MaValues(Ema, xs + [x], p) ==
            MaValues(Ema, xs, p) + [EmaStep(MaValues(Ema, xs, p)[|xs| - 1], x, Multiplier(p))]
  {
    EmaExtend(xs, x, Multiplier(p));
  }

  /**
   * A further close adds one value to a simple or weighted average, for the
   * newest window; `update` leaves those two unchanged and so falls one behind.
   */
  lemma WindowSeriesExtend(t: MaType, xs: seq<real>, x: real, p: Period)
    requires t != Ema && |xs| >= p
    ensures |MaValues(t, xs + [x], p)| == |MaValues(t, xs, p)| + 1
    ensures MaValues(t, xs + [x], p)[..|MaValues(t, xs, p)|] == MaValues(t, xs, p)
  {
    var ys := xs + [x];
    var a, b := MaValues(t, xs, p), MaValues(t, ys, p);
    forall k | 0 <= k < |a|
      ensures b[k] == a[k]
    {
      assert ys[k..k + p] == xs[k..k + p];
      if t == Wma {
        WeightedSumWindow(xs, k + p - 1, p);
        WeightedSumWindow(ys, k + p - 1, p);
      }
    }
  }

  /** The window sum of the simple average: closes i, i - 1, …, i - p + 1, newest first. */
  method WindowSum(data: seq<MarketData>, i: nat, p: nat) returns (sum: real)
    requires p <= i + 1 <= |data|
    ensures sum == Sum(Closes(data)[i + 1 - p..i + 1])
  {
    ghost var xs := Closes(data);
    sum := 0.0;
    var j := 0;
    while j < p
      invariant 0 <= j <= p
      invariant sum == Sum(xs[i + 1 - j..i + 1])
    {
      assert xs[i - j..i + 1][1..] == xs[i + 1 - j..i + 1];
      sum := sum + data[i - j].close;
      j := j + 1;
    }
  }

  /** The weighted window sum: close i - j times j + 1. */
  method WeightedWindowSum(data: seq<MarketData>, i: nat, p: nat) returns (sum: real)
    requires p <= i + 1 <= |data|
    ensures sum == WeightedSum(Closes(data), i, p)
  {
    sum := 0.0;
    var j := 0;
    while j < p
      invariant 0 <= j <= p
      invariant sum == WeightedSum(Closes(data), i, j)
    {
      sum := sum + data[i - j].close * (j + 1) as real;
      j := j + 1;
    }
  }

  /** The simple-average loop: one mean per window end, from close p - 1 on. */
  method ComputeSma(data: seq<MarketData>, p: Period) returns (vs: seq<real>)
    requires p <= |data|
    ensures vs == SmaSeries(Closes(data), p)
  {
    ghost var all := SmaSeries(Closes(data), p);
    vs := [];
    var i := p - 1;
    while i < |data|
      invariant p - 1 <= i <= |data|
      invariant vs == all[..i - (p - 1)]
    {
      var sum := WindowSum(data, i, p);
      assert all[..i - (p - 1) + 1] == all[..i - (p - 1)] + [all[i - (p - 1)]];
      vs := vs + [sum / p as real];
      i := i + 1;
    }
  }

  /** The exponential loop: the running average starts at the first close and is appended after every step. */
  method ComputeEma(data: seq<MarketData>, p: Period) returns (vs: seq<real>)
    requires p <= |data|
    ensures vs == EmaSeries(Closes(data), Multiplier(p))
  {
    ghost var xs := Closes(data);
    var multiplier := Multiplier(p);
    var ema := data[0].close;
    vs := [ema];
    assert xs[..1] == [xs[0]];
    var i := 1;
    while i < |data|
      invariant 1 <= i <= |data|
      invariant vs == EmaSeries(xs[..i], multiplier)
      invariant ema == vs[i - 1]
    {
      EmaSnoc(xs, i, multiplier);
      assert xs[i] == data[i].close;
      ema := EmaStep(ema, data[i].close, multiplier);
      vs := vs + [ema];
      i := i + 1;
    }
    assert xs[..|data|] == xs;
  }

  /** The weighted loop: one weighted sum per window end, over p(p + 1)/2. */
  method ComputeWma(data: seq<MarketData>, p: Period) returns (vs: seq<real>)
    requires p <= |data|
    ensures vs == WmaSeries(Closes(data), p)
  {
    ghost var all := WmaSeries(Closes(data), p);
    var weightSum := (p * (p + 1)) as real / 2.0;
    TotalWeightClosed(p);
    vs := [];
    var i := p - 1;
    while i < |data|
      invariant p - 1 <= i <= |data|
      invariant vs == all[..i - (p - 1)]
    {
      var sum := WeightedWindowSum(data, i, p);
      assert all[..i - (p - 1) + 1] == all[..i - (p - 1)] + [all[i - (p - 1)]];
      vs := vs + [sum / weightSum];
      i := i + 1;
    }
  }

  class MovingAverage {
    const period: Period
    const maType: MaType
    var values: seq<real>

    constructor (period: Period, maType: MaType)
      ensures this.period == period && this.maType == maType && values == []
    {
      this.period := period;
      this.maType := maType;
      values := [];
    }

    /** `calculate`: the values are recomputed from the bars' closes. */
    method Calculate(data: seq<MarketData>)
      modifies this`values
      ensures values == MaValues(maType, Closes(data), period)
    {
      values := [];
      if |data| < period {
        return;
      }
      match maType {
        case Sma =>
          values := ComputeSma(data, period);
        case Ema =>
          values := ComputeEma(data, period);
        case Wma =>
          values := ComputeWma(data, period);
      }
    }

    /**
     * `update`: with no values the close becomes the only value; otherwise an
     * exponential average takes one more step and the other two stay as they are.
     */
    method Update(d: MarketData)
      modifies this`values
      ensures old(values) == [] ==> values == [d.close]
      ensures old(values) != [] && maType == Ema ==>
                values == old(values) + [EmaStep(old(values)[|old(values)| - 1], d.close, Multiplier(period))]
      ensures old(values) != [] && maType != Ema ==> values == old(values)
    {
      if values == [] {
        values := [d.close];
        return;
      }
      if maType == Ema {
        var multiplier := Multiplier(period);
        var lastEma := values[|values| - 1];
        values := values + [EmaStep(lastEma, d.close, multiplier)];
      }
    }

    /** `lastValue`: the newest value, or 0 with none. */
    function LastValue(): (v: real)
      reads this
      ensures values == [] ==> v == 0.0
      ensures values != [] ==> v == values[|values| - 1]
    {
      if values == [] then 0.0 else values[|values| - 1]
    }
  }
}
