/**
 * The MACD indicator: a fast and a slow exponential average of the closes,
 * their difference (DIF), an exponential average of that difference (DEA)
 * and the histogram DIF - DEA. Only `calculate` changes the three lines.
 */
module MacdIndicators {
  import opened AppData
  import opened MovingAverages

  /** DIF: the fast exponential average less the slow one, close by close. */
  function DifSeries(xs: seq<real>, fast: Period, slow: Period): (r: seq<real>)
    ensures |r| == |xs|
  {
    var f, s := EmaSeries(xs, Multiplier(fast)), EmaSeries(xs, Multiplier(slow));
    seq(|xs|, i requires 0 <= i < |xs| => f[i] - s[i])
  }

  /** The histogram: DIF less DEA, close by close. */
  function HistSeries(dif: seq<real>, dea: seq<real>): (r: seq<real>)
    requires |dif| == |dea|
    ensures |r| == |dif|
  {
    seq(|dif|, i requires 0 <= i < |dif| => dif[i] - dea[i])
  }

  /** The three lines. */
  datatype Lines = Lines(dif: seq<real>, dea: seq<real>, hist: seq<real>)

  /** What `calculate` leaves: no lines with fewer closes than slow + signal. */
  function MacdLines(xs: seq<real>, fast: Period, slow: Period, signal: Period): (l: Lines)
    ensures |xs| < slow + signal ==> l == Lines([], [], [])
    ensures |xs| >= slow + signal ==> |l.dif| == |xs| && |l.dea| == |xs| && |l.hist| == |xs|
  {
    if |xs| < slow + signal then Lines([], [], [])
    else
      var dif := DifSeries(xs, fast, slow);
      var dea := EmaSeries(dif, Multiplier(signal));
      Lines(dif, dea, HistSeries(dif, dea))
  }

  /**
   * Both averages start at the first close, so the lines start at zero:
   * DIF0 = 0, DEA0 = DIF0 and the first bar of the histogram is 0; every bar
   * is the gap between DIF and DEA, and DEA follows the exponential recurrence over DIF.
   */
  lemma MacdStart(xs: seq<real>, fast: Period, slow: Period, signal: Period)
    requires |xs| >= slow + signal
    ensures var l := MacdLines(xs, fast, slow, signal);
            && l.dif[0] == 0.0 && l.dea[0] == l.dif[0] && l.hist[0] == 0.0
            && (forall i :: 0 <= i < |xs| ==> l.hist[i] == l.dif[i] - l.dea[i])
            && (forall i :: 0 < i < |xs| ==> l.dea[i] == EmaStep(l.dea[i - 1], l.dif[i], Multiplier(signal)))
  {
    var l := MacdLines(xs, fast, slow, signal);
    EmaRecurrence(xs, Multiplier(fast), 1);
    EmaRecurrence(xs, Multiplier(slow), 1);
    EmaRecurrence(l.dif, Multiplier(signal), 1);
    forall i | 0 < i < |xs|
      ensures l.dea[i] == EmaStep(l.dea[i - 1], l.dif[i], Multiplier(signal))
    {
      EmaRecurrence(l.dif, Multiplier(signal), i);
    }
  }

  /** Flat closes give flat lines: every value of all three is zero. */
  lemma MacdFlat(xs: seq<real>, c: real, fast: Period, slow: Period, signal: Period)
    requires |xs| >= slow + signal
    requires forall i :: 0 <= i < |xs| ==> xs[i] == c
    ensures var l := MacdLines(xs, fast, slow, signal);
            forall i :: 0 <= i < |xs| ==> l.dif[i] == 0.0 && l.dea[i] == 0.0 && l.hist[i] == 0.0
  {
    var l := MacdLines(xs, fast, slow, signal);
    MultiplierRange(fast);
    MultiplierRange(slow);
    MultiplierRange(signal);
    EmaWithin(xs, Multiplier(fast), c, c);
    EmaWithin(xs, Multiplier(slow), c, c);
    EmaWithin(l.dif, Multiplier(signal), 0.0, 0.0);
  }

  /** The first loop: both averages, filled into two arrays index by index. */
  method FillAverages(data: seq<MarketData>, fast: Period, slow: Period) returns (emaFast: array<real>, emaSlow: array<real>)
    requires data != []
    ensures fresh(emaFast) && fresh(emaSlow)
    ensures emaFast[..] == EmaSeries(Closes(data), Multiplier(fast))
    ensures emaSlow[..] == EmaSeries(Closes(data), Multiplier(slow))
  {
    ghost var xs := Closes(data);
    var n := |data|;
    emaFast := new real[n];
    emaSlow := new real[n];
    var fastMultiplier, slowMultiplier := Multiplier(fast), Multiplier(slow);
    emaFast[0] := data[0].close;
    emaSlow[0] := data[0].close;
    assert xs[..1] == [xs[0]];
    var i := 1;
    while i < n
      invariant 1 <= i <= n
      invariant emaFast[..i] == EmaSeries(xs[..i], fastMultiplier)
      invariant emaSlow[..i] == EmaSeries(xs[..i], slowMultiplier)
    {
      EmaSnoc(xs, i, fastMultiplier);
      EmaSnoc(xs, i, slowMultiplier);
      assert xs[i] == data[i].close;
      emaFast[i] := EmaStep(emaFast[i - 1], data[i].close, fastMultiplier);
      emaSlow[i] := EmaStep(emaSlow[i - 1], data[i].close, slowMultiplier);
      assert emaFast[..i + 1] == emaFast[..i] + [emaFast[i]];
      assert emaSlow[..i + 1] == emaSlow[..i] + [emaSlow[i]];
      i := i + 1;
    }
    assert xs[..n] == xs;
    assert emaFast[..] == emaFast[..n] && emaSlow[..] == emaSlow[..n];
  }

  /** The DEA loop: it starts at DIF0 and then takes one step per DIF value. */
  method Signal(dif: seq<real>, signal: Period) returns (dea: seq<real>)
    requires dif != []
    ensures dea == EmaSeries(dif, Multiplier(signal))
  {
    var deaMultiplier := Multiplier(signal);
    dea := [dif[0]];
    assert dif[..1] == [dif[0]];
    var i := 1;
    while i < |dif|
      invariant 1 <= i <= |dif|
      invariant dea == EmaSeries(dif[..i], deaMultiplier)
    {
      EmaSnoc(dif, i, deaMultiplier);
      dea := dea + [EmaStep(dea[|dea| - 1], dif[i], deaMultiplier)];
      i := i + 1;
    }
    assert dif[..|dif|] == dif;
  }

  /** The loops of `calculate` past its length check. */
  method ComputeMacd(data: seq<MarketData>, fast: Period, slow: Period, signal: Period)
    returns (dif: seq<real>, dea: seq<real>, hist: seq<real>)
    requires data != []
    ensures dif == DifSeries(Closes(data), fast, slow)
    ensures dea == EmaSeries(dif, Multiplier(signal))
    ensures hist == HistSeries(dif, dea)
  {
    var emaFast, emaSlow := FillAverages(data, fast, slow);
    ghost var all := DifSeries(Closes(data), fast, slow);
    dif := [];
    var i := 0;
    while i < |data|
      invariant 0 <= i <= |data|
      invariant dif == all[..i]
    {
      assert all[..i + 1] == all[..i] + [all[i]];
      dif := dif + [emaFast[i] - emaSlow[i]];
      i := i + 1;
    }
    dea := Signal(dif, signal);
    ghost var gaps := HistSeries(dif, dea);
    hist := [];
    i := 0;
    while i < |dif|
      invariant 0 <= i <= |dif|
      invariant hist == gaps[..i]
    {
      assert gaps[..i + 1] == gaps[..i] + [gaps[i]];
      hist := hist + [dif[i] - dea[i]];
      i := i + 1;
    }
  }

  class Macd {
    const fastPeriod: Period
    const slowPeriod: Period
    const signalPeriod: Period
    var dif: seq<real>
    var dea: seq<real>
    var hist: seq<real>

    constructor (fastPeriod: Period, slowPeriod: Period, signalPeriod: Period)
      ensures this.fastPeriod == fastPeriod && this.slowPeriod == slowPeriod && this.signalPeriod == signalPeriod
      ensures dif == [] && dea == [] && hist == []
    {
      this.fastPeriod := fastPeriod;
      this.slowPeriod := slowPeriod;
      this.signalPeriod := signalPeriod;
      dif, dea, hist := [], [], [];
    }

    /** `calculate`: the three lines are recomputed from the bars' closes. */
    method Calculate(data: seq<MarketData>)
      modifies this`dif, this`dea, this`hist
      ensures Lines(dif, dea, hist) == MacdLines(Closes(data), fastPeriod, slowPeriod, signalPeriod)
    {
      dif, dea, hist := [], [], [];
      if |data| < slowPeriod + signalPeriod {
        return;
      }
      dif, dea, hist := ComputeMacd(data, fastPeriod, slowPeriod, signalPeriod);
    }

    /** `update`: its body is empty, so the lines stay as they are. */
    method Update(d: MarketData)
      ensures dif == old(dif) && dea == old(dea) && hist == old(hist)
    {
    }

    /** `values`: the histogram. */
    function Values(): (v: seq<real>)
      reads this
      ensures v == hist
    {
      hist
    }

    /** `lastValue`: the newest histogram bar, or 0 with none. */
    function LastValue(): (v: real)
      reads this
      ensures hist == [] ==> v == 0.0
      ensures hist != [] ==> v == hist[|hist| - 1]
    {
      if hist == [] then 0.0 else hist[|hist| - 1]
    }
  }
}
