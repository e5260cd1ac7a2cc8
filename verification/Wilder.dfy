/** Wilder's smoothing, and the rsi of packages/indicators/src/series.ts built on it. */
module Wilder {
  import opened Wrappers
  import opened Series

  /** One n-th of a new value blended into the running average y, with d the period. */
  function Blend(y: real, x: real, d: real): real
    requires d > 0.0
  {
    (y * (d - 1.0) + x) / d
  }

  /** Wilder's average: the mean of the first n values, then a blend per value. */
  function WilderAvg(xs: seq<real>, n: nat): real
    requires 1 <= n <= |xs|
  {
    if |xs| == n then Sum(xs) / n as real else Blend(WilderAvg(xs[..|xs| - 1], n), xs[|xs| - 1], n as real)
  }

  /** A blend is a mix with weight 1 / d. */
  lemma BlendIsMix(y: real, x: real, d: real, k: real)
    requires d > 0.0 && k == 1.0 / d
    ensures Blend(y, x, d) == Mix(x, y, k)
  {
    assert k * d == 1.0;
    assert (x * k + y * (1.0 - k)) * d == x * (k * d) + y * (d - k * d);
  }

  /** Wilder's average is its seed smoothed by the later values. */
  lemma {:induction false} WilderIsSmooth(xs: seq<real>, n: nat, k: real)
    requires 1 <= n <= |xs| && k == 1.0 / n as real
    ensures WilderAvg(xs, n) == Smooth(Sum(xs[..n]) / n as real, xs[n..], k)
    decreases |xs|
  {
    if |xs| == n {
      assert xs[..n] == xs;
    } else {
      var init := xs[..|xs| - 1];
      WilderIsSmooth(init, n, k);
      BlendIsMix(WilderAvg(init, n), xs[|xs| - 1], n as real, k);
      assert init[..n] == xs[..n] && xs[n..] == init[n..] + [xs[|xs| - 1]];
      SmoothPush(Sum(xs[..n]) / n as real, init[n..], xs[|xs| - 1], k);
    }
  }

  lemma WeightInUnit(d: real)
    requires d >= 1.0
    ensures 0.0 < 1.0 / d <= 1.0
  {
    assert 1.0 / d * d == 1.0;
  }

  /** Wilder's average never leaves the range of the values seen so far. */
  lemma WilderWithin(xs: seq<real>, n: nat, lo: real, hi: real)
    requires 1 <= n <= |xs| && Within(xs, lo, hi)
    ensures lo <= WilderAvg(xs, n) <= hi
  {
    var k := 1.0 / n as real;
    WeightInUnit(n as real);
    WilderIsSmooth(xs, n, k);
    MeanWithin(xs[..n], lo, hi);
    SmoothWithin(Sum(xs[..n]) / n as real, xs[n..], k, lo, hi);
  }

  // ----- rsi -----

  function Up(change: real): real {
    if change > 0.0 then change else 0.0
  }

  /** The gains of a series, one per change. */
  function Gains(p: seq<real>): (xs: seq<real>)
    ensures |xs| == if p == [] then 0 else |p| - 1
  {
    if |p| <= 1 then [] else Gains(p[..|p| - 1]) + [Up(p[|p| - 1] - p[|p| - 2])]
  }

  function Losses(p: seq<real>): (xs: seq<real>)
    ensures |xs| == if p == [] then 0 else |p| - 1
  {
    if |p| <= 1 then [] else Losses(p[..|p| - 1]) + [Up(p[|p| - 2] - p[|p| - 1])]
  }

  function RsiValue(g: real, l: real): real
    requires g >= 0.0 && l >= 0.0
  {
    if l == 0.0 then 100.0 else 100.0 - 100.0 / (1.0 + g / l)
  }

  lemma {:induction false} MovesNonNegative(p: seq<real>)
    ensures forall i | 0 <= i < |Gains(p)| :: Gains(p)[i] >= 0.0
    ensures forall i | 0 <= i < |Losses(p)| :: Losses(p)[i] >= 0.0
  {
    if |p| > 1 {
      MovesNonNegative(p[..|p| - 1]);
    }
  }

  function Largest(xs: seq<real>): (m: real)
    ensures m >= 0.0 && forall i | 0 <= i < |xs| :: xs[i] <= m
  {
    if xs == [] then 0.0
    else
      var m := Largest(xs[..|xs| - 1]);
      if xs[|xs| - 1] > m then xs[|xs| - 1] else m
  }

  lemma WilderNonNegative(xs: seq<real>, n: nat)
    requires 1 <= n <= |xs| && forall i | 0 <= i < |xs| :: xs[i] >= 0.0
    ensures WilderAvg(xs, n) >= 0.0
  {
    WilderWithin(xs, n, 0.0, Largest(xs));
  }

  lemma AveragesNonNegative(p: seq<real>, n: nat)
    requires 1 <= n < |p|
    ensures WilderAvg(Gains(p), n) >= 0.0 && WilderAvg(Losses(p), n) >= 0.0
  {
    MovesNonNegative(p);
    WilderNonNegative(Gains(p), n);
    WilderNonNegative(Losses(p), n);
  }

  function RsiLast(p: seq<real>, n: nat): Option<real>
    requires n >= 1
  {
    if |p| <= n then None
    else
      AveragesNonNegative(p, n);
      Some(RsiValue(WilderAvg(Gains(p), n), WilderAvg(Losses(p), n)))
  }

  function RsiOf(n: nat): seq<real> -> Option<real>
    requires n >= 1
  {
    p => RsiLast(p, n)
  }

  /** What the loop keeps in avgGain and avgLoss: shares of the seed mean, then Wilder's average. */
  function Running(xs: seq<real>, n: nat): real
    requires n >= 1
  {
    if xs == [] then 0.0
    else if |xs| <= n then Running(xs[..|xs| - 1], n) + xs[|xs| - 1] / n as real
    else Blend(Running(xs[..|xs| - 1], n), xs[|xs| - 1], n as real)
  }

  lemma {:induction false} RunningSeed(xs: seq<real>, n: nat)
    requires n >= 1 && |xs| <= n
    ensures Running(xs, n) == Sum(xs) / n as real
  {
    if xs != [] {
      RunningSeed(xs[..|xs| - 1], n);
    }
  }

  /** From the first full period on, the loop's accumulator is Wilder's average. */
  lemma {:induction false} RunningIsWilder(xs: seq<real>, n: nat)
    requires 1 <= n <= |xs|
    ensures Running(xs, n) == WilderAvg(xs, n)
    decreases |xs|
  {
    if |xs| == n {
      RunningSeed(xs, n);
    } else {
      RunningIsWilder(xs[..|xs| - 1], n);
    }
  }

  lemma RunningPush(xs: seq<real>, v: real, n: nat)
    requires n >= 1
    ensures Running(xs + [v], n)
            == if |xs| < n then Running(xs, n) + v / n as real else Blend(Running(xs, n), v, n as real)
  {
    assert (xs + [v])[..|xs|] == xs;
  }

  /** The gain and loss of bar i enter the lists of the prefix that ends there. */
  lemma MovesPush(values: seq<real>, i: nat)
    requires 1 <= i < |values|
    ensures Gains(values[..i + 1]) == Gains(values[..i]) + [Up(values[i] - values[i - 1])]
    ensures Losses(values[..i + 1]) == Losses(values[..i]) + [Up(values[i - 1] - values[i])]
  {
    assert values[..i + 1][..i] == values[..i];
  }

  /** The output the loop stores for bar i, from its accumulators. */
  lemma RsiAt(p: seq<real>, n: nat, g: real, l: real)
    requires n >= 1 && p != [] && g == Running(Gains(p), n) && l == Running(Losses(p), n)
    ensures |p| <= n ==> RsiLast(p, n) == None
    ensures |p| > n ==> g >= 0.0 && l >= 0.0 && RsiLast(p, n) == Some(RsiValue(g, l))
  {
    if |p| > n {
      AveragesNonNegative(p, n);
      RunningIsWilder(Gains(p), n);
      RunningIsWilder(Losses(p), n);
    }
  }

  /** The loop's update of one accumulator with the move x of bar i. */
  method Accumulate(average: real, x: real, i: nat, period: nat, ghost xs: seq<real>) returns (r: real)
    requires period >= 1 && |xs| + 1 == i && average == Running(xs, period)
    ensures r == Running(xs + [x], period)
  {
    RunningPush(xs, x, period);
    if i <= period {
      r := average + x / period as real;
    } else {
      r := Blend(average, x, period as real);
    }
  }

  /** The loop's store for bar i. */
  method Stored(ghost values: seq<real>, i: nat, period: nat, avgGain: real, avgLoss: real, out: seq<Option<real>>)
    returns (next: seq<Option<real>>)
    requires period >= 1 && i < |values| && Filled(RsiOf(period), values, out, i)
    requires avgGain == Running(Gains(values[..i + 1]), period) && avgLoss == Running(Losses(values[..i + 1]), period)
    ensures Filled(RsiOf(period), values, next, i + 1)
  {
    RsiAt(values[..i + 1], period, avgGain, avgLoss);
    FilledNext(RsiOf(period), values, out, i, RsiLast(values[..i + 1], period));
    next := if i >= period then out[i := Some(RsiValue(avgGain, avgLoss))] else out;
  }

  method Rsi(values: seq<real>, period: int) returns (r: Result<seq<Option<real>>>)
    ensures r.Throws? <==> period < 1
    ensures r.Ok? ==> Causal(RsiOf(period), values, r.value)
  {
    if period < 1 {
      return Throws("RSI period must be >= 1");
    }
    var out: seq<Option<real>> := Nulls(|values|);
    if values == [] {
      return Ok(out);
    }
    var avgGain, avgLoss := 0.0, 0.0;
    var i := 1;
    while i < |values|
      invariant 1 <= i <= |values|
      invariant avgGain == Running(Gains(values[..i]), period)
      invariant avgLoss == Running(Losses(values[..i]), period)
      invariant Filled(RsiOf(period), values, out, i)
    {
      var change := values[i] - values[i - 1];
      var gain := Up(change);
      var loss := Up(-change);
      MovesPush(values, i);
      avgGain := Accumulate(avgGain, gain, i, period, Gains(values[..i]));
      avgLoss := Accumulate(avgLoss, loss, i, period, Losses(values[..i]));
      out := Stored(values, i, period, avgGain, avgLoss, out);
      i := i + 1;
    }
    return Ok(out);
  }

  lemma ShareOf(g: real, l: real, q: real, z: real)
    requires l > 0.0 && g >= 0.0 && q * l == g && z * (1.0 + q) == 100.0 && q >= 0.0
    ensures (100.0 - z) * (g + l) == 100.0 * g
  {
    assert g + l == (1.0 + q) * l;
    assert z * ((1.0 + q) * l) == (z * (1.0 + q)) * l;
  }

  lemma QuotientFrom(s: real, n: real, q: real)
    requires n > 0.0 && q * n == s
    ensures q == s / n
  {
  }

  lemma QuotientNonNegative(s: real, n: real)
    requires n > 0.0 && s >= 0.0
    ensures s / n >= 0.0 && s / n * n == s
  {
  }

  /** The rsi is the gains' share of all movement, in percent. */
  lemma RsiIsShare(g: real, l: real)
    requires g >= 0.0 && l >= 0.0 && g + l > 0.0
    ensures RsiValue(g, l) == 100.0 * g / (g + l)
  {
    if l > 0.0 {
      QuotientNonNegative(g, l);
      var q := g / l;
      QuotientNonNegative(100.0, 1.0 + q);
      ShareOf(g, l, q, 100.0 / (1.0 + q));
    }
    QuotientFrom(100.0 * g, g + l, RsiValue(g, l));
  }

  /** The rsi lies between 0 and 100. */
  lemma RsiWithin(p: seq<real>, n: nat)
    requires 1 <= n < |p|
    ensures 0.0 <= RsiLast(p, n).value <= 100.0
  {
    AveragesNonNegative(p, n);
    var g, l := WilderAvg(Gains(p), n), WilderAvg(Losses(p), n);
    if l > 0.0 {
      RsiIsShare(g, l);
      QuotientWithin(100.0 * g, g + l, 0.0, 100.0);
    }
  }

  function Negated(p: seq<real>): (q: seq<real>)
    ensures |q| == |p| && forall i | 0 <= i < |p| :: q[i] == -p[i]
  {
    seq(|p|, i requires 0 <= i < |p| => -p[i])
  }

  lemma {:induction false} NegatedSwapsMoves(p: seq<real>)
    ensures Gains(Negated(p)) == Losses(p) && Losses(Negated(p)) == Gains(p)
  {
    if |p| > 1 {
      assert Negated(p)[..|p| - 1] == Negated(p[..|p| - 1]);
      NegatedSwapsMoves(p[..|p| - 1]);
    }
  }

  lemma SharesOfWhole(x: real, y: real, g: real, l: real)
    requires g + l > 0.0 && x * (g + l) == 100.0 * g && y * (g + l) == 100.0 * l
    ensures x + y == 100.0
  {
    assert (x + y - 100.0) * (g + l) == 0.0;
  }

  lemma SharesAddUp(g: real, l: real)
    requires g >= 0.0 && l >= 0.0 && g + l > 0.0
    ensures RsiValue(g, l) + RsiValue(l, g) == 100.0
  {
    RsiIsShare(g, l);
    RsiIsShare(l, g);
    QuotientNonNegative(100.0 * g, g + l);
    QuotientNonNegative(100.0 * l, g + l);
    SharesOfWhole(RsiValue(g, l), RsiValue(l, g), g, l);
  }

  /** Turning the series upside down turns the rsi upside down, unless nothing moved: then both are 100. */
  lemma RsiMirror(p: seq<real>, n: nat, g: real, l: real)
    requires 1 <= n < |p| && g == WilderAvg(Gains(p), n) && l == WilderAvg(Losses(p), n)
    ensures RsiLast(p, n).Some? && RsiLast(Negated(p), n).Some?
    ensures g + l > 0.0 ==> RsiLast(p, n).value + RsiLast(Negated(p), n).value == 100.0
    ensures g + l == 0.0 ==> RsiLast(p, n) == RsiLast(Negated(p), n) == Some(100.0)
  {
    AveragesNonNegative(p, n);
    NegatedSwapsMoves(p);
    if g + l > 0.0 {
      SharesAddUp(g, l);
    }
  }
}
