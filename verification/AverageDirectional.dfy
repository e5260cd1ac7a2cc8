/** Wilder's average directional index: adx of packages/indicators/src/candles.ts, over the reals. */
module AverageDirectional {
  import opened Wrappers
  import opened Series
  import opened Candles
  import opened Wilder

  // ----- directional movement -----

  function UpMove(cs: seq<Candle>, i: nat): real
    requires 1 <= i < |cs|
  {
    cs[i].high - cs[i - 1].high
  }

  function DownMove(cs: seq<Candle>, i: nat): real
    requires 1 <= i < |cs|
  {
    cs[i - 1].low - cs[i].low
  }

  function PlusDM(cs: seq<Candle>, i: nat): real
    requires 1 <= i < |cs|
  {
    if UpMove(cs, i) > DownMove(cs, i) && UpMove(cs, i) > 0.0 then UpMove(cs, i) else 0.0
  }

  function MinusDM(cs: seq<Candle>, i: nat): real
    requires 1 <= i < |cs|
  {
    if DownMove(cs, i) > UpMove(cs, i) && DownMove(cs, i) > 0.0 then DownMove(cs, i) else 0.0
  }

  // ----- Wilder sums -----

  /** One step of a Wilder sum: plain addition up to bar n, afterwards one n-th decays first. */
  function Add(sum: real, x: real, i: nat, n: nat): real
    requires n >= 1
  {
    if i <= n then sum + x else sum - sum / n as real + x
  }

  datatype Sums = Sums(tr: real, plus: real, minus: real)

  /** The three smoothed sums after the last bar of a prefix. */
  function Smoothed(p: seq<Candle>, n: nat): Sums
    requires n >= 1
  {
    if |p| <= 1 then Sums(0.0, 0.0, 0.0)
    else
      var s, i := Smoothed(p[..|p| - 1], n), |p| - 1;
      Sums(Add(s.tr, TrueRangeAt(p, i), i, n), Add(s.plus, PlusDM(p, i), i, n), Add(s.minus, MinusDM(p, i), i, n))
  }

  // ----- dx -----

  function Dx(s: Sums): real
    requires s.tr != 0.0
  {
    var pdi := 100.0 * s.plus / s.tr;
    var mdi := 100.0 * s.minus / s.tr;
    if pdi + mdi == 0.0 then 0.0 else 100.0 * Abs(pdi - mdi) / (pdi + mdi)
  }

  function DxLast(p: seq<Candle>, n: nat): Option<real>
    requires n >= 1
  {
    if |p| <= n || Smoothed(p, n).tr == 0.0 then None else Some(Dx(Smoothed(p, n)))
  }

  function DxOf(n: nat): seq<Candle> -> Option<real>
    requires n >= 1
  {
    p => DxLast(p, n)
  }

  /** The dx values of a prefix, without the bars that have none. */
  function DxList(p: seq<Candle>, n: nat): seq<real>
    requires n >= 1
  {
    if p == [] then []
    else DxList(p[..|p| - 1], n) + match DxLast(p, n) { case None => [] case Some(d) => [d] }
  }

  // ----- adx -----

  /** The adx of a prefix: Wilder's average of its dx values, on the bars that have one. For a period below one the
      seed count of the last loop never reaches the period, and there is none. */
  function AdxLast(p: seq<Candle>, n: int): Option<real> {
    if n < 1 || DxLast(p, n).None? || |DxList(p, n)| < n then None else Some(WilderAvg(DxList(p, n), n))
  }

  function AdxOf(n: int): seq<Candle> -> Option<real> {
    p => AdxLast(p, n)
  }

  method Adx(candles: seq<Candle>, period: int) returns (out: seq<Option<real>>)
    ensures Causal(AdxOf(period), candles, out)
  {
    if period < 1 {
      return Nulls(|candles|);
    }
    var plusDM, minusDM := Movements(candles);
    var dx := DxSeries(candles, period, TrueRanges(candles), plusDM, minusDM);
    out := Average(candles, period, dx);
  }

  method Movements(candles: seq<Candle>) returns (plusDM: seq<real>, minusDM: seq<real>)
    ensures |plusDM| == |minusDM| == |candles|
    ensures forall i | 1 <= i < |candles| :: plusDM[i] == PlusDM(candles, i) && minusDM[i] == MinusDM(candles, i)
  {
    plusDM, minusDM := seq(|candles|, _ => 0.0), seq(|candles|, _ => 0.0);
    var i := 1;
    while i < |candles|
      invariant 1 <= i && |plusDM| == |minusDM| == |candles|
      invariant forall j | 1 <= j < i && j < |candles| ::
                  plusDM[j] == PlusDM(candles, j) && minusDM[j] == MinusDM(candles, j)
    {
      var upMove := candles[i].high - candles[i - 1].high;
      var downMove := candles[i - 1].low - candles[i].low;
      plusDM := plusDM[i := if upMove > downMove && upMove > 0.0 then upMove else 0.0];
      minusDM := minusDM[i := if downMove > upMove && downMove > 0.0 then downMove else 0.0];
      i := i + 1;
    }
  }

  method DxSeries(candles: seq<Candle>, period: nat, tr: seq<real>, plusDM: seq<real>, minusDM: seq<real>)
    returns (dx: seq<Option<real>>)
    requires period >= 1 && |plusDM| == |minusDM| == |candles| && tr == TrueRanges(candles)
    requires forall i | 1 <= i < |candles| :: plusDM[i] == PlusDM(candles, i) && minusDM[i] == MinusDM(candles, i)
    ensures Causal(DxOf(period), candles, dx)
  {
    dx := Nulls(|candles|);
    if candles == [] {
      return;
    }
    var s := Sums(0.0, 0.0, 0.0);
    var i := 1;
    while i < |candles|
      invariant 1 <= i <= |candles|
      invariant s == Smoothed(candles[..i], period)
      invariant Filled(DxOf(period), candles, dx, i)
    {
      SmoothedStep(candles, i, period, s);
      FilledNext(DxOf(period), candles, dx, i, DxLast(candles[..i + 1], period));
      s := Sums(Add(s.tr, tr[i], i, period), Add(s.plus, plusDM[i], i, period), Add(s.minus, minusDM[i], i, period));
      if i >= period && s.tr != 0.0 {
        dx := dx[i := Some(Dx(s))];
      }
      i := i + 1;
    }
  }

  lemma SmoothedStep(candles: seq<Candle>, i: nat, n: nat, s: Sums)
    requires n >= 1 && 1 <= i < |candles| && s == Smoothed(candles[..i], n)
    ensures Smoothed(candles[..i + 1], n)
            == Sums(Add(s.tr, TrueRangeAt(candles, i), i, n), Add(s.plus, PlusDM(candles, i), i, n),
                    Add(s.minus, MinusDM(candles, i), i, n))
  {
    assert candles[..i + 1][..i] == candles[..i];
  }

  method Average(candles: seq<Candle>, period: nat, dx: seq<Option<real>>) returns (out: seq<Option<real>>)
    requires period >= 1 && Causal(DxOf(period), candles, dx)
    ensures Causal(AdxOf(period), candles, out)
  {
    out := Nulls(|candles|);
    var adxPrev: Option<real> := None;
    var seedSum := 0.0;
    var seedCount := 0;
    var i := 0;
    while i < |candles|
      invariant 0 <= i <= |candles|
      invariant State(DxList(candles[..i], period), period, adxPrev, seedSum, seedCount)
      invariant Filled(AdxOf(period), candles, out, i)
    {
      assert dx[i] == DxOf(period)(candles[..i + 1]);
      DxListStep(candles, i, period);
      FilledNext(AdxOf(period), candles, out, i, AdxLast(candles[..i + 1], period));
      if dx[i].Some? {
        var d := dx[i].value;
        StateNext(DxList(candles[..i], period), period, adxPrev, seedSum, seedCount, d);
        if adxPrev.None? {
          seedSum := seedSum + d;
          seedCount := seedCount + 1;
          if seedCount == period {
            adxPrev := Some(seedSum / period as real);
            out := out[i := adxPrev];
          }
        } else {
          adxPrev := Some(Blend(adxPrev.value, d, period as real));
          out := out[i := adxPrev];
        }
      }
      i := i + 1;
    }
  }

  /** What the averaging loop holds after the dx values ds. */
  ghost predicate State(ds: seq<real>, n: nat, prev: Option<real>, seedSum: real, seedCount: nat)
    requires n >= 1
  {
    if |ds| < n then prev.None? && seedSum == Sum(ds) && seedCount == |ds| else prev == Some(WilderAvg(ds, n))
  }

  lemma StateNext(ds: seq<real>, n: nat, prev: Option<real>, seedSum: real, seedCount: nat, d: real)
    requires n >= 1 && State(ds, n, prev, seedSum, seedCount)
    ensures prev.Some? ==> State(ds + [d], n, Some(Blend(prev.value, d, n as real)), seedSum, seedCount)
    ensures prev.None? && seedCount + 1 == n
            ==> State(ds + [d], n, Some((seedSum + d) / n as real), seedSum + d, seedCount + 1)
    ensures prev.None? && seedCount + 1 != n ==> State(ds + [d], n, None, seedSum + d, seedCount + 1)
  {
    assert (ds + [d])[..|ds|] == ds;
  }

  lemma DxListStep(candles: seq<Candle>, i: nat, n: nat)
    requires n >= 1 && i < |candles|
    ensures var d := DxLast(candles[..i + 1], n); var ds := DxList(candles[..i], n);
            DxList(candles[..i + 1], n) == if d.Some? then ds + [d.value] else ds
  {
    assert candles[..i + 1][..i] == candles[..i];
  }

  // ----- ranges -----

  lemma DecayNonNegative(x: real, n: nat)
    requires n >= 1 && x >= 0.0
    ensures x - x / n as real >= 0.0
  {
    var d := n as real;
    QuotientNonNegative(x, d);
    var q := x / d;
    Products(q, d - 1.0);
    assert q * (d - 1.0) == q * d - q;
  }

  /** The smoothed sums are never negative, whatever the candles. */
  lemma {:induction false} SumsNonNegative(p: seq<Candle>, n: nat)
    requires n >= 1
    ensures var s := Smoothed(p, n); s.tr >= 0.0 && s.plus >= 0.0 && s.minus >= 0.0
    decreases |p|
  {
    if |p| > 1 {
      SumsNonNegative(p[..|p| - 1], n);
      var s := Smoothed(p[..|p| - 1], n);
      DecayNonNegative(s.tr, n);
      DecayNonNegative(s.plus, n);
      DecayNonNegative(s.minus, n);
    }
  }

  /** A bar's directional movements together never exceed its true range. */
  lemma MovesWithinTrueRange(cs: seq<Candle>, i: nat)
    requires 1 <= i < |cs| && Ordered(cs[i - 1]) && Ordered(cs[i])
    ensures PlusDM(cs, i) + MinusDM(cs, i) <= TrueRangeAt(cs, i)
  {
  }

  lemma AddWithin(t: real, a: real, b: real, x: real, y: real, z: real, i: nat, n: nat)
    requires n >= 1 && a + b <= t && y + z <= x
    ensures Add(a, y, i, n) + Add(b, z, i, n) <= Add(t, x, i, n)
  {
    var d := n as real;
    DecayNonNegative(t - a - b, n);
    QuotientsAdd(a, b, t - a - b, d);
  }

  lemma QuotientsAdd(a: real, b: real, c: real, d: real)
    requires d > 0.0
    ensures (a + b + c) / d == a / d + b / d + c / d
  {
  }

  lemma {:induction false} SumsWithinTrueRange(p: seq<Candle>, n: nat)
    requires n >= 1 && forall i | 0 <= i < |p| :: Ordered(p[i])
    ensures var s := Smoothed(p, n); s.plus + s.minus <= s.tr
    decreases |p|
  {
    if |p| > 1 {
      SumsWithinTrueRange(p[..|p| - 1], n);
      var s, i := Smoothed(p[..|p| - 1], n), |p| - 1;
      MovesWithinTrueRange(p, i);
      AddWithin(s.tr, s.plus, s.minus, TrueRangeAt(p, i), PlusDM(p, i), MinusDM(p, i), i, n);
    }
  }

  lemma PercentagesWithin(a: real, b: real, t: real)
    requires t > 0.0 && a >= 0.0 && b >= 0.0 && a + b <= t
    ensures 0.0 <= 100.0 * a / t + 100.0 * b / t <= 100.0
  {
    var x, y := 100.0 * a, 100.0 * b;
    QuotientWithin(x + y, t, 0.0, 100.0);
    QuotientsAdd(x, y, 0.0, t);
  }

  /** Both directional indicators together are at most 100. */
  lemma IndicatorsWithinHundred(p: seq<Candle>, n: nat, s: Sums)
    requires n >= 1 && (forall i | 0 <= i < |p| :: Ordered(p[i])) && s == Smoothed(p, n) && s.tr != 0.0
    ensures 0.0 <= 100.0 * s.plus / s.tr + 100.0 * s.minus / s.tr <= 100.0
  {
    SumsNonNegative(p, n);
    SumsWithinTrueRange(p, n);
    PercentagesWithin(s.plus, s.minus, s.tr);
  }

  lemma DxWithin(s: Sums)
    requires s.tr > 0.0 && s.plus >= 0.0 && s.minus >= 0.0
    ensures 0.0 <= Dx(s) <= 100.0
  {
    QuotientNonNegative(100.0 * s.plus, s.tr);
    QuotientNonNegative(100.0 * s.minus, s.tr);
    var pdi, mdi := 100.0 * s.plus / s.tr, 100.0 * s.minus / s.tr;
    if pdi + mdi > 0.0 {
      QuotientWithin(100.0 * Abs(pdi - mdi), pdi + mdi, 0.0, 100.0);
    }
  }

  lemma {:induction false} DxListWithin(p: seq<Candle>, n: nat)
    requires n >= 1
    ensures Within(DxList(p, n), 0.0, 100.0)
    decreases |p|
  {
    if p != [] {
      DxListWithin(p[..|p| - 1], n);
      if DxLast(p, n).Some? {
        SumsNonNegative(p, n);
        DxWithin(Smoothed(p, n));
      }
    }
  }

  /** The adx lies between 0 and 100, whatever the candles. */
  lemma AdxWithin(p: seq<Candle>, n: int)
    requires AdxLast(p, n).Some?
    ensures 0.0 <= AdxLast(p, n).value <= 100.0
  {
    DxListWithin(p, n);
    WilderWithin(DxList(p, n), n, 0.0, 100.0);
  }

  // ----- warm-up -----

  lemma {:induction false} DxListBounded(p: seq<Candle>, n: nat)
    requires n >= 1
    ensures |DxList(p, n)| <= if |p| > n then |p| - n else 0
    decreases |p|
  {
    if p != [] {
      DxListBounded(p[..|p| - 1], n);
    }
  }

  /** No bar before index 2n - 1 has an adx. */
  lemma AdxWarmUp(p: seq<Candle>, n: nat)
    requires n >= 1 && |p| < 2 * n
    ensures AdxLast(p, n).None?
  {
    DxListBounded(p, n);
  }

  lemma DecayPositive(x: real, n: nat, t: real)
    requires n >= 1 && x >= 0.0 && t > 0.0
    ensures x - x / n as real + t > 0.0
  {
    DecayNonNegative(x, n);
  }

  lemma {:induction false} DxListFull(p: seq<Candle>, n: nat)
    requires n >= 1 && forall i | 1 <= i < |p| :: TrueRangeAt(p, i) > 0.0
    ensures |DxList(p, n)| == if |p| > n then |p| - n else 0
    ensures |p| > n ==> DxLast(p, n).Some?
    decreases |p|
  {
    if p != [] {
      var init := p[..|p| - 1];
      forall i | 1 <= i < |init| ensures TrueRangeAt(init, i) > 0.0 {
        assert TrueRangeAt(init, i) == TrueRangeAt(p, i);
      }
      DxListFull(init, n);
      if |p| > n {
        SumsNonNegative(init, n);
        DecayPositive(Smoothed(init, n).tr, n, TrueRangeAt(p, |p| - 1));
      }
    }
  }

  /** When every bar after the first moves, the adx starts exactly at index 2n - 1. */
  lemma AdxStartsExactly(p: seq<Candle>, n: nat)
    requires n >= 1 && forall i | 1 <= i < |p| :: TrueRangeAt(p, i) > 0.0
    ensures AdxLast(p, n).Some? <==> |p| >= 2 * n
  {
    DxListFull(p, n);
  }

  // ----- mirror -----

  /** The chart turned upside down. */
  function Mirrored(p: seq<Candle>): (q: seq<Candle>)
    ensures |q| == |p|
    ensures forall i | 0 <= i < |p| :: q[i] == Candle(-p[i].open, -p[i].low, -p[i].high, -p[i].close)
  {
    seq(|p|, i requires 0 <= i < |p| => Candle(-p[i].open, -p[i].low, -p[i].high, -p[i].close))
  }

  lemma MirroredPrefix(p: seq<Candle>)
    requires p != []
    ensures Mirrored(p)[..|p| - 1] == Mirrored(p[..|p| - 1])
  {
  }

  lemma MirroredMoves(p: seq<Candle>, i: nat)
    requires 1 <= i < |p|
    ensures PlusDM(Mirrored(p), i) == MinusDM(p, i) && MinusDM(Mirrored(p), i) == PlusDM(p, i)
    ensures TrueRangeAt(Mirrored(p), i) == TrueRangeAt(p, i)
  {
  }

  /** Mirroring swaps the two smoothed movements and keeps the range. */
  lemma {:induction false} MirroredSums(p: seq<Candle>, n: nat)
    requires n >= 1
    ensures var s := Smoothed(p, n); Smoothed(Mirrored(p), n) == Sums(s.tr, s.minus, s.plus)
    decreases |p|
  {
    if |p| > 1 {
      MirroredSums(p[..|p| - 1], n);
      MirroredPrefix(p);
      MirroredMoves(p, |p| - 1);
    }
  }

  lemma DxSymmetric(s: Sums)
    requires s.tr != 0.0
    ensures Dx(Sums(s.tr, s.minus, s.plus)) == Dx(s)
  {
  }

  lemma {:induction false} MirroredDxList(p: seq<Candle>, n: nat)
    requires n >= 1
    ensures DxLast(Mirrored(p), n) == DxLast(p, n) && DxList(Mirrored(p), n) == DxList(p, n)
    decreases |p|
  {
    MirroredSums(p, n);
    if Smoothed(p, n).tr != 0.0 {
      DxSymmetric(Smoothed(p, n));
    }
    if p != [] {
      MirroredPrefix(p);
      MirroredDxList(p[..|p| - 1], n);
    }
  }

  /** The adx measures strength, not direction: turning the chart upside down leaves it unchanged. */
  lemma AdxMirror(p: seq<Candle>, n: int)
    ensures AdxLast(Mirrored(p), n) == AdxLast(p, n)
  {
    if n >= 1 {
      MirroredDxList(p, n);
    }
  }

  /** Bars that arrive later never change an adx already given. */
  method AdxOfBoth(candles: seq<Candle>, n: nat, period: int)
    returns (long: seq<Option<real>>, short: seq<Option<real>>)
    requires n <= |candles|
    ensures Causal(AdxOf(period), candles, long) && short == long[..n]
  {
    long := Adx(candles, period);
    short := Adx(candles[..n], period);
    NoLookAhead(AdxOf(period), candles, n, long, short);
  }
}
