/**
 What the directional index measures: its sums are Wilder averages, its dx is the imbalance of the two movements, a
 steady trend reads 100 and a chart of inside bars reads 0.
 */
module Directional {
  import opened Wrappers
  import opened Series
  import opened Candles
  import opened Wilder
  import opened AverageDirectional

  // ----- the movements -----

  /** How far x reaches above y. */
  function Beyond(x: real, y: real): real {
    Max(0.0, x - y)
  }

  /** Of the two reaches beyond the previous bar's range, the larger one counts, upwards or downwards; equal reaches do
      not count. */
  lemma MovesAreReaches(cs: seq<Candle>, i: nat, up: real, down: real)
    requires 1 <= i < |cs|
    requires up == Beyond(cs[i].high, cs[i - 1].high) && down == Beyond(cs[i - 1].low, cs[i].low)
    ensures PlusDM(cs, i) > 0.0 <==> up > down
    ensures MinusDM(cs, i) > 0.0 <==> down > up
    ensures PlusDM(cs, i) + MinusDM(cs, i) == if up == down then 0.0 else Max(up, down)
    ensures PlusDM(cs, i) >= 0.0 && MinusDM(cs, i) >= 0.0
  {
  }

  // ----- the sums -----

  /** The loop's decaying sum over the values of bars 1, 2, ... */
  function Decayed(xs: seq<real>, n: nat): real
    requires n >= 1
  {
    if xs == [] then 0.0 else Add(Decayed(xs[..|xs| - 1], n), xs[|xs| - 1], |xs|, n)
  }

  lemma {:induction false} DecayedSeed(xs: seq<real>, n: nat)
    requires n >= 1 && |xs| <= n
    ensures Decayed(xs, n) == Sum(xs)
  {
    if xs != [] {
      DecayedSeed(xs[..|xs| - 1], n);
    }
  }

  /** z is n times Wilder's average of xs, with d the period as a real. */
  ghost predicate WilderTimes(z: real, xs: seq<real>, n: nat, d: real) {
    d == n as real && 1 <= n <= |xs| && z == d * WilderAvg(xs, n)
  }

  lemma BlendTimes(w: real, x: real, d: real, s: real)
    requires d > 0.0 && s == d * w
    ensures s - s / d + x == d * Blend(w, x, d)
  {
    var z := w * (d - 1.0) + x;
    assert z / d * d == z;
    assert s / d == w;
  }

  lemma SeedTimes(xs: seq<real>, n: nat, d: real)
    requires n >= 1 && |xs| == n && d == n as real
    ensures WilderTimes(Sum(xs), xs, n, d)
  {
    assert Sum(xs) / d * d == Sum(xs);
  }

  lemma WilderPush(xs: seq<real>, init: seq<real>, x: real, n: nat, d: real)
    requires 1 <= n < |xs| && init == xs[..|xs| - 1] && x == xs[|xs| - 1] && d == n as real
    ensures WilderAvg(xs, n) == Blend(WilderAvg(init, n), x, d)
  {
  }

  lemma NextTimes(z: real, xs: seq<real>, init: seq<real>, x: real, n: nat, d: real)
    requires 1 <= n < |xs| && init == xs[..|xs| - 1] && x == xs[|xs| - 1] && WilderTimes(z, init, n, d)
    ensures WilderTimes(Add(z, x, |xs|, n), xs, n, d)
  {
    WilderPush(xs, init, x, n, d);
    BlendTimes(WilderAvg(init, n), x, d, z);
  }

  /** From the first full period on, the decaying sum is n times Wilder's average. */
  lemma {:induction false} DecayedIsWilder(xs: seq<real>, n: nat, d: real)
    requires 1 <= n <= |xs| && d == n as real
    ensures WilderTimes(Decayed(xs, n), xs, n, d)
    decreases |xs|
  {
    if |xs| == n {
      DecayedSeed(xs, n);
      SeedTimes(xs, n, d);
    } else {
      var init := xs[..|xs| - 1];
      DecayedIsWilder(init, n, d);
      NextTimes(Decayed(init, n), xs, init, xs[|xs| - 1], n, d);
    }
  }

  /** The true ranges and the two movements of bars 1, 2, ... */
  function Ranges(p: seq<Candle>): (xs: seq<real>)
    ensures |xs| == if p == [] then 0 else |p| - 1
  {
    if |p| <= 1 then [] else Ranges(p[..|p| - 1]) + [TrueRangeAt(p, |p| - 1)]
  }

  function PlusMoves(p: seq<Candle>): (xs: seq<real>)
    ensures |xs| == if p == [] then 0 else |p| - 1
  {
    if |p| <= 1 then [] else PlusMoves(p[..|p| - 1]) + [PlusDM(p, |p| - 1)]
  }

  function MinusMoves(p: seq<Candle>): (xs: seq<real>)
    ensures |xs| == if p == [] then 0 else |p| - 1
  {
    if |p| <= 1 then [] else MinusMoves(p[..|p| - 1]) + [MinusDM(p, |p| - 1)]
  }

  lemma DecayedPush(xs: seq<real>, x: real, n: nat)
    requires n >= 1
    ensures Decayed(xs + [x], n) == Add(Decayed(xs, n), x, |xs| + 1, n)
  {
    assert (xs + [x])[..|xs|] == xs;
  }

  lemma {:induction false} SumsAreDecayed(p: seq<Candle>, n: nat)
    requires n >= 1
    ensures Smoothed(p, n) == Sums(Decayed(Ranges(p), n), Decayed(PlusMoves(p), n), Decayed(MinusMoves(p), n))
    decreases |p|
  {
    if |p| > 1 {
      var init, i := p[..|p| - 1], |p| - 1;
      SumsAreDecayed(init, n);
      DecayedPush(Ranges(init), TrueRangeAt(p, i), n);
      DecayedPush(PlusMoves(init), PlusDM(p, i), n);
      DecayedPush(MinusMoves(init), MinusDM(p, i), n);
    }
  }

  lemma DecayedTo(xs: seq<real>, n: nat, d: real, z: real)
    requires 1 <= n <= |xs| && d == n as real && z == Decayed(xs, n)
    ensures WilderTimes(z, xs, n, d)
  {
    DecayedIsWilder(xs, n, d);
  }

  lemma SumsSplit(p: seq<Candle>, n: nat, s: Sums)
    requires n >= 1 && s == Smoothed(p, n)
    ensures s.tr == Decayed(Ranges(p), n) && s.plus == Decayed(PlusMoves(p), n) && s.minus == Decayed(MinusMoves(p), n)
  {
    SumsAreDecayed(p, n);
  }

  /** Each of the three sums is n times Wilder's average of its series, the average the atr uses. */
  lemma SumsAreWilder(p: seq<Candle>, n: nat, d: real, s: Sums)
    requires 1 <= n < |p| && d == n as real && s == Smoothed(p, n)
    ensures WilderTimes(s.tr, Ranges(p), n, d)
    ensures WilderTimes(s.plus, PlusMoves(p), n, d)
    ensures WilderTimes(s.minus, MinusMoves(p), n, d)
  {
    SumsSplit(p, n, s);
    DecayedTo(Ranges(p), n, d, s.tr);
    DecayedTo(PlusMoves(p), n, d, s.plus);
    DecayedTo(MinusMoves(p), n, d, s.minus);
  }

  // ----- dx -----

  lemma QuotientTimes(a: real, t: real)
    requires t > 0.0
    ensures a / t * t == a
  {
  }

  lemma DxQuotient(x: real, y: real)
    requires x >= 0.0 && y >= 0.0 && x + y > 0.0
    ensures 100.0 * Abs(x - y) / (x + y) * (x + y) == 100.0 * Abs(x - y)
  {
  }

  lemma Cancels(dx: real, x: real, y: real, a: real, b: real, t: real)
    requires t > 0.0 && x * t == 100.0 * a && y * t == 100.0 * b && dx * (x + y) == 100.0 * Abs(x - y)
    ensures dx * (a + b) == 100.0 * Abs(a - b)
  {
    assert (x - y) * t == 100.0 * (a - b);
    AbsTimes(x - y, t, 100.0 * (a - b));
    assert (dx * (x + y)) * t == dx * ((x + y) * t);
    assert (x + y) * t == 100.0 * (a + b);
    assert 100.0 * (Abs(x - y) * t) == (100.0 * Abs(x - y)) * t;
  }

  lemma AbsTimes(u: real, t: real, v: real)
    requires t > 0.0 && u * t == v
    ensures Abs(u) * t == Abs(v)
  {
    if u < 0.0 {
      assert (-u) * t == -v;
      Products(-u, t);
    } else {
      Products(u, t);
    }
  }

  lemma SumPositive(x: real, y: real, a: real, b: real, t: real)
    requires t > 0.0 && x * t == 100.0 * a && y * t == 100.0 * b && a >= 0.0 && b >= 0.0
    ensures x >= 0.0 && y >= 0.0 && (x + y == 0.0 <==> a + b == 0.0)
  {
    if x < 0.0 {
      Products(-x, t);
    }
    if y < 0.0 {
      Products(-y, t);
    }
  }

  /** The dx is the imbalance of the two movements in percent of both together, whatever the true range. */
  lemma DxIsImbalance(s: Sums)
    requires s.tr > 0.0 && s.plus >= 0.0 && s.minus >= 0.0
    ensures Dx(s) * (s.plus + s.minus) == 100.0 * Abs(s.plus - s.minus)
    ensures s.plus + s.minus == 0.0 ==> Dx(s) == 0.0
  {
    var x, y := 100.0 * s.plus / s.tr, 100.0 * s.minus / s.tr;
    QuotientTimes(100.0 * s.plus, s.tr);
    QuotientTimes(100.0 * s.minus, s.tr);
    SumPositive(x, y, s.plus, s.minus, s.tr);
    if x + y > 0.0 {
      DxQuotient(x, y);
      Cancels(Dx(s), x, y, s.plus, s.minus, s.tr);
    }
  }

  /** It is 100 exactly when one of the movements is missing, and 0 exactly when they balance. */
  lemma DxExtremes(s: Sums)
    requires s.tr > 0.0 && s.plus >= 0.0 && s.minus >= 0.0 && s.plus + s.minus > 0.0
    ensures Dx(s) == 100.0 <==> s.plus == 0.0 || s.minus == 0.0
    ensures Dx(s) == 0.0 <==> s.plus == s.minus
  {
    DxIsImbalance(s);
    Extremes(Dx(s), s.plus, s.minus, s.plus + s.minus);
  }

  lemma Extremes(dx: real, a: real, b: real, w: real)
    requires a >= 0.0 && b >= 0.0 && w == a + b && w > 0.0 && dx * w == 100.0 * Abs(a - b)
    ensures dx == 100.0 <==> a == 0.0 || b == 0.0
    ensures dx == 0.0 <==> a == b
  {
    if a == 0.0 || b == 0.0 {
      assert Abs(a - b) == w;
      OneSided(dx, w);
    }
    if a == b {
      ZeroFactor(dx, w);
    }
  }

  lemma ZeroFactor(dx: real, w: real)
    requires w > 0.0 && dx * w == 0.0
    ensures dx == 0.0
  {
  }

  lemma OneSided(dx: real, a: real)
    requires a > 0.0 && dx * a == 100.0 * a
    ensures dx == 100.0
  {
  }

  lemma DxOfOneSide(s: Sums)
    requires s.tr > 0.0 && s.plus > 0.0 && s.minus == 0.0
    ensures Dx(s) == 100.0
  {
    DxIsImbalance(s);
    OneSided(Dx(s), s.plus);
  }

  // ----- a steady trend, and none -----

  /** Every bar reaches above the one before and never below it. */
  predicate Climbs(p: seq<Candle>) {
    forall i | 1 <= i < |p| :: p[i].high > p[i - 1].high && p[i].low >= p[i - 1].low
  }

  /** Every bar stays inside the range of the one before. */
  predicate Inside(p: seq<Candle>) {
    forall i | 1 <= i < |p| :: p[i].high <= p[i - 1].high && p[i].low >= p[i - 1].low
  }

  predicate AllOrdered(p: seq<Candle>) {
    forall i | 0 <= i < |p| :: Ordered(p[i])
  }

  lemma ClimbingRange(p: seq<Candle>, i: nat)
    requires Climbs(p) && AllOrdered(p) && 1 <= i < |p|
    ensures TrueRangeAt(p, i) > 0.0 && PlusDM(p, i) > 0.0 && MinusDM(p, i) == 0.0
  {
  }

  lemma {:induction false} ClimbingSums(p: seq<Candle>, n: nat)
    requires n >= 1 && Climbs(p) && AllOrdered(p)
    ensures var s := Smoothed(p, n); s.minus == 0.0 && (|p| > 1 ==> s.tr > 0.0 && s.plus > 0.0)
    decreases |p|
  {
    if |p| > 1 {
      var init, i := p[..|p| - 1], |p| - 1;
      ClimbingSums(init, n);
      SumsNonNegative(init, n);
      ClimbingRange(p, i);
      var s := Smoothed(init, n);
      DecayPositive(s.tr, n, TrueRangeAt(p, i));
      DecayPositive(s.plus, n, PlusDM(p, i));
    }
  }

  lemma {:induction false} ClimbingDx(p: seq<Candle>, n: nat)
    requires n >= 1 && Climbs(p) && AllOrdered(p)
    ensures Within(DxList(p, n), 100.0, 100.0)
    decreases |p|
  {
    if p != [] {
      ClimbingDx(p[..|p| - 1], n);
      if |p| > n {
        ClimbingSums(p, n);
        DxOfOneSide(Smoothed(p, n));
      }
    }
  }

  /** A chart that only climbs has an adx of 100 as soon as it has one; by AdxMirror, so has one that only falls. */
  lemma SteadyTrendReadsHundred(p: seq<Candle>, n: nat)
    requires 1 <= n && 2 * n <= |p| && Climbs(p) && AllOrdered(p)
    ensures AdxLast(p, n) == Some(100.0)
  {
    forall i | 1 <= i < |p| ensures TrueRangeAt(p, i) > 0.0 {
      ClimbingRange(p, i);
    }
    AdxStartsExactly(p, n);
    ClimbingDx(p, n);
    WilderWithin(DxList(p, n), n, 100.0, 100.0);
  }

  lemma InsideMoves(p: seq<Candle>, i: nat)
    requires Inside(p) && 1 <= i < |p|
    ensures PlusDM(p, i) == 0.0 && MinusDM(p, i) == 0.0
  {
  }

  lemma NothingDecays(n: nat, i: nat)
    requires n >= 1
    ensures Add(0.0, 0.0, i, n) == 0.0
  {
    QuotientNonNegative(0.0, n as real);
  }

  lemma {:induction false} InsideSums(p: seq<Candle>, n: nat)
    requires n >= 1 && Inside(p)
    ensures Smoothed(p, n).plus == 0.0 && Smoothed(p, n).minus == 0.0
    decreases |p|
  {
    if |p| > 1 {
      InsideSums(p[..|p| - 1], n);
      InsideMoves(p, |p| - 1);
      NothingDecays(n, |p| - 1);
    }
  }

  lemma {:induction false} InsideDx(p: seq<Candle>, n: nat)
    requires n >= 1 && Inside(p)
    ensures Within(DxList(p, n), 0.0, 0.0)
    decreases |p|
  {
    if p != [] {
      InsideDx(p[..|p| - 1], n);
      if DxLast(p, n).Some? {
        InsideSums(p, n);
        SumsNonNegative(p, n);
        DxIsImbalance(Smoothed(p, n));
      }
    }
  }

  /** A chart of inside bars has an adx of 0 wherever it has one. */
  lemma InsideBarsReadZero(p: seq<Candle>, n: nat)
    requires Inside(p) && AdxLast(p, n).Some?
    ensures AdxLast(p, n) == Some(0.0)
  {
    InsideDx(p, n);
    WilderWithin(DxList(p, n), n, 0.0, 0.0);
  }
}
