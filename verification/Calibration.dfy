/**
 What the moving averages, the macd and the fitted slope read on a straight line: each formula is pinned by a value it
 must give.
 */
module Calibration {
  import opened Wrappers
  import opened Series
  import opened MovingAverages
  import opened Trend

  /** Every value is the one before it plus b. */
  predicate Line(p: seq<real>, b: real) {
    forall i | 1 <= i < |p| :: p[i] == p[i - 1] + b
  }

  lemma LinePrefix(p: seq<real>, b: real, n: nat)
    requires Line(p, b) && n <= |p|
    ensures Line(p[..n], b)
  {
  }

  // ----- sma -----

  lemma SumStep(d: real, x: real, b: real, s: real, e: real)
    requires (d - 1.0) * (x - b) - s == e
    ensures d * x - (s + x) == e + (d - 1.0) * b
  {
    assert (d - 1.0) * (x - b) == (d - 1.0) * x - (d - 1.0) * b;
  }

  /** How much d values of a line fall short of d times the last one. */
  function Shortfall(d: real, b: real): real {
    b * (d * (d - 1.0) / 2.0)
  }

  lemma ShortfallStep(d: real, b: real)
    ensures Shortfall(d, b) == Shortfall(d - 1.0, b) + (d - 1.0) * b
  {
    var u := (d - 1.0) * (d - 2.0) / 2.0;
    assert d * (d - 1.0) / 2.0 == u + (d - 1.0);
    Distribute(b, u, d - 1.0);
  }

  lemma {:induction false} SumOfLine(p: seq<real>, b: real, d: real, x: real, s: real)
    requires Line(p, b) && p != [] && d == |p| as real && x == p[|p| - 1] && s == Sum(p)
    ensures d * x - s == Shortfall(d, b)
    decreases |p|
  {
    if |p| == 1 {
      OneShort(x, b, d, s);
    } else {
      var init := p[..|p| - 1];
      LinePrefix(p, b, |p| - 1);
      var r := Sum(init);
      SumOfLine(init, b, d - 1.0, x - b, r);
      SumStep(d, x, b, r, Shortfall(d - 1.0, b));
      ShortfallStep(d, b);
    }
  }

  lemma OneShort(x: real, b: real, d: real, s: real)
    requires d == 1.0 && s == x
    ensures d * x - s == Shortfall(d, b)
  {
    assert d * (d - 1.0) / 2.0 == 0.0;
  }

  /** lag is (d - 1) / 2 steps of b. */
  ghost predicate LagOf(d: real, b: real, lag: real) {
    2.0 * lag == (d - 1.0) * b
  }

  lemma MeanLags(d: real, x: real, b: real, s: real, lag: real)
    requires d > 0.0 && d * x - s == Shortfall(d, b) && LagOf(d, b, lag)
    ensures s / d == x - lag
  {
    assert b * (d * (d - 1.0) / 2.0) == d * ((d - 1.0) * b) / 2.0;
    assert d * (x - lag) == d * x - d * lag;
    assert s == d * (x - lag);
  }

  lemma MeanOfLine(p: seq<real>, b: real, d: real, lag: real)
    requires Line(p, b) && p != [] && d == |p| as real && LagOf(d, b, lag)
    ensures Sum(p) / d == p[|p| - 1] - lag
  {
    SumOfLine(p, b, d, p[|p| - 1], Sum(p));
    MeanLags(d, p[|p| - 1], b, Sum(p), lag);
  }

  /** On a straight line the mean of the last n values lags the price by (n - 1) / 2 bars. */
  lemma SmaOfLine(p: seq<real>, n: nat, b: real, d: real, lag: real)
    requires 1 <= n <= |p| && Line(p, b) && d == n as real && LagOf(d, b, lag)
    ensures SmaLast(p, n) == Some(p[|p| - 1] - lag)
  {
    MeanOfLine(p[|p| - n..], b, d, lag);
  }

  // ----- ema and macd -----

  /** x is the new value, y the one that lags the previous value. */
  lemma LagStays(x: real, y: real, b: real, lag: real, k: real)
    requires y == (x - b) - lag && (b + lag) * k == b
    ensures Mix(x, y, k) == x - lag
  {
    var j := 1.0 - k;
    assert y == x - (b + lag);
    assert (x - (b + lag)) * j == x * j - (b + lag) * j;
    assert (b + lag) * j == (b + lag) - (b + lag) * k;
    assert x * k + x * j == x;
  }

  /** The line goes on after the value x. */
  predicate Continues(xs: seq<real>, x: real, b: real) {
    Line(xs, b) && (xs != [] ==> xs[0] == x + b)
  }

  /** A value that lags a line goes on lagging it. */
  lemma {:induction false} SmoothOfLine(seed: real, xs: seq<real>, k: real, b: real, lag: real, x: real)
    requires Continues(xs, x, b) && seed == x - lag && (b + lag) * k == b
    ensures Smooth(seed, xs, k) == (if xs == [] then x else xs[|xs| - 1]) - lag
    decreases |xs|
  {
    if xs != [] {
      var init, last := xs[..|xs| - 1], xs[|xs| - 1];
      SmoothOfLine(seed, init, k, b, lag, x);
      LagStays(last, Smooth(seed, init, k), b, lag, k);
    }
  }

  lemma WeightTimes(n: nat)
    ensures Weight(n) * (n + 1) as real == 2.0
  {
  }

  lemma WeightBalances(k: real, d: real, b: real, lag: real)
    requires k * (d + 1.0) == 2.0 && LagOf(d, b, lag)
    ensures (b + lag) * k == b
  {
    assert 2.0 * (b + lag) == (d + 1.0) * b;
    assert (2.0 * (b + lag)) * k == ((d + 1.0) * b) * k;
    assert ((d + 1.0) * b) * k == b * (k * (d + 1.0));
  }

  lemma EmaSeedLags(p: seq<real>, n: nat, b: real, d: real, lag: real) returns (k: real)
    requires 1 <= n <= |p| && Line(p, b) && d == n as real && LagOf(d, b, lag)
    ensures k == Weight(n) && (b + lag) * k == b && Sum(p[..n]) / n as real == p[n - 1] - lag
  {
    LinePrefix(p, b, n);
    MeanOfLine(p[..n], b, d, lag);
    WeightTimes(n);
    k := Weight(n);
    WeightBalances(k, d, b, lag);
  }

  /** On a straight line the ema lags the price by exactly (n - 1) / 2 bars, from its first value on. */
  lemma EmaOfLine(p: seq<real>, n: nat, b: real, d: real, lag: real)
    requires 1 <= n <= |p| && Line(p, b) && d == n as real && LagOf(d, b, lag)
    ensures Ema(p, n) == p[|p| - 1] - lag
  {
    var k := EmaSeedLags(p, n, b, d, lag);
    EmaIsSmooth(p, n);
    SmoothOfLine(Sum(p[..n]) / n as real, p[n..], k, b, lag, p[n - 1]);
  }

  /** A macd point reads the two emas of its prefix, the ema of the line they draw, and the distance of the first from
      the second: positive exactly when the line is above its signal. */
  lemma PointReads(p: seq<real>, fast: nat, slow: nat, signal: nat, pt: MacdPoint)
    requires fast >= 1 && slow >= 1 && signal >= 1 && MacdLast(p, fast, slow, signal) == Some(pt)
    ensures |p| >= fast && |p| >= slow && pt.macd == Ema(p, fast) - Ema(p, slow)
    ensures |MacdLine(p, fast, slow)| >= signal && pt.signal == Ema(MacdLine(p, fast, slow), signal)
    ensures pt.signal + pt.histogram == pt.macd
  {
  }

  lemma MacdLineOfLine(p: seq<real>, b: real, fast: nat, slow: nat, h: real, g: real, c: real)
    requires fast >= 1 && slow >= 1 && Line(p, b) && c == g - h
    requires LagOf(fast as real, b, h) && LagOf(slow as real, b, g)
    ensures Within(MacdLine(p, fast, slow), c, c)
  {
    var line := MacdLine(p, fast, slow);
    forall k | 0 <= k < |line| ensures line[k] == c {
      var n := Longer(fast, slow) + k;
      MacdLineAt(p, fast, slow, k);
      LinePrefix(p, b, n);
      EmaOfLine(p[..n], fast, b, fast as real, h);
      EmaOfLine(p[..n], slow, b, slow as real, g);
    }
  }

  lemma EmaOfConstant(line: seq<real>, n: nat, c: real) returns (e: real)
    requires 1 <= n <= |line| && Within(line, c, c)
    ensures e == Ema(line, n) == c
  {
    EmaWithin(line, n, c, c);
    e := Ema(line, n);
  }

  lemma MacdFromLine(p: seq<real>, fast: nat, slow: nat, signal: nat, line: seq<real>, e: real)
    requires fast >= 1 && slow >= 1 && line == MacdLine(p, fast, slow) && 1 <= signal <= |line|
    requires e == Ema(line, signal)
    ensures MacdLast(p, fast, slow, signal) == PointFrom(line[|line| - 1], Some(e))
  {
  }

  lemma FlatPoint(line: seq<real>, c: real)
    requires line != [] && Within(line, c, c)
    ensures PointFrom(line[|line| - 1], Some(c)) == Some(MacdPoint(c, c, 0.0))
  {
  }

  lemma ConstantLine(p: seq<real>, fast: nat, slow: nat, signal: nat, c: real)
    requires fast >= 1 && slow >= 1 && 1 <= signal <= |MacdLine(p, fast, slow)|
    requires Within(MacdLine(p, fast, slow), c, c)
    ensures MacdLast(p, fast, slow, signal) == Some(MacdPoint(c, c, 0.0))
  {
    var e := EmaOfConstant(MacdLine(p, fast, slow), signal, c);
    FlatPoint(MacdLine(p, fast, slow), c);
    MacdFromLine(p, fast, slow, signal, MacdLine(p, fast, slow), e);
  }

  /** With a fast period below the slow one that difference is positive exactly when the line rises. */
  lemma LagsCompare(f: real, s: real, b: real, h: real, g: real)
    requires f < s && LagOf(f, b, h) && LagOf(s, b, g)
    ensures g - h > 0.0 <==> b > 0.0
  {
    assert 2.0 * (g - h) == (s - f) * b;
    SignOfProduct(b, s - f, 2.0 * (g - h));
  }

  /** On a straight line macd and signal are both the difference c of the two lags, and the histogram is zero. */
  lemma MacdOfLine(p: seq<real>, b: real, fast: nat, slow: nat, signal: nat, h: real, g: real, c: real)
    requires fast >= 1 && slow >= 1 && 1 <= signal <= |MacdLine(p, fast, slow)| && c == g - h
    requires Line(p, b) && LagOf(fast as real, b, h) && LagOf(slow as real, b, g)
    ensures MacdLast(p, fast, slow, signal) == Some(MacdPoint(c, c, 0.0))
  {
    MacdLineOfLine(p, b, fast, slow, h, g, c);
    ConstantLine(p, fast, slow, signal, c);
  }

  // ----- trend slope -----

  /** A straight line: a, a + b, a + 2b, ... */
  function Ramp(a: real, b: real, n: nat): (r: seq<real>)
    ensures |r| == n && forall i | 0 <= i < n :: r[i] == a + b * i as real
  {
    seq(n, i requires 0 <= i < n => a + b * i as real)
  }

  lemma RampPrefix(a: real, b: real, n: nat, m: nat)
    requires n <= m
    ensures Ramp(a, b, m)[..n] == Ramp(a, b, n)
  {
  }

  lemma {:induction false} ErrorNonNegative(w: seq<real>, s: real, t: real)
    ensures SquaredError(w, s, t) >= 0.0
  {
    if w != [] {
      var k, v := (|w| - 1) as real, w[|w| - 1];
      var e := v - s * k - t;
      ErrorNonNegative(w[..|w| - 1], s, t);
      ErrorPush(w, s, t, k, v, e);
      Square(e);
    }
  }

  lemma Square(e: real)
    ensures e * e >= 0.0
  {
  }

  lemma {:induction false} ErrorOfLine(a: real, b: real, n: nat)
    ensures SquaredError(Ramp(a, b, n), b, a) == 0.0
  {
    if n > 0 {
      RampPrefix(a, b, n - 1, n);
      ErrorOfLine(a, b, n - 1);
      assert Ramp(a, b, n)[n - 1] - b * (n - 1) as real - a == 0.0;
    }
  }

  lemma SlopeOfRamp(a: real, b: real, n: nat)
    requires n >= 2
    ensures Denom(n) != 0 && Slope(Ramp(a, b, n)) == b
  {
    var w := Ramp(a, b, n);
    DenomClosedForm(n);
    ErrorOfLine(a, b, n);
    ErrorNonNegative(w, Slope(w), Intercept(w));
    LeastSquares(w, b, a);
  }

  lemma {:induction false} LinePoint(w: seq<real>, b: real, i: nat)
    requires Line(w, b) && i < |w|
    ensures w[i] == w[0] + b * i as real
    decreases i
  {
    if i > 0 {
      LinePoint(w, b, i - 1);
      NextPoint(w[0], b, i as real);
    }
  }

  lemma LineIsRamp(w: seq<real>, b: real)
    requires Line(w, b) && w != []
    ensures w == Ramp(w[0], b, |w|)
  {
    forall i | 0 <= i < |w| ensures w[i] == Ramp(w[0], b, |w|)[i] {
      LinePoint(w, b, i);
    }
  }

  lemma NextPoint(a: real, b: real, i: real)
    ensures (a + b * (i - 1.0)) + b == a + b * i
  {
  }

  /** The fitted slope of a straight line is the line's own step. */
  lemma SlopeOfLine(w: seq<real>, b: real)
    requires |w| >= 2 && Line(w, b)
    ensures Denom(|w|) != 0 && Slope(w) == b
  {
    LineIsRamp(w, b);
    SlopeOfRamp(w[0], b, |w|);
  }

  lemma TrendValue(p: seq<real>, n: nat, w: seq<real>, s: real, m: real)
    requires 2 <= n <= |p| && w == p[|p| - n..] && Denom(n) != 0 && s == Slope(w) && m == Sum(w) / n as real
    ensures SlopeLast(p, n) == Normal(s, m)
  {
  }

  lemma RatioSign(b: real, m: real, q: real)
    requires m > 0.0 && q == b / m
    ensures (q > 0.0 <==> b > 0.0) && (q < 0.0 <==> b < 0.0)
  {
    SignOfProduct(q, m, b);
  }

  lemma SignOfProduct(q: real, m: real, b: real)
    requires m > 0.0 && q * m == b
    ensures (q > 0.0 <==> b > 0.0) && (q < 0.0 <==> b < 0.0)
  {
  }

  /** On a straight line the output is the step relative to the window's mean, so for positive prices it has the step's
      own sign. */
  lemma TrendOfLine(p: seq<real>, n: nat, w: seq<real>, b: real, mean: real, out: real)
    requires 2 <= n <= |p| && w == p[|p| - n..] && Line(w, b)
    requires mean == Sum(w) / n as real && mean != 0.0 && out == b / mean
    ensures SlopeLast(p, n) == Some(out)
    ensures mean > 0.0 ==> (out > 0.0 <==> b > 0.0) && (out < 0.0 <==> b < 0.0)
  {
    SlopeOfLine(w, b);
    TrendValue(p, n, w, b, mean);
    if mean > 0.0 {
      RatioSign(b, mean, out);
    }
  }
}
