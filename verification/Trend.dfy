/** trendSlope of packages/indicators/src/series.ts: a least-squares fit over the trailing window. */
module Trend {
  import opened Wrappers
  import opened Series

  // ----- the sums of the fit -----

  function SumX(n: nat): int {
    if n == 0 then 0 else SumX(n - 1) + (n - 1)
  }

  function SumXX(n: nat): int {
    if n == 0 then 0 else SumXX(n - 1) + (n - 1) * (n - 1)
  }

  function SumXY(w: seq<real>): real {
    if w == [] then 0.0 else SumXY(w[..|w| - 1]) + (|w| - 1) as real * w[|w| - 1]
  }

  function SumYY(w: seq<real>): real {
    if w == [] then 0.0 else SumYY(w[..|w| - 1]) + w[|w| - 1] * w[|w| - 1]
  }

  function Denom(n: nat): int {
    n * SumXX(n) - SumX(n) * SumX(n)
  }

  /** x and xx are the sums of the first n indexes and of their squares. */
  ghost predicate PowerSums(n: int, x: int, xx: int) {
    2 * x == n * (n - 1) && 6 * xx == n * (n - 1) * (2 * n - 1)
  }

  lemma PowerSumsNext(n: int, x: int, xx: int)
    requires PowerSums(n, x, xx)
    ensures PowerSums(n + 1, x + n, xx + n * n)
  {
  }

  lemma {:induction false} SumsOfPowers(n: nat)
    ensures PowerSums(n, SumX(n), SumXX(n))
  {
    if n > 0 {
      SumsOfPowers(n - 1);
      PowerSumsNext(n - 1, SumX(n - 1), SumXX(n - 1));
    }
  }

  lemma DenomFrom(n: int, x: int, xx: int, d: int)
    requires PowerSums(n, x, xx) && d == n * xx - x * x
    ensures 12 * d == n * n * (n * n - 1)
  {
    var m := n * (n - 1);
    assert 12 * (n * xx) == 2 * n * (m * (2 * n - 1));
    assert 12 * (x * x) == 3 * (m * m);
    assert 2 * n * (m * (2 * n - 1)) - 3 * (m * m) == m * (2 * n * (2 * n - 1) - 3 * m);
    assert 2 * n * (2 * n - 1) - 3 * m == n * (n + 1);
    assert m * (n * (n + 1)) == n * n * ((n - 1) * (n + 1));
  }

  /** The denominator is n^2 (n^2 - 1) / 12: zero for a window of one value only, positive beyond. */
  lemma DenomClosedForm(n: nat)
    ensures 12 * Denom(n) == n * n * (n * n - 1)
    ensures n >= 2 ==> Denom(n) > 0
    ensures n <= 1 ==> Denom(n) == 0
  {
    SumsOfPowers(n);
    DenomFrom(n, SumX(n), SumXX(n), Denom(n));
    if n >= 2 {
      assert n * n >= 4;
      assert n * n * (n * n - 1) > 0;
    }
  }

  // ----- slope -----

  function Cramer(n: real, x: real, y: real, xy: real, d: real): real
    requires d != 0.0
  {
    (n * xy - x * y) / d
  }

  function Slope(w: seq<real>): real
    requires Denom(|w|) != 0
  {
    Cramer(|w| as real, SumX(|w|) as real, Sum(w), SumXY(w), Denom(|w|) as real)
  }

  /** The normalised slope of a window. */
  function Normal(s: real, m: real): Option<real> {
    if m != 0.0 then Some(s / m) else None
  }

  /** The fitted slope of the last n values relative to their mean. */
  function SlopeLast(p: seq<real>, n: int): Option<real> {
    if n < 1 || |p| < n || Denom(n) == 0 then None
    else
      var w := p[|p| - n..];
      var mean := Sum(w) / n as real;
      Normal(Slope(w), mean)
  }

  function SlopeOf(n: int): seq<real> -> Option<real> {
    p => SlopeLast(p, n)
  }

  method TrendSlope(values: seq<real>, period: int) returns (out: seq<Option<real>>)
    ensures Causal(SlopeOf(period), values, out)
  {
    out := Nulls(|values|);
    if period < 1 {
      return;
    }
    var i := period - 1;
    while i < |values|
      invariant period - 1 <= i
      invariant |out| == |values|
      invariant forall j | 0 <= j < i && j < |values| :: out[j] == SlopeLast(values[..j + 1], period)
      invariant forall j | i <= j < |values| :: out[j].None?
    {
      var v := Fitted(values, i, period);
      out := out[i := v];
      i := i + 1;
    }
  }

  /** The body of the outer loop: the fit of the window that ends at i. */
  method Fitted(values: seq<real>, i: nat, period: nat) returns (v: Option<real>)
    requires 1 <= period <= i + 1 && i < |values|
    ensures v == SlopeLast(values[..i + 1], period)
  {
    ghost var w := values[i + 1 - period..i + 1];
    assert values[..i + 1][i + 1 - period..] == w == w[0..];
    var sumX, sumXX := 0, 0;
    var sumY, sumXY := 0.0, 0.0;
    var j := 0;
    while j < period
      invariant 0 <= j <= period
      invariant sumX == SumX(j) && sumXX == SumXX(j)
      invariant sumY == Sum(w[..j]) && sumXY == SumXY(w[..j])
    {
      var y := values[i - period + 1 + j];
      assert w[..j + 1] == w[..j] + [y] && w[..j + 1][..j] == w[..j];
      sumX := sumX + j;
      sumY := sumY + y;
      sumXY := sumXY + j as real * y;
      sumXX := sumXX + j * j;
      j := j + 1;
    }
    assert w[..period] == w;
    v := Normalised(period, sumX, sumXX, sumY, sumXY, w);
  }

  method Normalised(n: nat, sumX: int, sumXX: int, sumY: real, sumXY: real, ghost w: seq<real>)
    returns (v: Option<real>)
    requires n == |w| >= 1 && sumX == SumX(n) && sumXX == SumXX(n) && sumY == Sum(w) && sumXY == SumXY(w)
    ensures v == SlopeLast(w, n)
  {
    assert w[0..] == w;
    var denom := n * sumXX - sumX * sumX;
    if denom == 0 {
      return None;
    }
    var slope := Cramer(n as real, sumX as real, sumY, sumXY, denom as real);
    var mean := sumY / n as real;
    v := Normal(slope, mean);
  }

  /** For windows of two or more values the output is null only when the window's mean is zero. */
  lemma NullExactlyAtZeroMean(p: seq<real>, n: nat)
    requires 1 <= n <= |p|
    ensures SlopeLast(p, n).None? <==> n == 1 || Sum(p[|p| - n..]) == 0.0
  {
    DenomClosedForm(n);
    QuotientZero(Sum(p[|p| - n..]), n as real);
  }

  lemma QuotientZero(s: real, d: real)
    requires d > 0.0
    ensures s / d == 0.0 <==> s == 0.0
  {
    assert s / d * d == s;
  }

  // ----- least squares -----

  /** The squared error of the line a * x + b over the window. */
  function SquaredError(w: seq<real>, a: real, b: real): real {
    if w == [] then 0.0
    else
      var e := w[|w| - 1] - a * (|w| - 1) as real - b;
      SquaredError(w[..|w| - 1], a, b) + e * e
  }

  function Expanded(yy: real, xy: real, y: real, xx: real, x: real, n: real, a: real, b: real): real {
    yy - 2.0 * a * xy - 2.0 * b * y + a * a * xx + 2.0 * a * b * x + n * b * b
  }

  lemma ExpandedStep(yy: real, xy: real, y: real, xx: real, x: real, n: real, a: real, b: real, v: real, e: real)
    requires e == v - a * n - b
    ensures Expanded(yy, xy, y, xx, x, n, a, b) + e * e
            == Expanded(yy + v * v, xy + n * v, y + v, xx + n * n, x + n, n + 1.0, a, b)
  {
  }

  lemma ErrorPush(w: seq<real>, a: real, b: real, k: real, v: real, e: real)
    requires w != [] && k == (|w| - 1) as real && v == w[|w| - 1] && e == v - a * k - b
    ensures SquaredError(w, a, b) == SquaredError(w[..|w| - 1], a, b) + e * e
  {
  }

  lemma SumYYPush(w: seq<real>, v: real)
    requires w != [] && v == w[|w| - 1]
    ensures SumYY(w) == SumYY(w[..|w| - 1]) + v * v
  {
  }

  lemma SumXYPush(w: seq<real>, k: real, v: real)
    requires w != [] && k == (|w| - 1) as real && v == w[|w| - 1]
    ensures SumXY(w) == SumXY(w[..|w| - 1]) + k * v
  {
  }

  lemma PowersPush(n: nat, k: real)
    requires n >= 1 && k == (n - 1) as real
    ensures SumXX(n) as real == SumXX(n - 1) as real + k * k
    ensures SumX(n) as real == SumX(n - 1) as real + k
    ensures n as real == k + 1.0
  {
    CastProduct(n - 1, n - 1);
  }

  lemma {:induction false} ErrorExpanded(w: seq<real>, a: real, b: real)
    ensures SquaredError(w, a, b)
            == Expanded(SumYY(w), SumXY(w), Sum(w), SumXX(|w|) as real, SumX(|w|) as real, |w| as real, a, b)
    decreases |w|
  {
    if w != [] {
      ErrorExpanded(w[..|w| - 1], a, b);
      ErrorExpandedNext(w, a, b);
    }
  }

  lemma ErrorExpandedNext(w: seq<real>, a: real, b: real)
    requires w != []
    requires var u := w[..|w| - 1];
             SquaredError(u, a, b)
             == Expanded(SumYY(u), SumXY(u), Sum(u), SumXX(|u|) as real, SumX(|u|) as real, |u| as real, a, b)
    ensures SquaredError(w, a, b)
            == Expanded(SumYY(w), SumXY(w), Sum(w), SumXX(|w|) as real, SumX(|w|) as real, |w| as real, a, b)
  {
    var u, k, v := w[..|w| - 1], (|w| - 1) as real, w[|w| - 1];
    var e := v - a * k - b;
    ErrorPush(w, a, b, k, v, e);
    SumYYPush(w, v);
    SumXYPush(w, k, v);
    PowersPush(|w|, k);
    ExpandedStep(SumYY(u), SumXY(u), Sum(u), SumXX(|u|) as real, SumX(|u|) as real, k, a, b, v, e);
  }

  /** How much worse a line (a, b) is than the one (s, t) that solves the normal equations. */
  lemma ExcessError(yy: real, xy: real, y: real, xx: real, x: real, n: real, s: real, t: real, a: real, b: real)
    requires n * t + s * x == y && s * xx + t * x == xy
    ensures var da, db := a - s, b - t;
            Expanded(yy, xy, y, xx, x, n, a, b) - Expanded(yy, xy, y, xx, x, n, s, t)
            == da * da * xx + 2.0 * da * db * x + n * db * db
  {
  }

  function Discriminant(n: real, x: real, xx: real): real {
    n * xx - x * x
  }

  lemma NonZeroSquare(k: real, z: real, q: real)
    requires k > 0.0 && q == z * z
    ensures k * q >= 0.0 && (k * q == 0.0 ==> z == 0.0)
  {
    if z != 0.0 {
      PositiveProduct(z, z, q);
      PositiveProduct(k, q, k * q);
    }
  }

  lemma ExcessPositive(xx: real, x: real, n: real, d: real, da: real, db: real, excess: real)
    requires n > 0.0 && d > 0.0 && d == Discriminant(n, x, xx)
    requires excess == da * da * xx + 2.0 * da * db * x + n * db * db
    ensures excess >= 0.0 && (excess == 0.0 ==> da == 0.0 && db == 0.0)
  {
    var u := n * db + x * da;
    var q, r := da * da, db * db;
    assert n * excess == u * u + d * q;
    assert u * u >= 0.0;
    NonZeroSquare(d, da, q);
    NonZeroSquare(n, db, r);
    if da == 0.0 {
      assert excess == n * r;
    }
  }

  /** The line with slope s and intercept t solves the normal equations. */
  ghost predicate Solves(n: real, x: real, xx: real, y: real, xy: real, s: real, t: real) {
    n * t + s * x == y && s * xx + t * x == xy
  }

  lemma Best(yy: real, xy: real, y: real, xx: real, x: real, n: real, d: real, s: real, t: real, a: real, b: real)
    requires n > 0.0 && d > 0.0 && d == Discriminant(n, x, xx) && Solves(n, x, xx, y, xy, s, t)
    ensures Expanded(yy, xy, y, xx, x, n, s, t) <= Expanded(yy, xy, y, xx, x, n, a, b)
    ensures Expanded(yy, xy, y, xx, x, n, s, t) == Expanded(yy, xy, y, xx, x, n, a, b) ==> a == s && b == t
  {
    ExcessError(yy, xy, y, xx, x, n, s, t, a, b);
    ExcessPositive(xx, x, n, d, a - s, b - t,
                   Expanded(yy, xy, y, xx, x, n, a, b) - Expanded(yy, xy, y, xx, x, n, s, t));
  }

  function MeanIntercept(n: real, x: real, y: real, s: real): real
    requires n != 0.0
  {
    (y - s * x) / n
  }

  /** The intercept that goes with the computed slope. */
  function Intercept(w: seq<real>): real
    requires w != [] && Denom(|w|) != 0
  {
    MeanIntercept(|w| as real, SumX(|w|) as real, Sum(w), Slope(w))
  }

  lemma NormalEquations(n: real, x: real, xx: real, y: real, xy: real, d: real, s: real, t: real)
    requires n > 0.0 && d != 0.0 && d == Discriminant(n, x, xx)
    requires s == Cramer(n, x, y, xy, d) && t == MeanIntercept(n, x, y, s)
    ensures Solves(n, x, xx, y, xy, s, t)
  {
    assert s * d == n * xy - x * y;
    assert n * t == y - s * x;
    assert n * (s * xx + t * x - xy) == s * (n * xx - x * x) + x * y - n * xy;
  }

  lemma CastProduct(i: int, j: int)
    ensures (i * j) as real == i as real * j as real
  {
  }

  lemma DenomCast(k: nat, n: real, x: real, xx: real, d: real)
    requires n == k as real && x == SumX(k) as real && xx == SumXX(k) as real && d == Denom(k) as real
    ensures d == Discriminant(n, x, xx)
  {
    CastProduct(k, SumXX(k));
    CastProduct(SumX(k), SumX(k));
  }

  /** The computed slope is the least-squares slope: no line has a smaller squared error over the window, and
      only the fitted line attains it. */
  lemma LeastSquares(w: seq<real>, a: real, b: real)
    requires |w| >= 2 && Denom(|w|) != 0
    ensures SquaredError(w, Slope(w), Intercept(w)) <= SquaredError(w, a, b)
    ensures SquaredError(w, a, b) == SquaredError(w, Slope(w), Intercept(w)) ==> a == Slope(w) && b == Intercept(w)
  {
    var n, x, xx, d := |w| as real, SumX(|w|) as real, SumXX(|w|) as real, Denom(|w|) as real;
    var s, t := Slope(w), Intercept(w);
    DenomClosedForm(|w|);
    DenomCast(|w|, n, x, xx, d);
    NormalEquations(n, x, xx, Sum(w), SumXY(w), d, s, t);
    ErrorExpanded(w, a, b);
    ErrorExpanded(w, s, t);
    Best(SumYY(w), SumXY(w), Sum(w), xx, x, n, d, s, t, a, b);
  }

  // ----- comparable across price levels -----

  ghost predicate Scaled(c: real, s: real, t: real) {
    t == c * s
  }

  lemma ScaledSum(c: real, s: real, t: real, x: real, k: real)
    requires Scaled(c, s, t)
    ensures Scaled(c, s + k * x, t + k * (c * x + 0.0))
  {
    assert k * (c * x) == c * (k * x);
    Distribute(c, s, k * x);
  }

  lemma {:induction false} SumScaled(w: seq<real>, v: seq<real>, c: real)
    requires v == Affine(w, c, 0.0)
    ensures Scaled(c, Sum(w), Sum(v))
    decreases |w|
  {
    if w != [] {
      var m := |w| - 1;
      AffinePrefix(w, m, c, 0.0);
      SumScaled(w[..m], v[..m], c);
      ScaledSum(c, Sum(w[..m]), Sum(v[..m]), w[m], 1.0);
    }
  }

  lemma {:induction false} SumXYScaled(w: seq<real>, v: seq<real>, c: real)
    requires v == Affine(w, c, 0.0)
    ensures Scaled(c, SumXY(w), SumXY(v))
    decreases |w|
  {
    if w != [] {
      var m := |w| - 1;
      AffinePrefix(w, m, c, 0.0);
      SumXYScaled(w[..m], v[..m], c);
      ScaledSum(c, SumXY(w[..m]), SumXY(v[..m]), w[m], m as real);
    }
  }

  lemma QuotientIs(p: real, d: real, q: real)
    requires d != 0.0 && p == q * d
    ensures p / d == q
  {
  }

  lemma CramerScaled(n: real, x: real, y: real, xy: real, d: real, c: real, y': real, xy': real)
    requires d != 0.0 && Scaled(c, y, y') && Scaled(c, xy, xy')
    ensures Scaled(c, Cramer(n, x, y, xy, d), Cramer(n, x, y', xy', d))
  {
    var s := Cramer(n, x, y, xy, d);
    assert s * d == n * xy - x * y;
    assert n * (c * xy) - x * (c * y) == c * (n * xy - x * y);
    assert c * (s * d) == (c * s) * d;
    QuotientIs(n * xy' - x * y', d, c * s);
  }

  lemma QuotientScaled(s: real, t: real, c: real, d: real)
    requires d > 0.0 && Scaled(c, s, t)
    ensures Scaled(c, s / d, t / d)
  {
    var m := s / d;
    assert m * d == s;
    assert c * (m * d) == (c * m) * d;
    QuotientIs(t, d, c * m);
  }

  lemma RatioScaled(s: real, m: real, c: real, s': real, m': real)
    requires c != 0.0 && Scaled(c, s, s') && Scaled(c, m, m')
    ensures Normal(s', m') == Normal(s, m)
  {
    if m != 0.0 {
      var q := s / m;
      assert q * m == s;
      assert c * (q * m) == q * (c * m);
      QuotientIs(s', m', q);
    }
  }

  /** Quoting the prices in another unit leaves the normalised slope unchanged. */
  lemma SlopeUnitFree(p: seq<real>, n: nat, c: real)
    requires 1 <= n <= |p| && c != 0.0
    ensures SlopeLast(Affine(p, c, 0.0), n) == SlopeLast(p, n)
  {
    if Denom(n) != 0 {
      var w, k := p[|p| - n..], n as real;
      AffineSuffix(p, |p| - n, c, 0.0);
      var v := Affine(w, c, 0.0);
      SumScaled(w, v, c);
      SumXYScaled(w, v, c);
      CramerScaled(k, SumX(n) as real, Sum(w), SumXY(w), Denom(n) as real, c, Sum(v), SumXY(v));
      QuotientScaled(Sum(w), Sum(v), c, k);
      RatioScaled(Slope(w), Sum(w) / k, c, Slope(v), Sum(v) / k);
    }
  }
}
