/** Which way the rsi points: gains are rises, losses are falls, and its end values mean what they say. */
module RelativeStrength {
  import opened Wrappers
  import opened Series
  import opened Wilder

  lemma MovesLast(p: seq<real>, init: seq<real>, x: real, y: real)
    requires |p| > 1 && init == p[..|p| - 1] && x == p[|p| - 1] && y == p[|p| - 2]
    ensures Gains(p) == Gains(init) + [Up(x - y)] && Losses(p) == Losses(init) + [Up(y - x)]
  {
  }

  lemma SumsDiffer(gs: seq<real>, ls: seq<real>, d: real, u: real, v: real)
    requires u == Up(d) && v == Up(-d)
    ensures Sum(gs + [u]) - Sum(ls + [v]) == Sum(gs) - Sum(ls) + d
  {
    SumPush(gs, u);
    SumPush(ls, v);
  }

  lemma NetMoveNext(p: seq<real>, init: seq<real>, g: real, l: real, u: real, v: real)
    requires |p| > 1 && init == p[..|p| - 1]
    requires g == Sum(Gains(p)) && l == Sum(Losses(p)) && u == Sum(Gains(init)) && v == Sum(Losses(init))
    requires u - v == init[|init| - 1] - init[0]
    ensures g - l == p[|p| - 1] - p[0]
  {
    var x, y := p[|p| - 1], p[|p| - 2];
    MovesLast(p, init, x, y);
    SumsDiffer(Gains(init), Losses(init), x - y, Up(x - y), Up(y - x));
  }

  /** Gains are rises and losses are falls: over a series they differ by how far it moved. */
  lemma {:induction false} NetMove(p: seq<real>, g: real, l: real)
    requires p != [] && g == Sum(Gains(p)) && l == Sum(Losses(p))
    ensures g - l == p[|p| - 1] - p[0]
    decreases |p|
  {
    if |p| > 1 {
      var init := p[..|p| - 1];
      var u, v := Sum(Gains(init)), Sum(Losses(init));
      NetMove(init, u, v);
      NetMoveNext(p, init, g, l, u, v);
    }
  }

  predicate NeverFalls(p: seq<real>) {
    forall i | 1 <= i < |p| :: p[i] >= p[i - 1]
  }

  predicate AllZero(xs: seq<real>) {
    forall i | 0 <= i < |xs| :: xs[i] == 0.0
  }

  lemma AllZeroPush(xs: seq<real>, x: real)
    ensures AllZero(xs + [x]) <==> AllZero(xs) && x == 0.0
  {
    assert (xs + [x])[|xs|] == x;
    assert forall i | 0 <= i < |xs| :: (xs + [x])[i] == xs[i];
  }

  lemma {:induction false} NoLossExactly(p: seq<real>)
    ensures AllZero(Losses(p)) <==> NeverFalls(p)
  {
    if |p| > 1 {
      var init, last := p[..|p| - 1], |p| - 1;
      NoLossExactly(init);
      AllZeroPush(Losses(init), Up(p[last - 1] - p[last]));
      assert NeverFalls(p) <==> NeverFalls(init) && p[last] >= p[last - 1] by {
        assert forall i | 0 <= i < last :: init[i] == p[i];
      }
    }
  }

  lemma {:induction false} ZeroSum(xs: seq<real>)
    requires forall i | 0 <= i < |xs| :: xs[i] >= 0.0
    ensures Sum(xs) >= 0.0 && (Sum(xs) == 0.0 <==> AllZero(xs))
  {
    if xs != [] {
      var init, x := xs[..|xs| - 1], xs[|xs| - 1];
      ZeroSum(init);
      AllZeroPush(init, x);
      assert xs == init + [x];
    }
  }

  lemma QuotientIsZero(s: real, d: real)
    requires d > 0.0
    ensures s / d == 0.0 <==> s == 0.0
  {
    assert s / d * d == s;
  }

  lemma BlendZero(y: real, x: real, d: real)
    requires d >= 2.0 && y >= 0.0 && x >= 0.0
    ensures Blend(y, x, d) == 0.0 <==> y == 0.0 && x == 0.0
  {
    QuotientIsZero(y * (d - 1.0) + x, d);
    if y > 0.0 {
      PositiveProduct(y, d - 1.0, y * (d - 1.0));
    }
  }

  /** From a period of two on, Wilder's average forgets no move altogether. */
  lemma {:induction false} WilderZero(xs: seq<real>, n: nat)
    requires 2 <= n <= |xs| && forall i | 0 <= i < |xs| :: xs[i] >= 0.0
    ensures WilderAvg(xs, n) == 0.0 <==> AllZero(xs)
    decreases |xs|
  {
    if |xs| == n {
      ZeroSum(xs);
      QuotientIsZero(Sum(xs), n as real);
    } else {
      var init, x := xs[..|xs| - 1], xs[|xs| - 1];
      WilderZero(init, n);
      WilderNonNegative(init, n);
      BlendZero(WilderAvg(init, n), x, n as real);
      AllZeroPush(init, x);
      assert xs == init + [x];
    }
  }

  lemma ShareCompares(g: real, l: real, q: real)
    requires g >= 0.0 && l > 0.0 && q * (g + l) == 100.0 * g
    ensures q < 100.0 && (q > 50.0 <==> g > l) && (q == 0.0 <==> g == 0.0)
  {
    var w := g + l;
    if q >= 100.0 {
      Products(q - 100.0, w);
    }
    if q > 50.0 {
      PositiveProduct(q - 50.0, w, (q - 50.0) * w);
    } else {
      Products(50.0 - q, w);
    }
    if g == 0.0 {
      assert q * w == 0.0;
    }
  }

  /** Where the rsi stands, by its two averages. */
  lemma RsiCompares(g: real, l: real)
    requires g >= 0.0 && l >= 0.0
    ensures RsiValue(g, l) == 100.0 <==> l == 0.0
    ensures RsiValue(g, l) > 50.0 <==> g > l || l == 0.0
    ensures RsiValue(g, l) == 0.0 <==> g == 0.0 && l > 0.0
  {
    if l > 0.0 {
      RsiIsShare(g, l);
      QuotientNonNegative(100.0 * g, g + l);
      ShareCompares(g, l, RsiValue(g, l));
    }
  }

  /** The rsi is 100 exactly when no value so far fell below the one before it. */
  lemma RsiHundredExactly(p: seq<real>, n: nat)
    requires 2 <= n < |p|
    ensures RsiLast(p, n) == Some(100.0) <==> NeverFalls(p)
  {
    AveragesNonNegative(p, n);
    MovesNonNegative(p);
    RsiCompares(WilderAvg(Gains(p), n), WilderAvg(Losses(p), n));
    WilderZero(Losses(p), n);
    NoLossExactly(p);
  }

  /** It is 0 exactly when none rose above the one before it and some value fell. */
  lemma RsiZeroExactly(p: seq<real>, n: nat)
    requires 2 <= n < |p|
    ensures RsiLast(p, n) == Some(0.0) <==> NeverFalls(Negated(p)) && !NeverFalls(p)
  {
    AveragesNonNegative(p, n);
    MovesNonNegative(p);
    RsiCompares(WilderAvg(Gains(p), n), WilderAvg(Losses(p), n));
    WilderZero(Losses(p), n);
    WilderZero(Gains(p), n);
    NoLossExactly(p);
    NegatedSwapsMoves(p);
    NoLossExactly(Negated(p));
  }

  lemma QuotientsCompare(x: real, y: real, d: real)
    requires d > 0.0
    ensures x / d > y / d <==> x > y
  {
    assert x / d * d == x && y / d * d == y;
  }

  /** The first rsi is above 50 exactly when the price rose over the period, or never fell in it. */
  lemma FirstRsi(p: seq<real>, n: nat)
    requires n >= 1 && |p| == n + 1
    ensures RsiLast(p, n).Some?
    ensures RsiLast(p, n).value > 50.0 <==> p[n] > p[0] || NeverFalls(p)
  {
    AveragesNonNegative(p, n);
    MovesNonNegative(p);
    var g, l, d := Sum(Gains(p)), Sum(Losses(p)), n as real;
    NetMove(p, g, l);
    NoLossExactly(p);
    ZeroSum(Losses(p));
    QuotientsCompare(g, l, d);
    QuotientIsZero(l, d);
    RsiCompares(g / d, l / d);
  }
}
