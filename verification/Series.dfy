/**
 The library-wide contract of the indicator package: the output is aligned with the input, and each
 output value is computed from the input up to its own index.
 */
module Series {
  import opened Wrappers

  /** out[i] is f of the first i + 1 inputs, for every i. */
  ghost predicate Causal<A, B>(f: seq<A> -> B, xs: seq<A>, out: seq<B>) {
    |out| == |xs| && forall i | 0 <= i < |xs| :: out[i] == f(xs[..i + 1])
  }

  /** The first k outputs are in place and the rest are still null. */
  ghost predicate Filled<A, T>(f: seq<A> -> Option<T>, xs: seq<A>, out: seq<Option<T>>, k: nat) {
    && |out| == |xs| && k <= |xs|
    && (forall i | 0 <= i < k :: out[i] == f(xs[..i + 1]))
    && (forall i | k <= i < |xs| :: out[i].None?)
  }

  /** Storing the value of one more prefix; a null needs no store. */
  lemma FilledNext<A, T>(f: seq<A> -> Option<T>, xs: seq<A>, out: seq<Option<T>>, k: nat, v: Option<T>)
    requires k < |xs| && Filled(f, xs, out, k) && v == f(xs[..k + 1])
    ensures Filled(f, xs, out[k := v], k + 1)
    ensures v.None? ==> Filled(f, xs, out, k + 1)
  {
  }

  /** Adding future inputs never changes past outputs. */
  lemma NoLookAhead<A, B>(f: seq<A> -> B, xs: seq<A>, n: nat, long: seq<B>, short: seq<B>)
    requires n <= |xs| && Causal(f, xs, long) && Causal(f, xs[..n], short)
    ensures short == long[..n]
  {
    forall i | 0 <= i < n ensures short[i] == long[i] {
      assert xs[..n][..i + 1] == xs[..i + 1];
    }
  }

  /** A floating-point value where it matters that it need not be a real. */
  datatype Number = Finite(value: real) | PositiveInfinity | NegativeInfinity | NotANumber

  function Nulls<T>(n: nat): (out: seq<Option<T>>)
    ensures |out| == n && forall i | 0 <= i < n :: out[i].None?
  {
    seq(n, _ => None)
  }

  function Sum(xs: seq<real>): real {
    if xs == [] then 0.0 else Sum(xs[..|xs| - 1]) + xs[|xs| - 1]
  }

  lemma SumPush(xs: seq<real>, x: real)
    ensures Sum(xs + [x]) == Sum(xs) + x
  {
    assert (xs + [x])[..|xs|] == xs;
  }

  lemma {:induction false} SumHead(xs: seq<real>)
    requires xs != []
    ensures Sum(xs) == xs[0] + Sum(xs[1..])
  {
    if |xs| > 1 {
      var init := xs[..|xs| - 1];
      SumHead(init);
      assert init[1..] == xs[1..][..|xs| - 2];
    }
  }

  predicate Within(xs: seq<real>, lo: real, hi: real) {
    forall i | 0 <= i < |xs| :: lo <= xs[i] <= hi
  }

  lemma {:induction false} SumWithin(xs: seq<real>, lo: real, hi: real)
    requires Within(xs, lo, hi)
    ensures |xs| as real * lo <= Sum(xs) <= |xs| as real * hi
  {
    if xs != [] {
      SumWithin(xs[..|xs| - 1], lo, hi);
    }
  }

  lemma QuotientWithin(s: real, n: real, lo: real, hi: real)
    requires n > 0.0 && n * lo <= s <= n * hi
    ensures lo <= s / n <= hi
  {
    assert s / n - lo == (s - n * lo) / n;
    assert hi - s / n == (n * hi - s) / n;
  }

  /** A mean lies between the bounds of what it averages. */
  lemma MeanWithin(xs: seq<real>, lo: real, hi: real)
    requires xs != [] && Within(xs, lo, hi)
    ensures lo <= Sum(xs) / |xs| as real <= hi
  {
    SumWithin(xs, lo, hi);
    QuotientWithin(Sum(xs), |xs| as real, lo, hi);
  }

  /** Each value scaled and shifted. */
  function Affine(xs: seq<real>, a: real, b: real): (ys: seq<real>)
    ensures |ys| == |xs| && forall i | 0 <= i < |xs| :: ys[i] == a * xs[i] + b
  {
    seq(|xs|, i requires 0 <= i < |xs| => a * xs[i] + b)
  }

  lemma AffinePrefix(xs: seq<real>, n: nat, a: real, b: real)
    requires n <= |xs|
    ensures Affine(xs, a, b)[..n] == Affine(xs[..n], a, b)
  {
    forall i | 0 <= i < n ensures Affine(xs, a, b)[i] == Affine(xs[..n], a, b)[i] {
      assert xs[..n][i] == xs[i];
    }
  }

  lemma AffineSuffix(xs: seq<real>, n: nat, a: real, b: real)
    requires n <= |xs|
    ensures Affine(xs, a, b)[n..] == Affine(xs[n..], a, b)
  {
    forall i | 0 <= i < |xs| - n ensures Affine(xs, a, b)[n..][i] == Affine(xs[n..], a, b)[i] {
      assert xs[n..][i] == xs[n + i];
    }
  }

  lemma {:induction false} SumAffine(xs: seq<real>, ys: seq<real>, a: real, b: real, s: real, t: real, d: real)
    requires ys == Affine(xs, a, b) && s == Sum(xs) && t == Sum(ys) && d == |xs| as real
    ensures t == a * s + b * d
    decreases |xs|
  {
    if xs != [] {
      var init, last := xs[..|xs| - 1], xs[|xs| - 1];
      var u, v := Sum(init), Sum(ys[..|xs| - 1]);
      AffinePrefix(xs, |xs| - 1, a, b);
      SumAffine(init, ys[..|xs| - 1], a, b, u, v, d - 1.0);
      assert t == v + (a * last + b);
      Distribute(a, u, last);
      Distribute(b, d - 1.0, 1.0);
    }
  }

  /** The mean of scaled and shifted values, from the sums s and t. */
  lemma MeanAffine(s: real, t: real, d: real, a: real, b: real, m: real)
    requires d > 0.0 && m == s / d && t == a * s + b * d
    ensures t / d == a * m + b
  {
    assert s == m * d;
    assert a * (m * d) == (a * m) * d;
    assert t == (a * m + b) * d;
  }

  // ----- exponential smoothing -----

  /** A new value v blended into the running value y with weight k. */
  function Mix(v: real, y: real, k: real): real {
    v * k + y * (1.0 - k)
  }

  /** The running value after the seed and all of xs. */
  function Smooth(seed: real, xs: seq<real>, k: real): real {
    if xs == [] then seed else Mix(xs[|xs| - 1], Smooth(seed, xs[..|xs| - 1], k), k)
  }

  lemma SmoothPush(seed: real, xs: seq<real>, v: real, k: real)
    ensures Smooth(seed, xs + [v], k) == Mix(v, Smooth(seed, xs, k), k)
  {
    assert (xs + [v])[..|xs|] == xs;
  }

  lemma Products(x: real, y: real)
    requires x >= 0.0 && y >= 0.0
    ensures x * y >= 0.0
  {
  }

  lemma PositiveProduct(x: real, y: real, p: real)
    requires p == x * y && ((x > 0.0 && y > 0.0) || (x < 0.0 && y < 0.0))
    ensures p > 0.0
  {
  }

  lemma MixWithin(x: real, y: real, k: real, lo: real, hi: real)
    requires 0.0 <= k <= 1.0 && lo <= x <= hi && lo <= y <= hi
    ensures lo <= Mix(x, y, k) <= hi
  {
    var j := 1.0 - k;
    Products(x - lo, k);
    Products(y - lo, j);
    Products(hi - x, k);
    Products(hi - y, j);
    assert (x - lo) * k + (y - lo) * j == x * k + y * j - lo * (k + j);
    assert (hi - x) * k + (hi - y) * j == hi * (k + j) - (x * k + y * j);
  }

  /** Smoothing is a convex combination: it never leaves the range of its seed and inputs. */
  lemma {:induction false} SmoothWithin(seed: real, xs: seq<real>, k: real, lo: real, hi: real)
    requires 0.0 <= k <= 1.0 && lo <= seed <= hi && Within(xs, lo, hi)
    ensures lo <= Smooth(seed, xs, k) <= hi
  {
    if xs != [] {
      SmoothWithin(seed, xs[..|xs| - 1], k, lo, hi);
      MixWithin(xs[|xs| - 1], Smooth(seed, xs[..|xs| - 1], k), k, lo, hi);
    }
  }

  lemma Distribute(a: real, u: real, v: real)
    ensures a * (u + v) == a * u + a * v
  {
  }

  lemma MixAffine(x: real, y: real, k: real, a: real, b: real, z: real)
    requires z == Mix(x, y, k)
    ensures Mix(a * x + b, a * y + b, k) == a * z + b
  {
    var j := 1.0 - k;
    Distribute(a, x * k, y * j);
    assert a * (x * k) == (a * x) * k && a * (y * j) == (a * y) * j;
    assert (a * x + b) * k == (a * x) * k + b * k;
    assert (a * y + b) * j == (a * y) * j + b * j;
    assert b * k + b * j == b;
  }

  /** Smoothing commutes with scaling and shifting. */
  lemma {:induction false} SmoothAffine(seed: real, seed': real, xs: seq<real>, k: real, a: real, b: real, z: real)
    requires seed' == a * seed + b && z == Smooth(seed, xs, k)
    ensures Smooth(seed', Affine(xs, a, b), k) == a * z + b
    decreases |xs|
  {
    if xs != [] {
      var init := xs[..|xs| - 1];
      var y := Smooth(seed, init, k);
      AffinePrefix(xs, |xs| - 1, a, b);
      SmoothAffine(seed, seed', init, k, a, b, y);
      MixAffine(xs[|xs| - 1], y, k, a, b, z);
    }
  }
}
