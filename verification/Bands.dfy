/** rollingStdDev and bollingerBands of packages/indicators/src/series.ts; the square root is a parameter. */
module Bands {
  import opened Wrappers
  import opened Series
  import opened MovingAverages

  /** root is the nonnegative square root. */
  ghost predicate IsRoot(root: real -> real) {
    forall x: real | x >= 0.0 :: root(x) >= 0.0 && Square(root(x)) == x
  }

  function Square(z: real): real {
    z * z
  }

  function Squares(w: seq<real>, mean: real): real {
    if w == [] then 0.0 else Squares(w[..|w| - 1], mean) + Square(w[|w| - 1] - mean)
  }

  function Mean(w: seq<real>): real
    requires w != []
  {
    Sum(w) / |w| as real
  }

  /** The population variance of a window. */
  function Variance(w: seq<real>): real
    requires w != []
  {
    Squares(w, Mean(w)) / |w| as real
  }

  function DevWithin(p: seq<real>, n: nat, root: real -> real): Option<real>
    requires n >= 1
  {
    if |p| < n then None else Some(root(Variance(p[|p| - n..])))
  }

  function Lifted(x: Option<real>): Option<Number> {
    if x.None? then None else Some(Finite(x.value))
  }

  /** A period of zero divides zero by zero, and a negative one takes the root of zero. */
  function DevLast(p: seq<real>, n: int, root: real -> real): Option<Number> {
    if n == 0 then Some(NotANumber) else if n < 0 then Some(Finite(root(0.0))) else Lifted(DevWithin(p, n, root))
  }

  function DevOf(n: int, root: real -> real): seq<real> -> Option<Number> {
    p => DevLast(p, n, root)
  }

  /** The first inner loop. */
  method Total(w: seq<real>) returns (sum: real)
    ensures sum == Sum(w)
  {
    sum := 0.0;
    var j := 0;
    while j < |w|
      invariant 0 <= j <= |w| && sum == Sum(w[..j])
    {
      assert w[..j + 1][..j] == w[..j];
      sum := sum + w[j];
      j := j + 1;
    }
    assert w[..j] == w;
  }

  /** The second inner loop. */
  method TotalSquares(w: seq<real>, mean: real) returns (sq: real)
    ensures sq == Squares(w, mean)
  {
    sq := 0.0;
    var j := 0;
    while j < |w|
      invariant 0 <= j <= |w| && sq == Squares(w[..j], mean)
    {
      assert w[..j + 1][..j] == w[..j];
      sq := sq + Square(w[j] - mean);
      j := j + 1;
    }
    assert w[..j] == w;
  }

  method RollingStdDev(values: seq<real>, period: int, root: real -> real) returns (out: seq<Option<Number>>)
    ensures Causal(DevOf(period, root), values, out)
  {
    if period < 1 {
      return seq(|values|, _ => Some(if period == 0 then NotANumber else Finite(root(0.0))));
    }
    out := Nulls(|values|);
    var i := period - 1;
    while i < |values|
      invariant period - 1 <= i && |out| == |values|
      invariant forall j | 0 <= j < i && j < |values| :: out[j] == DevLast(values[..j + 1], period, root)
      invariant forall j | i <= j < |values| :: out[j].None?
    {
      var w := values[i - period + 1..i + 1];
      var sum := Total(w);
      var sq := TotalSquares(w, sum / period as real);
      assert values[..i + 1][i + 1 - period..] == w;
      out := out[i := Some(Finite(root(sq / period as real)))];
      i := i + 1;
    }
  }

  datatype Band = Band(upper: real, middle: real, lower: real, width: real)

  function BandFrom(m: Option<real>, s: Option<real>, k: real): Option<Band> {
    if m.None? || s.None? || m.value == 0.0 then None
    else
      var upper := m.value + k * s.value;
      var lower := m.value - k * s.value;
      Some(Band(upper, m.value, lower, (upper - lower) / m.value))
  }

  function BandOf(n: nat, k: real, root: real -> real): seq<real> -> Option<Band>
    requires n >= 1
  {
    p => BandFrom(SmaLast(p, n), DevWithin(p, n, root), k)
  }

  function Lowered(x: Option<Number>): Option<real> {
    if x.Some? && x.value.Finite? then Some(x.value.value) else None
  }

  method BollingerBands(values: seq<real>, period: int, multiplier: real, root: real -> real)
    returns (r: Result<seq<Option<Band>>>)
    ensures r.Throws? <==> period < 1
    ensures r.Ok? ==> Causal(BandOf(period, multiplier, root), values, r.value)
  {
    var middle := Sma(values, period);
    if middle.Throws? {
      return Throws(middle.message);
    }
    var sd := RollingStdDev(values, period, root);
    var ms := middle.value;
    assert forall i | 0 <= i < |values| :: sd[i] == DevOf(period, root)(values[..i + 1]);
    var out := seq(|values|, i requires 0 <= i < |values| => BandFrom(ms[i], Lowered(sd[i]), multiplier));
    forall i | 0 <= i < |values| ensures out[i] == BandOf(period, multiplier, root)(values[..i + 1]) {
      assert ms[i] == SmaOf(period)(values[..i + 1]) && sd[i] == DevOf(period, root)(values[..i + 1]);
    }
    return Ok(out);
  }

  // ----- what the spread measures -----

  lemma SquareNonNegative(z: real)
    ensures Square(z) >= 0.0 && (Square(z) == 0.0 <==> z == 0.0)
  {
    if z != 0.0 {
      PositiveProduct(z, z, Square(z));
    }
  }

  lemma {:induction false} SquaresZero(w: seq<real>, mean: real)
    ensures Squares(w, mean) >= 0.0
    ensures Squares(w, mean) == 0.0 <==> forall k | 0 <= k < |w| :: w[k] == mean
  {
    if w != [] {
      var init := w[..|w| - 1];
      SquaresZero(init, mean);
      SquareNonNegative(w[|w| - 1] - mean);
      assert w == init + [w[|w| - 1]];
    }
  }

  lemma QuotientSign(s: real, n: real)
    requires n > 0.0 && s >= 0.0
    ensures s / n >= 0.0 && (s / n == 0.0 <==> s == 0.0)
  {
    assert s / n * n == s;
  }

  /** The variance is never negative, so the root is always taken of a legal value, and it is zero exactly when the
      window is flat. */
  lemma VarianceZeroExactlyFlat(w: seq<real>)
    requires w != []
    ensures Variance(w) >= 0.0
    ensures Variance(w) == 0.0 <==> forall k | 0 <= k < |w| :: w[k] == Mean(w)
  {
    SquaresZero(w, Mean(w));
    QuotientSign(Squares(w, Mean(w)), |w| as real);
  }

  lemma SquareOfProduct(k: real, s: real)
    ensures Square(k * s) == Square(k) * Square(s)
  {
    assert (k * s) * (k * s) == k * (s * (k * s));
    assert s * (k * s) == k * (s * s);
  }

  /** The bands are symmetric about the middle, and with a nonnegative multiplier they are in order. */
  lemma BandsSymmetric(p: seq<real>, n: nat, k: real, root: real -> real, b: Band)
    requires n >= 1 && k >= 0.0 && IsRoot(root) && BandOf(n, k, root)(p) == Some(b)
    ensures b.upper + b.lower == 2.0 * b.middle && b.lower <= b.middle <= b.upper
    ensures b.middle == Mean(p[|p| - n..])
    ensures Square(b.upper - b.middle) == Square(k) * Variance(p[|p| - n..])
  {
    var w := p[|p| - n..];
    VarianceZeroExactlyFlat(w);
    var s := root(Variance(w));
    Products(k, s);
    SquareOfProduct(k, s);
  }

  lemma RootZero(s: real, v: real)
    requires Square(s) == v
    ensures s == 0.0 <==> v == 0.0
  {
    SquareNonNegative(s);
  }

  lemma ScaledZero(k: real, s: real)
    requires k > 0.0
    ensures k * s == 0.0 <==> s == 0.0
  {
  }

  /** The bands collapse onto the middle exactly when the window is flat. */
  lemma BandsCollapseExactly(p: seq<real>, n: nat, k: real, root: real -> real, b: Band)
    requires n >= 1 && k > 0.0 && IsRoot(root) && BandOf(n, k, root)(p) == Some(b)
    ensures b.upper == b.lower <==> forall i | |p| - n <= i < |p| :: p[i] == b.middle
  {
    var w := p[|p| - n..];
    VarianceZeroExactlyFlat(w);
    RootZero(root(Variance(w)), Variance(w));
    ScaledZero(k, root(Variance(w)));
    Shifted(p, w, Mean(w));
  }

  lemma Shifted(p: seq<real>, w: seq<real>, x: real)
    requires |w| <= |p| && w == p[|p| - |w|..]
    ensures (forall i | 0 <= i < |w| :: w[i] == x) <==> (forall i | |p| - |w| <= i < |p| :: p[i] == x)
  {
    if forall i | 0 <= i < |w| :: w[i] == x {
      forall i | |p| - |w| <= i < |p| ensures p[i] == x {
        assert w[i - (|p| - |w|)] == x;
      }
    }
  }

  // ----- another formula, and the width -----

  function SumSquares(w: seq<real>): real {
    if w == [] then 0.0 else SumSquares(w[..|w| - 1]) + Square(w[|w| - 1])
  }

  /** z is the sum of the squared distances from m of d values with sum s and sum of squares q; v is m squared. */
  ghost predicate Expansion(z: real, q: real, s: real, d: real, m: real, v: real) {
    z == q - 2.0 * m * s + d * v
  }

  lemma ExpandNext(z: real, q: real, s: real, d: real, m: real, v: real, x: real)
    requires v == Square(m) && Expansion(z, q, s, d, m, v)
    ensures Expansion(z + Square(x - m), q + Square(x), s + x, d + 1.0, m, v)
  {
    Distribute(2.0 * m, s, x);
  }

  lemma {:induction false} SquaresExpanded(w: seq<real>, m: real, d: real)
    requires d == |w| as real
    ensures Expansion(Squares(w, m), SumSquares(w), Sum(w), d, m, Square(m))
    decreases |w|
  {
    if w != [] {
      var init, x := w[..|w| - 1], w[|w| - 1];
      SquaresExpanded(init, m, d - 1.0);
      ExpandNext(Squares(init, m), SumSquares(init), Sum(init), d - 1.0, m, Square(m), x);
    }
  }

  lemma AboutTheMean(z: real, q: real, s: real, d: real, m: real, v: real)
    requires d > 0.0 && m == s / d && v == Square(m) && Expansion(z, q, s, d, m, v)
    ensures z == q - d * v
  {
    assert m * d == s;
    assert m * s == m * (m * d);
    assert m * (m * d) == d * v;
  }

  lemma QuotientLess(z: real, q: real, d: real, v: real)
    requires d > 0.0 && z == q - d * v
    ensures z / d == q / d - v
  {
    assert (q / d - v) * d == z;
  }

  /** v is the variance from the sum of squares q of d values, with m2 their squared mean. */
  ghost predicate MeanSquareLess(v: real, q: real, d: real, m2: real) {
    d != 0.0 && v == q / d - m2
  }

  lemma MeanSquareFrom(z: real, q: real, s: real, d: real, m: real, v: real)
    requires d > 0.0 && m == s / d && v == Square(m) && Expansion(z, q, s, d, m, v)
    ensures MeanSquareLess(z / d, q, d, v)
  {
    AboutTheMean(z, q, s, d, m, v);
    QuotientLess(z, q, d, v);
  }

  /** The variance is the mean square less the square of the mean. */
  lemma VarianceIsMeanSquare(w: seq<real>, d: real, m: real)
    requires w != [] && d == |w| as real && m == Mean(w)
    ensures MeanSquareLess(Variance(w), SumSquares(w), d, Square(m))
  {
    SquaresExpanded(w, m, d);
    MeanSquareFrom(Squares(w, m), SumSquares(w), Sum(w), d, m, Square(m));
  }

  /** There is a band exactly when the window is full and its mean is not zero, and its width is the distance of its
      walls relative to that mean. */
  lemma BandWidth(p: seq<real>, n: nat, k: real, root: real -> real)
    requires n >= 1
    ensures BandOf(n, k, root)(p).None? <==> |p| < n || Mean(p[|p| - n..]) == 0.0
    ensures BandOf(n, k, root)(p).Some? ==> var b := BandOf(n, k, root)(p).value;
                                            b.width * b.middle == b.upper - b.lower
  {
  }
}
