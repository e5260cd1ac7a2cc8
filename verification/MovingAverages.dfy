/** sma, ema and macd of packages/indicators/src/series.ts, over the reals. */
module MovingAverages {
  import opened Wrappers
  import opened Series

  // ----- sma -----

  /** The mean of the last n values. */
  function SmaLast(p: seq<real>, n: nat): Option<real>
    requires n >= 1
  {
    if |p| < n then None else Some(Sum(p[|p| - n..]) / n as real)
  }

  function SmaOf(n: nat): seq<real> -> Option<real>
    requires n >= 1
  {
    p => SmaLast(p, n)
  }

  /** The values the running sum holds before index i is added. */
  function Window(values: seq<real>, i: nat, n: nat): seq<real>
    requires i <= |values|
  {
    values[if i < n then 0 else i - n..i]
  }

  /** Adding a value and dropping the oldest slides the window by one. */
  lemma WindowSlides(values: seq<real>, i: nat, n: nat)
    requires i < |values| && n >= 1
    ensures Sum(Window(values, i + 1, n))
            == Sum(Window(values, i, n)) + values[i] - (if i >= n then values[i - n] else 0.0)
  {
    var w := Window(values, i, n);
    SumPush(w, values[i]);
    if i >= n {
      SumHead(w + [values[i]]);
      assert Window(values, i + 1, n) == (w + [values[i]])[1..];
    } else {
      assert Window(values, i + 1, n) == w + [values[i]];
    }
  }

  lemma WindowIsTail(values: seq<real>, i: nat, n: nat)
    requires i < |values| && 1 <= n <= i + 1
    ensures SmaLast(values[..i + 1], n) == Some(Sum(Window(values, i + 1, n)) / n as real)
  {
    assert values[..i + 1][i + 1 - n..] == Window(values, i + 1, n);
  }

  /** The running sum loop. */
  method Sma(values: seq<real>, period: int) returns (r: Result<seq<Option<real>>>)
    ensures r.Throws? <==> period < 1
    ensures r.Ok? ==> Causal(SmaOf(period), values, r.value)
  {
    if period < 1 {
      return Throws("SMA period must be >= 1");
    }
    var out: seq<Option<real>> := Nulls(|values|);
    var sum := 0.0;
    var i := 0;
    while i < |values|
      invariant 0 <= i <= |values|
      invariant sum == Sum(Window(values, i, period))
      invariant Filled(SmaOf(period), values, out, i)
    {
      WindowSlides(values, i, period);
      sum := sum + values[i];
      if i >= period {
        sum := sum - values[i - period];
      }
      if i >= period - 1 {
        WindowIsTail(values, i, period);
        out := out[i := Some(sum / period as real)];
      }
      i := i + 1;
    }
    return Ok(out);
  }

  // ----- ema -----

  function Weight(n: nat): real {
    2.0 / (n + 1) as real
  }

  /** The exponential average of a prefix: the mean of the first n values, then the recurrence. */
  function Ema(p: seq<real>, n: nat): real
    requires 1 <= n <= |p|
  {
    if |p| == n then Sum(p) / n as real
    else p[|p| - 1] * Weight(n) + Ema(p[..|p| - 1], n) * (1.0 - Weight(n))
  }

  function EmaLast(p: seq<real>, n: nat): Option<real>
    requires n >= 1
  {
    if |p| < n then None else Some(Ema(p, n))
  }

  function EmaOf(n: nat): seq<real> -> Option<real>
    requires n >= 1
  {
    p => EmaLast(p, n)
  }

  method EmaSeries(values: seq<real>, period: int) returns (r: Result<seq<Option<real>>>)
    ensures r.Throws? <==> period < 1
    ensures r.Ok? ==> Causal(EmaOf(period), values, r.value)
  {
    if period < 1 {
      return Throws("EMA period must be >= 1");
    }
    var out: seq<Option<real>> := Nulls(|values|);
    var k := 2.0 / (period + 1) as real;
    var prev: Option<real> := None;
    var seedSum := 0.0;
    var i := 0;
    while i < |values|
      invariant 0 <= i <= |values|
      invariant prev == EmaLast(values[..i], period)
      invariant prev.None? ==> seedSum == Sum(values[..i])
      invariant Filled(EmaOf(period), values, out, i)
    {
      var v := values[i];
      assert values[..i + 1] == values[..i] + [v];
      assert values[..i + 1][..i] == values[..i];
      if prev.None? {
        SumPush(values[..i], v);
        seedSum := seedSum + v;
        if i == period - 1 {
          prev := Some(seedSum / period as real);
          out := out[i := prev];
        }
      } else {
        prev := Some(v * k + prev.value * (1.0 - k));
        out := out[i := prev];
      }
      assert prev.Some? <==> i + 1 >= period;
      assert prev.Some? ==> prev.value == Ema(values[..i + 1], period);
      i := i + 1;
    }
    return Ok(out);
  }

  /** The ema is its seed smoothed by the later values. */
  lemma {:induction false} EmaIsSmooth(p: seq<real>, n: nat)
    requires 1 <= n <= |p|
    ensures Ema(p, n) == Smooth(Sum(p[..n]) / n as real, p[n..], Weight(n))
    decreases |p|
  {
    if |p| == n {
      assert p[..n] == p;
    } else {
      var init := p[..|p| - 1];
      EmaIsSmooth(init, n);
      assert init[..n] == p[..n] && p[n..] == init[n..] + [p[|p| - 1]];
      SmoothPush(Sum(p[..n]) / n as real, init[n..], p[|p| - 1], Weight(n));
    }
  }

  /** The ema's weight is in (0, 1]. */
  lemma WeightInUnit(n: nat)
    requires n >= 1
    ensures 0.0 < Weight(n) <= 1.0
  {
    var d := (n + 1) as real;
    assert 2.0 / d * d == 2.0;
    assert d >= 2.0;
  }

  /** The ema never leaves the range of the values seen so far. */
  lemma EmaWithin(p: seq<real>, n: nat, lo: real, hi: real)
    requires 1 <= n <= |p| && Within(p, lo, hi)
    ensures lo <= Ema(p, n) <= hi
  {
    EmaIsSmooth(p, n);
    MeanWithin(p[..n], lo, hi);
    WeightInUnit(n);
    SmoothWithin(Sum(p[..n]) / n as real, p[n..], Weight(n), lo, hi);
  }

  lemma AffineParts(p: seq<real>, q: seq<real>, n: nat, a: real, b: real)
    requires n <= |p| && q == Affine(p, a, b)
    ensures q[..n] == Affine(p[..n], a, b) && q[n..] == Affine(p[n..], a, b)
  {
    AffinePrefix(p, n, a, b);
    AffineSuffix(p, n, a, b);
  }

  /** Scaling and shifting the prices scales and shifts the ema. */
  lemma EmaAffine(p: seq<real>, q: seq<real>, n: nat, a: real, b: real, e: real)
    requires 1 <= n <= |p| && q == Affine(p, a, b) && e == Ema(p, n)
    ensures Ema(q, n) == a * e + b
  {
    AffineParts(p, q, n, a, b);
    var s, t, d := Sum(p[..n]), Sum(q[..n]), n as real;
    SumAffine(p[..n], q[..n], a, b, s, t, d);
    var seed, seed' := s / d, t / d;
    MeanAffine(s, t, d, a, b, seed);
    EmaIsSmooth(p, n);
    SmoothAffine(seed, seed', p[n..], Weight(n), a, b, e);
    EmaIsSmooth(q, n);
  }

  // ----- macd -----

  datatype MacdPoint = MacdPoint(macd: real, signal: real, histogram: real)

  function Longer(fast: nat, slow: nat): nat {
    if fast > slow then fast else slow
  }

  /** The defined part of the fast-minus-slow line of a prefix. */
  function MacdLine(p: seq<real>, fast: nat, slow: nat): (line: seq<real>)
    requires fast >= 1 && slow >= 1
    ensures var m := Longer(fast, slow); |line| == if |p| < m then 0 else |p| - m + 1
  {
    var m := Longer(fast, slow);
    if |p| < m then [] else MacdLine(p[..|p| - 1], fast, slow) + [Ema(p, fast) - Ema(p, slow)]
  }

  function PointFrom(m: real, signal: Option<real>): Option<MacdPoint> {
    if signal.None? then None else Some(MacdPoint(m, signal.value, m - signal.value))
  }

  function MacdLast(p: seq<real>, fast: nat, slow: nat, signal: nat): Option<MacdPoint>
    requires fast >= 1 && slow >= 1 && signal >= 1
  {
    var line := MacdLine(p, fast, slow);
    if line == [] then None else PointFrom(line[|line| - 1], EmaLast(line, signal))
  }

  function MacdOf(fast: nat, slow: nat, signal: nat): seq<real> -> Option<MacdPoint>
    requires fast >= 1 && slow >= 1 && signal >= 1
  {
    p => MacdLast(p, fast, slow, signal)
  }

  /** The line of a shorter prefix is a prefix of the line. */
  lemma {:induction false} MacdLinePrefix(p: seq<real>, n: nat, fast: nat, slow: nat)
    requires fast >= 1 && slow >= 1 && n <= |p|
    ensures MacdLine(p[..n], fast, slow) == MacdLine(p, fast, slow)[..|MacdLine(p[..n], fast, slow)|]
    decreases |p|
  {
    if n == |p| {
      assert p[..n] == p;
    } else if |p| >= Longer(fast, slow) {
      assert p[..|p| - 1][..n] == p[..n];
      MacdLinePrefix(p[..|p| - 1], n, fast, slow);
    }
  }

  /** Index k of the defined part of the macd line. */
  lemma {:induction false} MacdLineAt(values: seq<real>, fast: nat, slow: nat, k: nat)
    requires fast >= 1 && slow >= 1 && k < |MacdLine(values, fast, slow)|
    ensures var p := values[..Longer(fast, slow) + k];
            MacdLine(values, fast, slow)[k] == Ema(p, fast) - Ema(p, slow)
    decreases |values|
  {
    var n := Longer(fast, slow) + k;
    if n == |values| {
      assert values[..n] == values;
    } else {
      assert values[..|values| - 1][..n] == values[..n];
      MacdLineAt(values[..|values| - 1], fast, slow, k);
    }
  }

  /** The pairwise difference of two aligned series, null where either is. */
  method Difference(fast: seq<Option<real>>, slow: seq<Option<real>>) returns (line: seq<Option<real>>)
    requires |fast| == |slow|
    ensures |line| == |fast|
    ensures forall i | 0 <= i < |fast| ::
              line[i] == if fast[i].Some? && slow[i].Some? then Some(fast[i].value - slow[i].value) else None
  {
    line := [];
    for i := 0 to |fast|
      invariant |line| == i
      invariant forall j | 0 <= j < i ::
                  line[j] == if fast[j].Some? && slow[j].Some? then Some(fast[j].value - slow[j].value) else None
    {
      line := line + [if fast[i].Some? && slow[i].Some? then Some(fast[i].value - slow[i].value) else None];
    }
  }

  /** The values of a series from its first non-null index on; the source slices and casts. */
  method Compact(line: seq<Option<real>>) returns (firstIdx: nat, compact: seq<real>)
    requires forall i, j | 0 <= i < j < |line| :: line[i].Some? ==> line[j].Some?
    ensures firstIdx <= |line| && |compact| == |line| - firstIdx
    ensures forall i | 0 <= i < firstIdx :: line[i].None?
    ensures forall i | firstIdx <= i < |line| :: line[i] == Some(compact[i - firstIdx])
  {
    firstIdx := 0;
    while firstIdx < |line| && line[firstIdx].None?
      invariant firstIdx <= |line| && forall i | 0 <= i < firstIdx :: line[i].None?
    {
      firstIdx := firstIdx + 1;
    }
    compact := [];
    var i := firstIdx;
    while i < |line|
      invariant firstIdx <= i <= |line| && |compact| == i - firstIdx
      invariant forall j | firstIdx <= j < i :: line[j] == Some(compact[j - firstIdx])
    {
      compact := compact + [line[i].value];
      i := i + 1;
    }
  }

  /** Difference and compaction together yield the defined part of the macd line. */
  method CompactMacd(values: seq<real>, fast: seq<Option<real>>, slow: seq<Option<real>>, ghost f: nat, ghost s: nat)
    returns (compact: seq<real>)
    requires f >= 1 && s >= 1 && Causal(EmaOf(f), values, fast) && Causal(EmaOf(s), values, slow)
    ensures compact == MacdLine(values, f, s)
  {
    ghost var m := Longer(f, s);
    var macdLine := Difference(fast, slow);
    assert forall i | 0 <= i < |values| :: macdLine[i].Some? <==> i + 1 >= m;
    var firstIdx;
    firstIdx, compact := Compact(macdLine);
    assert firstIdx < |values| ==> macdLine[firstIdx].Some?;
    assert m - 1 < |values| ==> firstIdx <= m - 1 by {
      assert m - 1 < |values| ==> macdLine[m - 1].Some?;
    }
    forall k | 0 <= k < |compact| ensures compact[k] == MacdLine(values, f, s)[k] {
      MacdLineAt(values, f, s, k);
      assert macdLine[m - 1 + k] == Some(compact[k]);
      assert fast[m - 1 + k] == EmaOf(f)(values[..m + k]) && slow[m - 1 + k] == EmaOf(s)(values[..m + k]);
    }
  }

  lemma RealignedIsNulls(values: seq<real>, fast: nat, slow: nat, signal: int)
    requires fast >= 1 && slow >= 1 && MacdLine(values, fast, slow) == []
    ensures signal >= 1 ==> Causal(MacdOf(fast, slow, signal), values, Nulls(|values|))
  {
    if signal >= 1 {
      forall j | 0 <= j < |values|
        ensures Nulls<MacdPoint>(|values|)[j] == MacdOf(fast, slow, signal)(values[..j + 1])
      {
        BeforeLine(values[..j + 1], fast, slow, signal);
      }
    }
  }

  /** The signal line is an ema over the compacted macd line, re-aligned to the input. */
  method Macd(values: seq<real>, fastPeriod: int, slowPeriod: int, signalPeriod: int)
    returns (r: Result<seq<Option<MacdPoint>>>)
    ensures r.Throws? <==> fastPeriod < 1 || slowPeriod < 1
                           || (signalPeriod < 1 && |values| >= fastPeriod && |values| >= slowPeriod)
    ensures r.Ok? && signalPeriod >= 1 ==> Causal(MacdOf(fastPeriod, slowPeriod, signalPeriod), values, r.value)
    ensures r.Ok? && signalPeriod < 1 ==> r.value == Nulls(|values|)
  {
    var fast := EmaSeries(values, fastPeriod);
    if fast.Throws? {
      return Throws(fast.message);
    }
    var slow := EmaSeries(values, slowPeriod);
    if slow.Throws? {
      return Throws(slow.message);
    }
    var compact := CompactMacd(values, fast.value, slow.value, fastPeriod, slowPeriod);
    if compact == [] {
      RealignedIsNulls(values, fastPeriod, slowPeriod, signalPeriod);
      return Ok(Nulls(|values|));
    }
    var signal := EmaSeries(compact, signalPeriod);
    if signal.Throws? {
      return Throws(signal.message);
    }
    var out := Realign(|values|, compact, signal.value);
    RealignedIsCausal(values, fastPeriod, slowPeriod, signalPeriod, compact, signal.value, out);
    return Ok(out);
  }

  /** Prices that arrive later never change a macd point already given, through compaction and re-alignment. */
  method MacdOfBoth(values: seq<real>, n: nat, fast: nat, slow: nat, signal: nat)
    returns (long: seq<Option<MacdPoint>>, short: seq<Option<MacdPoint>>)
    requires n <= |values| && fast >= 1 && slow >= 1 && signal >= 1
    ensures Causal(MacdOf(fast, slow, signal), values, long) && short == long[..n]
  {
    var r := Macd(values, fast, slow, signal);
    var q := Macd(values[..n], fast, slow, signal);
    long, short := r.value, q.value;
    NoLookAhead(MacdOf(fast, slow, signal), values, n, long, short);
  }

  /** The macd point of a prefix that ends i values into the compacted line. */
  lemma PointAt(values: seq<real>, i: nat, fast: nat, slow: nat, signal: nat)
    requires fast >= 1 && slow >= 1 && signal >= 1
    requires i < |MacdLine(values, fast, slow)|
    ensures var line := MacdLine(values, fast, slow); var p := values[..|values| - |line| + i + 1];
            MacdLast(p, fast, slow, signal) == PointFrom(line[i], EmaLast(line[..i + 1], signal))
  {
    var line := MacdLine(values, fast, slow);
    MacdLinePrefix(values, |values| - |line| + i + 1, fast, slow);
    assert MacdLine(values[..|values| - |line| + i + 1], fast, slow) == line[..i + 1];
  }

  /** The loop that puts each signal value back at its index in the input. */
  method Realign(n: nat, compact: seq<real>, signal: seq<Option<real>>) returns (out: seq<Option<MacdPoint>>)
    requires |signal| == |compact| <= n
    ensures |out| == n
    ensures forall j | 0 <= j < n - |compact| :: out[j].None?
    ensures forall j | n - |compact| <= j < n ::
              out[j] == PointFrom(compact[j - (n - |compact|)], signal[j - (n - |compact|)])
  {
    var firstIdx := n - |compact|;
    out := Nulls(n);
    var i := 0;
    while i < |compact|
      invariant 0 <= i <= |compact| && |out| == n
      invariant forall j | 0 <= j < firstIdx || firstIdx + i <= j < n :: out[j].None?
      invariant forall j | firstIdx <= j < firstIdx + i ::
                  out[j] == PointFrom(compact[j - firstIdx], signal[j - firstIdx])
    {
      if signal[i].Some? {
        out := out[firstIdx + i := Some(MacdPoint(compact[i], signal[i].value, compact[i] - signal[i].value))];
      }
      i := i + 1;
    }
  }

  lemma RealignedIsCausal(values: seq<real>, fast: nat, slow: nat, signalPeriod: nat, compact: seq<real>,
                          signal: seq<Option<real>>, out: seq<Option<MacdPoint>>)
    requires fast >= 1 && slow >= 1 && signalPeriod >= 1
    requires compact == MacdLine(values, fast, slow) && Causal(EmaOf(signalPeriod), compact, signal)
    requires var n := |values|;
             && |out| == n
             && (forall j | 0 <= j < n - |compact| :: out[j].None?)
             && (forall j | n - |compact| <= j < n ::
                   out[j] == PointFrom(compact[j - (n - |compact|)], signal[j - (n - |compact|)]))
    ensures Causal(MacdOf(fast, slow, signalPeriod), values, out)
  {
    forall j | 0 <= j < |values| ensures out[j] == MacdOf(fast, slow, signalPeriod)(values[..j + 1]) {
      RealignedAt(values, fast, slow, signalPeriod, compact, signal, j);
    }
  }

  lemma RealignedAt(values: seq<real>, fast: nat, slow: nat, signalPeriod: nat, compact: seq<real>,
                    signal: seq<Option<real>>, j: nat)
    requires fast >= 1 && slow >= 1 && signalPeriod >= 1 && j < |values|
    requires compact == MacdLine(values, fast, slow) && Causal(EmaOf(signalPeriod), compact, signal)
    ensures var first := |values| - |compact|;
            MacdLast(values[..j + 1], fast, slow, signalPeriod)
            == if j < first then None else PointFrom(compact[j - first], signal[j - first])
  {
    var first := |values| - |compact|;
    if j >= first {
      var i := j - first;
      PointAt(values, i, fast, slow, signalPeriod);
      assert signal[i] == EmaOf(signalPeriod)(compact[..i + 1]);
    } else {
      BeforeLine(values[..j + 1], fast, slow, signalPeriod);
    }
  }

  lemma BeforeLine(p: seq<real>, fast: nat, slow: nat, signal: nat)
    requires fast >= 1 && slow >= 1 && signal >= 1 && |p| < Longer(fast, slow)
    ensures MacdLast(p, fast, slow, signal) == None
  {
  }
}
