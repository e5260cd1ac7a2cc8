/** True range, atr and adx of packages/indicators/src/candles.ts, over the reals. */
module Candles {
  import opened Wrappers
  import opened Series
  import opened Wilder

  datatype Candle = Candle(open: real, high: real, low: real, close: real)

  function Max(x: real, y: real): real {
    if x > y then x else y
  }

  function Min(x: real, y: real): real {
    if x < y then x else y
  }

  function Abs(x: real): real {
    if x < 0.0 then -x else x
  }

  /** Low, close and high are in order. */
  predicate Ordered(c: Candle) {
    c.low <= c.close <= c.high
  }

  // ----- true range -----

  function TrueRangeAt(cs: seq<Candle>, i: nat): real
    requires i < |cs|
  {
    if i == 0 then cs[0].high - cs[0].low
    else
      var prevClose := cs[i - 1].close;
      Max(Max(cs[i].high - cs[i].low, Abs(cs[i].high - prevClose)), Abs(cs[i].low - prevClose))
  }

  function TrueRanges(cs: seq<Candle>): (tr: seq<real>)
    ensures |tr| == |cs| && forall i | 0 <= i < |cs| :: tr[i] == TrueRangeAt(cs, i)
  {
    seq(|cs|, i requires 0 <= i < |cs| => TrueRangeAt(cs, i))
  }

  /** The true range spans the bar together with the previous close, if there is one. */
  lemma TrueRangeIsSpan(cs: seq<Candle>, i: nat)
    requires i < |cs| && cs[i].low <= cs[i].high
    ensures i == 0 ==> TrueRangeAt(cs, i) == cs[i].high - cs[i].low
    ensures i > 0 ==> var c := cs[i - 1].close; TrueRangeAt(cs, i) == Max(cs[i].high, c) - Min(cs[i].low, c)
  {
  }

  lemma TrueRangesPrefix(cs: seq<Candle>, n: nat)
    requires n <= |cs|
    ensures TrueRanges(cs[..n]) == TrueRanges(cs)[..n]
  {
    forall i | 0 <= i < n ensures TrueRanges(cs[..n])[i] == TrueRanges(cs)[i] {
      assert cs[..n][i] == cs[i];
    }
  }

  // ----- atr -----

  function AtrLast(p: seq<Candle>, n: int): Option<real> {
    if n < 1 || |p| < n then None else Some(WilderAvg(TrueRanges(p), n))
  }

  function AtrOf(n: int): seq<Candle> -> Option<real> {
    p => AtrLast(p, n)
  }

  method Atr(candles: seq<Candle>, period: int) returns (out: seq<Option<real>>)
    ensures Causal(AtrOf(period), candles, out)
  {
    var tr := TrueRanges(candles);
    out := Nulls(|candles|);
    var prev: Option<real> := None;
    var seed := 0.0;
    var i := 0;
    while i < |tr|
      invariant 0 <= i <= |candles|
      invariant prev == AtrLast(candles[..i], period)
      invariant prev.None? ==> seed == Sum(tr[..i])
      invariant Filled(AtrOf(period), candles, out, i)
    {
      AtrStep(candles, i, period, tr, prev, seed);
      if prev.None? {
        seed := seed + tr[i];
        if i == period - 1 {
          prev := Some(seed / period as real);
          out := out[i := prev];
        }
      } else {
        prev := Some(Blend(prev.value, tr[i], period as real));
        out := out[i := prev];
      }
      assert prev == AtrOf(period)(candles[..i + 1]);
      i := i + 1;
    }
  }

  /** What the loop's state becomes at bar i. */
  lemma AtrStep(candles: seq<Candle>, i: nat, n: int, tr: seq<real>, prev: Option<real>, seed: real)
    requires i < |candles| && tr == TrueRanges(candles) && prev == AtrLast(candles[..i], n)
    requires prev.None? ==> seed == Sum(tr[..i])
    ensures prev.None? ==> Sum(tr[..i + 1]) == seed + tr[i]
    ensures AtrLast(candles[..i + 1], n)
            == if prev.Some? then Some(Blend(prev.value, tr[i], n as real))
               else if i == n - 1 then Some((seed + tr[i]) / n as real)
               else None
  {
    TrueRangesPrefix(candles, i);
    TrueRangesPrefix(candles, i + 1);
    assert tr[..i + 1][..i] == tr[..i];
  }

  /** The atr never leaves the range of the true ranges seen so far. */
  lemma AtrWithin(p: seq<Candle>, n: nat, lo: real, hi: real)
    requires 1 <= n <= |p| && Within(TrueRanges(p), lo, hi)
    ensures AtrLast(p, n).Some? && lo <= AtrLast(p, n).value <= hi
  {
    WilderWithin(TrueRanges(p), n, lo, hi);
  }
}
