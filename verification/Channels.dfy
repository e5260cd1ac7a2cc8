/** highestHigh, lowestLow and donchianChannel of packages/indicators/src/series.ts: the range of the previous
    values, the current one excluded. */
module Channels {
  import opened Wrappers
  import opened Series

  function Highest(w: seq<real>): (m: real)
    requires w != []
    ensures m in w && forall x | x in w :: x <= m
  {
    if |w| == 1 then w[0]
    else
      var m, x := Highest(w[..|w| - 1]), w[|w| - 1];
      assert w == w[..|w| - 1] + [x];
      if x > m then x else m
  }

  function Lowest(w: seq<real>): (m: real)
    requires w != []
    ensures m in w && forall x | x in w :: m <= x
  {
    if |w| == 1 then w[0]
    else
      var m, x := Lowest(w[..|w| - 1]), w[|w| - 1];
      assert w == w[..|w| - 1] + [x];
      if x < m then x else m
  }

  /** The n values before the last one. */
  function Prior(p: seq<real>, n: nat): (w: seq<real>)
    requires n < |p|
    ensures |w| == n
  {
    p[|p| - 1 - n..|p| - 1]
  }

  /** A period below one compares nothing and leaves the loop's start value. */
  function HighLast(p: seq<real>, n: int): Option<Number> {
    if n < 1 then Some(NegativeInfinity) else if |p| <= n then None else Some(Finite(Highest(Prior(p, n))))
  }

  function LowLast(p: seq<real>, n: int): Option<Number> {
    if n < 1 then Some(PositiveInfinity) else if |p| <= n then None else Some(Finite(Lowest(Prior(p, n))))
  }

  function HighOf(n: int): seq<real> -> Option<Number> {
    p => HighLast(p, n)
  }

  function LowOf(n: int): seq<real> -> Option<Number> {
    p => LowLast(p, n)
  }

  lemma PriorAt(values: seq<real>, i: nat, n: nat)
    requires n <= i < |values|
    ensures Prior(values[..i + 1], n) == values[i - n..i]
  {
  }

  /** The inner loop. The source starts from -Infinity, which the first value replaces. */
  method MaxOf(values: seq<real>, from: nat, to: nat) returns (max: real)
    requires from < to <= |values|
    ensures max == Highest(values[from..to])
  {
    max := values[from];
    var j := from + 1;
    while j < to
      invariant from < j <= to
      invariant max == Highest(values[from..j])
    {
      assert values[from..j + 1][..j - from] == values[from..j];
      max := if values[j] > max then values[j] else max;
      j := j + 1;
    }
  }

  method HighestHigh(values: seq<real>, period: int) returns (out: seq<Option<Number>>)
    ensures Causal(HighOf(period), values, out)
  {
    out := Nulls(|values|);
    // Below zero the source's first stores are not array elements.
    var i := if period < 0 then 0 else period;
    while i < |values|
      invariant 0 <= i && period <= i && |out| == |values|
      invariant forall j | 0 <= j < i && j < |values| :: out[j] == HighLast(values[..j + 1], period)
      invariant forall j | i <= j < |values| :: out[j].None?
    {
      if period < 1 {
        out := out[i := Some(NegativeInfinity)];
      } else {
        var max := MaxOf(values, i - period, i);
        PriorAt(values, i, period);
        out := out[i := Some(Finite(max))];
      }
      i := i + 1;
    }
  }

  /** The inner loop. The source starts from Infinity, which the first value replaces. */
  method MinOf(values: seq<real>, from: nat, to: nat) returns (min: real)
    requires from < to <= |values|
    ensures min == Lowest(values[from..to])
  {
    min := values[from];
    var j := from + 1;
    while j < to
      invariant from < j <= to
      invariant min == Lowest(values[from..j])
    {
      assert values[from..j + 1][..j - from] == values[from..j];
      min := if values[j] < min then values[j] else min;
      j := j + 1;
    }
  }

  method LowestLow(values: seq<real>, period: int) returns (out: seq<Option<Number>>)
    ensures Causal(LowOf(period), values, out)
  {
    out := Nulls(|values|);
    // Below zero the source's first stores are not array elements.
    var i := if period < 0 then 0 else period;
    while i < |values|
      invariant 0 <= i && period <= i && |out| == |values|
      invariant forall j | 0 <= j < i && j < |values| :: out[j] == LowLast(values[..j + 1], period)
      invariant forall j | i <= j < |values| :: out[j].None?
    {
      if period < 1 {
        out := out[i := Some(PositiveInfinity)];
      } else {
        var min := MinOf(values, i - period, i);
        PriorAt(values, i, period);
        out := out[i := Some(Finite(min))];
      }
      i := i + 1;
    }
  }

  datatype Channel = Channel(upper: Number, lower: Number, middle: Number)

  /** The mean of two numbers in floating point. */
  function Midpoint(u: Number, l: Number): Number {
    if u.Finite? && l.Finite? then Finite((u.value + l.value) / 2.0)
    else if u.NotANumber? || l.NotANumber? then NotANumber
    else if u.Finite? then l
    else if l.Finite? || u == l then u
    else NotANumber
  }

  function ChannelOf(u: Option<Number>, l: Option<Number>): Option<Channel> {
    if u.Some? && l.Some? then Some(Channel(u.value, l.value, Midpoint(u.value, l.value))) else None
  }

  /** The lower series may be shorter; what it lacks reads as undefined. */
  function LowAt(lows: seq<real>, i: nat, n: int): Option<Number> {
    if i < |lows| then LowLast(lows[..i + 1], n) else None
  }

  method DonchianChannel(highs: seq<real>, lows: seq<real>, period: int) returns (out: seq<Option<Channel>>)
    ensures |out| == |highs|
    ensures forall i | 0 <= i < |highs| ::
      out[i] == ChannelOf(HighLast(highs[..i + 1], period), LowAt(lows, i, period))
  {
    var hh := HighestHigh(highs, period);
    var ll := LowestLow(lows, period);
    out := seq(|highs|, i requires 0 <= i < |highs| => ChannelOf(hh[i], if i < |ll| then ll[i] else None));
    forall i | 0 <= i < |highs|
      ensures out[i] == ChannelOf(HighLast(highs[..i + 1], period), LowAt(lows, i, period))
    {
      assert hh[i] == HighOf(period)(highs[..i + 1]);
      assert i < |ll| ==> ll[i] == LowOf(period)(lows[..i + 1]);
    }
  }

  /** A close above the channel is above every one of the previous highs, and conversely: the current bar cannot
      raise its own hurdle. */
  lemma BreakoutIsGenuine(highs: seq<real>, i: nat, n: nat, close: real, wall: Option<Number>)
    requires 1 <= n <= i < |highs| && wall == HighLast(highs[..i + 1], n)
    ensures wall.Some? && wall.value.Finite?
    ensures close > wall.value.value <==> forall k | i - n <= k < i :: close > highs[k]
  {
    PriorAt(highs, i, n);
    var w := highs[i - n..i];
    var m := Highest(w);
    if close > m {
      forall k | i - n <= k < i ensures close > highs[k] {
        assert w[k - (i - n)] in w;
      }
    } else {
      var j :| 0 <= j < |w| && w[j] == m;
      assert highs[i - n + j] == m;
    }
  }

  /** A close below the channel is below every one of the previous lows, and conversely. */
  lemma BreakdownIsGenuine(lows: seq<real>, i: nat, n: nat, close: real, wall: Option<Number>)
    requires 1 <= n <= i < |lows| && wall == LowAt(lows, i, n)
    ensures wall.Some? && wall.value.Finite?
    ensures close < wall.value.value <==> forall k | i - n <= k < i :: close < lows[k]
  {
    PriorAt(lows, i, n);
    var w := lows[i - n..i];
    var m := Lowest(w);
    if close < m {
      forall k | i - n <= k < i ensures close < lows[k] {
        assert w[k - (i - n)] in w;
      }
    } else {
      var j :| 0 <= j < |w| && w[j] == m;
      assert lows[i - n + j] == m;
    }
  }

  /** The channel's walls are in order when every low is at most its high, with the middle between them. */
  lemma ChannelOrdered(highs: seq<real>, lows: seq<real>, i: nat, n: nat, c: Option<Channel>)
    requires 1 <= n <= i < |highs| == |lows| && forall k | 0 <= k < |highs| :: lows[k] <= highs[k]
    requires c == ChannelOf(HighLast(highs[..i + 1], n), LowAt(lows, i, n))
    ensures c.Some? && c.value.lower.Finite? && c.value.middle.Finite? && c.value.upper.Finite?
    ensures c.value.lower.value <= c.value.middle.value <= c.value.upper.value
    ensures c.value.upper.value - c.value.middle.value == c.value.middle.value - c.value.lower.value
  {
    PriorAt(highs, i, n);
    PriorAt(lows, i, n);
    var h, l := highs[i - n..i], lows[i - n..i];
    assert l[0] in l && h[0] in h;
    assert l[0] == lows[i - n] <= highs[i - n] == h[0];
  }
}
