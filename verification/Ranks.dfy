/** percentileRank and rollingMedian of packages/indicators/src/series.ts. */
module Ranks {
  import opened Wrappers
  import opened Series

  /** How many values of w are below x. */
  function Below(w: seq<real>, x: real): (n: nat)
    ensures n <= |w|
  {
    if w == [] then 0 else Below(w[..|w| - 1], x) + if w[|w| - 1] < x then 1 else 0
  }

  /** How many values of w are above x. */
  function Above(w: seq<real>, x: real): (n: nat)
    ensures n <= |w|
  {
    if w == [] then 0 else Above(w[..|w| - 1], x) + if w[|w| - 1] > x then 1 else 0
  }

  // ----- percentile rank -----

  function Percent(below: nat, n: nat): real
    requires n >= 1
  {
    below as real / (if n == 1 then 1 else n - 1) as real * 100.0
  }

  /** A period below one counts nothing. */
  function RankLast(p: seq<real>, n: int): Option<real> {
    if n < 1 then Some(0.0) else if |p| < n then None else Some(Percent(Below(p[|p| - n..], p[|p| - 1]), n))
  }

  function RankOf(n: int): seq<real> -> Option<real> {
    p => RankLast(p, n)
  }

  method PercentileRank(values: seq<real>, period: int) returns (out: seq<Option<real>>)
    ensures Causal(RankOf(period), values, out)
  {
    if period < 1 {
      return seq(|values|, _ => Some(0.0));
    }
    out := Nulls(|values|);
    var i := period - 1;
    while i < |values|
      invariant period - 1 <= i && |out| == |values|
      invariant forall j | 0 <= j < i && j < |values| :: out[j] == RankLast(values[..j + 1], period)
      invariant forall j | i <= j < |values| :: out[j].None?
    {
      var current := values[i];
      var below := 0;
      var j := i - period + 1;
      while j <= i
        invariant i - period + 1 <= j <= i + 1
        invariant below == Below(values[i - period + 1..j], current)
      {
        assert values[i - period + 1..j + 1][..j - (i - period + 1)] == values[i - period + 1..j];
        if values[j] < current {
          below := below + 1;
        }
        j := j + 1;
      }
      assert values[..i + 1][i + 1 - period..] == values[i - period + 1..i + 1];
      out := out[i := Some(Percent(below, period))];
      i := i + 1;
    }
  }

  lemma {:induction false} BelowNone(w: seq<real>, x: real)
    ensures Below(w, x) == 0 <==> forall k | 0 <= k < |w| :: w[k] >= x
  {
    if w != [] {
      BelowNone(w[..|w| - 1], x);
      assert w == w[..|w| - 1] + [w[|w| - 1]];
    }
  }

  lemma {:induction false} BelowAll(w: seq<real>, x: real)
    ensures Below(w, x) == |w| <==> forall k | 0 <= k < |w| :: w[k] < x
  {
    if w != [] {
      BelowAll(w[..|w| - 1], x);
      assert w == w[..|w| - 1] + [w[|w| - 1]];
    }
  }

  lemma PercentWithin(b: nat, n: nat)
    requires n >= 2 && b <= n - 1
    ensures 0.0 <= Percent(b, n) <= 100.0
    ensures Percent(b, n) == 0.0 <==> b == 0
    ensures Percent(b, n) == 100.0 <==> b == n - 1
  {
    var x, d := b as real, (n - 1) as real;
    var q := x / d;
    assert q * d == x;
    QuotientWithin(x, d, 0.0, 1.0);
    if q == 1.0 {
      assert x == d;
    }
  }

  /** The rank lies between 0 and 100; it is 0 exactly when the current value is a minimum of its window and, for a
      window of two or more, 100 exactly when it is the strict maximum. */
  lemma RankExtremes(p: seq<real>, n: nat, w: seq<real>, x: real, r: real)
    requires 2 <= n <= |p| && w == p[|p| - n..|p| - 1] && x == p[|p| - 1] && RankLast(p, n) == Some(r)
    ensures 0.0 <= r <= 100.0
    ensures r == 0.0 <==> forall k | 0 <= k < |w| :: w[k] >= x
    ensures r == 100.0 <==> forall k | 0 <= k < |w| :: w[k] < x
  {
    assert p[|p| - n..][..n - 1] == w;
    BelowNone(w, x);
    BelowAll(w, x);
    PercentWithin(Below(w, x), n);
  }

  // ----- median -----

  predicate Ascending(w: seq<real>) {
    forall i, j | 0 <= i < j < |w| :: w[i] <= w[j]
  }

  /** x put in its place in an ascending sequence. */
  function Insert(w: seq<real>, x: real): (r: seq<real>)
    ensures |r| == |w| + 1
  {
    if w == [] || w[|w| - 1] <= x then w + [x] else Insert(w[..|w| - 1], x) + [w[|w| - 1]]
  }

  /** The numeric sort of a window. */
  function Sort(w: seq<real>): (r: seq<real>)
    ensures |r| == |w|
  {
    if w == [] then [] else Insert(Sort(w[..|w| - 1]), w[|w| - 1])
  }

  lemma {:induction false} InsertBounded(w: seq<real>, x: real, hi: real)
    requires x <= hi && forall i | 0 <= i < |w| :: w[i] <= hi
    ensures forall i | 0 <= i < |w| + 1 :: Insert(w, x)[i] <= hi
  {
    if w != [] && w[|w| - 1] > x {
      InsertBounded(w[..|w| - 1], x, hi);
    }
  }

  lemma {:induction false} InsertAscending(w: seq<real>, x: real)
    requires Ascending(w)
    ensures Ascending(Insert(w, x))
  {
    if w != [] && w[|w| - 1] > x {
      var init, last := w[..|w| - 1], w[|w| - 1];
      InsertAscending(init, x);
      InsertBounded(init, x, last);
      AscendingPush(Insert(init, x), last);
    }
  }

  lemma AscendingPush(w: seq<real>, x: real)
    requires Ascending(w) && forall i | 0 <= i < |w| :: w[i] <= x
    ensures Ascending(w + [x])
  {
  }

  lemma {:induction false} SortAscending(w: seq<real>)
    ensures Ascending(Sort(w))
  {
    if w != [] {
      SortAscending(w[..|w| - 1]);
      InsertAscending(Sort(w[..|w| - 1]), w[|w| - 1]);
    }
  }

  lemma {:induction false} InsertAdds(w: seq<real>, x: real)
    ensures multiset(Insert(w, x)) == multiset(w) + multiset{x}
  {
    if w != [] && w[|w| - 1] > x {
      InsertAdds(w[..|w| - 1], x);
      assert w == w[..|w| - 1] + [w[|w| - 1]];
    }
  }

  /** Sorting is a permutation into ascending order. */
  lemma {:induction false} SortPermutes(w: seq<real>)
    ensures multiset(Sort(w)) == multiset(w)
  {
    if w != [] {
      SortPermutes(w[..|w| - 1]);
      InsertAdds(Sort(w[..|w| - 1]), w[|w| - 1]);
      assert w == w[..|w| - 1] + [w[|w| - 1]];
    }
  }

  function Median(s: seq<real>): real
    requires s != []
  {
    var mid := |s| / 2;
    if |s| % 2 == 0 then (s[mid - 1] + s[mid]) / 2.0 else s[mid]
  }

  /** A period below one averages nothing. */
  function MedianLast(p: seq<real>, n: int): Option<Number> {
    if n < 1 then Some(NotANumber) else if |p| < n then None else Some(Finite(Median(Sort(p[|p| - n..]))))
  }

  function MedianOf(n: int): seq<real> -> Option<Number> {
    p => MedianLast(p, n)
  }

  lemma WindowAt(values: seq<real>, i: nat, n: nat)
    requires 1 <= n <= i + 1 && i < |values|
    ensures values[..i + 1][i + 1 - n..] == values[i - n + 1..i + 1]
  {
  }

  method RollingMedian(values: seq<real>, period: int) returns (out: seq<Option<Number>>)
    ensures Causal(MedianOf(period), values, out)
  {
    if period < 1 {
      return seq(|values|, _ => Some(NotANumber));
    }
    out := Nulls(|values|);
    var i := period - 1;
    while i < |values|
      invariant period - 1 <= i && |out| == |values|
      invariant forall j | 0 <= j < i && j < |values| :: out[j] == MedianLast(values[..j + 1], period)
      invariant forall j | i <= j < |values| :: out[j].None?
    {
      WindowAt(values, i, period);
      var window := Sort(values[i - period + 1..i + 1]);
      out := out[i := Some(Finite(Median(window)))];
      i := i + 1;
    }
  }

  lemma {:induction false} BelowUpTo(w: seq<real>, x: real, k: nat)
    requires k <= |w| && forall i | k <= i < |w| :: w[i] >= x
    ensures Below(w, x) <= k
    decreases |w|
  {
    if |w| > k {
      BelowUpTo(w[..|w| - 1], x, k);
    }
  }

  lemma {:induction false} AboveUpTo(w: seq<real>, x: real, k: nat)
    requires k <= |w| && forall i | 0 <= i < |w| - k :: w[i] <= x
    ensures Above(w, x) <= k
    decreases |w|
  {
    if w != [] {
      if k > 0 {
        AboveUpTo(w[..|w| - 1], x, k - 1);
      } else {
        AboveUpTo(w[..|w| - 1], x, 0);
      }
    }
  }

  /** In an ascending sequence at most half of the values lie on either side of the median. */
  lemma SortedBalance(s: seq<real>, x: real)
    requires s != [] && Ascending(s) && x == Median(s)
    ensures 2 * Below(s, x) <= |s| && 2 * Above(s, x) <= |s|
  {
    var mid := |s| / 2;
    MedianSplits(s, x, mid);
    BelowUpTo(s, x, mid);
    AboveUpTo(s, x, mid);
  }

  lemma MedianSplits(s: seq<real>, x: real, mid: nat)
    requires s != [] && Ascending(s) && x == Median(s) && mid == |s| / 2
    ensures forall i | mid <= i < |s| :: s[i] >= x
    ensures forall i | 0 <= i < |s| - mid :: s[i] <= x
  {
    if |s| % 2 == 0 {
      assert s[mid - 1] <= s[mid];
    }
  }

  lemma CountsPush(w: seq<real>, v: real, x: real)
    ensures Below(w + [v], x) == Below(w, x) + (if v < x then 1 else 0)
    ensures Above(w + [v], x) == Above(w, x) + (if v > x then 1 else 0)
  {
    assert (w + [v])[..|w|] == w;
  }

  lemma {:induction false} CountsOfInsert(w: seq<real>, v: real, x: real)
    ensures Below(Insert(w, v), x) == Below(w, x) + (if v < x then 1 else 0)
    ensures Above(Insert(w, v), x) == Above(w, x) + (if v > x then 1 else 0)
  {
    if w == [] || w[|w| - 1] <= v {
      CountsPush(w, v, x);
    } else {
      CountsOfInsert(w[..|w| - 1], v, x);
      CountsPush(Insert(w[..|w| - 1], v), w[|w| - 1], x);
    }
  }

  lemma {:induction false} CountsOfSort(w: seq<real>, x: real)
    ensures Below(Sort(w), x) == Below(w, x) && Above(Sort(w), x) == Above(w, x)
  {
    if w != [] {
      CountsOfSort(w[..|w| - 1], x);
      CountsOfInsert(Sort(w[..|w| - 1]), w[|w| - 1], x);
    }
  }

  /** At most half of the window lies below the rolling median and at most half above it. */
  lemma MedianBalances(p: seq<real>, n: nat, m: real)
    requires 1 <= n <= |p| && MedianLast(p, n) == Some(Finite(m))
    ensures 2 * Below(p[|p| - n..], m) <= n && 2 * Above(p[|p| - n..], m) <= n
  {
    var w := p[|p| - n..];
    SortAscending(w);
    SortedBalance(Sort(w), m);
    CountsOfSort(w, m);
  }

  // ----- what they count -----

  /** The indexes of the window's values below x. */
  function IndexesBelow(w: seq<real>, x: real): set<int> {
    set k | 0 <= k < |w| && w[k] < x
  }

  lemma IndexesPush(w: seq<real>, init: seq<real>, last: int, x: real)
    requires w != [] && init == w[..|w| - 1] && last == |w| - 1
    ensures |IndexesBelow(w, x)| == |IndexesBelow(init, x)| + (if w[last] < x then 1 else 0)
  {
    if w[last] < x {
      assert IndexesBelow(w, x) == IndexesBelow(init, x) + {last};
    } else {
      assert IndexesBelow(w, x) == IndexesBelow(init, x);
    }
  }

  lemma {:induction false} BelowIsCount(w: seq<real>, x: real)
    ensures Below(w, x) == |IndexesBelow(w, x)|
  {
    if w != [] {
      BelowIsCount(w[..|w| - 1], x);
      IndexesPush(w, w[..|w| - 1], |w| - 1, x);
    }
  }

  lemma PercentTimes(b: nat, n: nat, d: real, r: real)
    requires n >= 2 && d == (n - 1) as real && r == Percent(b, n)
    ensures r * d == 100.0 * b as real
  {
    var q := b as real / d;
    assert q * d == b as real;
    assert (q * 100.0) * d == 100.0 * (q * d);
  }

  /** The rank is the share, in percent of the other values of the window, of those below the current one. */
  lemma RankIsShare(p: seq<real>, n: nat, d: real) returns (r: real)
    requires 2 <= n <= |p| && d == (n - 1) as real
    ensures RankLast(p, n) == Some(r)
    ensures r * d == 100.0 * |IndexesBelow(p[|p| - n..], p[|p| - 1])| as real
  {
    r := RankLast(p, n).value;
    BelowIsCount(p[|p| - n..], p[|p| - 1]);
    PercentTimes(Below(p[|p| - n..], p[|p| - 1]), n, d, r);
  }

  lemma MiddlesBalance(s: seq<real>, x: real, y: real)
    requires s != [] && Ascending(s) && x == s[(|s| - 1) / 2] && y == s[|s| / 2]
    ensures 2 * Below(s, x) < |s| && 2 * Above(s, x) <= |s|
    ensures 2 * Below(s, y) <= |s| && 2 * Above(s, y) < |s|
    ensures x <= y && 2.0 * Median(s) == x + y
  {
    BelowUpTo(s, x, (|s| - 1) / 2);
    AboveUpTo(s, x, |s| - 1 - (|s| - 1) / 2);
    BelowUpTo(s, y, |s| / 2);
    AboveUpTo(s, y, |s| - 1 - |s| / 2);
  }

  lemma SortedMembers(w: seq<real>, k: nat)
    requires k < |w|
    ensures Sort(w)[k] in w
  {
    SortPermutes(w);
    assert Sort(w)[k] in multiset(Sort(w));
  }

  /** The median is halfway between the window's lower and upper middle: x is the lower one, with fewer than half of the
      values below it and at most half above, y the upper one, and for an odd period they are equal. */
  lemma MedianIsHalfway(p: seq<real>, n: nat, w: seq<real>) returns (m: real, x: real, y: real)
    requires 1 <= n <= |p| && w == p[|p| - n..]
    ensures MedianLast(p, n) == Some(Finite(m))
    ensures x in w && y in w && x <= y && 2.0 * m == x + y
    ensures 2 * Below(w, x) < n && 2 * Above(w, x) <= n
    ensures 2 * Below(w, y) <= n && 2 * Above(w, y) < n
    ensures n % 2 == 1 ==> x == y
  {
    var s := Sort(w);
    SortAscending(w);
    m, x, y := Median(s), s[(n - 1) / 2], s[n / 2];
    MiddlesBalance(s, x, y);
    SortedMembers(w, (n - 1) / 2);
    SortedMembers(w, n / 2);
    CountsOfSort(w, x);
    CountsOfSort(w, y);
  }
}
