/** The one-pass summary of a list of trade results: summarize in
 apps/worker/scripts/investigateSep21SqueezeLosses.ts. */
module Drawdown {
  import opened Wrappers
  import opened Series

  /** The equity after the first k results, from zero. */
  function Equity(pnls: seq<real>, k: nat): real
    requires k <= |pnls|
  {
    Sum(pnls[..k])
  }

  lemma EquityStep(pnls: seq<real>, k: nat)
    requires k < |pnls|
    ensures Equity(pnls, k + 1) == Equity(pnls, k) + pnls[k]
  {
    assert pnls[..k + 1][..k] == pnls[..k];
  }

  /** A fall from the equity after i results to the equity after j. */
  function Fall(pnls: seq<real>, i: nat, j: nat): real
    requires i <= j <= |pnls|
  {
    Equity(pnls, i) - Equity(pnls, j)
  }

  function Wins(pnls: seq<real>): seq<real> {
    if pnls == [] then []
    else Wins(pnls[..|pnls| - 1]) + if pnls[|pnls| - 1] > 0.0 then [pnls[|pnls| - 1]] else []
  }

  function Losses(pnls: seq<real>): seq<real> {
    if pnls == [] then []
    else Losses(pnls[..|pnls| - 1]) + if pnls[|pnls| - 1] <= 0.0 then [pnls[|pnls| - 1]] else []
  }

  lemma {:induction false} WinsAndLossesAdd(pnls: seq<real>)
    ensures Sum(Wins(pnls)) + Sum(Losses(pnls)) == Sum(pnls)
  {
    if pnls != [] {
      var init, x := pnls[..|pnls| - 1], pnls[|pnls| - 1];
      WinsAndLossesAdd(init);
      SumPush(Wins(init), x);
      SumPush(Losses(init), x);
      assert Wins(pnls) == if x > 0.0 then Wins(init) + [x] else Wins(init);
      assert Losses(pnls) == if x > 0.0 then Losses(init) else Losses(init) + [x];
    }
  }

  lemma {:induction false} WinsAndLossesPartition(pnls: seq<real>)
    ensures multiset(Wins(pnls)) + multiset(Losses(pnls)) == multiset(pnls)
  {
    if pnls != [] {
      var init, x := pnls[..|pnls| - 1], pnls[|pnls| - 1];
      WinsAndLossesPartition(init);
      assert pnls == init + [x];
    }
  }

  lemma {:induction false} WinsAndLossesSigns(pnls: seq<real>)
    ensures forall x | x in Wins(pnls) :: x > 0.0
    ensures forall x | x in Losses(pnls) :: x <= 0.0
  {
    if pnls != [] {
      WinsAndLossesSigns(pnls[..|pnls| - 1]);
    }
  }

  /** Every trade is a win or a loss, none is counted twice, and the results add up. */
  lemma WinsAndLosses(pnls: seq<real>)
    ensures multiset(Wins(pnls)) + multiset(Losses(pnls)) == multiset(pnls)
    ensures |Wins(pnls)| + |Losses(pnls)| == |pnls|
    ensures Sum(Wins(pnls)) + Sum(Losses(pnls)) == Sum(pnls)
    ensures forall x | x in Wins(pnls) :: x > 0.0
    ensures forall x | x in Losses(pnls) :: x <= 0.0
  {
    WinsAndLossesSigns(pnls);
    WinsAndLossesPartition(pnls);
    WinsAndLossesAdd(pnls);
    assert |multiset(Wins(pnls))| + |multiset(Losses(pnls))| == |multiset(pnls)|;
  }

  datatype Summary = Summary(
    trades: nat,
    net: real,
    wins: nat,
    losses: nat,
    winRate: Option<real>,
    expectancy: Option<real>,
    maxDrawdown: real,
    avgWin: Option<real>,
    avgLoss: Option<real>)

  /** d is the largest fall between any two moments of the run. */
  ghost predicate LargestFall(pnls: seq<real>, d: real) {
    && (forall i, j | 0 <= i <= j <= |pnls| :: Fall(pnls, i, j) <= d)
    && (exists i, j | 0 <= i <= j <= |pnls| :: Fall(pnls, i, j) == d)
  }

  ghost predicate PeakOf(pnls: seq<real>, k: nat, peak: real)
    requires k <= |pnls|
  {
    && (forall i | 0 <= i <= k :: Equity(pnls, i) <= peak)
    && (exists i | 0 <= i <= k :: Equity(pnls, i) == peak)
  }

  /** The loop over the results: running equity, its peak, and the deepest fall from a peak. */
  method MaxDrawdown(pnls: seq<real>) returns (maxDd: real)
    ensures LargestFall(pnls, maxDd)
  {
    var equity, peak := 0.0, 0.0;
    maxDd := 0.0;
    assert Equity(pnls, 0) == 0.0 && Fall(pnls, 0, 0) == 0.0;
    ghost var from, to := 0, 0;
    var k := 0;
    while k < |pnls|
      invariant 0 <= k <= |pnls|
      invariant equity == Equity(pnls, k) && PeakOf(pnls, k, peak)
      invariant forall i, j | 0 <= i <= j <= k :: Fall(pnls, i, j) <= maxDd
      invariant 0 <= from <= to <= k && Fall(pnls, from, to) == maxDd
    {
      EquityStep(pnls, k);
      equity := equity + pnls[k];
      if equity > peak {
        peak := equity;
      }
      k := k + 1;
      assert Equity(pnls, k) == equity;
      if peak - equity > maxDd {
        maxDd := peak - equity;
        from :| 0 <= from <= k && Equity(pnls, from) == peak;
        to := k;
      }
    }
  }

  function Mean(xs: seq<real>): Option<real> {
    if xs == [] then None else Some(Sum(xs) / |xs| as real)
  }

  method Summarize(pnls: seq<real>) returns (s: Summary)
    ensures s.trades == |pnls| == s.wins + s.losses && s.net == Sum(pnls)
    ensures LargestFall(pnls, s.maxDrawdown)
    ensures s.winRate == if pnls == [] then None else Some(s.wins as real / |pnls| as real)
    ensures s.expectancy == Mean(pnls) && s.avgWin == Mean(Wins(pnls)) && s.avgLoss == Mean(Losses(pnls))
    ensures s.wins == |Wins(pnls)|
  {
    WinsAndLosses(pnls);
    if pnls == [] {
      assert Fall(pnls, 0, 0) == 0.0;
      return Summary(0, 0.0, 0, 0, None, None, 0.0, None, None);
    }
    var wins, losses := Wins(pnls), Losses(pnls);
    var maxDd := MaxDrawdown(pnls);
    return Summary(|pnls|, Sum(pnls), |wins|, |losses|, Some(|wins| as real / |pnls| as real), Mean(pnls), maxDd,
                   Mean(wins), Mean(losses));
  }

  /** An average times the number of results is their sum, and there is one unless there is nothing to average. */
  lemma MeanIsAverage(xs: seq<real>, d: real)
    requires d == |xs| as real
    ensures Mean(xs).Some? <==> xs != []
    ensures xs != [] ==> Mean(xs).value * d == Sum(xs)
  {
  }
}
